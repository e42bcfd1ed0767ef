/** In which order a conversation holds the results of each turn, over every run. */
module ContextOrder {
  import opened Sequences
  import opened Text
  import opened Messages
  import opened TaskState
  import opened TurnUnits
  import opened Compaction
  import opened CompactionShape
  import opened CompactionOrder
  import opened ContextEngine
  import opened ContextRuns

  // ----- One block -----

  /** The results of a turn are in the order of its calls, or in the reverse order. */
  predicate Ordered(b: Block, reversed: bool)
    requires ValidBlock(b)
  {
    b.Turn? ==>
      var ids := CallIds(b.assistant.toolCalls);
      ResultIds(b.results) == if reversed then Reverse(ids) else ids
  }

  lemma {:induction false} ResultIdsReversed(results: seq<Message>)
    requires forall i :: 0 <= i < |results| ==> results[i].Tool?
    ensures ResultIds(Reverse(results)) == Reverse(ResultIds(results))
  {
  }

  lemma {:induction false} FlipOrdered(b: Block, reversed: bool)
    requires ValidBlock(b) && Ordered(b, reversed)
    ensures ValidBlock(Flip(b)) && Ordered(Flip(b), !reversed)
  {
    FlipValid(b);
    if b.Turn? {
      ResultIdsReversed(b.results);
      ReverseReverse(CallIds(b.assistant.toolCalls));
    }
  }

  /** The same calls, answered in the same order. */
  predicate Alike(x: Block, y: Block)
    requires ValidBlock(x) && ValidBlock(y)
  {
    && (x.Turn? <==> y.Turn?)
    && (x.Turn? ==> x.assistant.toolCalls == y.assistant.toolCalls && ResultIds(x.results) == ResultIds(y.results))
  }

  lemma {:induction false} SimilarBlock(x: Block, ms: seq<Message>) returns (y: Block)
    requires ValidBlock(x) && AllSimilar(BlockMessages(x), ms)
    ensures ValidBlock(y) && BlockMessages(y) == ms && Alike(x, y)
  {
    match x {
      case Lone(m) => y := Lone(ms[0]);
      case Turn(a, results) =>
        y := Turn(ms[0], ms[1..]);
        assert AllSimilar(results, ms[1..]) by {
          assert results == BlockMessages(x)[1..];
        }
        ResultIdsSimilar(results, ms[1..]);
    }
  }

  // ----- A list of blocks -----

  predicate Odd(n: nat) { n % 2 == 1 }

  /** A block recorded after `birth` compactions, seen after `c`: its results are in the order of its
      calls if it has been through an even number of them, and in the reverse order otherwise. */
  predicate Aged(b: Block, birth: nat, c: nat)
  {
    ValidBlock(b) && birth <= c && Ordered(b, Odd(c - birth))
  }

  predicate AllOrdered(bs: seq<Block>, births: seq<nat>, c: nat)
  {
    |births| == |bs| && forall i :: 0 <= i < |bs| ==> Aged(bs[i], births[i], c)
  }

  lemma {:induction false} AgedFlip(b: Block, birth: nat, c: nat)
    requires Aged(b, birth, c)
    ensures Aged(Flip(b), birth, c + 1)
  {
    var reversed := Odd(c - birth);
    FlipOrdered(b, reversed);
    OddNext(c - birth);
    AgedWhen(Flip(b), birth, c + 1, !reversed);
  }

  lemma {:induction false} AgedWhen(b: Block, birth: nat, c: nat, reversed: bool)
    requires ValidBlock(b) && birth <= c && Ordered(b, reversed) && reversed == Odd(c - birth)
    ensures Aged(b, birth, c)
  {
  }

  lemma {:induction false} OddNext(n: nat)
    ensures Odd(n + 1) <==> !Odd(n)
  {
  }

  lemma {:induction false} AllOrderedConcat(a: seq<Block>, x: seq<nat>, b: seq<Block>, y: seq<nat>, c: nat)
    requires AllOrdered(a, x, c) && AllOrdered(b, y, c)
    ensures AllOrdered(a + b, x + y, c)
  {
    forall i | 0 <= i < |a + b| ensures Aged((a + b)[i], (x + y)[i], c) {
      if i >= |a| {
        assert (a + b)[i] == b[i - |a|] && (x + y)[i] == y[i - |a|];
      }
    }
  }

  lemma {:induction false} AllOrderedPrefix(bs: seq<Block>, births: seq<nat>, c: nat, k: nat)
    requires AllOrdered(bs, births, c) && k <= |bs|
    ensures AllOrdered(bs[..k], births[..k], c)
  {
  }

  lemma {:induction false} AllOrderedFlip(bs: seq<Block>, births: seq<nat>, c: nat)
    requires AllOrdered(bs, births, c)
    ensures AllOrdered(FlipAll(bs), births, c + 1)
  {
    forall i | 0 <= i < |bs| ensures Aged(Flip(bs[i]), births[i], c + 1) {
      AgedFlip(bs[i], births[i], c);
    }
  }

  lemma {:induction false} LoneOrdered(m: Message, c: nat, birth: nat)
    requires (m.User? || m.System?) && birth <= c
    ensures AllOrdered([Lone(m)], [birth], c)
  {
  }

  lemma {:induction false} AgedAlike(x: Block, y: Block, birth: nat, c: nat)
    requires Aged(x, birth, c) && ValidBlock(y) && Alike(x, y)
    ensures Aged(y, birth, c)
  {
  }

  lemma {:induction false} SimilarBlocks(bs: seq<Block>, births: seq<nat>, c: nat, ms: seq<Message>) returns (cs: seq<Block>)
    requires AllOrdered(bs, births, c) && AllSimilar(Transcript(bs), ms)
    ensures AllOrdered(cs, births, c) && Transcript(cs) == ms
    decreases |bs|
  {
    if bs == [] {
      cs := [];
    } else {
      TranscriptHead(bs);
      var n := |BlockMessages(bs[0])|;
      SimilarSplit(BlockMessages(bs[0]), Transcript(bs[1..]), ms);
      AllOrderedTail(bs, births, c);
      var head := SimilarBlock(bs[0], ms[..n]);
      AgedAlike(bs[0], head, births[0], c);
      var tail := SimilarBlocks(bs[1..], births[1..], c, ms[n..]);
      cs := [head] + tail;
      AllOrderedCons(head, births[0], tail, births[1..], c);
      assert births == [births[0]] + births[1..];
      HeadThenTail(head, tail, ms, n);
    }
  }

  lemma {:induction false} HeadThenTail(head: Block, tail: seq<Block>, ms: seq<Message>, n: nat)
    requires n <= |ms| && BlockMessages(head) == ms[..n] && Transcript(tail) == ms[n..]
    ensures Transcript([head] + tail) == ms
  {
    TranscriptConcat([head], tail);
    TranscriptOne(head);
    assert ms == ms[..n] + ms[n..];
  }

  lemma {:induction false} AllOrderedTail(bs: seq<Block>, births: seq<nat>, c: nat)
    requires bs != [] && AllOrdered(bs, births, c)
    ensures AllOrdered(bs[1..], births[1..], c) && Aged(bs[0], births[0], c)
  {
  }

  lemma {:induction false} AllOrderedCons(b: Block, birth: nat, bs: seq<Block>, births: seq<nat>, c: nat)
    requires Aged(b, birth, c) && AllOrdered(bs, births, c)
    ensures AllOrdered([b] + bs, [birth] + births, c) && ([b] + bs)[1..] == bs
  {
    AllOrderedConcat([b], [birth], bs, births, c);
  }

  // ----- What each step does -----

  function Repeated(c: nat, n: nat): (r: seq<nat>)
    ensures |r| == n && forall i :: 0 <= i < n ==> r[i] == c
  {
    seq(n, i => c)
  }

  /** Births after a compaction: the base is new, the kept units keep theirs, and so does the newest
      when it is all there is to fall back on. */
  function CompactedBirths(ms: seq<Message>, available: nat, births: seq<nat>, c: nat): seq<nat>
  {
    Repeated(c, |Base(ms)|) + births[..Min(|Kept(ms, available)|, |births|)]
    + (if Fallback(ms, available) == [] || births == [] then [] else [births[|births| - 1]])
  }

  lemma {:induction false} BaseOrdered(ms: seq<Message>, c: nat, birth: nat)
    requires birth <= c
    ensures AllOrdered(LoneBlocks(Base(ms)), Repeated(birth, |Base(ms)|), c)
  {
    BaseBlocksValid(ms);
  }

  lemma {:induction false} PartsOrdered(a: seq<Block>, x: seq<nat>, b: seq<Block>, y: seq<nat>, d: seq<Block>, z: seq<nat>, c: nat)
    requires AllOrdered(a, x, c) && AllOrdered(b, y, c) && AllOrdered(d, z, c)
    ensures AllOrdered(a + b + d, x + y + z, c)
  {
    AllOrderedConcat(a, x, b, y, c);
    AllOrderedConcat(a + b, x + y, d, z, c);
  }

  lemma {:induction false} LastOrdered(bs: seq<Block>, births: seq<nat>, c: nat)
    requires AllOrdered(bs, births, c) && bs != []
    ensures AllOrdered([Flip(bs[|bs| - 1])], [births[|births| - 1]], c + 1)
  {
    var last := |bs| - 1;
    AgedFlip(bs[last], births[last], c);
  }

  lemma {:induction false} LeftOrdered(bs: seq<Block>, births: seq<nat>, c: nat, available: nat)
    requires AllOrdered(bs, births, c) && |Kept(Transcript(bs), available)| <= |bs|
    ensures AllOrdered(BlocksLeft(bs, available), CompactedBirths(Transcript(bs), available, births, c), c + 1)
  {
    var ms := Transcript(bs);
    var k := |Kept(ms, available)|;
    AllOrderedFlip(bs, births, c);
    AllOrderedPrefix(FlipAll(bs), births, c + 1, k);
    BaseOrdered(ms, c + 1, c);
    var none := Fallback(ms, available) == [] || bs == [];
    if !none {
      LastOrdered(bs, births, c);
    }
    PartsOrdered(LoneBlocks(Base(ms)), Repeated(c, |Base(ms)|), FlipAll(bs)[..k], births[..k],
                 if none then [] else [Flip(bs[|bs| - 1])], if none then [] else [births[|births| - 1]], c + 1);
  }

  /** Every path through a compaction reverses the results of every turn it leaves. */
  lemma {:induction false} CompactionReverses(bs: seq<Block>, births: seq<nat>, c: nat, available: nat) returns (cs: seq<Block>)
    requires AllOrdered(bs, births, c)
    ensures Transcript(cs) == Compacted(Transcript(bs), available)
    ensures AllOrdered(cs, CompactedBirths(Transcript(bs), available, births, c), c + 1)
  {
    assert ValidBlocks(bs);
    CompactedBlocks(bs, available);
    LeftOrdered(bs, births, c, available);
    cs := SimilarBlocks(BlocksLeft(bs, available), CompactedBirths(Transcript(bs), available, births, c), c + 1,
                        Compacted(Transcript(bs), available));
  }

  function RefreshedBirths(ms: seq<Message>, births: seq<nat>, c: nat): seq<nat>
  {
    if ms != [] && IsProgress(ms[0]) then births else [c] + births
  }

  lemma {:induction false} RefreshOrdered(bs: seq<Block>, births: seq<nat>, c: nat, progress: Message) returns (cs: seq<Block>)
    requires AllOrdered(bs, births, c) && NoSystem(Transcript(bs)) && IsProgress(progress)
    ensures Transcript(cs) == Refreshed(Transcript(bs), progress)
    ensures AllOrdered(cs, RefreshedBirths(Transcript(bs), births, c), c)
  {
    var ms := Transcript(bs);
    if ms != [] && IsProgress(ms[0]) {
      assert bs != [];
      TranscriptHead(bs);
      assert bs[0] == Lone(ms[0]);
      AllOrderedTail(bs, births, c);
      cs := [Lone(progress)] + bs[1..];
      AllOrderedCons(Lone(progress), births[0], bs[1..], births[1..], c);
      assert births == [births[0]] + births[1..];
      TranscriptHead(cs);
      assert Refreshed(ms, progress) == [progress] + ms[1..];
    } else {
      cs := [Lone(progress)] + bs;
      AllOrderedCons(Lone(progress), c, bs, births, c);
      TranscriptHead(cs);
      assert Refreshed(ms, progress) == [progress] + ms;
    }
  }

  /** Births after a turn is recorded, before any compaction: the turn is as old as now. */
  function RecordedBirths(s: Snapshot, response: Response, results: seq<ToolResult>, births: seq<nat>): seq<nat>
  {
    RefreshedBirths(s.messages, births, s.compactions)
    + (if TurnMessages(response, results) == [] then [] else [s.compactions])
  }

  lemma {:induction false} TurnOrdered(response: Response, results: seq<ToolResult>, c: nat)
    requires Answers(response, results)
    ensures AllOrdered([TurnBlock(response, results)], [c], c)
  {
    TurnIsBlock(response, results);
    AnswersIds(response.toolCalls, ResultMessages(results));
  }

  lemma {:induction false} RecordOrdered(s: Snapshot, response: Response, results: seq<ToolResult>, b: Budget, bs: seq<Block>, births: seq<nat>)
    returns (cs: seq<Block>)
    requires Transcript(bs) == s.messages && AllOrdered(bs, births, s.compactions)
    requires NoSystem(s.messages) && Answers(response, results)
    ensures Transcript(cs) == Recorded(s, response, results, b).messages
    ensures AllOrdered(cs, RecordedBirths(s, response, results, births), s.compactions)
  {
    var c := s.compactions;
    RecordedShape(s, response, results, b);
    cs := RefreshOrdered(bs, births, c, ProgressMessage(Recorded(s, response, results, b).state, b));
    var turn, first := TurnMessages(response, results), RefreshedBirths(s.messages, births, c);
    if turn != [] {
      TurnIsBlock(response, results);
      TurnOrdered(response, results, c);
      AllOrderedConcat(cs, first, [TurnBlock(response, results)], [c], c);
      TranscriptConcat(cs, [TurnBlock(response, results)]);
      TranscriptOne(TurnBlock(response, results));
      cs := cs + [TurnBlock(response, results)];
    } else {
      assert first + [] == first;
    }
  }

  function TurnBirths(s: Snapshot, response: Response, results: seq<ToolResult>, b: Budget, births: seq<nat>): seq<nat>
  {
    var ms, recorded := Recorded(s, response, results, b).messages, RecordedBirths(s, response, results, births);
    if Fits(b, Tokens(ms)) then recorded else CompactedBirths(ms, Available(b), recorded, s.compactions)
  }

  function NextBirths(s: Snapshot, step: Step, b: Budget, births: seq<nat>): seq<nat>
  {
    match step
    case PushTurn(response, results) => TurnBirths(s, response, results, b, births)
    case Steer(_) => births + [s.compactions]
    case RecordFiles(_, _) => births
    case Refresh => RefreshedBirths(s.messages, births, s.compactions)
    case Compact => CompactedBirths(s.messages, Available(b), births, s.compactions)
  }

  /** The blocks are those of the conversation, each as old as its birth says. */
  predicate Tracked(bs: seq<Block>, births: seq<nat>, ms: seq<Message>, c: nat)
  {
    Transcript(bs) == ms && AllOrdered(bs, births, c)
  }

  lemma {:induction false} TurnCounts(s: Snapshot, response: Response, results: seq<ToolResult>, b: Budget)
    ensures AfterTurn(s, response, results, b).compactions
         == s.compactions + if Fits(b, Tokens(Recorded(s, response, results, b).messages)) then 0 else 1
  {
  }

  lemma {:induction false} TurnStepOrdered(s: Snapshot, response: Response, results: seq<ToolResult>, b: Budget, bs: seq<Block>, births: seq<nat>)
    returns (cs: seq<Block>)
    requires Tracked(bs, births, s.messages, s.compactions) && NoSystem(s.messages) && Answers(response, results)
    ensures var after := AfterTurn(s, response, results, b);
            Tracked(cs, TurnBirths(s, response, results, b, births), after.messages, after.compactions)
  {
    var ms, recorded := Recorded(s, response, results, b).messages, RecordedBirths(s, response, results, births);
    cs := RecordOrdered(s, response, results, b, bs, births);
    TurnOrCompaction(s, response, results, b);
    TurnCounts(s, response, results, b);
    var after := AfterTurn(s, response, results, b);
    cs := MaybeCompacted(cs, recorded, ms, s.compactions, b,
                         TurnBirths(s, response, results, b, births), after.messages, after.compactions);
  }

  lemma {:induction false} MaybeCompacted(bs: seq<Block>, births: seq<nat>, ms: seq<Message>, c: nat, b: Budget,
                                          births': seq<nat>, ms': seq<Message>, c': nat)
    returns (cs: seq<Block>)
    requires Tracked(bs, births, ms, c)
    requires births' == if Fits(b, Tokens(ms)) then births else CompactedBirths(ms, Available(b), births, c)
    requires ms' == if Fits(b, Tokens(ms)) then ms else Compacted(ms, Available(b))
    requires c' == c + if Fits(b, Tokens(ms)) then 0 else 1
    ensures Tracked(cs, births', ms', c')
  {
    cs := bs;
    if !Fits(b, Tokens(ms)) {
      cs := CompactionReverses(bs, births, c, Available(b));
    }
  }

  lemma {:induction false} SteerOrdered(bs: seq<Block>, births: seq<nat>, ms: seq<Message>, c: nat, note: Text)
    requires Tracked(bs, births, ms, c)
    ensures Tracked(bs + [Lone(SteeringMessage(note))], births + [c], ms + [SteeringMessage(note)], c)
  {
    var m := SteeringMessage(note);
    LoneOrdered(m, c, c);
    AllOrderedConcat(bs, births, [Lone(m)], [c], c);
    TranscriptConcat(bs, [Lone(m)]);
    TranscriptOne(Lone(m));
  }

  lemma {:induction false} NextOrdered(s: Snapshot, step: Step, b: Budget, bs: seq<Block>, births: seq<nat>) returns (cs: seq<Block>)
    requires Tracked(bs, births, s.messages, s.compactions) && NoSystem(s.messages) && ValidStep(step)
    ensures Tracked(cs, NextBirths(s, step, b, births), Next(s, step, b).messages, Next(s, step, b).compactions)
  {
    if step.PushTurn? {
      cs := TurnStepOrdered(s, step.response, step.results, b, bs, births);
    } else {
      cs := QuietStepOrdered(s, step, b, bs, births, NextBirths(s, step, b, births), Next(s, step, b));
    }
  }

  lemma {:induction false} QuietStepOrdered(s: Snapshot, step: Step, b: Budget, bs: seq<Block>, births: seq<nat>,
                                            births': seq<nat>, next: Snapshot)
    returns (cs: seq<Block>)
    requires Tracked(bs, births, s.messages, s.compactions) && NoSystem(s.messages) && !step.PushTurn?
    requires births' == NextBirths(s, step, b, births) && next == Next(s, step, b)
    ensures Tracked(cs, births', next.messages, next.compactions)
  {
    match step {
      case Steer(note) =>
        cs := bs + [Lone(SteeringMessage(note))];
        SteerOrdered(bs, births, s.messages, s.compactions, note);
      case RecordFiles(_, _) => cs := bs;
      case Refresh => cs := RefreshStep(bs, births, s, b, births', next.messages);
      case Compact => cs := CompactStep(bs, births, s, b, births', next.messages);
    }
    assert next.compactions == s.compactions + if step.Compact? then 1 else 0;
  }

  lemma {:induction false} RefreshStep(bs: seq<Block>, births: seq<nat>, s: Snapshot, b: Budget, births': seq<nat>, ms': seq<Message>)
    returns (cs: seq<Block>)
    requires Tracked(bs, births, s.messages, s.compactions) && NoSystem(s.messages)
    requires births' == RefreshedBirths(s.messages, births, s.compactions)
    requires ms' == Refreshed(s.messages, ProgressMessage(s.state, b))
    ensures Tracked(cs, births', ms', s.compactions)
  {
    cs := RefreshOrdered(bs, births, s.compactions, ProgressMessage(s.state, b));
  }

  lemma {:induction false} CompactStep(bs: seq<Block>, births: seq<nat>, s: Snapshot, b: Budget, births': seq<nat>, ms': seq<Message>)
    returns (cs: seq<Block>)
    requires Tracked(bs, births, s.messages, s.compactions)
    requires births' == CompactedBirths(s.messages, Available(b), births, s.compactions)
    requires ms' == Compacted(s.messages, Available(b))
    ensures Tracked(cs, births', ms', s.compactions + 1)
  {
    cs := CompactionReverses(bs, births, s.compactions, Available(b));
  }

  // ----- Every run -----

  /** For each block of the transcript a run leaves, how many compactions there had been when it was
      recorded. */
  function BirthsAfter(state: TaskState, steps: seq<Step>, b: Budget): seq<nat>
    decreases |steps|
  {
    if steps == [] then []
    else
      var init := steps[..|steps| - 1];
      NextBirths(Run(Initial(state), init, b), steps[|steps| - 1], b, BirthsAfter(state, init, b))
  }

  /** Over every run, in a window of any size, a turn in the transcript has its results in the order
      of its calls if it has been through an even number of compactions, and in the reverse order
      otherwise. */
  lemma {:induction false} RunOrders(state: TaskState, steps: seq<Step>, b: Budget) returns (bs: seq<Block>)
    requires ValidSteps(steps)
    ensures var s := Run(Initial(state), steps, b);
            Tracked(bs, BirthsAfter(state, steps, b), s.messages, s.compactions)
    decreases |steps|
  {
    if steps == [] {
      bs := [];
    } else {
      var init := steps[..|steps| - 1];
      bs := RunOrders(state, init, b);
      RunNoSystem(state, init, b);
      bs := NextOrdered(Run(Initial(state), init, b), steps[|steps| - 1], b, bs, BirthsAfter(state, init, b));
    }
  }
}
