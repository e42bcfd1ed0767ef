/** What holds of the conversation over every run of turns, notes, refreshes and compactions. */
module ContextRuns {
  import opened Sequences
  import opened Text
  import opened Messages
  import opened TaskState
  import opened TurnUnits
  import opened Compaction
  import opened CompactionSize
  import opened CompactionShape
  import opened CompactionLoss
  import opened ContextEngine

  // ----- Pairing over every run -----

  /** One result for each call, in order, as the agent's dispatch loop builds them. */
  predicate Answers(response: Response, results: seq<ToolResult>)
  {
    |results| == |response.toolCalls| &&
    forall i :: 0 <= i < |results| ==> results[i].callId == response.toolCalls[i].id
  }

  predicate ValidStep(step: Step)
  {
    step.PushTurn? ==> Answers(step.response, step.results)
  }

  /** The steps the agent takes: turns, steering notes and recorded paths. */
  predicate AgentStep(step: Step) { step.PushTurn? || step.Steer? || step.RecordFiles? }

  lemma {:induction false} AnswersIds(calls: seq<ToolCall>, results: seq<Message>)
    requires |results| == |calls|
    requires forall i :: 0 <= i < |results| ==> results[i].Tool? && results[i].callId == calls[i].id
    ensures ResultIds(results) == CallIds(calls)
  {
  }

  /** The block a turn with anything in it adds to the transcript. */
  function TurnBlock(response: Response, results: seq<ToolResult>): Block
  {
    Turn(Assistant(response.text, response.toolCalls), ResultMessages(results))
  }

  lemma {:induction false} TurnIsBlock(response: Response, results: seq<ToolResult>)
    requires Answers(response, results)
    ensures ValidBlock(TurnBlock(response, results))
    ensures var ms := TurnMessages(response, results);
            ms == [] || ms == BlockMessages(TurnBlock(response, results))
    ensures Paired(TurnMessages(response, results))
  {
    AnswersIds(response.toolCalls, ResultMessages(results));
    PairedBlock(TurnBlock(response, results));
    PairedEmpty();
  }

  lemma {:induction false} PairedTail(ms: seq<Message>)
    requires Paired(ms) && ms != [] && ms[0].System?
    ensures Paired(ms[1..])
  {
    var bs: seq<Block> :| ValidBlocks(bs) && Transcript(bs) == ms;
    assert |AllMessages(bs)| == |bs| && Transcript(bs) != [];
    TranscriptHead(bs);
    assert bs[0] == Lone(ms[0]);
    assert Transcript(bs[1..]) == ms[1..];
    assert ValidBlocks(bs[1..]);
  }

  lemma {:induction false} RefreshedPaired(ms: seq<Message>, progress: Message)
    requires Paired(ms) && IsProgress(progress)
    ensures Paired(Refreshed(ms, progress))
  {
    var at := if ms != [] && ms[0].System? then 1 else 0;
    if at < |ms| && IsProgress(ms[at]) {
      PairedSimilar(ms, ms[at := progress]);
    } else {
      PairedBlock(Lone(progress));
      if at == 1 {
        PairedTail(ms);
        PairedBlock(Lone(ms[0]));
        assert ms[..1] == BlockMessages(Lone(ms[0]));
        PairedConcat(ms[..1], [progress]);
        PairedConcat(ms[..1] + [progress], ms[1..]);
      } else {
        PairedConcat([progress], ms);
        assert ms[..0] + [progress] + ms[0..] == [progress] + ms;
      }
    }
  }

  lemma {:induction false} NextPaired(s: Snapshot, step: Step, b: Budget)
    requires Paired(s.messages) && ValidStep(step)
    ensures Paired(Next(s, step, b).messages)
  {
    match step {
      case PushTurn(response, results) =>
        RecordedPaired(s, response, results, b);
        CompactedPaired(Recorded(s, response, results, b).messages, Available(b));
      case Steer(note) =>
        PairedBlock(Lone(SteeringMessage(note)));
        PairedConcat(s.messages, [SteeringMessage(note)]);
      case RecordFiles(_, _) =>
      case Refresh => RefreshedPaired(s.messages, ProgressMessage(s.state, b));
      case Compact => CompactedPaired(s.messages, Available(b));
    }
  }

  predicate ValidSteps(steps: seq<Step>)
  {
    forall i :: 0 <= i < |steps| ==> ValidStep(steps[i])
  }

  /** The conversation never holds a tool result away from the turn that asked for it. */
  lemma {:induction false} RunPaired(state: TaskState, steps: seq<Step>, b: Budget)
    requires ValidSteps(steps)
    ensures Paired(Run(Initial(state), steps, b).messages)
    decreases |steps|
  {
    if steps == [] {
      PairedEmpty();
    } else {
      var init := steps[..|steps| - 1];
      RunPaired(state, init, b);
      NextPaired(Run(Initial(state), init, b), steps[|steps| - 1], b);
    }
  }

  // ----- No system prompt and only texts -----

  predicate Utf8Step(step: Step)
  {
    match step
    case PushTurn(response, results) =>
      && (response.text.Some? ==> WellFormed(response.text.value))
      && forall i :: 0 <= i < |results| ==> WellFormed(results[i].content)
    case Steer(note) => WellFormed(note)
    case RecordFiles(_, changed) => AllWellFormed(changed)
    case _ => true
  }

  predicate Clean(s: Snapshot)
  {
    NoSystem(s.messages) && AllUtf8(s.messages) && StateUtf8(s.state)
  }

  lemma {:induction false} ProgressUtf8(s: TaskState, b: Budget)
    requires StateUtf8(s)
    ensures Utf8(ProgressMessage(s, b))
  {
    RenderWellFormed(s);
    CompressOutputWellFormed(Render(s), Min(Available(b) / 2 * 4, PROGRESS_BYTE_CAP));
    BytesWellFormed("<progress>\n");
    BytesWellFormed("\n</progress>");
    WellFormedConcat(Bytes("<progress>\n"), ProgressBlock(s, b));
    WellFormedConcat(Bytes("<progress>\n") + ProgressBlock(s, b), Bytes("\n</progress>"));
  }

  lemma {:induction false} RefreshedClean(ms: seq<Message>, progress: Message)
    requires NoSystem(ms) && AllUtf8(ms) && Utf8(progress) && progress.User?
    ensures NoSystem(Refreshed(ms, progress)) && AllUtf8(Refreshed(ms, progress))
  {
  }

  lemma {:induction false} SteeringUtf8(note: Text)
    requires WellFormed(note)
    ensures Utf8(SteeringMessage(note))
  {
    BytesWellFormed("<steering>\n");
    BytesWellFormed("\n</steering>");
    WellFormedConcat(Bytes("<steering>\n"), note);
    WellFormedConcat(Bytes("<steering>\n") + note, Bytes("\n</steering>"));
  }

  lemma {:induction false} RecordedClean(s: Snapshot, response: Response, results: seq<ToolResult>, b: Budget)
    requires Clean(s) && Utf8Step(PushTurn(response, results))
    ensures Clean(Recorded(s, response, results, b))
  {
    var state := Observe(s.state, response.toolCalls, Observations(results));
    ObserveUtf8(s.state, response.toolCalls, Observations(results));
    ProgressUtf8(state, b);
    var turn := TurnMessages(response, results);
    TurnClean(response, results);
    RefreshedClean(s.messages + turn, ProgressMessage(state, b));
  }

  lemma {:induction false} TurnClean(response: Response, results: seq<ToolResult>)
    requires Utf8Step(PushTurn(response, results))
    ensures NoSystem(TurnMessages(response, results)) && AllUtf8(TurnMessages(response, results))
  {
    var rs := ResultMessages(results);
    assert forall i :: 0 <= i < |rs| ==> Utf8(rs[i]) && !rs[i].System?;
  }

  lemma {:induction false} AfterCompactClean(s: Snapshot, b: Budget)
    requires Clean(s)
    ensures Clean(AfterCompact(s, b))
  {
    CompactedNoSystem(s.messages, Available(b));
    CompactedUtf8(s.messages, Available(b));
  }

  lemma {:induction false} InsertAllWellFormed(paths: seq<Text>, more: seq<Text>)
    requires AllWellFormed(paths) && AllWellFormed(more)
    ensures AllWellFormed(InsertAll(paths, more))
  {
    var r := InsertAll(paths, more);
    forall i | 0 <= i < |r| ensures WellFormed(r[i]) {
      assert r[i] in r;
    }
  }

  lemma {:induction false} NextClean(s: Snapshot, step: Step, b: Budget)
    requires Clean(s) && Utf8Step(step)
    ensures Clean(Next(s, step, b))
  {
    match step {
      case PushTurn(response, results) =>
        RecordedClean(s, response, results, b);
        AfterCompactClean(Recorded(s, response, results, b), b);
      case Steer(note) => SteeringUtf8(note);
      case RecordFiles(_, changed) => InsertAllWellFormed(s.state.filesChanged, changed);
      case Refresh =>
        ProgressUtf8(s.state, b);
        RefreshedClean(s.messages, ProgressMessage(s.state, b));
      case Compact => AfterCompactClean(s, b);
    }
  }

  /** No text is ever cut inside a character, whatever is compressed along the way, and no
      system prompt enters the transcript. */
  lemma {:induction false} RunClean(state: TaskState, steps: seq<Step>, b: Budget)
    requires StateUtf8(state) && forall i :: 0 <= i < |steps| ==> Utf8Step(steps[i])
    ensures Clean(Run(Initial(state), steps, b))
    decreases |steps|
  {
    if steps != [] {
      var init := steps[..|steps| - 1];
      RunClean(state, init, b);
      NextClean(Run(Initial(state), init, b), steps[|steps| - 1], b);
    }
  }

  // ----- The size of the progress message -----

  /** A state whose rendering has a 64-bit length. */
  predicate Representable(s: TaskState) { |Render(s)| < Pow10(COUNT_DIGITS) }

  /** The state is representable once the turn is folded into it. */
  predicate RepresentableTurn(s: Snapshot, response: Response, results: seq<ToolResult>)
  {
    Representable(Observe(s.state, response.toolCalls, Observations(results)))
  }

  lemma {:induction false} ProgressSize(s: TaskState, b: Budget)
    requires Representable(s)
    ensures MessageTokens(ProgressMessage(s, b)) <= Min(Available(b) / 2, 2000) + 34
  {
    CompressOutputBound(Render(s), Min(Available(b) / 2 * 4, PROGRESS_BYTE_CAP));
    assert |Bytes("<progress>\n")| == 11 && |Bytes("\n</progress>")| == 12;
  }

  /** Without a system prompt the compaction base fits any window of at least 67 tokens, wherever
      the progress message stands and whatever else the transcript holds. */
  lemma {:induction false} BaseFits(ms: seq<Message>, s: TaskState, b: Budget)
    requires NoSystem(ms) && Representable(s) && Available(b) >= 67
    requires FirstProgress(ms) == [] || FirstProgress(ms) == [ProgressMessage(s, b)]
    ensures Tokens(Base(ms)) <= Available(b)
  {
    ProgressSize(s, b);
    assert Base(ms) == FirstProgress(ms);
    var m := ProgressMessage(s, b);
    assert Tokens([m]) == MessageTokens(m) + Tokens([m][1..]);
  }

  // ----- The budget over every run -----

  lemma {:induction false} RefreshedAppend(ms: seq<Message>, turn: seq<Message>, progress: Message)
    requires NoSystem(ms) && IsProgress(progress)
    requires forall i :: 0 <= i < |turn| ==> turn[i].Assistant? || turn[i].Tool?
    ensures var r := Refreshed(ms + turn, progress);
            r == Refreshed(ms, progress) + turn && r != [] && r[0] == progress && NoSystem(r)
  {
    var all := ms + turn;
    if ms != [] && IsProgress(ms[0]) {
      assert all[0 := progress] == ms[0 := progress] + turn;
    } else {
      assert all[..0] + [progress] + all[0..] == (ms[..0] + [progress] + ms[0..]) + turn;
    }
  }

  lemma {:induction false} RecordedShape(s: Snapshot, response: Response, results: seq<ToolResult>, b: Budget)
    requires NoSystem(s.messages)
    ensures var r := Recorded(s, response, results, b);
            && r.messages == Refreshed(s.messages, ProgressMessage(r.state, b)) + TurnMessages(response, results)
            && r.messages != [] && r.messages[0] == ProgressMessage(r.state, b)
            && NoSystem(r.messages)
  {
    var turn := TurnMessages(response, results);
    assert forall i :: 0 <= i < |turn| ==> turn[i].Assistant? || turn[i].Tool?;
    RefreshedAppend(s.messages, turn, ProgressMessage(Recorded(s, response, results, b).state, b));
  }

  lemma {:induction false} RecordedPaired(s: Snapshot, response: Response, results: seq<ToolResult>, b: Budget)
    requires Paired(s.messages) && Answers(response, results)
    ensures Paired(Recorded(s, response, results, b).messages)
  {
    TurnIsBlock(response, results);
    PairedConcat(s.messages, TurnMessages(response, results));
    RefreshedPaired(s.messages + TurnMessages(response, results),
                    ProgressMessage(Recorded(s, response, results, b).state, b));
  }

  lemma {:induction false} RecordedLed(s: Snapshot, response: Response, results: seq<ToolResult>, b: Budget)
    requires Paired(s.messages) && NoSystem(s.messages) && Answers(response, results)
    ensures var ms := Recorded(s, response, results, b).messages;
            Paired(ms) && ms != [] && IsProgress(ms[0]) && NoSystem(ms) && Tokens(ms) > 0
  {
    RecordedShape(s, response, results, b);
    RecordedPaired(s, response, results, b);
  }

  /** The base of every compaction a turn sets off fits any window of at least 67 tokens. */
  lemma {:induction false} TurnBaseFits(s: Snapshot, response: Response, results: seq<ToolResult>, b: Budget)
    requires NoSystem(s.messages) && RepresentableTurn(s, response, results) && Available(b) >= 67
    ensures Tokens(Base(Recorded(s, response, results, b).messages)) <= Available(b)
  {
    RecordedShape(s, response, results, b);
    var recorded := Recorded(s, response, results, b);
    BaseFits(recorded.messages, recorded.state, b);
  }

  /** Every state along the run can be rendered in memory. */
  predicate RepresentableRun(s: Snapshot, steps: seq<Step>, b: Budget)
    decreases |steps|
  {
    && Representable(Run(s, steps, b).state)
    && (steps != [] ==> RepresentableRun(s, steps[..|steps| - 1], b))
  }

  lemma {:induction false} RefreshedNoSystem(ms: seq<Message>, progress: Message)
    requires NoSystem(ms) && !progress.System?
    ensures NoSystem(Refreshed(ms, progress))
  {
  }

  lemma {:induction false} TurnNoSystem(s: Snapshot, response: Response, results: seq<ToolResult>, b: Budget)
    requires NoSystem(s.messages)
    ensures NoSystem(AfterTurn(s, response, results, b).messages)
  {
    RecordedShape(s, response, results, b);
    CompactedNoSystem(Recorded(s, response, results, b).messages, Available(b));
  }

  lemma {:induction false} NextNoSystem(s: Snapshot, step: Step, b: Budget)
    requires NoSystem(s.messages)
    ensures NoSystem(Next(s, step, b).messages)
  {
    match step {
      case PushTurn(response, results) => TurnNoSystem(s, response, results, b);
      case Steer(note) => assert !SteeringMessage(note).System?;
      case RecordFiles(_, _) =>
      case Refresh => RefreshedNoSystem(s.messages, ProgressMessage(s.state, b));
      case Compact => CompactedNoSystem(s.messages, Available(b));
    }
  }

  lemma {:induction false} RunNoSystem(state: TaskState, steps: seq<Step>, b: Budget)
    ensures NoSystem(Run(Initial(state), steps, b).messages)
    decreases |steps|
  {
    if steps != [] {
      var init, step := steps[..|steps| - 1], steps[|steps| - 1];
      RunNoSystem(state, init, b);
      NextNoSystem(Run(Initial(state), init, b), step, b);
    }
  }

  /** The rule the context engine exists for, in every window: a turn leaves room for the answer
      exactly when the transcript with the turn in it already does, or the reserve fits the
      window and the compaction condition holds. */
  lemma {:induction false} TurnFitsIff(s: Snapshot, response: Response, results: seq<ToolResult>, b: Budget)
    requires Clean(s) && Utf8Step(PushTurn(response, results))
    ensures var ms := Recorded(s, response, results, b).messages;
            Fits(b, Tokens(AfterTurn(s, response, results, b).messages)) <==>
              || Fits(b, Tokens(ms))
              || (b.reservedOutput <= b.limit && WillFit(ms, Available(b)))
  {
    var ms := Recorded(s, response, results, b).messages;
    RecordedClean(s, response, results, b);
    CompactionFitsIff(ms, Available(b));
    AvailableMeansFits(b, Tokens(Compacted(ms, Available(b))));
  }

  /** The same over every run that ends in a turn. */
  lemma {:induction false} RunFitsIff(state: TaskState, steps: seq<Step>, b: Budget)
    requires StateUtf8(state) && (forall i :: 0 <= i < |steps| ==> Utf8Step(steps[i]))
    requires steps != [] && steps[|steps| - 1].PushTurn?
    ensures var init, last := steps[..|steps| - 1], steps[|steps| - 1];
            var ms := Recorded(Run(Initial(state), init, b), last.response, last.results, b).messages;
            Fits(b, Tokens(Run(Initial(state), steps, b).messages)) <==>
              || Fits(b, Tokens(ms))
              || (b.reservedOutput <= b.limit && WillFit(ms, Available(b)))
  {
    var init, last := steps[..|steps| - 1], steps[|steps| - 1];
    RunClean(state, init, b);
    TurnFitsIff(Run(Initial(state), init, b), last.response, last.results, b);
  }

  lemma {:induction false} LedWillFitIff(ms: seq<Message>, available: nat)
    requires Paired(ms) && ms != [] && IsProgress(ms[0])
    ensures Units(ms) != []
    ensures WillFit(ms, available) <==>
              || 2 * MessageTokens(ms[0]) <= available
              || MessageTokens(ms[0]) + Tokens(Newest(ms)) <= available
  {
    ProgressIsOldestUnit(ms);
    var cost := MessageTokens(ms[0]);
    assert Tokens([ms[0]]) == cost + Tokens([ms[0]][1..]);
    if cost <= available {
      OldestIsProgress(ms, available - cost);
    }
  }

  lemma {:induction false} OldestIsProgress(ms: seq<Message>, room: nat)
    requires Paired(ms) && ms != [] && IsProgress(ms[0])
    ensures OldestPricedUnitFits(Units(ms), room) <==> MessageTokens(ms[0]) <= room
  {
    ProgressIsOldestUnit(ms);
    var units := Units(ms);
    assert Tokens([ms[0]]) == MessageTokens(ms[0]) + Tokens([ms[0]][1..]);
    assert units[..0] == [];
    assert Tokens(Flatten(units[..0])) == 0 && Tokens(units[0]) == MessageTokens(ms[0]) > 0;
    forall k | 0 < k <= |units| ensures Tokens(Flatten(units[..k])) > 0 {
      assert units[..k][0] == units[0];
      TokensConcat(units[0], Flatten(units[..k][1..]));
    }
  }

  /** The same in sizes a caller has at hand: the recorded transcript can be brought within the
      window exactly when its progress message fits twice, or fits beside the newest unit. */
  lemma {:induction false} TurnRoomIff(s: Snapshot, response: Response, results: seq<ToolResult>, b: Budget)
    requires Paired(s.messages) && Clean(s) && Answers(response, results) && Utf8Step(PushTurn(response, results))
    ensures var ms := Recorded(s, response, results, b).messages;
            && Units(ms) != []
            && (Fits(b, Tokens(AfterTurn(s, response, results, b).messages)) <==>
                  || Fits(b, Tokens(ms))
                  || (&& b.reservedOutput <= b.limit
                      && (|| 2 * MessageTokens(ms[0]) <= Available(b)
                          || MessageTokens(ms[0]) + Tokens(Newest(ms)) <= Available(b))))
  {
    RecordedLed(s, response, results, b);
    LedWillFitIff(Recorded(s, response, results, b).messages, Available(b));
    TurnFitsIff(s, response, results, b);
  }

  /** The transcript a turn is about to leave, before any compaction. */
  function LastRecorded(state: TaskState, steps: seq<Step>, b: Budget): (ms: seq<Message>)
    requires steps != [] && steps[|steps| - 1].PushTurn?
    ensures ms != []
  {
    var last := steps[|steps| - 1];
    Recorded(Run(Initial(state), steps[..|steps| - 1], b), last.response, last.results, b).messages
  }

  /** In a window of any size, a run is within the window after a turn whose progress message fits
      twice. */
  lemma {:induction false} RunStaysWithinBudget(state: TaskState, steps: seq<Step>, b: Budget)
    requires ValidSteps(steps) && steps != [] && steps[|steps| - 1].PushTurn?
    requires 2 * MessageTokens(LastRecorded(state, steps, b)[0]) <= Available(b)
    ensures Fits(b, Tokens(Run(Initial(state), steps, b).messages))
  {
    var init, last := steps[..|steps| - 1], steps[|steps| - 1];
    RunPaired(state, init, b);
    RunNoSystem(state, init, b);
    TurnStaysWithinBudget(Run(Initial(state), init, b), last.response, last.results, b);
  }

  lemma {:induction false} TurnStaysWithinBudget(s: Snapshot, response: Response, results: seq<ToolResult>, b: Budget)
    requires Paired(s.messages) && NoSystem(s.messages) && Answers(response, results)
    requires 2 * MessageTokens(Recorded(s, response, results, b).messages[0]) <= Available(b)
    ensures Fits(b, Tokens(AfterTurn(s, response, results, b).messages))
  {
    RecordedLed(s, response, results, b);
    LedFits(Recorded(s, response, results, b).messages, b);
    TurnOrCompaction(s, response, results, b);
  }

  lemma {:induction false} TurnOrCompaction(s: Snapshot, response: Response, results: seq<ToolResult>, b: Budget)
    ensures var ms := Recorded(s, response, results, b).messages;
            AfterTurn(s, response, results, b).messages
              == if Fits(b, Tokens(ms)) then ms else Compacted(ms, Available(b))
  {
  }

  lemma {:induction false} LedFits(ms: seq<Message>, b: Budget)
    requires Paired(ms) && ms != [] && IsProgress(ms[0]) && 2 * MessageTokens(ms[0]) <= Available(b)
    ensures Fits(b, Tokens(Compacted(ms, Available(b))))
  {
    TwiceProgressFits(ms, Available(b));
    AvailableMeansFits(b, Tokens(Compacted(ms, Available(b))));
  }

  /** Windows large enough for two progress messages of any state. */
  const AMPLE: nat := 4068

  lemma {:induction false} AmpleFitsTwice(s: Snapshot, response: Response, results: seq<ToolResult>, b: Budget)
    requires NoSystem(s.messages) && RepresentableTurn(s, response, results) && Available(b) >= AMPLE
    ensures var ms := Recorded(s, response, results, b).messages;
            ms != [] && 2 * MessageTokens(ms[0]) <= Available(b)
  {
    RecordedShape(s, response, results, b);
    ProgressSize(Recorded(s, response, results, b).state, b);
  }

  /** A run with that much available, every state of which can be rendered in memory. */
  predicate AmpleRun(state: TaskState, steps: seq<Step>, b: Budget)
  {
    Available(b) >= AMPLE && RepresentableRun(Initial(state), steps, b)
  }

  lemma {:induction false} AmplePrefix(state: TaskState, steps: seq<Step>, b: Budget)
    requires steps != [] && AmpleRun(state, steps, b)
    ensures AmpleRun(state, steps[..|steps| - 1], b)
  {
  }

  lemma {:induction false} TurnOfRun(state: TaskState, steps: seq<Step>, b: Budget)
    requires steps != [] && steps[|steps| - 1].PushTurn? && RepresentableRun(Initial(state), steps, b)
    ensures var last := steps[|steps| - 1];
            RepresentableTurn(Run(Initial(state), steps[..|steps| - 1], b), last.response, last.results)
  {
    var last := steps[|steps| - 1];
    StateOfTurn(Run(Initial(state), steps[..|steps| - 1], b), last.response, last.results, b);
  }

  lemma {:induction false} StateOfTurn(s: Snapshot, response: Response, results: seq<ToolResult>, b: Budget)
    ensures AfterTurn(s, response, results, b).state == Observe(s.state, response.toolCalls, Observations(results))
  {
  }

  lemma {:induction false} AmpleRunFitsTwice(state: TaskState, steps: seq<Step>, b: Budget)
    requires steps != [] && steps[|steps| - 1].PushTurn? && AmpleRun(state, steps, b)
    ensures 2 * MessageTokens(LastRecorded(state, steps, b)[0]) <= Available(b)
  {
    var init, last := steps[..|steps| - 1], steps[|steps| - 1];
    RunNoSystem(state, init, b);
    TurnOfRun(state, steps, b);
    AmpleFitsTwice(Run(Initial(state), init, b), last.response, last.results, b);
  }

  /** So with 4068 tokens available every run stays within its window, whatever it records. */
  lemma {:induction false} AmpleRunStaysWithinBudget(state: TaskState, steps: seq<Step>, b: Budget)
    requires ValidSteps(steps) && steps != [] && steps[|steps| - 1].PushTurn? && AmpleRun(state, steps, b)
    ensures Fits(b, Tokens(Run(Initial(state), steps, b).messages))
  {
    AmpleRunFitsTwice(state, steps, b);
    RunStaysWithinBudget(state, steps, b);
  }

  // ----- Ordered paths over every run -----

  predicate PathsAscend(s: TaskState) { Ascends(s.filesRead) && Ascends(s.filesChanged) }

  lemma {:induction false} InsertAllAscends(paths: seq<Text>, more: seq<Text>)
    requires Ascends(paths)
    ensures Ascends(InsertAll(paths, more))
    decreases |more|
  {
    if more != [] {
      InsertPathAscends(paths, more[0]);
      InsertAllAscends(InsertPath(paths, more[0]), more[1..]);
    }
  }

  /** The two path lists stay what an ordered set enumerates: ascending, without repeats. */
  lemma {:induction false} RunPathsAscend(state: TaskState, steps: seq<Step>, b: Budget)
    requires PathsAscend(state)
    ensures PathsAscend(Run(Initial(state), steps, b).state)
    decreases |steps|
  {
    if steps != [] {
      var init, last := steps[..|steps| - 1], steps[|steps| - 1];
      RunPathsAscend(state, init, b);
      var before := Run(Initial(state), init, b).state;
      if last.RecordFiles? {
        InsertAllAscends(before.filesRead, last.read);
        InsertAllAscends(before.filesChanged, last.changed);
      }
    }
  }

  // ----- Evidence over runs and resumptions -----

  /** The turns a run recorded. */
  function ObservedSteps(steps: seq<Step>): seq<Observed>
  {
    if steps == [] then []
    else
      var last := steps[|steps| - 1];
      ObservedSteps(steps[..|steps| - 1]) +
      (if last.PushTurn? then [Observed(last.response.toolCalls, Observations(last.results))] else [])
  }

  /** Agreement on everything but the recorded paths. */
  predicate SameEvidence(a: TaskState, b: TaskState)
  {
    a.(filesRead := b.filesRead, filesChanged := b.filesChanged) == b
  }

  lemma {:induction false} ObserveAllSame(a: TaskState, b: TaskState, turns: seq<Observed>)
    requires SameEvidence(a, b)
    ensures SameEvidence(ObserveAll(a, turns), ObserveAll(b, turns))
    decreases |turns|
  {
    if turns != [] {
      ObserveAllSame(a, b, turns[..|turns| - 1]);
    }
  }

  lemma {:induction false} ObserveAllConcat(s: TaskState, a: seq<Observed>, b: seq<Observed>)
    ensures ObserveAll(ObserveAll(s, a), b) == ObserveAll(s, a + b)
    decreases |b|
  {
    if b == [] {
      assert a + b == a;
    } else {
      ObserveAllConcat(s, a, b[..|b| - 1]);
      assert (a + b)[..|a + b| - 1] == a + b[..|b| - 1];
    }
  }

  /** The evidence in the state after a run is that of the turns it recorded, whatever was
      steered, refreshed or compacted between them. */
  lemma {:induction false} RunEvidence(state: TaskState, steps: seq<Step>, b: Budget)
    ensures SameEvidence(Run(Initial(state), steps, b).state, ObserveAll(state, ObservedSteps(steps)))
    decreases |steps|
  {
    if steps != [] {
      var init, last := steps[..|steps| - 1], steps[|steps| - 1];
      RunEvidence(state, init, b);
      var before := ObservedSteps(init);
      if last.PushTurn? {
        var turn := Observed(last.response.toolCalls, Observations(last.results));
        assert (before + [turn])[..|before|] == before;
      } else {
        assert before + [] == before;
      }
    }
  }

  /** A run that takes up where another left off continues its log: each list is the last forty
      entries of everything both runs recorded. */
  lemma {:induction false} ResumedRunContinuesLog(state: TaskState, first: seq<Step>, second: seq<Step>, b: Budget)
    requires ObservedSteps(first) + ObservedSteps(second) != []
    ensures var saved := Run(Initial(state), first, b).state;
            var resumed := Run(Initial(saved), second, b).state;
            var turns := ObservedSteps(first) + ObservedSteps(second);
            && resumed.commandsRun == Last(state.commandsRun + Log(turns, (t: Observed) => Commands(t.calls)), EVIDENCE_CAP)
            && resumed.testResults == Last(state.testResults + Log(turns, (t: Observed) => Summaries(t.obs)), EVIDENCE_CAP)
            && resumed.openProblems == Last(state.openProblems + Log(turns, (t: Observed) => Failures(t.obs)), EVIDENCE_CAP)
            && resumed.objective == state.objective
  {
    var saved := Run(Initial(state), first, b).state;
    RunEvidence(state, first, b);
    RunEvidence(saved, second, b);
    ObserveAllSame(saved, ObserveAll(state, ObservedSteps(first)), ObservedSteps(second));
    ObserveAllConcat(state, ObservedSteps(first), ObservedSteps(second));
    EvidenceIsLogSuffix(state, ObservedSteps(first) + ObservedSteps(second));
  }
}
