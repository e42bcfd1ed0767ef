/** What a compaction keeps of a conversation's structure: pairing, and the progress message. */
module CompactionShape {
  import opened Sequences
  import opened Text
  import opened Messages
  import opened TurnUnits
  import opened Compaction
  import opened CompactionSize

  // ----- Pairing depends only on roles and identities -----

  /** The same role in the conversation, with the same calls or answering the same call. */
  predicate Similar(a: Message, b: Message)
  {
    match a
    case System(_) => b.System? || b.User?
    case User(_) => b.System? || b.User?
    case Assistant(_, calls) => b.Assistant? && b.toolCalls == calls
    case Tool(id, _, _, _) => b.Tool? && b.callId == id
  }

  predicate AllSimilar(a: seq<Message>, b: seq<Message>)
  {
    |a| == |b| && forall i :: 0 <= i < |a| ==> Similar(a[i], b[i])
  }

  lemma {:induction false} ResultIdsSimilar(a: seq<Message>, b: seq<Message>)
    requires AllSimilar(a, b) && forall i :: 0 <= i < |a| ==> a[i].Tool?
    ensures forall i :: 0 <= i < |b| ==> b[i].Tool?
    ensures ResultIds(a) == ResultIds(b)
  {
    assert forall i :: 0 <= i < |b| ==> Similar(a[i], b[i]);
  }

  lemma {:induction false} BlockSimilar(x: Block, ms: seq<Message>)
    requires ValidBlock(x) && AllSimilar(BlockMessages(x), ms)
    ensures Paired(ms)
  {
    match x {
      case Lone(m) =>
        assert ms == BlockMessages(Lone(ms[0]));
        PairedBlock(Lone(ms[0]));
      case Turn(a, results) =>
        assert AllSimilar(results, ms[1..]) by {
          assert results == BlockMessages(x)[1..];
        }
        ResultIdsSimilar(results, ms[1..]);
        assert ms == BlockMessages(Turn(ms[0], ms[1..]));
        PairedBlock(Turn(ms[0], ms[1..]));
    }
  }

  lemma {:induction false} TranscriptHead(bs: seq<Block>)
    requires bs != []
    ensures Transcript(bs) == BlockMessages(bs[0]) + Transcript(bs[1..])
  {
    assert bs == [bs[0]] + bs[1..];
    TranscriptConcat([bs[0]], bs[1..]);
    TranscriptOne(bs[0]);
  }

  lemma {:induction false} SimilarSplit(a: seq<Message>, b: seq<Message>, ms: seq<Message>)
    requires AllSimilar(a + b, ms)
    ensures AllSimilar(a, ms[..|a|]) && AllSimilar(b, ms[|a|..])
  {
    forall i | 0 <= i < |a| ensures Similar(a[i], ms[i]) {
      assert (a + b)[i] == a[i];
    }
    forall i | 0 <= i < |b| ensures Similar(b[i], ms[|a| + i]) {
      assert (a + b)[|a| + i] == b[i];
    }
  }

  lemma {:induction false} SimilarTransitive(a: seq<Message>, b: seq<Message>, c: seq<Message>)
    requires AllSimilar(a, b) && AllSimilar(b, c)
    ensures AllSimilar(a, c)
  {
  }

  lemma {:induction false} BlockThenPaired(x: Block, ms: seq<Message>)
    requires |BlockMessages(x)| <= |ms| && ValidBlock(x)
    requires AllSimilar(BlockMessages(x), ms[..|BlockMessages(x)|]) && Paired(ms[|BlockMessages(x)|..])
    ensures Paired(ms)
  {
    var n := |BlockMessages(x)|;
    BlockSimilar(x, ms[..n]);
    PairedConcat(ms[..n], ms[n..]);
    assert ms == ms[..n] + ms[n..];
  }

  lemma {:induction false} TranscriptSimilar(bs: seq<Block>, ms: seq<Message>)
    requires ValidBlocks(bs) && AllSimilar(Transcript(bs), ms)
    ensures Paired(ms)
    decreases |bs|
  {
    if bs == [] {
      PairedEmpty();
    } else {
      TranscriptHead(bs);
      SimilarSplit(BlockMessages(bs[0]), Transcript(bs[1..]), ms);
      TranscriptSimilar(bs[1..], ms[|BlockMessages(bs[0])|..]);
      BlockThenPaired(bs[0], ms);
    }
  }

  lemma {:induction false} PairedSimilar(a: seq<Message>, b: seq<Message>)
    requires Paired(a) && AllSimilar(a, b)
    ensures Paired(b)
  {
    var bs :| ValidBlocks(bs) && Transcript(bs) == a;
    TranscriptSimilar(bs, b);
  }

  // ----- Every stage of a compaction keeps the pairing -----

  lemma {:induction false} BasePaired(ms: seq<Message>)
    ensures Paired(Base(ms))
  {
    PairedEmpty();
    if LeadingSystem(ms) != [] {
      PairedBlock(Lone(ms[0]));
    }
    if FirstProgress(ms) != [] {
      assert FirstProgress(ms) == BlockMessages(Lone(FirstProgress(ms)[0]));
      PairedBlock(Lone(FirstProgress(ms)[0]));
    }
    PairedConcat(LeadingSystem(ms), FirstProgress(ms));
  }

  lemma {:induction false} KeptPaired(bs: seq<Block>, available: nat)
    requires ValidBlocks(bs)
    ensures Paired(Flatten(Kept(Transcript(bs), available)))
  {
    UnitsOfTranscript(bs);
    var kept := FlipAll(bs)[..|Kept(Transcript(bs), available)|];
    assert AllMessages(kept) == Kept(Transcript(bs), available);
    assert ValidBlocks(kept);
  }

  lemma {:induction false} FallbackPaired(bs: seq<Block>, available: nat)
    requires ValidBlocks(bs)
    ensures Paired(Fallback(Transcript(bs), available))
  {
    var ms := Transcript(bs);
    UnitsOfTranscript(bs);
    if Fallback(ms, available) == [] {
      PairedEmpty();
    } else {
      var newest := FlipAll(bs)[|bs| - 1];
      assert Units(ms)[|Units(ms)| - 1] == BlockMessages(newest);
      BlockSimilar(newest, Fallback(ms, available));
    }
  }

  lemma {:induction false} SelectedPaired(ms: seq<Message>, available: nat)
    requires Paired(ms)
    ensures Paired(Selected(ms, available))
  {
    var bs :| ValidBlocks(bs) && Transcript(bs) == ms;
    BasePaired(ms);
    KeptPaired(bs, available);
    FallbackPaired(bs, available);
    PairedConcat(Base(ms), Flatten(Kept(ms, available)));
    PairedConcat(Base(ms) + Flatten(Kept(ms, available)), Fallback(ms, available));
  }

  lemma {:induction false} SqueezeRoundSimilar(ms: seq<Message>, i: nat, available: nat)
    requires i < |ms|
    ensures AllSimilar(ms, SqueezeRound(ms, i, available))
  {
  }

  lemma {:induction false} SqueezeLoopSimilar(ms: seq<Message>, available: nat, rounds: nat)
    ensures AllSimilar(ms, SqueezeLoop(ms, available, rounds))
    decreases rounds
  {
    var i := LastNonSystem(ms);
    if !(rounds == 0 || Tokens(ms) <= available || i == |ms| || MessageTokens(ms[i]) == 0) {
      var after := SqueezeRound(ms, i, available);
      SqueezeRoundSimilar(ms, i, available);
      SqueezeLoopSimilar(after, available, rounds - 1);
      SimilarTransitive(ms, after, SqueezeLoop(after, available, rounds - 1));
    }
  }

  /** No path through a compaction separates a tool result from the turn that asked for it. */
  lemma {:induction false} CompactedPaired(ms: seq<Message>, available: nat)
    requires Paired(ms)
    ensures Paired(Compacted(ms, available))
  {
    SelectedPaired(ms, available);
    SqueezeLoopSimilar(Selected(ms, available), available, SQUEEZE_ROUNDS);
    PairedSimilar(Selected(ms, available), Compacted(ms, available));
  }

  // ----- No system prompt appears from nowhere -----

  predicate NoSystem(ms: seq<Message>)
  {
    forall i :: 0 <= i < |ms| ==> !ms[i].System?
  }

  lemma {:induction false} SqueezeLoopNoSystem(ms: seq<Message>, available: nat, rounds: nat)
    requires NoSystem(ms)
    ensures NoSystem(SqueezeLoop(ms, available, rounds))
    decreases rounds
  {
    var i := LastNonSystem(ms);
    if !(rounds == 0 || Tokens(ms) <= available || i == |ms| || MessageTokens(ms[i]) == 0) {
      SqueezeLoopNoSystem(SqueezeRound(ms, i, available), available, rounds - 1);
    }
  }

  lemma {:induction false} SelectedNoSystem(ms: seq<Message>, available: nat)
    requires NoSystem(ms)
    ensures NoSystem(Selected(ms, available))
  {
    forall m | m in Flatten(Kept(ms, available)) ensures !m.System? {
      KeptMember(ms, available, m);
    }
    assert forall m :: m in Base(ms) ==> m in ms;
  }

  lemma {:induction false} CompactedNoSystem(ms: seq<Message>, available: nat)
    requires NoSystem(ms)
    ensures NoSystem(Compacted(ms, available))
  {
    SelectedNoSystem(ms, available);
    SqueezeLoopNoSystem(Selected(ms, available), available, SQUEEZE_ROUNDS);
  }

  // ----- A transcript led by its progress message -----

  /** The progress message at the front is both the base and the oldest unit. */
  lemma {:induction false} ProgressIsOldestUnit(ms: seq<Message>)
    requires Paired(ms) && ms != [] && IsProgress(ms[0])
    ensures Base(ms) == [ms[0]] && Units(ms) != [] && Units(ms)[0] == [ms[0]]
  {
    var bs :| ValidBlocks(bs) && Transcript(bs) == ms;
    UnitsOfTranscript(bs);
    assert |AllMessages(bs)| == |bs| && Transcript(bs) != [];
    TranscriptHead(bs);
    assert bs[0] == Lone(ms[0]);
  }

  /** So the budget is met whenever the progress message fits twice. */
  lemma {:induction false} TwiceProgressFits(ms: seq<Message>, available: nat)
    requires Paired(ms) && ms != [] && IsProgress(ms[0]) && 2 * MessageTokens(ms[0]) <= available
    ensures Tokens(Flatten(Kept(ms, available))) > 0
    ensures Tokens(Compacted(ms, available)) <= available
    ensures Kept(ms, available) != [] && Kept(ms, available)[0] == [ms[0]]
    ensures [ms[0], ms[0]] <= Compacted(ms, available)
  {
    ProgressIsOldestUnit(ms);
    var units, target := Units(ms), Target(ms, available);
    var cost := MessageTokens(ms[0]);
    assert Tokens([ms[0]]) == cost;
    assert OldestPricedUnitFits(units, target) by {
      assert units[..0] == [];
      assert Tokens(Flatten(units[..0])) == 0 && Tokens(units[0]) == cost;
    }
    KeptIff(ms, available);
    KeepingAnythingFits(ms, available);
    var kept := Kept(ms, available);
    assert kept != [] && kept[0] == units[0];
    assert Flatten(kept) == kept[0] + Flatten(kept[1..]);
  }

  // ----- Copies of the progress message -----

  /** The first `n` messages are progress messages and no other message is. */
  predicate LeadingProgress(ms: seq<Message>, n: nat)
  {
    n <= |ms| && forall i :: 0 <= i < |ms| ==> (IsProgress(ms[i]) <==> i < n)
  }

  lemma {:induction false} CompressKeepsPrefix(t: Text, limit: nat, p: Text)
    requires WellFormed(t) && limit >= 128 && |p| <= 80
    ensures p <= CompressOutput(t, limit) <==> p <= t
  {
    if |t| > limit {
      CompressOutputCut(t, limit);
      var head, out := HeadEnd(t, limit), CompressOutput(t, limit);
      assert |p| <= head;
      assert forall i :: 0 <= i < head ==> out[i] == t[i];
    }
  }

  lemma {:induction false} SqueezeKeepsProgress(m: Message, limit: nat)
    requires Utf8(m) && !m.System? && limit >= 128
    ensures IsProgress(SqueezeMessage(m, limit)) <==> IsProgress(m)
  {
    if m.User? {
      CompressKeepsPrefix(m.content, limit, Bytes(PROGRESS_OPEN));
    }
  }

  lemma {:induction false} SqueezeLoopKeepsProgress(ms: seq<Message>, available: nat, rounds: nat, n: nat)
    requires AllUtf8(ms) && LeadingProgress(ms, n)
    ensures LeadingProgress(SqueezeLoop(ms, available, rounds), n)
    decreases rounds
  {
    var i := LastNonSystem(ms);
    if !(rounds == 0 || Tokens(ms) <= available || i == |ms| || MessageTokens(ms[i]) == 0) {
      SqueezeKeepsProgress(ms[i], 4 * SqueezeKeep(ms, i, available));
      SqueezeRoundStaysOver(ms, i, available);
      SqueezeLoopKeepsProgress(SqueezeRound(ms, i, available), available, rounds - 1, n);
    }
  }

  /** A unit is a progress message alone when it comes first, and holds none otherwise. */
  predicate UnitsLeadWith(units: seq<seq<Message>>, n: nat)
  {
    && n <= |units|
    && (forall j :: 0 <= j < n ==> |units[j]| == 1 && IsProgress(units[j][0]))
    && (forall j, m :: n <= j < |units| && m in units[j] ==> !IsProgress(m))
  }

  lemma {:induction false} FlattenLeads(units: seq<seq<Message>>, n: nat, k: nat)
    requires UnitsLeadWith(units, n) && k <= |units|
    ensures LeadingProgress(Flatten(units[..k]), Min(k, n))
    ensures k <= n ==> |Flatten(units[..k])| == k
    decreases k
  {
    if k > 0 {
      FlattenLeads(units, n, k - 1);
      assert units[..k] == units[..k - 1] + [units[k - 1]];
      FlattenSnoc(units[..k - 1], units[k - 1]);
    }
  }

  lemma {:induction false} LeadingBlocks(bs: seq<Block>, n: nat)
    requires ValidBlocks(bs) && LeadingProgress(Transcript(bs), n)
    ensures n <= |bs| && forall j :: 0 <= j < n ==> bs[j].Lone? && IsProgress(bs[j].message)
    ensures forall j, m :: n <= j < |bs| && m in BlockMessages(bs[j]) ==> !IsProgress(m)
    ensures n < |Transcript(bs)| ==> n < |bs|
    decreases |bs|
  {
    if bs == [] {
      assert Transcript(bs) == [];
    } else {
      var ms, head, tail := Transcript(bs), BlockMessages(bs[0]), Transcript(bs[1..]);
      TranscriptHead(bs);
      if n > 0 {
        assert IsProgress(ms[0]) && head == [ms[0]];
        assert tail == ms[1..];
        LeadingBlocks(bs[1..], n - 1);
      } else {
        assert forall i :: 0 <= i < |tail| ==> tail[i] == ms[|head| + i];
        LeadingBlocks(bs[1..], 0);
        forall m | m in head ensures !IsProgress(m) {
          var i :| 0 <= i < |head| && head[i] == m;
          assert ms[i] == m;
        }
      }
    }
  }

  lemma {:induction false} FlipMember(b: Block, m: Message)
    requires m in BlockMessages(Flip(b))
    ensures m in BlockMessages(b)
  {
    if b.Turn? && m != b.assistant {
      assert m in Reverse(b.results);
    }
  }

  lemma {:induction false} UnitsLead(ms: seq<Message>, n: nat)
    requires Paired(ms) && LeadingProgress(ms, n)
    ensures UnitsLeadWith(Units(ms), n)
    ensures n < |ms| ==> n < |Units(ms)|
  {
    var bs: seq<Block> :| ValidBlocks(bs) && Transcript(bs) == ms;
    LeadingBlocks(bs, n);
    UnitsOfTranscript(bs);
    var units := Units(ms);
    forall j, m | n <= j < |units| && m in units[j] ensures !IsProgress(m) {
      assert units[j] == BlockMessages(Flip(bs[j]));
      FlipMember(bs[j], m);
    }
  }

  lemma {:induction false} FallbackNoProgress(ms: seq<Message>, available: nat, n: nat)
    requires Paired(ms) && AllUtf8(ms) && NoSystem(ms) && LeadingProgress(ms, n) && n < |ms|
    ensures forall i :: 0 <= i < |Fallback(ms, available)| ==> !IsProgress(Fallback(ms, available)[i])
  {
    UnitsLead(ms, n);
    var units := Units(ms);
    var newest := units[|units| - 1];
    forall i | 0 <= i < |Fallback(ms, available)| ensures !IsProgress(Fallback(ms, available)[i]) {
      assert newest[i] in newest;
      UnitMember(ms, newest, newest[i]);
      SqueezeKeepsProgress(newest[i], 4 * Max(Target(ms, available), MIN_LAST_MESSAGE_TOKENS));
    }
  }

  lemma {:induction false} KeepsProgressIff(ms: seq<Message>, available: nat)
    requires Paired(ms) && ms != [] && IsProgress(ms[0])
    ensures |Kept(ms, available)| > 0 <==> 2 * MessageTokens(ms[0]) <= available
  {
    ProgressIsOldestUnit(ms);
    assert Tokens([ms[0]]) == MessageTokens(ms[0]) + Tokens([ms[0]][1..]);
  }

  lemma {:induction false} NewestOfProgressOnly(ms: seq<Message>)
    requires Paired(ms) && LeadingProgress(ms, |ms|) && ms != []
    ensures var units := Units(ms);
            units != [] && var newest := units[|units| - 1]; |newest| == 1 && IsProgress(newest[0]) && newest[0] in ms
  {
    var units := Units(ms);
    UnitsLead(ms, |ms|);
    UnitsPartition(ms);
    var newest := units[|units| - 1];
    assert newest in units && newest != [];
    UnitMember(ms, newest, newest[0]);
  }

  /** A transcript of nothing but progress messages falls back on its last one. */
  lemma {:induction false} FallbackIsProgress(ms: seq<Message>, available: nat)
    requires Paired(ms) && AllUtf8(ms) && LeadingProgress(ms, |ms|) && ms != [] && Kept(ms, available) == []
    ensures |Fallback(ms, available)| == 1 && IsProgress(Fallback(ms, available)[0])
  {
    NewestOfProgressOnly(ms);
    var units := Units(ms);
    SqueezeKeepsProgress(units[|units| - 1][0], 4 * Max(Target(ms, available), MIN_LAST_MESSAGE_TOKENS));
  }

  /** How many progress messages a compaction leaves of `n`: one and as many as it keeps, when the
      message fits twice; otherwise one, and a second when there was nothing else to fall back on. */
  function CopiesLeft(ms: seq<Message>, available: nat, n: nat): nat
    requires ms != []
  {
    if 2 * MessageTokens(ms[0]) <= available then 1 + Min(|Kept(ms, available)|, n)
    else if n < |ms| then 1 else 2
  }

  /** A transcript led by progress messages comes out led by that many and no others, although
      the message is meant to have one copy. It has one copy exactly when the message does not
      fit twice and the transcript holds something else. */
  lemma {:induction false} CompactionCopiesProgress(ms: seq<Message>, available: nat, n: nat)
    requires Paired(ms) && AllUtf8(ms) && NoSystem(ms) && LeadingProgress(ms, n) && n >= 1
    ensures LeadingProgress(Compacted(ms, available), CopiesLeft(ms, available, n))
    ensures CopiesLeft(ms, available, n) == 1 <==> 2 * MessageTokens(ms[0]) > available && n < |ms|
  {
    KeepsProgressIff(ms, available);
    if 2 * MessageTokens(ms[0]) <= available {
      CopiesKept(ms, available, n);
    } else {
      CopiesFallenBack(ms, available, n);
    }
  }

  lemma {:induction false} CopiesKept(ms: seq<Message>, available: nat, n: nat)
    requires Paired(ms) && LeadingProgress(ms, n) && n >= 1 && 2 * MessageTokens(ms[0]) <= available
    ensures LeadingProgress(Compacted(ms, available), 1 + Min(|Kept(ms, available)|, n))
  {
    ProgressIsOldestUnit(ms);
    UnitsLead(ms, n);
    FlattenLeads(Units(ms), n, |Kept(ms, available)|);
    TwiceProgressFits(ms, available);
    KeepingAnythingFits(ms, available);
  }

  lemma {:induction false} SelectedFallenBack(ms: seq<Message>, available: nat, n: nat)
    requires Paired(ms) && AllUtf8(ms) && NoSystem(ms) && LeadingProgress(ms, n) && n >= 1 && Kept(ms, available) == []
    ensures LeadingProgress(Selected(ms, available), if n < |ms| then 1 else 2)
  {
    ProgressIsOldestUnit(ms);
    if n < |ms| {
      FallbackNoProgress(ms, available, n);
    } else {
      FallbackIsProgress(ms, available);
    }
    assert Selected(ms, available) == [ms[0]] + Fallback(ms, available);
  }

  lemma {:induction false} CopiesFallenBack(ms: seq<Message>, available: nat, n: nat)
    requires Paired(ms) && AllUtf8(ms) && NoSystem(ms) && LeadingProgress(ms, n) && n >= 1 && Kept(ms, available) == []
    ensures LeadingProgress(Compacted(ms, available), if n < |ms| then 1 else 2)
  {
    SelectedFallenBack(ms, available, n);
    SelectedUtf8(ms, available);
    SqueezeLoopKeepsProgress(Selected(ms, available), available, SQUEEZE_ROUNDS, if n < |ms| then 1 else 2);
  }
}
