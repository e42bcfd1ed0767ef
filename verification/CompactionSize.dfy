/** Exactly when a compaction lands inside the budget, and how far outside it can land. */
module CompactionSize {
  import opened Sequences
  import opened Text
  import opened Messages
  import opened TurnUnits
  import opened Compaction

  // ----- Where the rebuilt messages come from -----

  lemma {:induction false} FlattenMember<T>(ss: seq<seq<T>>, s: seq<T>, x: T)
    requires s in ss && x in s
    ensures x in Flatten(ss)
  {
    if s != ss[0] {
      FlattenMember(ss[1..], s, x);
    }
  }

  lemma {:induction false} FlattenSource<T>(ss: seq<seq<T>>, x: T) returns (s: seq<T>)
    requires x in Flatten(ss)
    ensures s in ss && x in s
  {
    if x in ss[0] {
      s := ss[0];
    } else {
      s := FlattenSource(ss[1..], x);
    }
  }

  lemma {:induction false} UnitMember(ms: seq<Message>, u: seq<Message>, m: Message)
    requires u in Units(ms) && m in u
    ensures m in ms
  {
    UnitsPartition(ms);
    FlattenMember(Units(ms), u, m);
    assert m in multiset(Flatten(Units(ms)));
  }

  lemma {:induction false} KeptMember(ms: seq<Message>, available: nat, m: Message)
    requires m in Flatten(Kept(ms, available))
    ensures m in ms
  {
    var u := FlattenSource(Kept(ms, available), m);
    UnitMember(ms, u, m);
  }

  /** Compaction works on texts and produces texts. */
  lemma {:induction false} SelectedUtf8(ms: seq<Message>, available: nat)
    requires AllUtf8(ms)
    ensures AllUtf8(Selected(ms, available))
  {
    var kept := Flatten(Kept(ms, available));
    forall i | 0 <= i < |kept| ensures Utf8(kept[i]) {
      KeptMember(ms, available, kept[i]);
    }
    FallbackUtf8(ms, available);
    BaseUtf8(ms);
    AllUtf8Concat(Base(ms), kept);
    AllUtf8Concat(Base(ms) + kept, Fallback(ms, available));
  }

  lemma {:induction false} AllUtf8Concat(a: seq<Message>, b: seq<Message>)
    requires AllUtf8(a) && AllUtf8(b)
    ensures AllUtf8(a + b)
  {
  }

  lemma {:induction false} BaseUtf8(ms: seq<Message>)
    requires AllUtf8(ms)
    ensures AllUtf8(Base(ms))
  {
    assert forall i :: 0 <= i < |Base(ms)| ==> Base(ms)[i] in ms;
  }

  lemma {:induction false} FallbackUtf8(ms: seq<Message>, available: nat)
    requires AllUtf8(ms)
    ensures AllUtf8(Fallback(ms, available))
  {
    var fallback := Fallback(ms, available);
    forall i | 0 <= i < |fallback| ensures Utf8(fallback[i]) {
      var units := Units(ms);
      var newest := units[|units| - 1];
      UnitMember(ms, newest, newest[i]);
      SqueezeKeepsUtf8(newest[i], 4 * Max(Target(ms, available), MIN_LAST_MESSAGE_TOKENS));
    }
  }

  lemma {:induction false} SqueezeLoopUtf8(ms: seq<Message>, available: nat, rounds: nat)
    requires AllUtf8(ms)
    ensures AllUtf8(SqueezeLoop(ms, available, rounds))
    decreases rounds
  {
    var i := LastNonSystem(ms);
    if rounds != 0 && Tokens(ms) > available && i < |ms| && MessageTokens(ms[i]) != 0 {
      SqueezeRoundStaysOver(ms, i, available);
      SqueezeLoopUtf8(SqueezeRound(ms, i, available), available, rounds - 1);
    }
  }

  lemma {:induction false} CompactedUtf8(ms: seq<Message>, available: nat)
    requires AllUtf8(ms)
    ensures AllUtf8(Compacted(ms, available))
  {
    SelectedUtf8(ms, available);
    SqueezeLoopUtf8(Selected(ms, available), available, SQUEEZE_ROUNDS);
  }

  // ----- When something is kept -----

  /** The oldest unit of nonzero size fits in `room`. */
  predicate OldestPricedUnitFits(units: seq<seq<Message>>, room: nat)
  {
    exists k :: 0 <= k < |units| && Tokens(Flatten(units[..k])) == 0 && 0 < Tokens(units[k]) <= room
  }

  lemma {:induction false} PrefixGrows(units: seq<seq<Message>>, j: nat, k: nat)
    requires j <= k <= |units|
    ensures Tokens(Flatten(units[..j])) <= Tokens(Flatten(units[..k]))
  {
    assert units[..k] == units[..j] + units[j..k];
    FlattenConcat(units[..j], units[j..k]);
    TokensConcat(Flatten(units[..j]), Flatten(units[j..k]));
  }

  lemma {:induction false} FirstPriced(units: seq<seq<Message>>, n: nat) returns (k: nat)
    requires n <= |units| && Tokens(Flatten(units[..n])) > 0
    ensures k < n && Tokens(Flatten(units[..k])) == 0 && Tokens(units[k]) > 0
    decreases n
  {
    PrefixStep(units, n - 1);
    if Tokens(Flatten(units[..n - 1])) > 0 {
      k := FirstPriced(units, n - 1);
    } else {
      k := n - 1;
    }
  }

  lemma {:induction false} KeepFromIff(units: seq<seq<Message>>, target: nat)
    ensures Tokens(Flatten(units[..KeepFrom(units, 0, target)])) > 0 <==> OldestPricedUnitFits(units, target)
  {
    var n := KeepFrom(units, 0, target);
    KeepFromLongest(units, 0, target);
    if Tokens(Flatten(units[..n])) > 0 {
      var k := FirstPriced(units, n);
      PrefixStep(units, k);
      PrefixGrows(units, k + 1, n);
    }
    if OldestPricedUnitFits(units, target) {
      var k :| 0 <= k < |units| && Tokens(Flatten(units[..k])) == 0 && 0 < Tokens(units[k]) <= target;
      PrefixStep(units, k);
      assert Tokens(Flatten(units[..k + 1])) <= target;
      PrefixGrows(units, k + 1, n);
    }
  }

  lemma {:induction false} KeptIff(ms: seq<Message>, available: nat)
    ensures Tokens(Flatten(Kept(ms, available))) > 0 <==> OldestPricedUnitFits(Units(ms), Target(ms, available))
  {
    KeepFromIff(Units(ms), Target(ms, available));
  }

  // ----- When the squeezed newest unit fits -----

  /** Squeezing a unit to `keep` tokens a message only ever lands within `keep` when there was
      nothing to squeeze. */
  lemma {:induction false} SqueezeAllFits(unit: seq<Message>, keep: nat)
    requires AllUtf8(unit)
    ensures Tokens(SqueezeAll(unit, 4 * keep)) <= keep || Tokens(unit) <= keep
        ==> Tokens(SqueezeAll(unit, 4 * keep)) == Tokens(unit)
  {
    if unit != [] {
      SqueezeEitherKeepsOrExceeds(unit[0], keep);
      SqueezeAllFits(unit[1..], keep);
      assert SqueezeAll(unit, 4 * keep)[1..] == SqueezeAll(unit[1..], 4 * keep);
    }
  }

  /** The newest unit fits beside the base. */
  predicate NewestUnitFits(ms: seq<Message>, room: nat)
  {
    var units := Units(ms);
    units != [] && Tokens(units[|units| - 1]) <= room
  }

  lemma {:induction false} FallbackFits(ms: seq<Message>, available: nat)
    requires AllUtf8(ms) && ms != [] && Tokens(Flatten(Kept(ms, available))) == 0
    requires Tokens(Base(ms)) <= available
    ensures Tokens(Fallback(ms, available)) <= Target(ms, available) <==> NewestUnitFits(ms, Target(ms, available))
  {
    UnitsPartition(ms);
    var units, target := Units(ms), Target(ms, available);
    var newest, keep := units[|units| - 1], Max(target, MIN_LAST_MESSAGE_TOKENS);
    forall i | 0 <= i < |newest| ensures Utf8(newest[i]) {
      UnitMember(ms, newest, newest[i]);
    }
    SqueezeAllFits(newest, keep);
  }

  // ----- The exact budget guarantee -----

  /** What can be read off the transcript before compacting: it is empty, or its system prompt
      and progress message leave room for the oldest unit of nonzero size or for the newest
      unit. */
  predicate WillFit(ms: seq<Message>, available: nat)
  {
    || ms == []
    || (&& Tokens(Base(ms)) <= available
        && (|| OldestPricedUnitFits(Units(ms), available - Tokens(Base(ms)))
            || NewestUnitFits(ms, available - Tokens(Base(ms)))))
  }

  /** The transcript is within the budget before the squeeze loop exactly under that condition. */
  lemma {:induction false} SelectedFitsIff(ms: seq<Message>, available: nat)
    requires AllUtf8(ms)
    ensures Tokens(Selected(ms, available)) <= available <==> WillFit(ms, available)
  {
    SelectedTokens(ms, available);
    if ms == [] {
      UnitsPartition(ms);
    } else if Tokens(Base(ms)) <= available {
      var kept := Tokens(Flatten(Kept(ms, available)));
      KeptIsLongestPrefix(ms, available);
      KeptIff(ms, available);
      if kept == 0 {
        FallbackFits(ms, available);
      }
    }
  }

  /** The step meant to make the budget a guarantee never does: a compaction ends within the
      budget if and only if it was within it before the squeeze loop, so if and only if the
      condition on the incoming transcript holds. */
  lemma {:induction false} CompactionFitsIff(ms: seq<Message>, available: nat)
    requires AllUtf8(ms)
    ensures Tokens(Compacted(ms, available)) <= available <==> WillFit(ms, available)
  {
    SelectedFitsIff(ms, available);
    if Tokens(Selected(ms, available)) > available {
      SelectedUtf8(ms, available);
      SqueezeLoopStaysOver(Selected(ms, available), available, SQUEEZE_ROUNDS);
    }
  }

  lemma {:induction false} UnitsOfOne(m: Message)
    requires m.User?
    ensures Units([m]) == [[m]]
  {
    assert BlockMessages(Lone(m)) == [m];
    TranscriptOne(Lone(m));
    UnitsOfTranscript([Lone(m)]);
    assert AllMessages(FlipAll([Lone(m)])) == [[m]];
  }

  /** A transcript the guarantee fails for: one user message of 16 bytes against a budget of
      four tokens. */
  lemma {:induction false} CompactionCanExceedBudget()
    ensures exists ms :: AllUtf8(ms) && Tokens(Compacted(ms, 4)) > 4
  {
    var m := User(seq(16, _ => 65));
    var ms := [m];
    AsciiWellFormed(m.content);
    assert Base(ms) == [] by {
      assert Bytes(PROGRESS_OPEN)[0] == 60;
    }
    assert Tokens(ms) == MessageTokens(m) + Tokens([]);
    UnitsOfOne(m);
    CompactionFitsIff(ms, 4);
  }

  // ----- The ceiling -----

  lemma {:induction false} OverBudgetIsFallback(ms: seq<Message>, available: nat)
    requires Tokens(Selected(ms, available)) > available
    ensures Fallback(ms, available) != []
  {
    var kept := Tokens(Flatten(Kept(ms, available)));
    SelectedTokens(ms, available);
    assert kept <= Target(ms, available) by { KeptIsLongestPrefix(ms, available); }
    UnitsPartition(ms);
    if kept == 0 && ms != [] {
      var units := Units(ms);
      assert units[|units| - 1] in units;
    }
  }

  lemma {:induction false} FallbackIsLast(ms: seq<Message>, available: nat)
    requires Fallback(ms, available) != []
    ensures var s, f := Selected(ms, available), Fallback(ms, available);
            s != [] && s[|s| - 1] == f[|f| - 1] && LastNonSystem(s) == |s| - 1
  {
    EndsInUser(Base(ms) + Flatten(Kept(ms, available)), Fallback(ms, available));
  }

  lemma {:induction false} EndsInUser(a: seq<Message>, b: seq<Message>)
    requires b != [] && !b[|b| - 1].System?
    ensures (a + b)[|a + b| - 1] == b[|b| - 1] && LastNonSystem(a + b) == |a + b| - 1
  {
  }

  lemma {:induction false} FallbackSized(ms: seq<Message>, available: nat, i: nat)
    requires (forall j :: 0 <= j < |ms| ==> Sized(ms[j])) && BudgetInRange(available)
    requires i < |Fallback(ms, available)|
    ensures Sized(Fallback(ms, available)[i])
  {
    var units := Units(ms);
    var newest, keep := units[|units| - 1], Max(Target(ms, available), MIN_LAST_MESSAGE_TOKENS);
    UnitMember(ms, newest, newest[i]);
    InRange(keep);
    SqueezeBound(newest[i], keep);
  }

  /** When compaction has to squeeze, its result is over the budget and under a ceiling made of
      everything it may not shorten: the other messages, at least 32 tokens of the squeezed
      one, that message's calls or images, and 28 tokens of elision marker. */
  lemma {:induction false} SqueezedSizeBracket(ms: seq<Message>, available: nat)
    requires AllUtf8(ms) && (forall j :: 0 <= j < |ms| ==> Sized(ms[j])) && BudgetInRange(available)
    requires !WillFit(ms, available)
    ensures var s := Selected(ms, available);
            && s != []
            && var last := |s| - 1;
               available < Tokens(Compacted(ms, available))
                        <= SqueezeCeiling(TokensBut(s, last), FixedTokens(s[last]), available)
  {
    SelectedFitsIff(ms, available);
    CompactionFitsIff(ms, available);
    OverBudgetIsFallback(ms, available);
    FallbackIsLast(ms, available);
    FallbackSized(ms, available, |Fallback(ms, available)| - 1);
    SqueezeLoopBound(Selected(ms, available), available, SQUEEZE_ROUNDS);
  }

  // ----- What is lost -----

  lemma {:induction false} TokensRemove(ms: seq<Message>, i: nat)
    requires i < |ms|
    ensures Tokens(ms) == MessageTokens(ms[i]) + Tokens(ms[..i] + ms[i + 1..])
  {
    TokensConcat(ms[..i], ms[i + 1..]);
    TokensAt(ms, i);
  }

  lemma {:induction false} PermutationTail(a: seq<Message>, b: seq<Message>, i: nat)
    requires multiset(a) == multiset(b) && a != [] && i < |b| && b[i] == a[0]
    ensures multiset(a[1..]) == multiset(b[..i] + b[i + 1..])
  {
    RemoveAt(b, i);
    RemoveHead(a);
  }

  lemma {:induction false} TokensPermutation(a: seq<Message>, b: seq<Message>)
    requires multiset(a) == multiset(b)
    ensures Tokens(a) == Tokens(b)
  {
    if a == [] {
      assert |multiset(b)| == 0;
    } else {
      assert a[0] in multiset(a);
      var i :| 0 <= i < |b| && b[i] == a[0];
      PermutationTail(a, b, i);
      TokensPermutation(a[1..], b[..i] + b[i + 1..]);
      TokensRemove(b, i);
    }
  }
}
