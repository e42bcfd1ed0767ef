/** What a compaction forced by overflow loses, and what it keeps. */
module CompactionLoss {
  import opened Sequences
  import opened Text
  import opened Messages
  import opened TurnUnits
  import opened Compaction
  import opened CompactionSize
  import opened CompactionShape

  /** The selection keeps something of nonzero size. */
  predicate KeepsOldest(ms: seq<Message>, available: nat)
  {
    OldestPricedUnitFits(Units(ms), Target(ms, available))
  }

  function Newest(ms: seq<Message>): seq<Message>
    requires Units(ms) != []
  {
    Units(ms)[|Units(ms)| - 1]
  }

  /** What the compaction takes over unchanged: the base and the kept units. */
  function Carried(ms: seq<Message>, available: nat): seq<Message> { Base(ms) + Flatten(Kept(ms, available)) }

  /** How many bytes of each message of the newest unit the fallback leaves. */
  function FallbackLimit(ms: seq<Message>, available: nat): nat
  {
    4 * Max(Target(ms, available), MIN_LAST_MESSAGE_TOKENS)
  }

  lemma {:induction false} HasNewest(ms: seq<Message>, available: nat)
    requires Tokens(ms) > available
    ensures Units(ms) != [] && Newest(ms) != []
  {
    UnitsPartition(ms);
    assert Newest(ms) in Units(ms);
  }

  lemma {:induction false} FallbackIff(ms: seq<Message>, available: nat)
    requires Tokens(ms) > available
    ensures Units(ms) != []
    ensures Fallback(ms, available) == if KeepsOldest(ms, available) then [] else SqueezeAll(Newest(ms), FallbackLimit(ms, available))
    ensures Fallback(ms, available) == [] <==> KeepsOldest(ms, available)
  {
    HasNewest(ms, available);
    KeptIff(ms, available);
  }

  lemma {:induction false} NewestIsDropped(ms: seq<Message>, available: nat)
    requires Tokens(ms) > available && KeepsOldest(ms, available)
    ensures Kept(ms, available) <= Units(ms)[..|Units(ms)| - 1]
    ensures Compacted(ms, available) == Carried(ms, available)
  {
    KeptIff(ms, available);
    KeepingAnythingFits(ms, available);
    KeptIsProper(ms, available);
  }

  lemma {:induction false} KeptIsProper(ms: seq<Message>, available: nat)
    requires Tokens(ms) > available
    ensures Units(ms) != [] && Kept(ms, available) <= Units(ms)[..|Units(ms)| - 1]
  {
    var units, kept := Units(ms), Kept(ms, available);
    UnitsPartition(ms);
    assert Tokens(Flatten(units)) == Tokens(ms) by {
      TokensPermutation(Flatten(units), ms);
    }
    assert kept <= units && Tokens(Flatten(kept)) <= Target(ms, available) by {
      KeptIsLongestPrefix(ms, available);
    }
    assert kept != units;
  }

  // ----- The other half -----

  lemma {:induction false} SqueezeLoopIdle(ms: seq<Message>, available: nat, rounds: nat)
    requires Tokens(ms) <= available
    ensures SqueezeLoop(ms, available, rounds) == ms
  {
  }

  /** The two differ at most in the text of the last message. */
  predicate SameButLast(a: seq<Message>, b: seq<Message>)
  {
    a != [] && |a| == |b| && a[..|a| - 1] == b[..|a| - 1] && Similar(a[|a| - 1], b[|a| - 1])
  }

  lemma {:induction false} SimilarAgain(a: Message, b: Message, c: Message)
    requires Similar(a, b) && Similar(b, c)
    ensures Similar(a, c)
  {
  }

  lemma {:induction false} SameButLastAgain(a: seq<Message>, b: seq<Message>, c: seq<Message>)
    requires SameButLast(a, b) && SameButLast(b, c)
    ensures SameButLast(a, c)
  {
    SimilarAgain(a[|a| - 1], b[|a| - 1], c[|a| - 1]);
  }

  lemma {:induction false} RoundTouchesLast(ms: seq<Message>, available: nat)
    requires ms != [] && LastNonSystem(ms) == |ms| - 1
    ensures var next := SqueezeRound(ms, |ms| - 1, available);
            SameButLast(ms, next) && LastNonSystem(next) == |next| - 1
  {
    var i := |ms| - 1;
    SqueezeRoundShape(ms, i, 4 * SqueezeKeep(ms, i, available));
    SqueezeSimilar(ms[i], 4 * SqueezeKeep(ms, i, available));
    assert SqueezeRound(ms, i, available)[..i] == ms[..i];
  }

  /** The squeeze loop touches nothing but the last message, when that is no system prompt. */
  lemma {:induction false} SqueezeLoopTouchesLast(ms: seq<Message>, available: nat, rounds: nat)
    requires ms != [] && LastNonSystem(ms) == |ms| - 1
    ensures SameButLast(ms, SqueezeLoop(ms, available, rounds))
    decreases rounds
  {
    var i := |ms| - 1;
    if !(rounds == 0 || Tokens(ms) <= available || MessageTokens(ms[i]) == 0) {
      var next := SqueezeRound(ms, i, available);
      RoundTouchesLast(ms, available);
      SqueezeLoopTouchesLast(next, available, rounds - 1);
      SameButLastAgain(ms, next, SqueezeLoop(next, available, rounds - 1));
    }
  }

  /** The transcript ends in the given unit: each message with its role, calls and identity, all
      but the last cut once to the limit. */
  predicate EndsWith(after: seq<Message>, carried: seq<Message>, unit: seq<Message>, limit: nat)
  {
    && unit != [] && |after| == |carried| + |unit|
    && after[..|after| - 1] == carried + SqueezeAll(unit, limit)[..|unit| - 1]
    && Similar(unit[|unit| - 1], after[|after| - 1])
  }

  lemma {:induction false} LoopEndsWith(carried: seq<Message>, unit: seq<Message>, limit: nat, available: nat, rounds: nat)
    requires unit != []
    ensures EndsWith(SqueezeLoop(carried + SqueezeAll(unit, limit), available, rounds), carried, unit, limit)
  {
    var all := carried + SqueezeAll(unit, limit);
    EndsInUser(carried, SqueezeAll(unit, limit));
    SqueezeLoopTouchesLast(all, available, rounds);
    SameEnd(SqueezeLoop(all, available, rounds), carried, unit, limit);
  }

  lemma {:induction false} SameEnd(after: seq<Message>, carried: seq<Message>, unit: seq<Message>, limit: nat)
    requires unit != [] && SameButLast(carried + SqueezeAll(unit, limit), after)
    ensures EndsWith(after, carried, unit, limit)
  {
    var squeezed, last := SqueezeAll(unit, limit), |unit| - 1;
    ConcatEnd(carried, squeezed);
    SqueezeSimilar(unit[last], limit);
    SimilarAgain(unit[last], squeezed[last], after[|after| - 1]);
  }

  lemma {:induction false} SqueezeSimilar(m: Message, limit: nat)
    ensures Similar(m, SqueezeMessage(m, limit))
  {
  }

  /** When nothing of nonzero size is kept, the newest unit stays. */
  lemma {:induction false} NewestSurvives(ms: seq<Message>, available: nat)
    requires Tokens(ms) > available && !KeepsOldest(ms, available)
    ensures Units(ms) != []
    ensures EndsWith(Compacted(ms, available), Carried(ms, available), Newest(ms), FallbackLimit(ms, available))
  {
    HasNewest(ms, available);
    FallbackIff(ms, available);
    LoopEndsWith(Carried(ms, available), Newest(ms), FallbackLimit(ms, available), available, SQUEEZE_ROUNDS);
  }

  /** The squeezed form of a message that is not too long. */
  function AsUser(m: Message): Message { if m.System? then User(m.content) else m }

  function AsUsers(ms: seq<Message>): (r: seq<Message>)
    ensures |r| == |ms| && forall i :: 0 <= i < |ms| ==> r[i] == AsUser(ms[i])
  {
    seq(|ms|, i requires 0 <= i < |ms| => AsUser(ms[i]))
  }

  lemma {:induction false} SmallIsNotSqueezed(unit: seq<Message>, keep: nat)
    requires Tokens(unit) <= keep
    ensures SqueezeAll(unit, 4 * keep) == AsUsers(unit) && Tokens(AsUsers(unit)) == Tokens(unit)
    decreases |unit|
  {
    if unit != [] {
      SmallIsNotSqueezed(unit[1..], keep);
      assert SqueezeAll(unit, 4 * keep)[1..] == SqueezeAll(unit[1..], 4 * keep);
      assert AsUsers(unit)[1..] == AsUsers(unit[1..]);
      assert SqueezeMessage(unit[0], 4 * keep) == AsUser(unit[0]);
      assert SqueezeAll(unit, 4 * keep) == [AsUser(unit[0])] + AsUsers(unit[1..]);
    }
  }

  /** It stays word for word when it fits beside the base. */
  lemma {:induction false} NewestSurvivesWhole(ms: seq<Message>, available: nat)
    requires Tokens(ms) > available && !KeepsOldest(ms, available)
    requires Tokens(Base(ms)) <= available && NewestUnitFits(ms, Target(ms, available))
    ensures Compacted(ms, available) == Carried(ms, available) + AsUsers(Newest(ms))
  {
    FallbackIff(ms, available);
    KeptIff(ms, available);
    SelectedTokens(ms, available);
    SmallIsNotSqueezed(Newest(ms), Max(Target(ms, available), MIN_LAST_MESSAGE_TOKENS));
    SqueezeLoopIdle(Selected(ms, available), available, SQUEEZE_ROUNDS);
  }

  /** A compaction forced by overflow loses the newest unit, which is the turn just made, if and
      only if its oldest unit of nonzero size fits beside the base. Then what remains is the base
      and a prefix of the units before the newest. Otherwise the newest unit stays, and word for
      word when it fits beside the base. */
  lemma {:induction false} OverflowDropsNewestIff(ms: seq<Message>, available: nat)
    requires Tokens(ms) > available
    ensures Units(ms) != []
    ensures KeepsOldest(ms, available) <==> Fallback(ms, available) == []
    ensures KeepsOldest(ms, available) ==>
              && Kept(ms, available) <= Units(ms)[..|Units(ms)| - 1]
              && Compacted(ms, available) == Carried(ms, available)
    ensures !KeepsOldest(ms, available) ==>
              EndsWith(Compacted(ms, available), Carried(ms, available), Newest(ms), FallbackLimit(ms, available))
    ensures !KeepsOldest(ms, available) && Tokens(Base(ms)) <= available && NewestUnitFits(ms, Target(ms, available)) ==>
              Compacted(ms, available) == Carried(ms, available) + AsUsers(Newest(ms))
  {
    FallbackIff(ms, available);
    if KeepsOldest(ms, available) {
      NewestIsDropped(ms, available);
    } else {
      NewestSurvives(ms, available);
      if Tokens(Base(ms)) <= available && NewestUnitFits(ms, Target(ms, available)) {
        NewestSurvivesWhole(ms, available);
      }
    }
  }
}
