/** What a compaction rebuilds, stage by stage, and how large the result is. */
module Compaction {
  import opened Sequences
  import opened Text
  import opened Messages
  import opened TurnUnits

  const MIN_LAST_MESSAGE_TOKENS: nat := 256
  const MIN_SQUEEZE_TOKENS: nat := 32
  const SQUEEZE_ROUNDS: nat := 8
  const PROGRESS_OPEN := "<progress>"

  // ----- The base: system prompt and progress message -----

  predicate IsProgress(m: Message) { m.User? && Bytes(PROGRESS_OPEN) <= m.content }

  /** The first progress message, as a list of at most one. */
  function FirstProgress(ms: seq<Message>): (r: seq<Message>)
    ensures r == [] || (|r| == 1 && IsProgress(r[0]) && r[0] in ms)
    ensures r == [] <==> forall i :: 0 <= i < |ms| ==> !IsProgress(ms[i])
  {
    if ms == [] then [] else if IsProgress(ms[0]) then [ms[0]] else FirstProgress(ms[1..])
  }

  function LeadingSystem(ms: seq<Message>): seq<Message>
  {
    if ms != [] && ms[0].System? then [ms[0]] else []
  }

  function Base(ms: seq<Message>): seq<Message> { LeadingSystem(ms) + FirstProgress(ms) }

  // ----- Greedy selection -----

  /** How many units, oldest first, are taken before one no longer fits. */
  function KeepFrom(units: seq<seq<Message>>, used: nat, target: nat): (k: nat)
    ensures k <= |units|
  {
    if units == [] || used + Tokens(units[0]) > target then 0
    else 1 + KeepFrom(units[1..], used + Tokens(units[0]), target)
  }

  function Target(ms: seq<Message>, available: nat): nat { SaturatingSub(available, Tokens(Base(ms))) }

  function Kept(ms: seq<Message>, available: nat): seq<seq<Message>>
  {
    Units(ms)[..KeepFrom(Units(ms), 0, Target(ms, available))]
  }

  function SqueezeAll(unit: seq<Message>, limit: nat): (r: seq<Message>)
    ensures |r| == |unit|
    ensures forall i :: 0 <= i < |unit| ==> r[i] == SqueezeMessage(unit[i], limit)
  {
    seq(|unit|, i requires 0 <= i < |unit| => SqueezeMessage(unit[i], limit))
  }

  /** The newest unit, squeezed, when nothing of any size was kept. */
  function Fallback(ms: seq<Message>, available: nat): seq<Message>
  {
    var units := Units(ms);
    if Tokens(Flatten(Kept(ms, available))) == 0 && units != [] then
      SqueezeAll(units[|units| - 1], 4 * Max(Target(ms, available), MIN_LAST_MESSAGE_TOKENS))
    else []
  }

  function Selected(ms: seq<Message>, available: nat): seq<Message>
  {
    Base(ms) + Flatten(Kept(ms, available)) + Fallback(ms, available)
  }

  // ----- The squeeze loop -----

  /** The last message that is not a system prompt, or the length when there is none. */
  function LastNonSystem(ms: seq<Message>): (i: nat)
    ensures i <= |ms|
    ensures i < |ms| ==> !ms[i].System? && forall j :: i < j < |ms| ==> ms[j].System?
    ensures i == |ms| ==> forall j :: 0 <= j < |ms| ==> ms[j].System?
  {
    if ms == [] then 0
    else if !ms[|ms| - 1].System? then |ms| - 1
    else
      var i := LastNonSystem(ms[..|ms| - 1]);
      if i == |ms| - 1 then |ms| else i
  }

  /** How many tokens the squeezed message may keep. */
  function SqueezeKeep(ms: seq<Message>, i: nat, available: nat): nat
    requires i < |ms|
  {
    var overflow := SaturatingSub(Tokens(ms), available);
    Max(SaturatingSub(MessageTokens(ms[i]), overflow), MIN_SQUEEZE_TOKENS)
  }

  function SqueezeRound(ms: seq<Message>, i: nat, available: nat): seq<Message>
    requires i < |ms|
  {
    ms[i := SqueezeMessage(ms[i], 4 * SqueezeKeep(ms, i, available))]
  }

  function SqueezeLoop(ms: seq<Message>, available: nat, rounds: nat): seq<Message>
    decreases rounds
  {
    var i := LastNonSystem(ms);
    if rounds == 0 || Tokens(ms) <= available || i == |ms| || MessageTokens(ms[i]) == 0 then ms
    else SqueezeLoop(SqueezeRound(ms, i, available), available, rounds - 1)
  }

  function Compacted(ms: seq<Message>, available: nat): seq<Message>
  {
    SqueezeLoop(Selected(ms, available), available, SQUEEZE_ROUNDS)
  }

  // ----- Greedy selection keeps the longest prefix that fits -----

  lemma {:induction false} KeepFromLongest(units: seq<seq<Message>>, used: nat, target: nat)
    requires used <= target
    ensures var k := KeepFrom(units, used, target);
            && used + Tokens(Flatten(units[..k])) <= target
            && forall j :: k < j <= |units| ==> used + Tokens(Flatten(units[..j])) > target
    decreases |units|
  {
    var k := KeepFrom(units, used, target);
    if k != 0 {
      var used', rest := used + Tokens(units[0]), units[1..];
      KeepFromLongest(rest, used', target);
      PrefixTokens(units, k);
      forall j | k < j <= |units| ensures used + Tokens(Flatten(units[..j])) > target {
        PrefixTokens(units, j);
        assert used' + Tokens(Flatten(rest[..j - 1])) > target;
      }
    } else {
      forall j | 0 < j <= |units| ensures used + Tokens(Flatten(units[..j])) > target {
        PrefixTokens(units, j);
      }
    }
  }

  lemma {:induction false} PrefixStep(units: seq<seq<Message>>, k: nat)
    requires k < |units|
    ensures Flatten(units[..k + 1]) == Flatten(units[..k]) + units[k]
    ensures Tokens(Flatten(units[..k + 1])) == Tokens(Flatten(units[..k])) + Tokens(units[k])
    ensures units[k..][1..] == units[k + 1..]
  {
    assert units[..k + 1] == units[..k] + [units[k]];
    FlattenSnoc(units[..k], units[k]);
    TokensConcat(Flatten(units[..k]), units[k]);
  }

  lemma {:induction false} PrefixTokens(units: seq<seq<Message>>, j: nat)
    requires 0 < j <= |units|
    ensures Tokens(Flatten(units[..j])) == Tokens(units[0]) + Tokens(Flatten(units[1..][..j - 1]))
  {
    assert units[..j] == [units[0]] + units[1..][..j - 1];
    TokensConcat(units[0], Flatten(units[1..][..j - 1]));
  }

  /** The kept units are the longest prefix of the oldest-first unit list whose size fits the
      target, not the newest exchanges. */
  lemma {:induction false} KeptIsLongestPrefix(ms: seq<Message>, available: nat)
    ensures Kept(ms, available) <= Units(ms)
    ensures Tokens(Flatten(Kept(ms, available))) <= Target(ms, available)
    ensures forall p :: p <= Units(ms) && |p| > |Kept(ms, available)| ==> Tokens(Flatten(p)) > Target(ms, available)
  {
    var units := Units(ms);
    KeepFromLongest(units, 0, Target(ms, available));
    forall p | p <= units && |p| > |Kept(ms, available)| ensures Tokens(Flatten(p)) > Target(ms, available) {
      assert p == units[..|p|];
    }
  }

  lemma {:induction false} SelectedTokens(ms: seq<Message>, available: nat)
    ensures Tokens(Selected(ms, available))
         == Tokens(Base(ms)) + Tokens(Flatten(Kept(ms, available))) + Tokens(Fallback(ms, available))
  {
    TokensConcat(Base(ms) + Flatten(Kept(ms, available)), Fallback(ms, available));
    TokensConcat(Base(ms), Flatten(Kept(ms, available)));
  }

  /** Keeping anything of nonzero size settles the matter: the result is exactly the base and
      the kept units, it is within the budget, and the squeeze loop does not run. */
  lemma {:induction false} KeepingAnythingFits(ms: seq<Message>, available: nat)
    requires Tokens(Flatten(Kept(ms, available))) > 0
    ensures Compacted(ms, available) == Base(ms) + Flatten(Kept(ms, available))
    ensures Tokens(Compacted(ms, available)) <= available
  {
    KeptIsLongestPrefix(ms, available);
    SelectedTokens(ms, available);
    assert Fallback(ms, available) == [];
    assert Selected(ms, available) == Base(ms) + Flatten(Kept(ms, available));
  }

  // ----- The squeeze loop: never below the budget, and never far above it -----

  lemma {:induction false} SqueezeKeepValue(ms: seq<Message>, i: nat, available: nat)
    requires i < |ms| && Tokens(ms) > available
    ensures SqueezeKeep(ms, i, available) == Max(SaturatingSub(available, TokensBut(ms, i)), MIN_SQUEEZE_TOKENS)
  {
    TokensAt(ms, i);
  }

  /** One round leaves the transcript over the budget: a cut text exceeds what it was cut to,
      and an uncut one is as large as before. */
  lemma {:induction false} SqueezeRoundStaysOver(ms: seq<Message>, i: nat, available: nat)
    requires AllUtf8(ms) && i < |ms| && Tokens(ms) > available
    ensures Tokens(SqueezeRound(ms, i, available)) > available
    ensures AllUtf8(SqueezeRound(ms, i, available))
  {
    var keep := SqueezeKeep(ms, i, available);
    SqueezeKeepValue(ms, i, available);
    TokensAt(ms, i);
    TokensUpdate(ms, i, SqueezeMessage(ms[i], 4 * keep));
    SqueezeEitherKeepsOrExceeds(ms[i], keep);
    SqueezeKeepsUtf8(ms[i], 4 * keep);
  }

  lemma {:induction false} SqueezeLoopStaysOver(ms: seq<Message>, available: nat, rounds: nat)
    requires AllUtf8(ms) && Tokens(ms) > available
    ensures Tokens(SqueezeLoop(ms, available, rounds)) > available
    decreases rounds
  {
    var i := LastNonSystem(ms);
    if rounds != 0 && i < |ms| && MessageTokens(ms[i]) != 0 {
      SqueezeRoundStaysOver(ms, i, available);
      SqueezeLoopStaysOver(SqueezeRound(ms, i, available), available, rounds - 1);
    }
  }

  /** The size the squeeze loop settles under: `rest` is everything but the squeezed message
      and `fixed` is the part of that message it cannot shorten. */
  function SqueezeCeiling(rest: nat, fixed: nat, available: nat): nat
  {
    Max(available, rest + MIN_SQUEEZE_TOKENS) + fixed + 28
  }

  predicate BudgetInRange(available: nat) { available < 0x1_0000_0000 }

  lemma {:induction false} InRange(keep: nat)
    requires keep < 0x1_0000_0000
    ensures 4 * keep + 109 < Pow10(COUNT_DIGITS)
  {
    assert Pow10(12) == 1_000_000_000_000;
    Pow10Monotone(12, COUNT_DIGITS);
  }

  lemma {:induction false} Pow10Monotone(a: nat, b: nat)
    requires a <= b
    ensures Pow10(a) <= Pow10(b)
    decreases b - a
  {
    if a < b {
      Pow10Monotone(a + 1, b);
    }
  }

  lemma {:induction false} SqueezeRoundShape(ms: seq<Message>, i: nat, limit: nat)
    requires i == LastNonSystem(ms) < |ms|
    ensures LastNonSystem(ms[i := SqueezeMessage(ms[i], limit)]) == i
  {
    var after := ms[i := SqueezeMessage(ms[i], limit)];
    assert !after[i].System?;
    assert forall j :: i < j < |ms| ==> after[j] == ms[j];
  }

  lemma {:induction false} SqueezeRoundBound(ms: seq<Message>, i: nat, available: nat)
    requires i < |ms| && Sized(ms[i]) && Tokens(ms) > available && BudgetInRange(available)
    ensures var after := SqueezeRound(ms, i, available);
            && Tokens(after) <= SqueezeCeiling(TokensBut(ms, i), FixedTokens(ms[i]), available)
            && Sized(after[i]) && TokensBut(after, i) == TokensBut(ms, i) && FixedTokens(after[i]) == FixedTokens(ms[i])
  {
    var keep := SqueezeKeep(ms, i, available);
    SqueezeKeepValue(ms, i, available);
    InRange(keep);
    var m := SqueezeMessage(ms[i], 4 * keep);
    SqueezeBound(ms[i], keep);
    TokensUpdate(ms, i, m);
    assert SqueezeRound(ms, i, available) == ms[i := m];
  }

  /** The first round brings the size under the ceiling and the later ones keep it there. */
  lemma {:induction false} SqueezeLoopBound(ms: seq<Message>, available: nat, rounds: nat)
    requires rounds > 0 && Tokens(ms) > available && BudgetInRange(available)
    requires LastNonSystem(ms) < |ms| && Sized(ms[LastNonSystem(ms)])
    ensures var i := LastNonSystem(ms);
            Tokens(SqueezeLoop(ms, available, rounds)) <= SqueezeCeiling(TokensBut(ms, i), FixedTokens(ms[i]), available)
    decreases rounds
  {
    var i := LastNonSystem(ms);
    TokensAt(ms, i);
    if MessageTokens(ms[i]) != 0 {
      var after := SqueezeRound(ms, i, available);
      SqueezeRoundBound(ms, i, available);
      SqueezeRoundShape(ms, i, 4 * SqueezeKeep(ms, i, available));
      if rounds > 1 && Tokens(after) > available {
        SqueezeLoopBound(after, available, rounds - 1);
      }
    }
  }
}
