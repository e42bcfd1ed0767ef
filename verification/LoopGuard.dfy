/** The no-progress detector: a two-slot window proved against the whole history. */
module LoopGuards {
  import opened Wrappers
  import opened Text
  import opened Messages
  import opened TaskState

  // ----- Evidence -----

  datatype Progress =
    | NewFileInspected(path: Text)
    | FileChanged(path: Text)
    | NewObservation(text: Text)
    | NewError(text: Text)

  function Key(p: Progress): Text
  {
    match p
    case NewFileInspected(path) => Bytes("read:") + path
    case FileChanged(path) => Bytes("write:") + path
    case NewObservation(text) => Bytes("obs:") + text
    case NewError(text) => Bytes("err:") + text
  }

  /** No two pieces of evidence share a key. */
  lemma {:induction false} KeyInjective(p: Progress, q: Progress)
    requires Key(p) == Key(q)
    ensures p == q
  {
    assert Bytes("read:")[0] == 114 && Bytes("write:")[0] == 119 && Bytes("obs:")[0] == 111 && Bytes("err:")[0] == 101;
    assert Key(p)[0] == Key(q)[0];
    var n := if p.NewFileInspected? then 5 else if p.FileChanged? then 6 else 4;
    assert Key(p)[n..] == Key(q)[n..];
    match p {
      case NewFileInspected(x) => assert Key(p)[5..] == x && Key(q)[5..] == q.path;
      case FileChanged(x) => assert Key(p)[6..] == x && Key(q)[6..] == q.path;
      case NewObservation(x) => assert Key(p)[4..] == x && Key(q)[4..] == q.text;
      case NewError(x) => assert Key(p)[4..] == x && Key(q)[4..] == q.text;
    }
  }

  /** The evidence in one call; `pathOf` reads the "path" member of the arguments. */
  function CallProgress(c: ToolCall, pathOf: Text -> Option<Text>): seq<Progress>
  {
    var path := pathOf(c.arguments);
    if path.None? then []
    else if c.name == Bytes("read") then [NewFileInspected(path.value)]
    else if c.name == Bytes("write") || c.name == Bytes("edit") then [FileChanged(path.value)]
    else []
  }

  function CallsProgress(calls: seq<ToolCall>, pathOf: Text -> Option<Text>): seq<Progress>
  {
    if calls == [] then []
    else CallsProgress(calls[..|calls| - 1], pathOf) + CallProgress(calls[|calls| - 1], pathOf)
  }

  function ObservationProgress(o: Observation): Progress
  {
    if o.ok then NewObservation(o.summary) else NewError(o.summary)
  }

  function Classify(turn: Observed, pathOf: Text -> Option<Text>): seq<Progress>
  {
    CallsProgress(turn.calls, pathOf) + seq(|turn.obs|, i requires 0 <= i < |turn.obs| => ObservationProgress(turn.obs[i]))
  }

  method ClassifyTurn(turn: Observed, pathOf: Text -> Option<Text>) returns (out: seq<Progress>)
    ensures out == Classify(turn, pathOf)
  {
    out := [];
    for i := 0 to |turn.calls|
      invariant out == CallsProgress(turn.calls[..i], pathOf)
    {
      assert turn.calls[..i + 1][..i] == turn.calls[..i];
      out := out + CallProgress(turn.calls[i], pathOf);
    }
    assert turn.calls[..|turn.calls|] == turn.calls;
    ghost var fromCalls := out;
    for i := 0 to |turn.obs|
      invariant out == fromCalls + seq(i, j requires 0 <= j < i => ObservationProgress(turn.obs[j]))
    {
      out := out + [ObservationProgress(turn.obs[i])];
    }
  }

  // ----- Fingerprint -----

  function CallLines(calls: seq<ToolCall>): Text
  {
    if calls == [] then [] else CallLines(calls[..|calls| - 1]) + Signature(calls[|calls| - 1]) + Bytes("\n")
  }

  function ObservationLines(obs: seq<Observation>): Text
  {
    if obs == [] then [] else ObservationLines(obs[..|obs| - 1]) + obs[|obs| - 1].summary + Bytes("\n")
  }

  function Fingerprint(turn: Observed): Text { CallLines(turn.calls) + ObservationLines(turn.obs) }

  method BuildFingerprint(turn: Observed) returns (fingerprint: Text)
    ensures fingerprint == Fingerprint(turn)
  {
    fingerprint := [];
    for i := 0 to |turn.calls|
      invariant fingerprint == CallLines(turn.calls[..i])
    {
      assert turn.calls[..i + 1][..i] == turn.calls[..i];
      fingerprint := fingerprint + Signature(turn.calls[i]) + Bytes("\n");
    }
    assert turn.calls[..|turn.calls|] == turn.calls;
    ghost var lines := fingerprint;
    for i := 0 to |turn.obs|
      invariant fingerprint == lines + ObservationLines(turn.obs[..i])
    {
      assert turn.obs[..i + 1][..i] == turn.obs[..i];
      fingerprint := fingerprint + turn.obs[i].summary + Bytes("\n");
    }
    assert turn.obs[..|turn.obs|] == turn.obs;
  }

  // ----- The detector -----

  const U32_MAX: nat := 0xFFFF_FFFF

  datatype Guard = Guard(recent: seq<Text>, repeats: nat, seen: set<Text>)

  function Keys(progress: seq<Progress>): set<Text> { set p | p in progress :: Key(p) }

  function Evidence(g: Guard, keys: set<Text>): Guard
  {
    Guard(g.recent, if keys <= g.seen then g.repeats else 0, g.seen + keys)
  }

  predicate RepeatsBack(recent: seq<Text>) { |recent| >= 2 && recent[0] == recent[|recent| - 1] }

  function Seen(g: Guard, fingerprint: Text): Guard
  {
    var repeats := if RepeatsBack(g.recent) then (if g.repeats < U32_MAX then g.repeats + 1 else g.repeats) else 0;
    var recent := g.recent + [fingerprint];
    Guard(if |recent| > 2 then recent[|recent| - 2..] else recent, repeats, g.seen)
  }

  class LoopGuard {
    var recent: seq<Text>
    var repeats: nat
    var seenProgress: set<Text>
    const tolerance: nat

    constructor (tolerance: nat)
      ensures Value() == Guard([], 0, {}) && this.tolerance == tolerance
    {
      this.recent, this.repeats, this.seenProgress := [], 0, {};
      this.tolerance := tolerance;
    }

    ghost function Value(): Guard
      reads this
    {
      Guard(recent, repeats, seenProgress)
    }

    /** Records the evidence a turn brought; new evidence breaks the streak. */
    method RecordProgress(progress: seq<Progress>) returns (anyNew: bool)
      modifies this`repeats, this`seenProgress
      ensures Value() == Evidence(old(Value()), Keys(progress))
      ensures anyNew <==> !(Keys(progress) <= old(seenProgress))
    {
      anyNew := false;
      for i := 0 to |progress|
        invariant seenProgress == old(seenProgress) + Keys(progress[..i])
        invariant anyNew <==> !(Keys(progress[..i]) <= old(seenProgress))
        invariant repeats == old(repeats)
      {
        var key := Key(progress[i]);
        assert progress[..i + 1] == progress[..i] + [progress[i]];
        assert Keys(progress[..i + 1]) == Keys(progress[..i]) + {key};
        if key !in seenProgress {
          anyNew := true;
          seenProgress := seenProgress + {key};
        }
      }
      assert progress[..|progress|] == progress;
      if anyNew {
        repeats := 0;
      }
    }

    /** Feeds one turn; true when the session should stop. */
    method ObserveTurn(turn: Observed) returns (stop: bool)
      modifies this`repeats, this`recent
      ensures Value() == Seen(old(Value()), Fingerprint(turn))
      ensures stop <==> repeats >= tolerance
    {
      var fingerprint := BuildFingerprint(turn);
      if RepeatsBack(recent) {
        if repeats < U32_MAX {
          repeats := repeats + 1;
        }
      } else {
        repeats := 0;
      }
      recent := recent + [fingerprint];
      if |recent| > 2 {
        recent := recent[|recent| - 2..];
      }
      return repeats >= tolerance;
    }
  }

  // ----- The whole-history specification -----

  /** What one turn means to the detector. */
  datatype Turn = Turn(fingerprint: Text, keys: set<Text>)

  /** The detector after a history, evidence recorded before each turn is fed. */
  function GuardAfter(history: seq<Turn>): Guard
  {
    if history == [] then Guard([], 0, {})
    else
      var last := history[|history| - 1];
      Seen(Evidence(GuardAfter(history[..|history| - 1]), last.keys), last.fingerprint)
  }

  predicate Stops(history: seq<Turn>, tolerance: nat)
  {
    history != [] && GuardAfter(history).repeats >= tolerance
  }

  function AllKeys(history: seq<Turn>): set<Text>
  {
    if history == [] then {} else AllKeys(history[..|history| - 1]) + history[|history| - 1].keys
  }

  /** Turn `i` brought evidence no earlier turn had brought. */
  predicate Fresh(history: seq<Turn>, i: nat)
    requires i < |history|
  {
    !(history[i].keys <= AllKeys(history[..i]))
  }

  /** A streak of `t`: the `t + 1` turns before the last agree, and none of the last `t - 1`
      turns brought anything new. */
  predicate Stuck(history: seq<Turn>, t: nat)
    requires t >= 1
  {
    var n := |history|;
    && n >= t + 2
    && (forall i :: n - t - 2 <= i <= n - 2 ==> history[i].fingerprint == history[n - 2].fingerprint)
    && (forall i :: n - t + 1 <= i < n ==> !Fresh(history, i))
  }

  lemma {:induction false} WindowHoldsLastTwo(history: seq<Turn>)
    ensures var g, n := GuardAfter(history), |history|;
            && g.seen == AllKeys(history)
            && (n == 0 ==> g.recent == [])
            && (n == 1 ==> g.recent == [history[0].fingerprint])
            && (n >= 2 ==> g.recent == [history[n - 2].fingerprint, history[n - 1].fingerprint])
    decreases |history|
  {
    if history != [] {
      WindowHoldsLastTwo(history[..|history| - 1]);
    }
  }

  /** One step of the streak in terms of the history. */
  lemma {:induction false} RepeatsStep(history: seq<Turn>)
    requires history != []
    ensures var n := |history|;
            var before := GuardAfter(history[..n - 1]).repeats;
            var carried := if Fresh(history, n - 1) then 0 else before;
            GuardAfter(history).repeats ==
              (if n >= 3 && history[n - 3].fingerprint == history[n - 2].fingerprint
               then (if carried < U32_MAX then carried + 1 else carried)
               else 0)
  {
    var n, init := |history|, history[..|history| - 1];
    var g := GuardAfter(init);
    WindowHoldsLastTwo(init);
    assert RepeatsBack(g.recent) <==> n >= 3 && history[n - 3].fingerprint == history[n - 2].fingerprint by {
      if n >= 3 {
        assert init[n - 3] == history[n - 3] && init[n - 2] == history[n - 2];
      }
    }
    assert GuardAfter(history) == Seen(Evidence(g, history[n - 1].keys), history[n - 1].fingerprint);
  }

  lemma {:induction false} StuckStep(history: seq<Turn>, t: nat)
    requires t >= 1 && history != []
    ensures var n := |history|;
            Stuck(history, t) <==>
              && n >= 3 && history[n - 3].fingerprint == history[n - 2].fingerprint
              && (t == 1 || (!Fresh(history, n - 1) && Stuck(history[..n - 1], t - 1)))
  {
    var n, init := |history|, history[..|history| - 1];
    forall i | 0 <= i < n - 1 ensures Fresh(init, i) == Fresh(history, i) {
      assert init[..i] == history[..i];
    }
    if t > 1 && n >= t + 2 && history[n - 3].fingerprint == history[n - 2].fingerprint
       && !Fresh(history, n - 1) && Stuck(init, t - 1) {
      forall i | n - t - 2 <= i <= n - 2 ensures history[i].fingerprint == history[n - 2].fingerprint {
        if i < n - 2 {
          assert history[i] == init[i] && init[n - 3] == history[n - 3];
        }
      }
    }
    if t > 1 && Stuck(history, t) {
      forall i | n - t - 2 <= i <= n - 3 ensures init[i].fingerprint == init[n - 3].fingerprint {
        assert init[i] == history[i] && init[n - 3] == history[n - 3];
      }
    }
  }

  /** For every history and tolerance, the two-slot window stops the session exactly when the
      history is stuck: it compares the two turns before the current one, so it fires one turn
      after the streak it counts. */
  lemma {:induction false} StopsIffStuck(history: seq<Turn>, t: nat)
    requires 1 <= t <= U32_MAX
    ensures Stops(history, t) <==> Stuck(history, t)
    decreases |history|
  {
    if history != [] {
      RepeatsStep(history);
      StuckStep(history, t);
      if t > 1 {
        StopsIffStuck(history[..|history| - 1], t - 1);
      }
    }
  }

  /** A tolerance of zero stops at once. */
  lemma {:induction false} ZeroToleranceStops(history: seq<Turn>)
    ensures Stops(history, 0) <==> history != []
  {
  }

  // ----- How soon a stuck session is caught -----

  function TurnOf(turn: Observed, pathOf: Text -> Option<Text>): Turn
  {
    Turn(Fingerprint(turn), Keys(Classify(turn, pathOf)))
  }

  function History(turns: seq<Observed>, pathOf: Text -> Option<Text>): (h: seq<Turn>)
    ensures |h| == |turns| && forall i :: 0 <= i < |turns| ==> h[i] == TurnOf(turns[i], pathOf)
  {
    seq(|turns|, i requires 0 <= i < |turns| => TurnOf(turns[i], pathOf))
  }

  lemma {:induction false} KeysAccumulate(history: seq<Turn>, i: nat)
    requires i < |history|
    ensures history[i].keys <= AllKeys(history)
    decreases |history|
  {
    if i < |history| - 1 {
      KeysAccumulate(history[..|history| - 1], i);
    }
  }

  /** If every turn from the `s`-th on makes the same calls and gets the same answers, the guard
      has stopped the session by turn `s + t + 1`. */
  lemma {:induction false} RepeatingSessionIsCaught(turns: seq<Observed>, s: nat, t: nat, pathOf: Text -> Option<Text>)
    requires 1 <= s && 1 <= t <= U32_MAX && |turns| == s + t + 1
    requires forall i :: s - 1 <= i < |turns| ==> turns[i] == turns[s - 1]
    ensures Stops(History(turns, pathOf), t)
  {
    var h := History(turns, pathOf);
    forall i | s <= i < |h| ensures !Fresh(h, i) {
      KeysAccumulate(h[..i], s - 1);
    }
    StopsIffStuck(h, t);
  }
}
