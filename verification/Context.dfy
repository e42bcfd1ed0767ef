/** The conversation and the accounting that keeps it inside the window. */
module ContextEngine {
  import opened Sequences
  import opened Text
  import opened Messages
  import opened TaskState
  import opened TurnUnits
  import opened Compaction

  // ----- Budget -----

  datatype Budget = Budget(limit: nat, reservedOutput: nat)

  function Available(b: Budget): nat { SaturatingSub(b.limit, b.reservedOutput) }

  predicate Fits(b: Budget, tokens: nat) { tokens + b.reservedOutput <= b.limit }

  /** Being within what is available is the same as fitting, as long as the reserve itself fits. */
  lemma {:induction false} AvailableMeansFits(b: Budget, tokens: nat)
    ensures b.reservedOutput <= b.limit ==> (tokens <= Available(b) <==> Fits(b, tokens))
    ensures b.reservedOutput > b.limit ==> !Fits(b, tokens) && Available(b) == 0
  {
  }

  // ----- The progress message -----

  const PROGRESS_BYTE_CAP: nat := 8000

  function ProgressBlock(s: TaskState, b: Budget): Text
  {
    CompressOutput(Render(s), Min(Available(b) / 2 * 4, PROGRESS_BYTE_CAP))
  }

  function ProgressMessage(s: TaskState, b: Budget): (m: Message)
    ensures IsProgress(m)
  {
    var content := Bytes("<progress>\n") + ProgressBlock(s, b) + Bytes("\n</progress>");
    assert Bytes("<progress>\n") == Bytes(PROGRESS_OPEN) + Bytes("\n");
    assert content[..10] == Bytes(PROGRESS_OPEN);
    User(content)
  }

  /** The transcript with its progress message inserted or replaced, after a leading system
      prompt if there is one. */
  function Refreshed(ms: seq<Message>, progress: Message): (r: seq<Message>)
    ensures r != []
  {
    var at := if ms != [] && ms[0].System? then 1 else 0;
    if at < |ms| && IsProgress(ms[at]) then ms[at := progress] else ms[..at] + [progress] + ms[at..]
  }

  // ----- One step of a conversation -----

  datatype Snapshot = Snapshot(state: TaskState, messages: seq<Message>, peakTokens: nat, compactions: nat)

  datatype Step =
    | PushTurn(response: Response, results: seq<ToolResult>)
    | Steer(note: Text)
    | RecordFiles(read: seq<Text>, changed: seq<Text>)
    | Refresh
    | Compact

  function Observations(results: seq<ToolResult>): (r: seq<Observation>)
    ensures |r| == |results|
    ensures forall i :: 0 <= i < |r| ==> r[i] == Observation(results[i].content, results[i].ok)
  {
    seq(|results|, i requires 0 <= i < |results| => Observation(results[i].content, results[i].ok))
  }

  function ResultMessages(results: seq<ToolResult>): (r: seq<Message>)
    ensures |r| == |results|
    ensures forall i :: 0 <= i < |r| ==> r[i] == Tool(results[i].callId, results[i].name, results[i].content, results[i].images)
  {
    seq(|results|, i requires 0 <= i < |results| =>
      Tool(results[i].callId, results[i].name, results[i].content, results[i].images))
  }

  function TurnMessages(response: Response, results: seq<ToolResult>): seq<Message>
  {
    (if response.text.Some? || response.toolCalls != [] then [Assistant(response.text, response.toolCalls)] else [])
    + ResultMessages(results)
  }

  function SteeringMessage(note: Text): Message
  {
    User(Bytes("<steering>\n") + note + Bytes("\n</steering>"))
  }

  function InsertAll(paths: seq<Text>, more: seq<Text>): (r: seq<Text>)
    ensures forall x :: x in r <==> x in paths || x in more
    decreases |more|
  {
    if more == [] then paths else InsertAll(InsertPath(paths, more[0]), more[1..])
  }

  function AfterCompact(s: Snapshot, b: Budget): Snapshot
  {
    s.(messages := Compacted(s.messages, Available(b)), compactions := s.compactions + 1)
  }

  /** A turn recorded and the progress message refreshed, before any compaction. */
  function Recorded(s: Snapshot, response: Response, results: seq<ToolResult>, b: Budget): (r: Snapshot)
    ensures r.messages != []
  {
    var state := Observe(s.state, response.toolCalls, Observations(results));
    var messages := Refreshed(s.messages + TurnMessages(response, results), ProgressMessage(state, b));
    s.(state := state, messages := messages, peakTokens := Max(s.peakTokens, Tokens(messages)))
  }

  function AfterTurn(s: Snapshot, response: Response, results: seq<ToolResult>, b: Budget): Snapshot
  {
    var recorded := Recorded(s, response, results, b);
    if Fits(b, Tokens(recorded.messages)) then recorded else AfterCompact(recorded, b)
  }

  function Next(s: Snapshot, step: Step, b: Budget): Snapshot
  {
    match step
    case PushTurn(response, results) => AfterTurn(s, response, results, b)
    case Steer(note) => s.(messages := s.messages + [SteeringMessage(note)])
    case RecordFiles(read, changed) =>
      s.(state := s.state.(filesRead := InsertAll(s.state.filesRead, read),
                           filesChanged := InsertAll(s.state.filesChanged, changed)))
    case Refresh => s.(messages := Refreshed(s.messages, ProgressMessage(s.state, b)))
    case Compact => AfterCompact(s, b)
  }

  function Initial(state: TaskState): Snapshot { Snapshot(state, [], 0, 0) }

  function Run(s: Snapshot, steps: seq<Step>, b: Budget): Snapshot
  {
    if steps == [] then s else Next(Run(s, steps[..|steps| - 1], b), steps[|steps| - 1], b)
  }

  // ----- The object -----

  class Context {
    var state: TaskState
    var messages: seq<Message>
    var peakTokens: nat
    var compactions: nat
    const budget: Budget

    constructor (objective: Text, budget: Budget)
      ensures Snap() == Initial(NewState(objective)) && this.budget == budget
    {
      this.state := NewState(objective);
      this.messages := [];
      this.peakTokens := 0;
      this.compactions := 0;
      this.budget := budget;
    }

    ghost function Snap(): Snapshot
      reads this
    {
      Snapshot(state, messages, peakTokens, compactions)
    }

    method RefreshProgress()
      modifies this`messages
      ensures messages == Refreshed(old(messages), ProgressMessage(state, budget))
    {
      var progress := ProgressMessage(state, budget);
      var at := 0;
      if |messages| > 0 && messages[0].System? {
        at := 1;
      }
      if at < |messages| && IsProgress(messages[at]) {
        messages := messages[at := progress];
      } else {
        messages := messages[..at] + [progress] + messages[at..];
      }
    }

    method PushSteering(note: Text)
      modifies this`messages
      ensures messages == old(messages) + [SteeringMessage(note)]
    {
      messages := messages + [SteeringMessage(note)];
    }

    method RecordTouched(read: seq<Text>, changed: seq<Text>)
      modifies this`state
      ensures state == old(state).(filesRead := InsertAll(old(state).filesRead, read),
                                   filesChanged := InsertAll(old(state).filesChanged, changed))
    {
      state := state.(filesRead := InsertAll(state.filesRead, read), filesChanged := InsertAll(state.filesChanged, changed));
    }

    /** Records a whole turn and compacts when the next request would not fit. */
    method PushTurnMessages(response: Response, results: seq<ToolResult>) returns (compacted: bool)
      modifies this
      ensures Snap() == AfterTurn(old(Snap()), response, results, budget)
      ensures compacted <==> compactions == old(compactions) + 1
      ensures compacted <==> !Fits(budget, Tokens(Recorded(old(Snap()), response, results, budget).messages))
    {
      ghost var before := Snap();
      state := ObserveTurn(state, response.toolCalls, Observations(results));
      var turn := BuildTurn(response, results);
      messages := messages + turn;
      RefreshProgress();
      peakTokens := Max(peakTokens, Tokens(messages));
      ghost var recorded := Recorded(before, response, results, budget);
      assert Snap() == recorded;
      if Fits(budget, Tokens(messages)) {
        return false;
      }
      CompactMessages();
      assert Snap() == AfterCompact(recorded, budget);
      return true;
    }

    /** Rebuilds the transcript: base, oldest units that fit, a squeezed newest unit if none
        did, then at most eight squeezes of the last message. */
    method CompactMessages()
      modifies this`messages, this`compactions
      ensures messages == Compacted(old(messages), Available(budget)) && compactions == old(compactions) + 1
    {
      var available := Available(budget);
      var rebuilt := LeadingSystem(messages) + FirstProgress(messages);
      var target := SaturatingSub(available, Tokens(rebuilt));
      var reversed := TurnUnitsOf(Reverse(messages));
      var kept, used := KeepOldest(Reverse(reversed), target);
      rebuilt := rebuilt + kept;
      if used == 0 && |reversed| > 0 {
        rebuilt := rebuilt + SqueezeAll(reversed[0], 4 * Max(target, MIN_LAST_MESSAGE_TOKENS));
      }
      assert rebuilt == Selected(messages, available);
      rebuilt := SqueezeUntilFits(rebuilt, available, SQUEEZE_ROUNDS);
      messages := rebuilt;
      compactions := compactions + 1;
    }
  }

  method KeepOldest(units: seq<seq<Message>>, target: nat) returns (kept: seq<Message>, used: nat)
    ensures kept == Flatten(units[..KeepFrom(units, 0, target)]) && used == Tokens(kept)
  {
    kept, used := [], 0;
    var k: nat := 0;
    while k < |units| && used + Tokens(units[k]) <= target
      invariant k <= |units|
      invariant KeepFrom(units, 0, target) == k + KeepFrom(units[k..], used, target)
      invariant kept == Flatten(units[..k]) && used == Tokens(kept)
      decreases |units| - k
    {
      used := used + Tokens(units[k]);
      kept := kept + units[k];
      PrefixStep(units, k);
      k := k + 1;
    }
  }

  method BuildTurn(response: Response, results: seq<ToolResult>) returns (turn: seq<Message>)
    ensures turn == TurnMessages(response, results)
  {
    turn := [];
    if response.text.Some? || response.toolCalls != [] {
      turn := [Assistant(response.text, response.toolCalls)];
    }
    ghost var asked := turn;
    for i := 0 to |results|
      invariant turn == asked + ResultMessages(results)[..i]
    {
      var r := results[i];
      turn := turn + [Tool(r.callId, r.name, r.content, r.images)];
    }
  }

  lemma {:induction false} SqueezeLoopStep(ms: seq<Message>, available: nat, rounds: nat)
    requires rounds > 0 && Tokens(ms) > available
    ensures var i := LastNonSystem(ms);
            SqueezeLoop(ms, available, rounds) ==
              if i == |ms| || MessageTokens(ms[i]) == 0 then ms
              else SqueezeLoop(SqueezeRound(ms, i, available), available, rounds - 1)
  {
  }

  method SqueezeUntilFits(start: seq<Message>, available: nat, rounds: nat) returns (rebuilt: seq<Message>)
    ensures rebuilt == SqueezeLoop(start, available, rounds)
  {
    rebuilt := start;
    var guard := 0;
    while Tokens(rebuilt) > available && guard < rounds
      invariant guard <= rounds
      invariant SqueezeLoop(rebuilt, available, rounds - guard) == SqueezeLoop(start, available, rounds)
      decreases rounds - guard
    {
      var index := LastNonSystem(rebuilt);
      SqueezeLoopStep(rebuilt, available, rounds - guard);
      if index == |rebuilt| {
        break;
      }
      var current := MessageTokens(rebuilt[index]);
      if current == 0 {
        break;
      }
      rebuilt := SqueezeRound(rebuilt, index, available);
      guard := guard + 1;
    }
  }
}
