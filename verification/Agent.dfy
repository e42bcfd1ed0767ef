/** The agent's run: one model request a turn, the calls it asks for, and the session file. */
module AgentLoop {
  import opened Wrappers
  import opened Order
  import opened Text
  import opened Messages
  import opened TaskState
  import opened ContextEngine
  import opened ContextRuns
  import opened TurnUnits
  import opened LoopGuards
  import opened Session

  // ----- The request budget -----

  datatype CheckResult = Proceed(turn: nat) | Refuse(stop: Stop)

  class RequestBudget {
    const limits: Limits
    var requests: nat

    constructor (limits: Limits)
      ensures requests == 0 && this.limits == limits
    {
      this.limits, this.requests := limits, 0;
    }

    /** Asked before a request is spent. */
    method Check(elapsedMs: nat) returns (r: CheckResult)
      ensures r.Proceed? <==> requests < limits.maxModelRequests && elapsedMs < limits.wallSeconds * 1000
      ensures r.Proceed? ==> r.turn == requests + 1
      ensures r.Refuse? ==> r.stop == if requests >= limits.maxModelRequests then MaxRequests else WallClock
    {
      if requests >= limits.maxModelRequests {
        return Refuse(MaxRequests);
      }
      if elapsedMs >= limits.wallSeconds * 1000 {
        return Refuse(WallClock);
      }
      return Proceed(requests + 1);
    }

    /** The counter saturates. */
    method RecordRequest()
      modifies this
      ensures requests == if old(requests) < U32_MAX then old(requests) + 1 else old(requests)
    {
      if requests < U32_MAX {
        requests := requests + 1;
      }
    }

    function RemainingRequests(): nat
      reads this
    {
      SaturatingSub(limits.maxModelRequests, requests)
    }
  }

  // ----- Counting -----

  datatype Counter = Counter(name: Text, count: nat)

  /** One more use of a tool, in a table kept in ascending name order. */
  function Bump(counts: seq<Counter>, name: Text): seq<Counter>
  {
    if counts == [] then [Counter(name, 1)]
    else if counts[0].name == name then [Counter(name, counts[0].count + 1)] + counts[1..]
    else if Less(name, counts[0].name) then [Counter(name, 1)] + counts
    else [counts[0]] + Bump(counts[1..], name)
  }

  function Total(counts: seq<Counter>): nat
  {
    if counts == [] then 0 else counts[0].count + Total(counts[1..])
  }

  /** The sum of the entries under a name. */
  function Uses(counts: seq<Counter>, name: Text): nat
  {
    if counts == [] then 0 else (if counts[0].name == name then counts[0].count else 0) + Uses(counts[1..], name)
  }

  function Occurrences(calls: seq<ToolCall>, name: Text): nat
  {
    if calls == [] then 0
    else Occurrences(calls[..|calls| - 1], name) + (if calls[|calls| - 1].name == name then 1 else 0)
  }

  lemma {:induction false} BumpCounts(counts: seq<Counter>, name: Text, other: Text)
    ensures Total(Bump(counts, name)) == Total(counts) + 1
    ensures Uses(Bump(counts, name), other) == Uses(counts, other) + (if other == name then 1 else 0)
  {
    if counts != [] {
      BumpCounts(counts[1..], name, other);
      assert ([Counter(name, counts[0].count + 1)] + counts[1..])[1..] == counts[1..];
      assert ([Counter(name, 1)] + counts)[1..] == counts;
      assert ([counts[0]] + Bump(counts[1..], name))[1..] == Bump(counts[1..], name);
    }
  }

  datatype Metrics = Metrics(
    modelRequests: nat, usage: Usage, toolCalls: seq<Counter>, toolFailures: nat,
    shellCommands: nat, compactions: nat, contextPeakTokens: nat)

  function AddUsage(a: Usage, b: Usage): Usage
  {
    Usage(a.input + b.input, a.output + b.output, a.cacheRead + b.cacheRead, a.cacheWrite + b.cacheWrite)
  }

  function TotalUsage(responses: seq<Response>): Usage
  {
    if responses == [] then Usage(0, 0, 0, 0)
    else AddUsage(TotalUsage(responses[..|responses| - 1]), responses[|responses| - 1].usage)
  }

  /** Everything that happened, in order. */
  datatype Trace = Trace(
    responses: seq<Response>,
    dispatched: seq<ToolCall>,
    failures: nat,
    observed: seq<Observed>,
    steps: seq<Step>)

  /** The metrics say what happened. */
  ghost predicate Accounted(m: Metrics, t: Trace)
  {
    && m.modelRequests == |t.responses|
    && m.usage == TotalUsage(t.responses)
    && (forall name :: Uses(m.toolCalls, name) == Occurrences(t.dispatched, name))
    && Total(m.toolCalls) == |t.dispatched|
    && m.toolFailures == t.failures <= |t.dispatched|
  }

  /** The metrics with one more answered request. */
  function Answered(m: Metrics, r: Response): Metrics
  {
    m.(modelRequests := m.modelRequests + 1, usage := AddUsage(m.usage, r.usage))
  }

  lemma {:induction false} AccountedAsked(m: Metrics, t: Trace, note: Option<Text>, reply: Reply)
    requires Accounted(m, t)
    ensures Accounted(if reply.Answer? then Answered(m, reply.response) else m, Asked(t, note, reply))
  {
    if reply.Answer? {
      assert (t.responses + [reply.response])[..|t.responses|] == t.responses;
    } else {
      assert t.responses + [] == t.responses;
    }
  }

  lemma {:induction false} AccountedCall(m: Metrics, t: Trace, c: ToolCall, failed: bool)
    requires Accounted(m, t)
    ensures Accounted(m.(toolCalls := Bump(m.toolCalls, c.name), toolFailures := m.toolFailures + (if failed then 1 else 0)),
                      t.(dispatched := t.dispatched + [c], failures := t.failures + (if failed then 1 else 0)))
  {
    assert (t.dispatched + [c])[..|t.dispatched|] == t.dispatched;
    forall name ensures Uses(Bump(m.toolCalls, c.name), name) == Occurrences(t.dispatched + [c], name) {
      BumpCounts(m.toolCalls, c.name, name);
    }
    BumpCounts(m.toolCalls, c.name, c.name);
  }

  // ----- The world around a run -----

  datatype Outcome = Output(content: Text, images: seq<ImageBlock>) | Failure(name: Text, message: Text)

  datatype Reply = NoAnswer(retriesExhausted: bool) | Answer(response: Response)

  /** What the clock, the operator, the provider, the tools and the disk do, by turn. */
  datatype World = World(
    guiMissing: bool,
    elapsedMs: nat -> nat,
    steering: nat -> Option<Text>,
    reply: nat -> Reply,
    dispatch: nat -> (nat -> Outcome),
    saves: nat -> bool,
    validations: seq<bool>,
    finalSave: bool)

  datatype Status = Success | Failed | Error

  datatype RunResult = RunResult(status: Status, stop: Option<Stop>, metrics: Metrics, failure: bool)

  /** How the loop ended: refused by the GUI check, stopped, or left without an answer. */
  datatype Exit = Stopped(stop: Stop) | Unanswered(retriesExhausted: bool)

  // ----- Dispatching calls -----

  const MAX_SCREENSHOT_BASE64: nat := 1_048_576

  function ImageBytes(images: seq<ImageBlock>): nat
  {
    if images == [] then 0 else |images[0].dataBase64| + ImageBytes(images[1..])
  }

  /** The result recorded for one call. */
  function ResultOf(call: ToolCall, outcome: Outcome, limit: nat): ToolResult
  {
    match outcome
    case Output(content, images) =>
      var total := ImageBytes(images);
      if total > MAX_SCREENSHOT_BASE64 then
        ToolResult(call.id, call.name,
                   Bytes("screenshots refused: ") + Decimal(total) + Bytes(" bytes exceeds the ")
                   + Decimal(MAX_SCREENSHOT_BASE64) + Bytes(" byte cap; retake at lower quality"), [], false)
      else ToolResult(call.id, call.name, CompressOutput(content, limit), images, true)
    case Failure(name, message) =>
      ToolResult(call.id, call.name, name + Bytes(" failed: ") + message, [], false)
  }

  function ResultsOf(calls: seq<ToolCall>, dispatch: nat -> Outcome, limit: nat): (r: seq<ToolResult>)
    ensures |r| == |calls| && forall i :: 0 <= i < |r| ==> r[i] == ResultOf(calls[i], dispatch(i), limit)
  {
    seq(|calls|, i requires 0 <= i < |calls| => ResultOf(calls[i], dispatch(i), limit))
  }

  function PathsRead(progress: seq<Progress>): seq<Text>
  {
    if progress == [] then []
    else (if progress[0].NewFileInspected? then [progress[0].path] else []) + PathsRead(progress[1..])
  }

  function PathsChanged(progress: seq<Progress>): seq<Text>
  {
    if progress == [] then []
    else (if progress[0].FileChanged? then [progress[0].path] else []) + PathsChanged(progress[1..])
  }

  const TOLERANCE: nat := 4

  function ContextBudget(task: Task): Budget
  {
    Budget(task.limits.maxContextTokens, task.limits.maxOutputTokens)
  }

  predicate AgentSteps(steps: seq<Step>)
  {
    forall i :: 0 <= i < |steps| ==> AgentStep(steps[i]) && ValidStep(steps[i])
  }

  /** Every state is the one before it after its step. */
  ghost predicate Chain<S, T>(f: (S, T) -> S, states: seq<S>, steps: seq<T>)
  {
    && |states| == |steps| + 1
    && forall i {:trigger f(states[i], steps[i])} :: 0 <= i < |steps| ==> states[i + 1] == f(states[i], steps[i])
  }

  lemma {:induction false} ChainMore<S, T>(f: (S, T) -> S, states: seq<S>, steps: seq<T>, step: T)
    requires Chain(f, states, steps)
    ensures Chain(f, states + [f(states[|steps|], step)], steps + [step])
  {
    var states', steps' := states + [f(states[|steps|], step)], steps + [step];
    forall i | 0 <= i < |steps'| ensures states'[i + 1] == f(states'[i], steps'[i]) {
      if i < |steps| {
        assert states[i + 1] == f(states[i], steps[i]);
      }
    }
  }

  lemma {:induction false} ChainLess<S, T>(f: (S, T) -> S, states: seq<S>, steps: seq<T>)
    requires Chain(f, states, steps) && steps != []
    ensures Chain(f, states[..|steps|], steps[..|steps| - 1])
    ensures states[|steps|] == f(states[|steps| - 1], steps[|steps| - 1])
  {
    forall i | 0 <= i < |steps| - 1 ensures states[..|steps|][i + 1] == f(states[..|steps|][i], steps[..|steps| - 1][i]) {
      assert states[i + 1] == f(states[i], steps[i]);
    }
  }

  ghost function Fold<S, T>(f: (S, T) -> S, state: S, steps: seq<T>): S
  {
    if steps == [] then state else f(Fold(f, state, steps[..|steps| - 1]), steps[|steps| - 1])
  }

  lemma {:induction false} ChainIsFold<S, T>(f: (S, T) -> S, states: seq<S>, steps: seq<T>)
    requires Chain(f, states, steps)
    ensures states[|steps|] == Fold(f, states[0], steps)
    decreases |steps|
  {
    if steps != [] {
      ChainLess(f, states, steps);
      ChainIsFold(f, states[..|steps|], steps[..|steps| - 1]);
    }
  }

  ghost function NextIn(b: Budget): (Snapshot, Step) -> Snapshot { (s, step) => Next(s, step, b) }

  /** The conversation after every step, each snapshot the next of the one before. */
  ghost predicate Chained(snaps: seq<Snapshot>, steps: seq<Step>, start: TaskState, b: Budget)
  {
    Chain(NextIn(b), snaps, steps) && snaps[0] == Initial(start)
  }

  lemma {:induction false} ChainSnoc(snaps: seq<Snapshot>, steps: seq<Step>, start: TaskState, b: Budget, step: Step)
    requires Chained(snaps, steps, start, b)
    ensures Chained(snaps + [Next(snaps[|snaps| - 1], step, b)], steps + [step], start, b)
  {
    ChainMore(NextIn(b), snaps, steps, step);
  }

  lemma {:induction false} RunLast(s: Snapshot, steps: seq<Step>, b: Budget)
    requires steps != []
    ensures ContextEngine.Run(s, steps, b)
         == NextIn(b)(ContextEngine.Run(s, steps[..|steps| - 1], b), steps[|steps| - 1])
  {
  }

  lemma {:induction false} RunIsFold(s: Snapshot, steps: seq<Step>, b: Budget)
    ensures ContextEngine.Run(s, steps, b) == Fold(NextIn(b), s, steps)
    decreases |steps|
  {
    if steps != [] {
      RunIsFold(s, steps[..|steps| - 1], b);
      RunLast(s, steps, b);
    }
  }

  /** The last link of a chain is the run of its steps. */
  lemma {:induction false} ChainIsRun(snaps: seq<Snapshot>, steps: seq<Step>, start: TaskState, b: Budget)
    requires Chained(snaps, steps, start, b)
    ensures snaps[|snaps| - 1] == ContextEngine.Run(Initial(start), steps, b)
  {
    ChainIsFold(NextIn(b), snaps, steps);
    RunIsFold(Initial(start), steps, b);
  }

  // ----- What a run does, as a function of the world -----

  function FailureCount(results: seq<ToolResult>): (n: nat)
    ensures n <= |results|
  {
    if results == [] then 0
    else FailureCount(results[..|results| - 1]) + (if results[|results| - 1].ok then 0 else 1)
  }

  function SteeringSteps(note: Option<Text>): seq<Step>
  {
    if note.Some? then [Steer(note.value)] else []
  }

  /** A request goes out, after any steering note, and its answer, if there is one, comes back. */
  function Asked(t: Trace, note: Option<Text>, reply: Reply): Trace
  {
    t.(steps := t.steps + SteeringSteps(note),
       responses := t.responses + (if reply.Answer? then [reply.response] else []))
  }

  function Dispatched(t: Trace, calls: seq<ToolCall>, results: seq<ToolResult>): Trace
  {
    t.(dispatched := t.dispatched + calls, failures := t.failures + FailureCount(results))
  }

  /** The calls of an answer are dispatched and their evidence is weighed. */
  function Judged(t: Trace, response: Response, results: seq<ToolResult>, pathOf: Text -> Option<Text>): Trace
  {
    var turn := Observed(response.toolCalls, Observations(results));
    var progress := Classify(turn, pathOf);
    Dispatched(t, response.toolCalls, results).(
      observed := t.observed + [turn],
      steps := t.steps + [RecordFiles(PathsRead(progress), PathsChanged(progress))])
  }

  /** The turn is recorded unless it shows the session to be stuck. */
  function Acted(t: Trace, response: Response, results: seq<ToolResult>, pathOf: Text -> Option<Text>): Trace
  {
    var judged := Judged(t, response, results, pathOf);
    if Stops(History(judged.observed, pathOf), TOLERANCE) then judged
    else judged.(steps := judged.steps + [PushTurn(response, results)])
  }

  /** What happens in a turn, whichever way it goes. */
  function TurnTrace(t: Trace, world: World, turn: nat, pathOf: Text -> Option<Text>, limit: nat): Trace
  {
    var reply := world.reply(turn);
    var asked := Asked(t, world.steering(turn), reply);
    if reply.NoAnswer? then asked
    else if reply.response.toolCalls == [] then asked.(steps := asked.steps + [PushTurn(reply.response, [])])
    else Acted(asked, reply.response,
               ResultsOf(reply.response.toolCalls, world.dispatch(turn), limit), pathOf)
  }

  const EMPTY_TRACE := Trace([], [], 0, [], [])

  function TraceAfter(world: World, turns: nat, pathOf: Text -> Option<Text>, limit: nat): Trace
  {
    if turns == 0 then EMPTY_TRACE
    else TurnTrace(TraceAfter(world, turns - 1, pathOf, limit), world, turns, pathOf, limit)
  }

  /** What ends the run right after a turn, if anything does: no answer, an answer that asks for
      nothing, a stuck session, or the last permitted request. */
  function TurnExit(world: World, turn: nat, t: Trace, limits: Limits, pathOf: Text -> Option<Text>): Option<Exit>
  {
    var reply := world.reply(turn);
    if reply.NoAnswer? then Some(Unanswered(reply.retriesExhausted))
    else if reply.response.toolCalls == [] then Some(Stopped(reply.response.stop))
    else if Stops(History(t.observed, pathOf), TOLERANCE) then Some(Stopped(NoProgress))
    else if turn >= limits.maxModelRequests then Some(Stopped(MaxRequests))
    else None
  }

  /** What ends the run after this many requests: its last turn, or a ceiling met before the next. */
  function ExitOf(world: World, n: nat, t: Trace, limits: Limits, pathOf: Text -> Option<Text>): Option<Exit>
  {
    if n > 0 && TurnExit(world, n, t, limits, pathOf).Some? then TurnExit(world, n, t, limits, pathOf)
    else if n >= limits.maxModelRequests then Some(Stopped(MaxRequests))
    else if world.elapsedMs(n) >= limits.wallSeconds * 1000 then Some(Stopped(WallClock))
    else None
  }

  function ExitAfter(world: World, n: nat, limits: Limits, pathOf: Text -> Option<Text>): Option<Exit>
  {
    ExitOf(world, n, TraceAfter(world, n, pathOf, limits.maxToolOutputBytes), limits, pathOf)
  }

  /** The world lets the run take exactly this many requests. */
  ghost predicate EndsAfter(world: World, n: nat, limits: Limits, pathOf: Text -> Option<Text>)
  {
    ExitAfter(world, n, limits, pathOf).Some? && forall k :: 0 <= k < n ==> ExitAfter(world, k, limits, pathOf).None?
  }

  /** The turn is recorded, and its checkpoint reaches the disk. */
  predicate SavedIn(world: World, turn: nat, t: Trace, pathOf: Text -> Option<Text>)
  {
    && world.reply(turn).Answer? && world.reply(turn).response.toolCalls != []
    && !Stops(History(t.observed, pathOf), TOLERANCE) && world.saves(turn)
  }

  /** The last of the first n turns whose checkpoint was saved, or 0. */
  function LastSaved(world: World, n: nat, pathOf: Text -> Option<Text>, limit: nat): (k: nat)
    ensures k <= n
  {
    if n == 0 then 0
    else if SavedIn(world, n, TraceAfter(world, n, pathOf, limit), pathOf) then n
    else LastSaved(world, n - 1, pathOf, limit)
  }

  /** What the checkpoint of a turn writes: the counts so far and the state of the conversation. */
  function CheckpointOf(session: SessionState, turn: nat, t: Trace, start: TaskState, b: Budget): SessionState
  {
    session.(turnsCompleted := turn, toolCalls := |t.dispatched|, usage := TotalUsage(t.responses),
             state := ContextEngine.Run(Initial(start), t.steps, b).state)
  }

  /** The session file after n turns of a run, which is what a crash then would leave: the last
      checkpoint saved, or the file the run found. */
  function FileAfter(world: World, n: nat, task: Task, pathOf: Text -> Option<Text>, file: File, session: SessionState, start: TaskState): File
  {
    var limit := task.limits.maxToolOutputBytes;
    var k := LastSaved(world, n, pathOf, limit);
    if k == 0 then file
    else Document(CheckpointOf(session, k, TraceAfter(world, k, pathOf, limit), start, ContextBudget(task)))
  }

  // ----- The agent -----

  class Agent {
    const task: Task
    const pathOf: Text -> Option<Text>
    const context: Context
    const budget: RequestBudget
    const guard: LoopGuard
    const start: TaskState
    var session: SessionState
    var metrics: Metrics
    var file: File
    ghost var trace: Trace
    ghost var snaps: seq<Snapshot>

    /** Starts from the resumed session when it belongs to this task, and afresh otherwise. */
    constructor (task: Task, pathOf: Text -> Option<Text>, file: File, resume: bool, model: Text, provider: Text)
      requires task.limits.maxModelRequests <= U32_MAX
      ensures this.task == task && this.pathOf == pathOf && this.file == file
      ensures var resumed := if resume then Resumable(file) else None;
              session == Adopted(task, resumed, model, provider) && start == StartState(task, resumed)
      ensures context.state == start && Inv() && trace == EMPTY_TRACE && budget.requests == 0
      ensures fresh(context) && fresh(budget) && fresh(guard)
    {
      var resumed := if resume then Resumable(file) else None;
      this.task, this.pathOf, this.file := task, pathOf, file;
      this.session := Adopted(task, resumed, model, provider);
      this.metrics := Metrics(0, Usage(0, 0, 0, 0), [], 0, 0, 0, 0);
      var restored := StartState(task, resumed);
      this.start := restored;
      var blank := new Context(task.instruction, ContextBudget(task));
      blank.state := restored;
      this.context := blank;
      this.budget := new RequestBudget(task.limits);
      this.guard := new LoopGuard(TOLERANCE);
      this.trace := EMPTY_TRACE;
      this.snaps := [Initial(restored)];
      new;
    }

    /** The conversation is where its steps lead. */
    ghost predicate InStep(steps: seq<Step>)
      reads this`snaps, context
    {
      && context.budget == ContextBudget(task)
      && Chained(snaps, steps, start, ContextBudget(task))
      && context.Snap() == snaps[|snaps| - 1]
    }

    /** The detector is where the turns it was fed lead. */
    ghost predicate Watching(observed: seq<Observed>)
      reads guard
    {
      guard.tolerance == TOLERANCE && guard.Value() == GuardAfter(History(observed, pathOf))
    }

    /** Everything a run keeps between turns. */
    ghost predicate Inv()
      reads this, context, budget, guard
    {
      && task.limits.maxModelRequests <= U32_MAX && budget.limits == task.limits
      && budget.requests <= task.limits.maxModelRequests
      && Accounted(metrics, trace)
      && InStep(trace.steps)
      && Watching(trace.observed)
      && session.protocol == PROTOCOL_VERSION && session.taskId == task.taskId && session.taskDigest == task.digest
    }

    // ----- The conversation -----

    /** A steering note dropped since the last turn joins the conversation. */
    method ApplySteering(note: Option<Text>, ghost steps: seq<Step>)
      requires InStep(steps)
      modifies this`snaps, context`messages
      ensures InStep(steps + SteeringSteps(note))
    {
      if note.Some? {
        ChainSnoc(snaps, steps, start, ContextBudget(task), Steer(note.value));
        context.PushSteering(note.value);
        snaps := snaps + [context.Snap()];
      } else {
        assert steps + [] == steps;
      }
    }

    /** The paths a turn read and changed join the structured state. */
    method RecordPaths(progress: seq<Progress>, ghost steps: seq<Step>)
      requires InStep(steps)
      modifies this`snaps, context`state
      ensures InStep(steps + [RecordFiles(PathsRead(progress), PathsChanged(progress))])
    {
      var read, changed := PathsRead(progress), PathsChanged(progress);
      ChainSnoc(snaps, steps, start, ContextBudget(task), RecordFiles(read, changed));
      context.RecordTouched(read, changed);
      snaps := snaps + [context.Snap()];
    }

    /** A turn joins the conversation. */
    method Remember(response: Response, results: seq<ToolResult>, ghost steps: seq<Step>)
      requires InStep(steps)
      modifies this`snaps, context
      ensures InStep(steps + [PushTurn(response, results)])
    {
      ChainSnoc(snaps, steps, start, ContextBudget(task), PushTurn(response, results));
      var _ := context.PushTurnMessages(response, results);
      snaps := snaps + [context.Snap()];
    }

    // ----- The detector -----

    /** Weighs a turn's evidence; true when the session is stuck. */
    method Weigh(turn: Observed, ghost observed: seq<Observed>) returns (progress: seq<Progress>, stuck: bool)
      requires Watching(observed)
      modifies guard
      ensures Watching(observed + [turn]) && progress == Classify(turn, pathOf)
      ensures stuck <==> Stops(History(observed + [turn], pathOf), TOLERANCE)
    {
      progress := ClassifyTurn(turn, pathOf);
      GuardSnoc(observed, turn, pathOf);
      var _ := guard.RecordProgress(progress);
      stuck := guard.ObserveTurn(turn);
    }

    // ----- The calls -----

    /** Dispatches one call and counts it. */
    method Dispatch(call: ToolCall, outcome: Outcome, ghost t: Trace) returns (result: ToolResult)
      requires Accounted(metrics, t)
      modifies this`metrics
      ensures result == ResultOf(call, outcome, task.limits.maxToolOutputBytes)
      ensures Accounted(metrics, t.(dispatched := t.dispatched + [call], failures := t.failures + if result.ok then 0 else 1))
    {
      result := ResultOf(call, outcome, task.limits.maxToolOutputBytes);
      AccountedCall(metrics, t, call, !result.ok);
      metrics := metrics.(toolCalls := Bump(metrics.toolCalls, call.name),
                          toolFailures := metrics.toolFailures + (if !result.ok then 1 else 0));
    }

    /** Dispatches every call of a response, one result each, in order. */
    method RunCalls(calls: seq<ToolCall>, dispatch: nat -> Outcome, ghost t: Trace) returns (results: seq<ToolResult>)
      requires Accounted(metrics, t)
      modifies this`metrics
      ensures results == ResultsOf(calls, dispatch, task.limits.maxToolOutputBytes)
      ensures Accounted(metrics, Dispatched(t, calls, results))
    {
      results := [];
      var limit := task.limits.maxToolOutputBytes;
      assert calls[..0] == [] && t.dispatched + [] == t.dispatched;
      for i := 0 to |calls|
        invariant results == ResultsOf(calls[..i], dispatch, limit)
        invariant Accounted(metrics, Dispatched(t, calls[..i], results))
      {
        DispatchedSnoc(t, calls, dispatch, limit, i);
        var result := Dispatch(calls[i], dispatch(i), Dispatched(t, calls[..i], results));
        results := results + [result];
      }
      assert calls[..|calls|] == calls;
    }

    // ----- The session file -----

    /** Writes the live structured state into the session file; a failed save changes nothing. */
    method Persist(saved: bool)
      modifies this`file
      ensures file == if saved then Document(session.(state := context.state)) else old(file)
    {
      if saved {
        file := Document(session.(state := context.state));
      }
    }

    /** Brings the session up to date with a completed turn and saves it. */
    method Checkpoint(turn: nat, saved: bool)
      requires Inv()
      modifies this`session, this`file
      ensures Inv()
      ensures session == old(session).(turnsCompleted := turn, toolCalls := |trace.dispatched|, usage := TotalUsage(trace.responses))
      ensures file == if saved then Document(CheckpointOf(old(session), turn, trace, start, ContextBudget(task))) else old(file)
    {
      ChainIsRun(snaps, trace.steps, start, ContextBudget(task));
      session := session.(turnsCompleted := turn, toolCalls := Total(metrics.toolCalls), usage := metrics.usage);
      Persist(saved);
    }

    // ----- A turn -----

    ghost predicate Stuck()
      reads this`trace
    {
      Stops(History(trace.observed, pathOf), TOLERANCE)
    }

    /** Spends one request: pending notes go in and an answer, if there is one, is counted. */
    method Ask(world: World, turn: nat) returns (reply: Reply)
      requires Inv() && budget.requests < task.limits.maxModelRequests && turn == budget.requests + 1
      modifies this`trace, this`snaps, this`metrics, context`messages, budget
      ensures Inv() && budget.requests == turn && reply == world.reply(turn)
      ensures trace == Asked(old(trace), world.steering(turn), reply)
    {
      ApplySteering(world.steering(turn), trace.steps);
      budget.RecordRequest();
      reply := world.reply(turn);
      AccountedAsked(metrics, trace, world.steering(turn), reply);
      if reply.Answer? {
        metrics := Answered(metrics, reply.response);
      }
      trace := Asked(trace, world.steering(turn), reply);
    }

    /** Runs what the model asked for and judges the turn. */
    method Consider(response: Response, dispatch: nat -> Outcome) returns (results: seq<ToolResult>, stuck: bool)
      requires Inv()
      modifies this`metrics, this`trace, this`snaps, context`state, guard
      ensures Inv() && results == ResultsOf(response.toolCalls, dispatch, task.limits.maxToolOutputBytes)
      ensures trace == Judged(old(trace), response, results, pathOf)
      ensures stuck <==> Stuck()
    {
      results := RunCalls(response.toolCalls, dispatch, trace);
      var progress;
      progress, stuck := Weigh(Observed(response.toolCalls, Observations(results)), trace.observed);
      RecordPaths(progress, trace.steps);
      AccountedJudged(metrics, trace, response, results, pathOf);
      trace := Judged(trace, response, results, pathOf);
    }

    /** Feeds a turn back to the model. */
    method Commit(response: Response, results: seq<ToolResult>)
      requires Inv()
      modifies this`trace, this`snaps, context
      ensures Inv() && trace == old(trace).(steps := old(trace).steps + [PushTurn(response, results)])
    {
      Remember(response, results, trace.steps);
      trace := trace.(steps := trace.steps + [PushTurn(response, results)]);
    }

    /** Feeds a turn back to the model and saves the session. */
    method Record(response: Response, results: seq<ToolResult>, turn: nat, saved: bool)
      requires Inv()
      modifies this`trace, this`snaps, this`session, this`file, context
      ensures Inv() && trace == old(trace).(steps := old(trace).steps + [PushTurn(response, results)])
      ensures session == old(session).(turnsCompleted := turn, toolCalls := |trace.dispatched|, usage := TotalUsage(trace.responses))
      ensures file == if saved then Document(CheckpointOf(old(session), turn, trace, start, ContextBudget(task))) else old(file)
    {
      Commit(response, results);
      Checkpoint(turn, saved);
    }

    /** Acts on an answer that asks for calls; a stuck turn is judged but neither recorded nor
        saved. */
    method Act(response: Response, dispatch: nat -> Outcome, turn: nat, saved: bool) returns (stuck: bool)
      requires Inv()
      modifies this, context, guard
      ensures Inv() && (stuck <==> Stuck())
      ensures trace == Acted(old(trace), response,
                             ResultsOf(response.toolCalls, dispatch, task.limits.maxToolOutputBytes), pathOf)
      ensures session == if stuck then old(session)
                         else old(session).(turnsCompleted := turn, toolCalls := |trace.dispatched|,
                                            usage := TotalUsage(trace.responses))
      ensures file == if saved && !stuck then Document(CheckpointOf(old(session), turn, trace, start, ContextBudget(task)))
                      else old(file)
    {
      var results;
      results, stuck := Consider(response, dispatch);
      if !stuck {
        Record(response, results, turn, saved);
      }
    }

    /** The rest of a turn whose answer asks for calls. */
    method Work(world: World, turn: nat, response: Response) returns (exit: Option<Exit>)
      requires Inv() && budget.requests == turn && world.reply(turn) == Answer(response) && response.toolCalls != []
      modifies this, context, guard
      ensures Inv() && trace == Acted(old(trace), response,
                                      ResultsOf(response.toolCalls, world.dispatch(turn), task.limits.maxToolOutputBytes), pathOf)
      ensures trace.responses == old(trace).responses && (exit.Some? ==> exit.value.Stopped?)
      ensures exit == TurnExit(world, turn, trace, task.limits, pathOf)
      ensures file == if SavedIn(world, turn, trace, pathOf)
                      then Document(CheckpointOf(old(session), turn, trace, start, ContextBudget(task))) else old(file)
      ensures exit.None? ==> session == old(session).(turnsCompleted := turn, toolCalls := |trace.dispatched|,
                                                      usage := TotalUsage(trace.responses))
    {
      var stuck := Act(response, world.dispatch(turn), turn, world.saves(turn));
      if stuck {
        return Some(Stopped(NoProgress));
      }
      if budget.RemainingRequests() == 0 {
        return Some(Stopped(MaxRequests));
      }
      return None;
    }

    /** The rest of a turn whose answer asks for nothing: it ends the run. */
    method Rest(world: World, turn: nat, response: Response) returns (exit: Option<Exit>)
      requires Inv() && world.reply(turn) == Answer(response) && response.toolCalls == []
      modifies this`trace, this`snaps, this`session, context
      ensures Inv() && trace == old(trace).(steps := old(trace).steps + [PushTurn(response, [])])
      ensures exit.Some? && exit.value.Stopped? && exit == TurnExit(world, turn, trace, task.limits, pathOf)
      ensures !SavedIn(world, turn, trace, pathOf)
    {
      Commit(response, []);
      session := session.(lastSummary := response.text);
      return Some(Stopped(response.stop));
    }

    /** One turn: ask the model, run what it asked for, feed the observations back. */
    method TakeTurn(world: World, turn: nat) returns (exit: Option<Exit>)
      requires Inv() && |trace.responses| == budget.requests < task.limits.maxModelRequests
      requires turn == budget.requests + 1
      modifies this, context, budget, guard
      ensures Inv() && budget.requests == turn
      ensures trace == TurnTrace(old(trace), world, turn, pathOf, task.limits.maxToolOutputBytes)
      ensures exit == TurnExit(world, turn, trace, task.limits, pathOf)
      ensures |trace.responses| == budget.requests - (if exit.Some? && exit.value.Unanswered? then 1 else 0)
      ensures file == if SavedIn(world, turn, trace, pathOf)
                      then Document(CheckpointOf(old(session), turn, trace, start, ContextBudget(task))) else old(file)
      ensures exit.None? ==> session == old(session).(turnsCompleted := turn, toolCalls := |trace.dispatched|,
                                                      usage := TotalUsage(trace.responses))
    {
      var reply := Ask(world, turn);
      if reply.NoAnswer? {
        return Some(Unanswered(reply.retriesExhausted));
      }
      if reply.response.toolCalls == [] {
        exit := Rest(world, turn, reply.response);
      } else {
        exit := Work(world, turn, reply.response);
      }
    }

    /** Assembles the result and writes the terminal session file. */
    method Finish(stop: Stop, passed: bool, saved: bool) returns (result: RunResult)
      requires Inv()
      modifies this`metrics, this`session, this`file
      ensures Inv()
      ensures result.metrics == metrics && result.stop == Some(stop) && !result.failure
      ensures metrics.compactions == context.compactions && metrics.contextPeakTokens == context.peakTokens
      ensures metrics.shellCommands == Occurrences(trace.dispatched, Bytes("bash"))
      ensures result.status == if !passed then Failed else if stop == ModelError then Error else Success
      ensures session.completed <==> stop == ModelFinished && passed
      ensures session.state == context.state
      ensures file == if saved then Document(session) else old(file)
    {
      metrics := metrics.(compactions := context.compactions, contextPeakTokens := context.peakTokens,
                          shellCommands := Uses(metrics.toolCalls, Bytes("bash")));
      var status := if !passed then Failed else if stop == ModelError then Error else Success;
      session := session.(completed := stop == ModelFinished && passed, state := context.state);
      Persist(saved);
      return RunResult(status, Some(stop), metrics, false);
    }

    /** Where the loop stands, seen from outside. */
    ghost predicate OnCourse(ended: Option<Exit>, traces: seq<Trace>, saved: nat, run: Saving)
      reads this, context, budget, guard
    {
      && Inv() && run.task == task && run.pathOf == pathOf && run.start == start
      && Course(ended, traces, saved, run, budget.requests, trace, file, session)
    }

    /** Another turn, if the budget allows one. */
    method Advance(world: World, ghost traces: seq<Trace>, ghost saved: nat, ghost run: Saving)
      returns (ended: Option<Exit>, ghost traces': seq<Trace>, ghost saved': nat)
      requires run.world == world && OnCourse(None, traces, saved, run)
      modifies this, context, budget, guard
      ensures OnCourse(ended, traces', saved', run)
      ensures budget.requests >= old(budget.requests) && (ended.None? ==> budget.requests > old(budget.requests))
    {
      traces', saved' := traces, saved;
      var check := budget.Check(world.elapsedMs(budget.requests));
      match check {
        case Refuse(stop) =>
          ended := Some(Stopped(stop));
          CourseStops(stop, traces, saved, run, budget.requests, trace, file, session);
        case Proceed(turn) =>
          ghost var before, recorded := file, session;
          ended := TakeTurn(world, turn);
          saved' := CourseMore(ended, traces, saved, run, budget.requests, trace, before, recorded, file, session);
          traces' := traces + [trace];
      }
    }

    /** Takes turns until one ends the run. */
    method Loop(world: World) returns (exit: Exit)
      requires Inv() && budget.requests == 0 && trace == EMPTY_TRACE
      modifies this, context, budget, guard
      ensures Inv() && trace == TraceAfter(world, budget.requests, pathOf, task.limits.maxToolOutputBytes)
      ensures EndsAfter(world, budget.requests, task.limits, pathOf)
      ensures Some(exit) == ExitAfter(world, budget.requests, task.limits, pathOf)
      ensures |trace.responses| == budget.requests - (if exit.Unanswered? then 1 else 0)
      ensures file == FileAfter(world, budget.requests, task, pathOf, old(file), old(session), start)
    {
      var ended: Option<Exit> := None;
      ghost var traces := [trace];
      ghost var saved: nat := 0;
      ghost var run := Saving(world, task, pathOf, file, session, start);
      while ended.None?
        invariant OnCourse(ended, traces, saved, run)
        decreases task.limits.maxModelRequests - budget.requests, ended.None?
      {
        ended, traces, saved := Advance(world, traces, saved, run);
      }
      CourseEnds(ended, traces, saved, run, budget.requests, trace, file, session);
      exit := ended.value;
    }

    /** The result of a run that ended one way or the other. */
    method Conclude(exit: Exit, passed: bool, saved: bool) returns (result: RunResult)
      requires Inv()
      modifies this`metrics, this`session, this`file
      ensures Inv() && result.metrics == metrics
      ensures var stop := StopOf(exit);
              && result.stop == Some(stop)
              && (result.status == Success <==> passed && stop != ModelError)
              && (saved ==> file == Document(session) && (Resumable(file).Some? <==> !(stop == ModelFinished && passed)))
              && (!saved ==> file == old(file))
              && session.state == context.state && (session.completed <==> stop == ModelFinished && passed)
    {
      match exit {
        case Stopped(stop) => result := Finish(stop, passed, saved);
        case Unanswered(retriesExhausted) =>
          result := Finish(ModelError, passed, saved);
          if !retriesExhausted {
            result := result.(status := Error, failure := true);
          }
      }
    }

    /** A whole run. The world decides how many requests it takes, within the ceiling, and how it
        ends; every request and every call is accounted for; and the file it leaves holds the
        live state and may be taken up by a later run exactly when the work is unfinished. If the
        final save fails, the last checkpoint saved along the way remains. */
    method Run(world: World) returns (result: RunResult, ghost exit: Option<Exit>)
      requires Inv() && budget.requests == 0 && trace == EMPTY_TRACE
      modifies this, context, budget, guard
      ensures Inv() && trace == TraceAfter(world, budget.requests, pathOf, task.limits.maxToolOutputBytes)
      ensures context.Snap() == ContextEngine.Run(Initial(start), trace.steps, ContextBudget(task))
      ensures Paired(context.messages)
      ensures world.guiMissing ==>
                && exit == None && budget.requests == 0
                && result.status == Error && result.failure && file == old(file)
      ensures !world.guiMissing ==>
                && EndsAfter(world, budget.requests, task.limits, pathOf)
                && exit == ExitAfter(world, budget.requests, task.limits, pathOf)
                && result.metrics == metrics
                && metrics.modelRequests == budget.requests - (if exit.value.Unanswered? then 1 else 0)
      ensures !world.guiMissing ==>
                var passed := AllPassed(world.validations);
                var stop := StopOf(exit.value);
                && result.stop == Some(stop)
                && (result.status == Success <==> passed && stop != ModelError)
                && session.state == context.state && (session.completed <==> stop == ModelFinished && passed)
                && (world.finalSave ==>
                      file == Document(session) && (Resumable(file).Some? <==> !(stop == ModelFinished && passed)))
                && (!world.finalSave ==>
                      file == FileAfter(world, budget.requests, task, pathOf, old(file), old(session), start))
    {
      if world.guiMissing {
        ConversationOfRun(snaps, world, 0, start, ContextBudget(task), pathOf, task.limits.maxToolOutputBytes);
        return RunResult(Error, None, metrics, true), None;
      }
      var ended := Loop(world);
      exit := Some(ended);
      ConversationOfRun(snaps, world, budget.requests, start, ContextBudget(task), pathOf, task.limits.maxToolOutputBytes);
      result := Conclude(ended, AllPassed(world.validations), world.finalSave);
    }
  }

  function StopOf(exit: Exit): Stop { if exit.Stopped? then exit.stop else ModelError }

  predicate AllPassed(validations: seq<bool>)
  {
    forall i :: 0 <= i < |validations| ==> validations[i]
  }

  // ----- Steps of the trace -----

  lemma {:induction false} AccountedJudged(m: Metrics, t: Trace, response: Response, results: seq<ToolResult>, pathOf: Text -> Option<Text>)
    requires Accounted(m, Dispatched(t, response.toolCalls, results))
    ensures Accounted(m, Judged(t, response, results, pathOf))
  {
    var dispatched, judged := Dispatched(t, response.toolCalls, results), Judged(t, response, results, pathOf);
    forall name ensures Uses(m.toolCalls, name) == Occurrences(judged.dispatched, name) {
      assert Uses(m.toolCalls, name) == Occurrences(dispatched.dispatched, name);
    }
  }

  /** One trace for every turn so far, each the turn after the one before, and the run ended after
      none of the earlier ones. */
  ghost predicate Follows(traces: seq<Trace>, world: World, pathOf: Text -> Option<Text>, limits: Limits)
  {
    && traces != [] && traces[0] == EMPTY_TRACE
    && Linked(traces, world, pathOf, limits.maxToolOutputBytes)
    && (forall k :: 0 <= k < |traces| - 1 ==> ExitOf(world, k, traces[k], limits, pathOf).None?)
  }

  /** Every state is the one before it after the step of its number. */
  ghost predicate Numbered<S>(f: (S, nat) -> S, states: seq<S>)
  {
    forall k {:trigger f(states[k], k + 1)} :: 0 <= k < |states| - 1 ==> states[k + 1] == f(states[k], k + 1)
  }

  lemma {:induction false} NumberedMore<S>(f: (S, nat) -> S, states: seq<S>)
    requires states != [] && Numbered(f, states)
    ensures Numbered(f, states + [f(states[|states| - 1], |states|)])
  {
    var n := |states|;
    var more := states + [f(states[n - 1], n)];
    forall k | 0 <= k < n ensures more[k + 1] == f(more[k], k + 1) {
      if k < n - 1 {
        assert states[k + 1] == f(states[k], k + 1);
      }
    }
  }

  ghost function Iterated<S>(f: (S, nat) -> S, start: S, k: nat): S
  {
    if k == 0 then start else f(Iterated(f, start, k - 1), k)
  }

  lemma {:induction false} NumberedIsIterated<S>(f: (S, nat) -> S, states: seq<S>, k: nat)
    requires k < |states| && Numbered(f, states)
    ensures states[k] == Iterated(f, states[0], k)
    decreases k
  {
    if k > 0 {
      var j := k - 1;
      NumberedIsIterated(f, states, j);
      assert states[j + 1] == f(states[j], j + 1);
    }
  }

  ghost function TurnIn(world: World, pathOf: Text -> Option<Text>, limit: nat): (Trace, nat) -> Trace
  {
    (t: Trace, turn: nat) => TurnTrace(t, world, turn, pathOf, limit)
  }

  ghost predicate Linked(traces: seq<Trace>, world: World, pathOf: Text -> Option<Text>, limit: nat)
  {
    Numbered(TurnIn(world, pathOf, limit), traces)
  }

  lemma {:induction false} LinkedSnoc(traces: seq<Trace>, world: World, pathOf: Text -> Option<Text>, limit: nat)
    requires traces != [] && Linked(traces, world, pathOf, limit)
    ensures Linked(traces + [TurnTrace(traces[|traces| - 1], world, |traces|, pathOf, limit)], world, pathOf, limit)
  {
    NumberedMore(TurnIn(world, pathOf, limit), traces);
  }

  lemma {:induction false} FollowsSnoc(traces: seq<Trace>, world: World, pathOf: Text -> Option<Text>, limits: Limits)
    requires Follows(traces, world, pathOf, limits)
    requires ExitOf(world, |traces| - 1, traces[|traces| - 1], limits, pathOf).None?
    ensures Follows(traces + [TurnTrace(traces[|traces| - 1], world, |traces|, pathOf, limits.maxToolOutputBytes)],
                    world, pathOf, limits)
  {
    LinkedSnoc(traces, world, pathOf, limits.maxToolOutputBytes);
  }

  lemma {:induction false} TraceIsIterated(world: World, pathOf: Text -> Option<Text>, limit: nat, k: nat)
    ensures TraceAfter(world, k, pathOf, limit) == Iterated(TurnIn(world, pathOf, limit), EMPTY_TRACE, k)
  {
    if k > 0 {
      TraceIsIterated(world, pathOf, limit, k - 1);
    }
  }

  lemma {:induction false} FollowsAt(traces: seq<Trace>, world: World, pathOf: Text -> Option<Text>, limit: nat, k: nat)
    requires traces != [] && traces[0] == EMPTY_TRACE && Linked(traces, world, pathOf, limit) && k < |traces|
    ensures traces[k] == TraceAfter(world, k, pathOf, limit)
  {
    NumberedIsIterated(TurnIn(world, pathOf, limit), traces, k);
    TraceIsIterated(world, pathOf, limit, k);
  }

  lemma {:induction false} FollowsIsTraceAfter(traces: seq<Trace>, world: World, pathOf: Text -> Option<Text>, limits: Limits)
    requires Follows(traces, world, pathOf, limits)
    ensures traces[|traces| - 1] == TraceAfter(world, |traces| - 1, pathOf, limits.maxToolOutputBytes)
    ensures forall k :: 0 <= k < |traces| - 1 ==> ExitAfter(world, k, limits, pathOf).None?
  {
    FollowsAt(traces, world, pathOf, limits.maxToolOutputBytes, |traces| - 1);
    forall k | 0 <= k < |traces| - 1 ensures ExitAfter(world, k, limits, pathOf).None? {
      FollowsAt(traces, world, pathOf, limits.maxToolOutputBytes, k);
    }
  }

  // ----- The session file along the way -----

  /** What the file of a run depends on besides its turns. */
  datatype Saving = Saving(world: World, task: Task, pathOf: Text -> Option<Text>, file: File, session: SessionState, start: TaskState)

  /** The two differ at most in what a checkpoint brings up to date. */
  predicate SameRecord(s: SessionState, t: SessionState)
  {
    s == t.(turnsCompleted := s.turnsCompleted, toolCalls := s.toolCalls, usage := s.usage)
  }

  function FileOf(saved: nat, t: Trace, run: Saving): File
  {
    if saved == 0 then run.file
    else Document(CheckpointOf(run.session, saved, t, run.start, ContextBudget(run.task)))
  }

  /** The file is the checkpoint of the last turn saved. */
  ghost predicate FileFollows(file: File, saved: nat, traces: seq<Trace>, run: Saving)
  {
    && saved < |traces| && file == FileOf(saved, traces[saved], run)
    && (saved > 0 ==> SavedIn(run.world, saved, traces[saved], run.pathOf))
    && (forall k :: saved < k < |traces| ==> !SavedIn(run.world, k, traces[k], run.pathOf))
  }

  lemma {:induction false} FileFollowsMore(before: File, after: File, saved: nat, traces: seq<Trace>, t: Trace, run: Saving, session: SessionState)
    returns (saved': nat)
    requires FileFollows(before, saved, traces, run) && SameRecord(session, run.session)
    requires after == if SavedIn(run.world, |traces|, t, run.pathOf)
                      then Document(CheckpointOf(session, |traces|, t, run.start, ContextBudget(run.task))) else before
    ensures FileFollows(after, saved', traces + [t], run)
  {
    saved' := if SavedIn(run.world, |traces|, t, run.pathOf) then |traces| else saved;
  }

  lemma {:induction false} LastSavedIs(world: World, n: nat, pathOf: Text -> Option<Text>, limit: nat, saved: nat)
    requires saved <= n && (saved > 0 ==> SavedIn(world, saved, TraceAfter(world, saved, pathOf, limit), pathOf))
    requires forall k :: saved < k <= n ==> !SavedIn(world, k, TraceAfter(world, k, pathOf, limit), pathOf)
    ensures LastSaved(world, n, pathOf, limit) == saved
  {
    if saved < n {
      LastSavedIs(world, n - 1, pathOf, limit, saved);
    }
  }

  lemma {:induction false} FileIsFileAfter(file: File, saved: nat, traces: seq<Trace>, run: Saving)
    requires FileFollows(file, saved, traces, run) && Follows(traces, run.world, run.pathOf, run.task.limits)
    ensures file == FileAfter(run.world, |traces| - 1, run.task, run.pathOf, run.file, run.session, run.start)
  {
    var limit := run.task.limits.maxToolOutputBytes;
    forall k | saved <= k < |traces| ensures traces[k] == TraceAfter(run.world, k, run.pathOf, limit) {
      FollowsAt(traces, run.world, run.pathOf, limit, k);
    }
    LastSavedIs(run.world, |traces| - 1, run.pathOf, limit, saved);
  }

  /** Where a run stands after n turns: one trace for every turn taken, the exit of the last one, if
      any, and the last turn saved. */
  ghost predicate Course(ended: Option<Exit>, traces: seq<Trace>, saved: nat, run: Saving, n: nat, t: Trace, file: File, session: SessionState)
  {
    && |traces| == n + 1 && t == traces[n]
    && |t.responses| == n - (if ended.Some? && ended.value.Unanswered? then 1 else 0)
    && (ended.None? ==> n == 0 || TurnExit(run.world, n, t, run.task.limits, run.pathOf).None?)
    && (ended.Some? ==> ended == ExitOf(run.world, n, t, run.task.limits, run.pathOf))
    && (ended.None? ==> SameRecord(session, run.session))
    && Follows(traces, run.world, run.pathOf, run.task.limits) && FileFollows(file, saved, traces, run)
  }

  lemma {:induction false} CourseStops(stop: Stop, traces: seq<Trace>, saved: nat, run: Saving, n: nat, t: Trace, file: File, session: SessionState)
    requires Course(None, traces, saved, run, n, t, file, session)
    requires var limits := run.task.limits;
             if n >= limits.maxModelRequests then stop == MaxRequests
             else run.world.elapsedMs(n) >= limits.wallSeconds * 1000 && stop == WallClock
    ensures Course(Some(Stopped(stop)), traces, saved, run, n, t, file, session)
  {
  }

  lemma {:induction false} CourseMore(ended: Option<Exit>, traces: seq<Trace>, saved: nat, run: Saving, n: nat, t: Trace,
                                      file: File, session: SessionState, file': File, session': SessionState)
    returns (saved': nat)
    requires n > 0 && |traces| == n && Course(None, traces, saved, run, n - 1, traces[n - 1], file, session)
    requires var limits := run.task.limits;
             n - 1 < limits.maxModelRequests && run.world.elapsedMs(n - 1) < limits.wallSeconds * 1000
    requires t == TurnTrace(traces[n - 1], run.world, n, run.pathOf, run.task.limits.maxToolOutputBytes)
    requires ended == TurnExit(run.world, n, t, run.task.limits, run.pathOf)
    requires |t.responses| == n - (if ended.Some? && ended.value.Unanswered? then 1 else 0)
    requires file' == if SavedIn(run.world, n, t, run.pathOf)
                      then Document(CheckpointOf(session, n, t, run.start, ContextBudget(run.task))) else file
    requires ended.None? ==> SameRecord(session', session)
    ensures Course(ended, traces + [t], saved', run, n, t, file', session')
  {
    FollowsSnoc(traces, run.world, run.pathOf, run.task.limits);
    saved' := FileFollowsMore(file, file', saved, traces, t, run, session);
  }

  lemma {:induction false} CourseEnds(ended: Option<Exit>, traces: seq<Trace>, saved: nat, run: Saving, n: nat, t: Trace, file: File, session: SessionState)
    requires ended.Some? && Course(ended, traces, saved, run, n, t, file, session)
    ensures t == TraceAfter(run.world, n, run.pathOf, run.task.limits.maxToolOutputBytes)
    ensures EndsAfter(run.world, n, run.task.limits, run.pathOf) && ended == ExitAfter(run.world, n, run.task.limits, run.pathOf)
    ensures file == FileAfter(run.world, n, run.task, run.pathOf, run.file, run.session, run.start)
  {
    FollowsIsTraceAfter(traces, run.world, run.pathOf, run.task.limits);
    FileIsFileAfter(file, saved, traces, run);
  }

  /** What a later run of the same task takes up when nothing but checkpoints were saved: the state
      of the conversation at the last of them, or what the first run found. */
  lemma {:induction false} CheckpointTakenUp(world: World, n: nat, task: Task, pathOf: Text -> Option<Text>, file: File, session: SessionState, start: TaskState)
    requires session.protocol == PROTOCOL_VERSION && Matches(session, task) && !session.completed
    ensures var limit := task.limits.maxToolOutputBytes;
            var k := LastSaved(world, n, pathOf, limit);
            StartState(task, Resumable(FileAfter(world, n, task, pathOf, file, session, start)))
              == if k == 0 then StartState(task, Resumable(file))
                 else ContextEngine.Run(Initial(start), TraceAfter(world, k, pathOf, limit).steps, ContextBudget(task)).state
  {
    var k := LastSaved(world, n, pathOf, task.limits.maxToolOutputBytes);
    if k > 0 {
      var t := TraceAfter(world, k, pathOf, task.limits.maxToolOutputBytes);
      TakenUp(task, CheckpointOf(session, k, t, start, ContextBudget(task)), [], []);
    }
  }

  lemma {:induction false} DispatchedSnoc(t: Trace, calls: seq<ToolCall>, dispatch: nat -> Outcome, limit: nat, i: nat)
    requires i < |calls|
    ensures var before, result := ResultsOf(calls[..i], dispatch, limit), ResultOf(calls[i], dispatch(i), limit);
            && ResultsOf(calls[..i + 1], dispatch, limit) == before + [result]
            && Dispatched(t, calls[..i + 1], before + [result])
               == Dispatched(t, calls[..i], before).(dispatched := t.dispatched + calls[..i] + [calls[i]],
                                                     failures := t.failures + FailureCount(before) + if result.ok then 0 else 1)
  {
    var before, result := ResultsOf(calls[..i], dispatch, limit), ResultOf(calls[i], dispatch(i), limit);
    assert calls[..i + 1] == calls[..i] + [calls[i]];
    assert (before + [result])[..i] == before;
    assert t.dispatched + calls[..i + 1] == t.dispatched + calls[..i] + [calls[i]];
  }

  lemma {:induction false} GuardSnoc(observed: seq<Observed>, turn: Observed, pathOf: Text -> Option<Text>)
    ensures GuardAfter(History(observed + [turn], pathOf))
         == Seen(Evidence(GuardAfter(History(observed, pathOf)), Keys(Classify(turn, pathOf))), Fingerprint(turn))
  {
    var h := History(observed + [turn], pathOf);
    assert h[..|observed|] == History(observed, pathOf);
  }

  lemma {:induction false} ActedStepsAreValid(t: Trace, response: Response, results: seq<ToolResult>, pathOf: Text -> Option<Text>)
    requires AgentSteps(t.steps) && Answers(response, results)
    ensures AgentSteps(Acted(t, response, results, pathOf).steps)
  {
    var judged := Judged(t, response, results, pathOf);
    assert AgentSteps(judged.steps);
  }

  lemma {:induction false} TurnStepsAreValid(t: Trace, world: World, turn: nat, pathOf: Text -> Option<Text>, limit: nat)
    requires AgentSteps(t.steps)
    ensures AgentSteps(TurnTrace(t, world, turn, pathOf, limit).steps)
  {
    var reply := world.reply(turn);
    var asked := Asked(t, world.steering(turn), reply);
    assert AgentSteps(asked.steps);
    if reply.Answer? {
      var results := ResultsOf(reply.response.toolCalls, world.dispatch(turn), limit);
      ActedStepsAreValid(asked, reply.response, results, pathOf);
    }
  }

  /** Every step a run takes in its conversation is one of the agent's, and every recorded turn
      answers each of its calls. */
  lemma {:induction false} StepsAreValid(world: World, n: nat, pathOf: Text -> Option<Text>, limit: nat)
    ensures AgentSteps(TraceAfter(world, n, pathOf, limit).steps)
  {
    if n > 0 {
      StepsAreValid(world, n - 1, pathOf, limit);
      TurnStepsAreValid(TraceAfter(world, n - 1, pathOf, limit), world, n, pathOf, limit);
    }
  }

  /** The conversation a run leaves is the run of its steps, and every tool result in it follows
      the turn that asked for it. */
  lemma {:induction false} ConversationOfRun(snaps: seq<Snapshot>, world: World, n: nat, start: TaskState, b: Budget,
                          pathOf: Text -> Option<Text>, limit: nat)
    requires Chained(snaps, TraceAfter(world, n, pathOf, limit).steps, start, b)
    ensures snaps[|snaps| - 1] == ContextEngine.Run(Initial(start), TraceAfter(world, n, pathOf, limit).steps, b)
    ensures Paired(snaps[|snaps| - 1].messages)
  {
    var steps := TraceAfter(world, n, pathOf, limit).steps;
    ChainIsRun(snaps, steps, start, b);
    StepsAreValid(world, n, pathOf, limit);
    RunPaired(start, steps, b);
  }
}
