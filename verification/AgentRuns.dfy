/** Whole runs: how long a world lets one last, and what a later run takes up. */
module AgentRuns {
  import opened Wrappers
  import opened Sequences
  import opened Text
  import opened Messages
  import opened TaskState
  import opened ContextEngine
  import opened ContextRuns
  import opened LoopGuards
  import opened Session
  import opened AgentLoop

  // ----- The world decides the length of a run -----

  lemma {:induction false} RunLengthIsUnique(world: World, limits: Limits, pathOf: Text -> Option<Text>, m: nat, n: nat)
    requires EndsAfter(world, m, limits, pathOf) && EndsAfter(world, n, limits, pathOf)
    ensures m == n
  {
  }

  lemma {:induction false} Least(p: nat -> bool, from: nat, max: nat) returns (n: nat)
    requires from <= max && p(max) && forall k :: 0 <= k < from ==> !p(k)
    ensures n <= max && p(n) && forall k :: 0 <= k < n ==> !p(k)
    decreases max - from
  {
    if p(from) {
      n := from;
    } else {
      n := Least(p, from + 1, max);
    }
  }

  lemma {:induction false} CeilingEnds(world: World, limits: Limits, pathOf: Text -> Option<Text>)
    ensures ExitAfter(world, limits.maxModelRequests, limits, pathOf).Some?
  {
  }

  /** Every world ends every run, after one number of requests within the ceiling. */
  lemma {:induction false} RunEnds(world: World, limits: Limits, pathOf: Text -> Option<Text>) returns (n: nat)
    ensures n <= limits.maxModelRequests && EndsAfter(world, n, limits, pathOf)
    ensures forall m :: EndsAfter(world, m, limits, pathOf) ==> m == n
  {
    var ends := (k: nat) => ExitAfter(world, k, limits, pathOf).Some?;
    CeilingEnds(world, limits, pathOf);
    n := Least(ends, 0, limits.maxModelRequests);
    forall k | 0 <= k < n ensures ExitAfter(world, k, limits, pathOf).None? {
      assert !ends(k);
    }
    forall m | EndsAfter(world, m, limits, pathOf) ensures m == n {
      RunLengthIsUnique(world, limits, pathOf, m, n);
    }
  }

  /** The detector stops a session with this trace. */
  predicate StuckAt(t: Trace, pathOf: Text -> Option<Text>) { Stops(History(t.observed, pathOf), TOLERANCE) }

  /** Each turn of a run but the last got an answer that asked for calls, and the clock and the
      request ceiling let the next one start. */
  lemma {:induction false} EarlierTurns(world: World, n: nat, limits: Limits, pathOf: Text -> Option<Text>, k: nat)
    requires EndsAfter(world, n, limits, pathOf) && k < n
    ensures k > 0 ==> AsksForCalls(world, k)
    ensures k < limits.maxModelRequests && world.elapsedMs(k) < limits.wallSeconds * 1000
    ensures !StuckAt(TraceAfter(world, k, pathOf, limits.maxToolOutputBytes), pathOf)
  {
    assert ExitAfter(world, k, limits, pathOf).None?;
    if k == 0 {
      assert History([], pathOf) == [];
    }
  }

  // ----- A repeating world -----

  /** From this turn on the provider gives the same answer and the tools the same outcomes. */
  ghost predicate RepeatsFrom(world: World, s: nat)
  {
    forall k, i {:trigger world.dispatch(k)(i)} {:trigger world.reply(k), world.dispatch(s)(i)} ::
      k >= s && i >= 0 ==> world.reply(k) == world.reply(s) && world.dispatch(k)(i) == world.dispatch(s)(i)
  }

  /** The provider answers the turn and asks for calls. */
  predicate AsksForCalls(world: World, k: nat)
  {
    world.reply(k).Answer? && world.reply(k).response.toolCalls != []
  }

  /** What the detector sees of such a turn. */
  function Sighting(world: World, k: nat, limit: nat): Observed
  {
    if world.reply(k).NoAnswer? then Observed([], [])
    else
      var calls := world.reply(k).response.toolCalls;
      Observed(calls, Observations(ResultsOf(calls, world.dispatch(k), limit)))
  }

  lemma {:induction false} SightingOfTurn(t: Trace, world: World, k: nat, pathOf: Text -> Option<Text>, limit: nat)
    requires AsksForCalls(world, k)
    ensures TurnTrace(t, world, k, pathOf, limit).observed == t.observed + [Sighting(world, k, limit)]
  {
  }

  lemma {:induction false} OneMoreSighting(world: World, n: nat, pathOf: Text -> Option<Text>, limit: nat)
    requires n > 0 && AsksForCalls(world, n)
    ensures TraceAfter(world, n, pathOf, limit).observed
         == TraceAfter(world, n - 1, pathOf, limit).observed + [Sighting(world, n, limit)]
  {
    SightingOfTurn(TraceAfter(world, n - 1, pathOf, limit), world, n, pathOf, limit);
  }

  function Sightings(world: World, n: nat, limit: nat): (r: seq<Observed>)
    ensures |r| == n && forall i :: 0 <= i < n ==> r[i] == Sighting(world, i + 1, limit)
  {
    seq(n, i requires 0 <= i < n => Sighting(world, i + 1, limit))
  }

  /** The detector has been fed these sightings. */
  predicate Sighted(world: World, n: nat, pathOf: Text -> Option<Text>, limit: nat)
  {
    TraceAfter(world, n, pathOf, limit).observed == Sightings(world, n, limit)
  }

  lemma {:induction false} SightingsStep(world: World, n: nat, pathOf: Text -> Option<Text>, limit: nat)
    requires n > 0 && AsksForCalls(world, n)
    requires Sighted(world, n - 1, pathOf, limit)
    ensures Sighted(world, n, pathOf, limit)
  {
    OneMoreSighting(world, n, pathOf, limit);
    SightingsMore(world, n, limit);
  }

  lemma {:induction false} NoSighting(world: World, pathOf: Text -> Option<Text>, limit: nat)
    ensures Sighted(world, 0, pathOf, limit)
  {
  }

  lemma {:induction false} SightingsOfRun(world: World, n: nat, pathOf: Text -> Option<Text>, limit: nat)
    requires forall i :: 1 <= i <= n ==> AsksForCalls(world, i)
    ensures Sighted(world, n, pathOf, limit)
  {
    if n == 0 {
      NoSighting(world, pathOf, limit);
    } else {
      SightingsOfRun(world, n - 1, pathOf, limit);
      SightingsStep(world, n, pathOf, limit);
    }
  }

  lemma {:induction false} SightingsMore(world: World, n: nat, limit: nat)
    requires n > 0
    ensures Sightings(world, n, limit) == Sightings(world, n - 1, limit) + [Sighting(world, n, limit)]
  {
  }

  lemma {:induction false} SameSighting(world: World, s: nat, k: nat, limit: nat)
    requires RepeatsFrom(world, s) && k >= s && world.reply(s).Answer?
    ensures world.reply(k) == world.reply(s) && Sighting(world, k, limit) == Sighting(world, s, limit)
  {
    assert world.dispatch(k)(0) == world.dispatch(s)(0);
    var calls := world.reply(s).response.toolCalls;
    assert ResultsOf(calls, world.dispatch(k), limit) == ResultsOf(calls, world.dispatch(s), limit) by {
      forall i | 0 <= i < |calls| ensures world.dispatch(k)(i) == world.dispatch(s)(i) {
      }
    }
  }

  lemma {:induction false} RepeatingTraceIsStuck(world: World, pathOf: Text -> Option<Text>, limit: nat, s: nat, m: nat)
    requires s >= 1 && m == s + TOLERANCE + 1 && RepeatsFrom(world, s) && forall i :: 1 <= i <= m ==> AsksForCalls(world, i)
    ensures StuckAt(TraceAfter(world, m, pathOf, limit), pathOf)
  {
    var seen := Sightings(world, m, limit);
    SightingsOfRun(world, m, pathOf, limit);
    forall i | s - 1 <= i < m ensures seen[i] == seen[s - 1] {
      assert AsksForCalls(world, s);
      SameSighting(world, s, i + 1, limit);
    }
    RepeatingSessionIsCaught(seen, s, TOLERANCE, pathOf);
  }

  lemma {:induction false} NotLonger(world: World, n: nat, limits: Limits, pathOf: Text -> Option<Text>, s: nat, m: nat)
    requires EndsAfter(world, n, limits, pathOf) && s >= 1 && RepeatsFrom(world, s) && m == s + TOLERANCE + 1
    ensures n <= m
  {
    if m < n {
      forall i | 1 <= i <= m ensures AsksForCalls(world, i) {
        EarlierTurns(world, n, limits, pathOf, i);
      }
      EarlierTurns(world, n, limits, pathOf, m);
      RepeatingTraceIsStuck(world, pathOf, limits.maxToolOutputBytes, s, m);
      assert false;
    }
  }

  /** A world that repeats itself from turn `s` on is caught: the run ends by turn `s + 5`. */
  lemma {:induction false} RepeatingRunIsCaught(world: World, n: nat, limits: Limits, pathOf: Text -> Option<Text>, s: nat)
    requires EndsAfter(world, n, limits, pathOf) && s >= 1 && RepeatsFrom(world, s)
    ensures n <= s + 5
  {
    NotLonger(world, n, limits, pathOf, s, s + TOLERANCE + 1);
  }

  // ----- A run and the one after it -----

  /** The run ended with the model done and every validation passed. */
  predicate Finished(exit: Option<Exit>, world: World)
  {
    exit.Some? && StopOf(exit.value) == ModelFinished && AllPassed(world.validations)
  }

  lemma {:induction false} SteeredState(state: TaskState, note: Option<Text>, b: Budget)
    ensures ContextEngine.Run(Initial(state), SteeringSteps(note), b).state == state
  {
    var steps := SteeringSteps(note);
    if note.Some? {
      assert steps[..|steps| - 1] == [];
      assert ContextEngine.Run(Initial(state), steps, b) == Next(Initial(state), steps[0], b);
    }
  }

  lemma {:induction false} QuietState(objective: Text, note: Option<Text>, answer: Response, b: Budget)
    requires answer.toolCalls == []
    ensures ContextEngine.Run(Initial(NewState(objective)), SteeringSteps(note) + [PushTurn(answer, [])], b).state
         == NewState(objective)
  {
    var steps := SteeringSteps(note) + [PushTurn(answer, [])];
    var s := ContextEngine.Run(Initial(NewState(objective)), SteeringSteps(note), b);
    SteeredState(NewState(objective), note, b);
    assert steps[..|steps| - 1] == SteeringSteps(note);
    StateOfTurn(s, answer, [], b);
    assert Observations([]) == [] && Commands([]) == [] && Summaries([]) == [];
    assert Observe(NewState(objective), [], []) == NewState(objective);
  }

  /** Why the two starting states can agree after finished work too: a fresh run whose first answer
      asks for nothing ends there, done, with its structured state as it was. */
  lemma {:induction false} FinishedWithNothingRecorded(task: Task, pathOf: Text -> Option<Text>, world: World)
    requires task.limits.maxModelRequests >= 1 && world.elapsedMs(0) < task.limits.wallSeconds * 1000
    requires world.reply(1).Answer? && world.reply(1).response.toolCalls == [] && world.reply(1).response.stop == ModelFinished
    requires AllPassed(world.validations)
    ensures EndsAfter(world, 1, task.limits, pathOf) && Finished(ExitAfter(world, 1, task.limits, pathOf), world)
    ensures var steps := TraceAfter(world, 1, pathOf, task.limits.maxToolOutputBytes).steps;
            ContextEngine.Run(Initial(NewState(task.instruction)), steps, ContextBudget(task)).state == NewState(task.instruction)
  {
    var limit := task.limits.maxToolOutputBytes;
    assert TraceAfter(world, 0, pathOf, limit) == EMPTY_TRACE;
    assert ExitAfter(world, 0, task.limits, pathOf).None?;
    QuietState(task.instruction, world.steering(1), world.reply(1).response, ContextBudget(task));
    var steps := SteeringSteps(world.steering(1));
    assert [] + steps == steps;
  }

  /** What a later run of the task starts from. */
  ghost function LaterStart(task: Task, pathOf: Text -> Option<Text>, file: File, world: World, exit: Option<Exit>, requests: nat,
                            start: TaskState, live: TaskState): TaskState
  {
    var limit := task.limits.maxToolOutputBytes;
    var k := LastSaved(world, requests, pathOf, limit);
    if world.guiMissing then StartState(task, Resumable(file))
    else if world.finalSave then (if Finished(exit, world) then NewState(task.instruction) else live)
    else if k == 0 then StartState(task, Resumable(file))
    else ContextEngine.Run(Initial(start), TraceAfter(world, k, pathOf, limit).steps, ContextBudget(task)).state
  }

  /** A run from its construction on, and what the file it leaves would start. */
  method RunOnce(task: Task, pathOf: Text -> Option<Text>, file: File, resume: bool, model: Text, provider: Text, world: World)
    returns (first: Agent, result: RunResult, ghost exit: Option<Exit>)
    requires task.limits.maxModelRequests <= U32_MAX
    ensures fresh(first) && fresh(first.context) && fresh(first.budget) && fresh(first.guard)
    ensures first.Inv() && first.task == task && first.pathOf == pathOf
    ensures first.start == StartState(task, if resume then Resumable(file) else None)
    ensures first.context.Snap() == ContextEngine.Run(Initial(first.start), first.trace.steps, ContextBudget(task))
    ensures exit == if world.guiMissing then None else ExitAfter(world, first.budget.requests, task.limits, pathOf)
    ensures StartState(task, Resumable(first.file))
         == LaterStart(task, pathOf, file, world, exit, first.budget.requests, first.start, first.context.state)
    ensures !world.guiMissing && world.finalSave ==>
              (Adopted(task, Resumable(first.file), model, provider) == first.session <==> !Finished(exit, world))
  {
    first := new Agent(task, pathOf, file, resume, model, provider);
    ghost var session := first.session;
    ResumesExactlyOwnUnfinishedWork(task, if resume then file else Missing, model, provider);
    result, exit := first.Run(world);
    CheckpointTakenUp(world, first.budget.requests, task, pathOf, file, session, first.start);
    TakenUp(task, first.session, model, provider);
  }

  /** A run, and the start of a later one for the same task from the file it left. When the final
      save succeeds, the later one takes up the live state and the session exactly when the first
      did not finish its work, and starts afresh otherwise. When it fails, the later one takes up
      the last checkpoint saved. */
  method RunThenStart(task: Task, pathOf: Text -> Option<Text>, file: File, resume: bool, model: Text, provider: Text, world: World)
    returns (first: Agent, result: RunResult, second: Agent, ghost exit: Option<Exit>)
    requires task.limits.maxModelRequests <= U32_MAX
    ensures fresh(first) && first.Inv() && first.task == task && first.pathOf == pathOf
    ensures first.start == StartState(task, if resume then Resumable(file) else None)
    ensures first.context.Snap() == ContextEngine.Run(Initial(first.start), first.trace.steps, ContextBudget(task))
    ensures exit == if world.guiMissing then None else ExitAfter(world, first.budget.requests, task.limits, pathOf)
    ensures fresh(second) && fresh(second.context) && fresh(second.budget) && fresh(second.guard)
    ensures second != first && second.context != first.context && second.budget != first.budget && second.guard != first.guard
    ensures second.Inv() && second.budget.requests == 0 && second.trace == EMPTY_TRACE
    ensures second.task == task && second.pathOf == pathOf && second.context.state == second.start
    ensures second.start == LaterStart(task, pathOf, file, world, exit, first.budget.requests, first.start, first.context.state)
    ensures !world.guiMissing && world.finalSave ==>
              && (second.session == first.session <==> !Finished(exit, world))
              && (second.start == first.context.state
                  <==> !Finished(exit, world) || first.context.state == NewState(task.instruction))
  {
    first, result, exit := RunOnce(task, pathOf, file, resume, model, provider, world);
    second := new Agent(task, pathOf, first.file, true, model, provider);
  }

  /** Two runs in a row. When the first left its work unfinished and saved it, the second's
      evidence is the log of both runs, capped once. */
  method RunTwice(task: Task, pathOf: Text -> Option<Text>, file: File, resume: bool, model: Text, provider: Text, world: World, later: World)
    returns (first: Agent, second: Agent, ghost exit: Option<Exit>)
    requires task.limits.maxModelRequests <= U32_MAX
    ensures exit == if world.guiMissing then None else ExitAfter(world, first.budget.requests, task.limits, pathOf)
    ensures var turns := ObservedSteps(first.trace.steps) + ObservedSteps(second.trace.steps);
            !world.guiMissing && world.finalSave && !Finished(exit, world) && turns != [] ==>
              var state, log := second.context.state, first.start;
              && state.commandsRun == Last(log.commandsRun + Log(turns, (t: Observed) => Commands(t.calls)), EVIDENCE_CAP)
              && state.testResults == Last(log.testResults + Log(turns, (t: Observed) => Summaries(t.obs)), EVIDENCE_CAP)
              && state.openProblems == Last(log.openProblems + Log(turns, (t: Observed) => Failures(t.obs)), EVIDENCE_CAP)
              && state.objective == log.objective
  {
    var result;
    first, result, second, exit := RunThenStart(task, pathOf, file, resume, model, provider, world);
    var _, _ := second.Run(later);
    if !world.guiMissing && world.finalSave && !Finished(exit, world)
       && ObservedSteps(first.trace.steps) + ObservedSteps(second.trace.steps) != [] {
      ResumedRunContinuesLog(first.start, first.trace.steps, second.trace.steps, ContextBudget(task));
    }
  }
}
