/** How many copies of the progress message a conversation holds, over every run. */
module ContextCopies {
  import opened Text
  import opened Messages
  import opened TaskState
  import opened TurnUnits
  import opened Compaction
  import opened CompactionShape
  import opened ContextEngine
  import opened ContextRuns

  // ----- One step -----

  lemma {:induction false} SteeringIsNotProgress(note: Text)
    ensures !IsProgress(SteeringMessage(note))
  {
    var content := SteeringMessage(note).content;
    assert content[1] == Bytes("<steering>\n")[1] == 115;
    assert Bytes(PROGRESS_OPEN)[1] == 112;
  }

  lemma {:induction false} SteeredLeads(ms: seq<Message>, note: Text, n: nat)
    requires LeadingProgress(ms, n)
    ensures LeadingProgress(ms + [SteeringMessage(note)], n)
  {
    SteeringIsNotProgress(note);
    var m := SteeringMessage(note);
    assert forall i :: 0 <= i < |ms| ==> (ms + [m])[i] == ms[i];
  }

  lemma {:induction false} RefreshedLeads(ms: seq<Message>, turn: seq<Message>, progress: Message, n: nat)
    requires NoSystem(ms) && IsProgress(progress) && LeadingProgress(ms, n)
    requires forall i :: 0 <= i < |turn| ==> turn[i].Assistant? || turn[i].Tool?
    ensures LeadingProgress(Refreshed(ms, progress) + turn, Max(n, 1))
  {
    if n == 0 {
      assert Refreshed(ms, progress) == [progress] + ms;
    } else {
      assert Refreshed(ms, progress) == ms[0 := progress];
    }
  }

  /** Recording a turn adds a progress message only where there was none. */
  lemma {:induction false} RecordedLeads(s: Snapshot, response: Response, results: seq<ToolResult>, b: Budget, n: nat)
    requires NoSystem(s.messages) && LeadingProgress(s.messages, n)
    ensures LeadingProgress(Recorded(s, response, results, b).messages, Max(n, 1))
  {
    RecordedShape(s, response, results, b);
    var turn := TurnMessages(response, results);
    RefreshedLeads(s.messages, turn, ProgressMessage(Recorded(s, response, results, b).state, b), n);
  }

  /** The number of progress messages after a turn, from the number before it. */
  function TurnCopies(s: Snapshot, response: Response, results: seq<ToolResult>, b: Budget, n: nat): nat
  {
    var ms := Recorded(s, response, results, b).messages;
    if Fits(b, Tokens(ms)) then Max(n, 1) else CopiesLeft(ms, Available(b), Max(n, 1))
  }

  /** The turn sets off no compaction, or one of a paired transcript that is made of texts or has
      none to cut. */
  ghost predicate Countable(s: Snapshot, response: Response, results: seq<ToolResult>, b: Budget)
  {
    var ms := Recorded(s, response, results, b).messages;
    || Fits(b, Tokens(ms))
    || (Paired(s.messages) && Answers(response, results) && (AllUtf8(ms) || 2 * MessageTokens(ms[0]) <= Available(b)))
  }

  lemma {:induction false} CompactionMovesCopies(ms: seq<Message>, available: nat, n: nat)
    requires Paired(ms) && NoSystem(ms) && LeadingProgress(ms, n) && n >= 1
    requires AllUtf8(ms) || 2 * MessageTokens(ms[0]) <= available
    ensures LeadingProgress(Compacted(ms, available), CopiesLeft(ms, available, n))
    ensures 1 <= CopiesLeft(ms, available, n) <= 1 + n
    ensures CopiesLeft(ms, available, n) == 1 <==> 2 * MessageTokens(ms[0]) > available && !IsProgress(ms[|ms| - 1])
  {
    KeepsProgressIff(ms, available);
    if 2 * MessageTokens(ms[0]) <= available {
      CopiesKept(ms, available, n);
    } else {
      CompactionCopiesProgress(ms, available, n);
    }
  }

  /** How the number of progress messages moves in one turn, in a window of any size. */
  lemma {:induction false} TurnMovesCopies(s: Snapshot, response: Response, results: seq<ToolResult>, b: Budget, n: nat)
    requires NoSystem(s.messages) && LeadingProgress(s.messages, n) && Countable(s, response, results, b)
    ensures var after := AfterTurn(s, response, results, b);
            var n' := TurnCopies(s, response, results, b, n);
            && LeadingProgress(after.messages, n')
            && 1 <= n' <= Max(n, 1) + (after.compactions - s.compactions)
    ensures var ms := Recorded(s, response, results, b).messages;
            TurnCopies(s, response, results, b, n) == 1 <==>
              if Fits(b, Tokens(ms)) then n <= 1
              else 2 * MessageTokens(ms[0]) > Available(b) && !IsProgress(ms[|ms| - 1])
  {
    var ms := Recorded(s, response, results, b).messages;
    RecordedLeads(s, response, results, b, n);
    if !Fits(b, Tokens(ms)) {
      RecordedLed(s, response, results, b);
      CompactionMovesCopies(ms, Available(b), Max(n, 1));
    }
  }

  // ----- Every run -----

  /** The number of progress messages after a run. */
  function CopiesAfter(state: TaskState, steps: seq<Step>, b: Budget): nat
    decreases |steps|
  {
    if steps == [] then 0
    else
      var init, last := steps[..|steps| - 1], steps[|steps| - 1];
      var before := CopiesAfter(state, init, b);
      if last.PushTurn? then TurnCopies(Run(Initial(state), init, b), last.response, last.results, b, before) else before
  }

  predicate Pushed(steps: seq<Step>)
  {
    steps != [] && (steps[|steps| - 1].PushTurn? || Pushed(steps[..|steps| - 1]))
  }

  predicate AgentRun(steps: seq<Step>)
  {
    forall i :: 0 <= i < |steps| ==> AgentStep(steps[i])
  }

  /** The last step, if it is a turn, is countable. */
  ghost predicate LastCountable(state: TaskState, steps: seq<Step>, b: Budget)
    requires steps != []
  {
    var last := steps[|steps| - 1];
    last.PushTurn? ==> Countable(Run(Initial(state), steps[..|steps| - 1], b), last.response, last.results, b)
  }

  ghost predicate TurnsCountable(state: TaskState, steps: seq<Step>, b: Budget)
    decreases |steps|
  {
    steps == [] || (TurnsCountable(state, steps[..|steps| - 1], b) && LastCountable(state, steps, b))
  }

  /** A run of the agent, every turn of which is countable. */
  ghost predicate CountableRun(state: TaskState, steps: seq<Step>, b: Budget)
  {
    AgentRun(steps) && TurnsCountable(state, steps, b)
  }

  lemma {:induction false} CountableMore(state: TaskState, steps: seq<Step>, b: Budget)
    requires AgentRun(steps) && steps != [] && CountableRun(state, steps[..|steps| - 1], b) && LastCountable(state, steps, b)
    ensures CountableRun(state, steps, b)
  {
  }

  lemma {:induction false} CountableLess(state: TaskState, steps: seq<Step>, b: Budget)
    requires steps != [] && CountableRun(state, steps, b)
    ensures AgentStep(steps[|steps| - 1]) && CountableRun(state, steps[..|steps| - 1], b) && LastCountable(state, steps, b)
  {
  }

  lemma {:induction false} NextMovesCopies(s: Snapshot, step: Step, b: Budget, n: nat)
    requires NoSystem(s.messages) && LeadingProgress(s.messages, n) && n <= 1 + s.compactions
    requires AgentStep(step) && (step.PushTurn? ==> Countable(s, step.response, step.results, b))
    ensures var n' := if step.PushTurn? then TurnCopies(s, step.response, step.results, b, n) else n;
            LeadingProgress(Next(s, step, b).messages, n') && n' <= 1 + Next(s, step, b).compactions
  {
    match step {
      case PushTurn(response, results) => TurnMovesCopies(s, response, results, b, n);
      case Steer(note) => SteeredLeads(s.messages, note, n);
      case RecordFiles(_, _) => assert Next(s, step, b).messages == s.messages;
    }
  }

  lemma {:induction false} CountedCopies(state: TaskState, steps: seq<Step>, b: Budget)
    requires CountableRun(state, steps, b)
    ensures var s, n := Run(Initial(state), steps, b), CopiesAfter(state, steps, b);
            LeadingProgress(s.messages, n) && n <= 1 + s.compactions && (n == 0 <==> !Pushed(steps))
    decreases |steps|
  {
    if steps != [] {
      var init, last := steps[..|steps| - 1], steps[|steps| - 1];
      CountableLess(state, steps, b);
      CountedCopies(state, init, b);
      RunNoSystem(state, init, b);
      NextMovesCopies(Run(Initial(state), init, b), last, b, CopiesAfter(state, init, b));
    }
  }

  // ----- Which runs can be counted -----

  /** Runs over texts, which is what Rust strings are. */
  lemma {:induction false} TextRunsAreCountable(state: TaskState, steps: seq<Step>, b: Budget)
    requires AgentRun(steps) && ValidSteps(steps) && StateUtf8(state) && forall i :: 0 <= i < |steps| ==> Utf8Step(steps[i])
    ensures CountableRun(state, steps, b)
    decreases |steps|
  {
    if steps != [] {
      var init, last := steps[..|steps| - 1], steps[|steps| - 1];
      TextRunsAreCountable(state, init, b);
      RunPaired(state, init, b);
      RunClean(state, init, b);
      if last.PushTurn? {
        RecordedClean(Run(Initial(state), init, b), last.response, last.results, b);
      }
      CountableMore(state, steps, b);
    } else {
      assert CountableRun(state, [], b);
    }
  }

  lemma {:induction false} TwiceIsCountable(s: Snapshot, response: Response, results: seq<ToolResult>, b: Budget)
    requires Paired(s.messages) && Answers(response, results)
    requires 2 * MessageTokens(Recorded(s, response, results, b).messages[0]) <= Available(b)
    ensures Countable(s, response, results, b)
  {
  }

  /** Runs with 4068 tokens available. */
  lemma {:induction false} AmpleRunsAreCountable(state: TaskState, steps: seq<Step>, b: Budget)
    requires AgentRun(steps) && ValidSteps(steps) && AmpleRun(state, steps, b)
    ensures CountableRun(state, steps, b)
    decreases |steps|
  {
    if steps != [] {
      AmplePrefix(state, steps, b);
      AmpleRunsAreCountable(state, steps[..|steps| - 1], b);
      if steps[|steps| - 1].PushTurn? {
        AmpleTurnIsCountable(state, steps, b);
      }
      CountableMore(state, steps, b);
    } else {
      assert CountableRun(state, [], b);
    }
  }

  lemma {:induction false} AmpleTurnIsCountable(state: TaskState, steps: seq<Step>, b: Budget)
    requires steps != [] && ValidSteps(steps) && steps[|steps| - 1].PushTurn?
    requires AmpleRun(state, steps, b)
    ensures var last := steps[|steps| - 1];
            Countable(Run(Initial(state), steps[..|steps| - 1], b), last.response, last.results, b)
  {
    var init, last := steps[..|steps| - 1], steps[|steps| - 1];
    RunPaired(state, init, b);
    AmpleRunFitsTwice(state, steps, b);
    TwiceIsCountable(Run(Initial(state), init, b), last.response, last.results, b);
  }

  lemma {:induction false} CompactionsGrow(s: Snapshot, step: Step, b: Budget)
    ensures Next(s, step, b).compactions >= s.compactions
    ensures step.PushTurn? && Next(s, step, b).compactions == s.compactions ==>
              Fits(b, Tokens(Recorded(s, step.response, step.results, b).messages))
  {
  }

  /** Runs that have not compacted. */
  lemma {:induction false} UncompactedRunsAreCountable(state: TaskState, steps: seq<Step>, b: Budget)
    requires AgentRun(steps) && Run(Initial(state), steps, b).compactions == 0
    ensures CountableRun(state, steps, b)
    decreases |steps|
  {
    if steps != [] {
      var init, last := steps[..|steps| - 1], steps[|steps| - 1];
      CompactionsGrow(Run(Initial(state), init, b), last, b);
      UncompactedRunsAreCountable(state, init, b);
      CountableMore(state, steps, b);
    } else {
      assert CountableRun(state, [], b);
    }
  }

  // ----- How many copies there are -----

  /** Over every run of the agent, in a window of any size, the transcript is led by its progress
      messages and holds no others. There are at most one more of them than compactions, and none
      exactly until a turn is recorded. */
  lemma {:induction false} RunCopies(state: TaskState, steps: seq<Step>, b: Budget)
    requires AgentRun(steps) && ValidSteps(steps)
    requires StateUtf8(state) && forall i :: 0 <= i < |steps| ==> Utf8Step(steps[i])
    ensures var s, n := Run(Initial(state), steps, b), CopiesAfter(state, steps, b);
            LeadingProgress(s.messages, n) && n <= 1 + s.compactions && (n == 0 <==> !Pushed(steps))
  {
    TextRunsAreCountable(state, steps, b);
    CountedCopies(state, steps, b);
  }

  /** Before the first compaction, in a window of any size, a run that has recorded a turn has
      exactly one progress message, at the front, and one that has not has none. */
  lemma {:induction false} OneProgressBeforeCompaction(state: TaskState, steps: seq<Step>, b: Budget)
    requires AgentRun(steps) && Run(Initial(state), steps, b).compactions == 0
    ensures LeadingProgress(Run(Initial(state), steps, b).messages, if Pushed(steps) then 1 else 0)
  {
    UncompactedRunsAreCountable(state, steps, b);
    CountedCopies(state, steps, b);
  }

  /** Since the last compaction, if there was one, the progress message has had one copy: that
      compaction found it too large to fit twice, and something else to keep. */
  predicate LastCompactionLeftOne(state: TaskState, steps: seq<Step>, b: Budget)
    decreases |steps|
  {
    steps == []
    || (var init, last := steps[..|steps| - 1], steps[|steps| - 1];
        if !last.PushTurn? || Fits(b, Tokens(LastRecorded(state, steps, b)))
        then LastCompactionLeftOne(state, init, b)
        else var ms := LastRecorded(state, steps, b);
             2 * MessageTokens(ms[0]) > Available(b) && !IsProgress(ms[|ms| - 1]))
  }

  lemma {:induction false} AtMostOneIff(state: TaskState, steps: seq<Step>, b: Budget)
    requires CountableRun(state, steps, b)
    ensures CopiesAfter(state, steps, b) <= 1 <==> LastCompactionLeftOne(state, steps, b)
    decreases |steps|
  {
    if steps != [] {
      var init, last := steps[..|steps| - 1], steps[|steps| - 1];
      CountableLess(state, steps, b);
      AtMostOneIff(state, init, b);
      if last.PushTurn? {
        CountedCopies(state, init, b);
        RunNoSystem(state, init, b);
        TurnMovesCopies(Run(Initial(state), init, b), last.response, last.results, b, CopiesAfter(state, init, b));
      }
    }
  }

  lemma {:induction false} LeadingUnique(ms: seq<Message>, m: nat, n: nat)
    requires LeadingProgress(ms, m) && LeadingProgress(ms, n)
    ensures m == n
  {
    var k := Min(m, n);
    assert k < |ms| ==> (IsProgress(ms[k]) <==> k < m) && (IsProgress(ms[k]) <==> k < n);
  }

  lemma {:induction false} CountedOneIff(state: TaskState, steps: seq<Step>, b: Budget)
    requires CountableRun(state, steps, b) && Pushed(steps)
    ensures LeadingProgress(Run(Initial(state), steps, b).messages, 1) <==> LastCompactionLeftOne(state, steps, b)
  {
    CountedCopies(state, steps, b);
    AtMostOneIff(state, steps, b);
    if LeadingProgress(Run(Initial(state), steps, b).messages, 1) {
      LeadingUnique(Run(Initial(state), steps, b).messages, 1, CopiesAfter(state, steps, b));
    }
  }

  /** In a window of any size, a run that has recorded a turn holds exactly one progress message if
      and only if it has never compacted, or its last compaction left one. */
  lemma {:induction false} OneProgressIff(state: TaskState, steps: seq<Step>, b: Budget)
    requires AgentRun(steps) && ValidSteps(steps) && Pushed(steps)
    requires StateUtf8(state) && forall i :: 0 <= i < |steps| ==> Utf8Step(steps[i])
    ensures LeadingProgress(Run(Initial(state), steps, b).messages, 1) <==> LastCompactionLeftOne(state, steps, b)
  {
    TextRunsAreCountable(state, steps, b);
    CountedOneIff(state, steps, b);
  }

  lemma {:induction false} AmpleLeavesTwo(state: TaskState, steps: seq<Step>, b: Budget)
    requires AgentRun(steps) && ValidSteps(steps) && AmpleRun(state, steps, b)
    ensures LastCompactionLeftOne(state, steps, b) <==> Run(Initial(state), steps, b).compactions == 0
    decreases |steps|
  {
    if steps != [] {
      var init, last := steps[..|steps| - 1], steps[|steps| - 1];
      AmplePrefix(state, steps, b);
      AmpleLeavesTwo(state, init, b);
      if last.PushTurn? {
        AmpleRunFitsTwice(state, steps, b);
      }
    }
  }

  /** So with 4068 tokens available there is one copy exactly as long as there was no compaction. */
  lemma {:induction false} OneProgressIffNeverCompacted(state: TaskState, steps: seq<Step>, b: Budget)
    requires AgentRun(steps) && ValidSteps(steps) && Pushed(steps)
    requires AmpleRun(state, steps, b)
    ensures var s := Run(Initial(state), steps, b);
            LeadingProgress(s.messages, 1) <==> s.compactions == 0
  {
    AmpleRunsAreCountable(state, steps, b);
    CountedOneIff(state, steps, b);
    AmpleLeavesTwo(state, steps, b);
  }
}
