/** The structured state a compaction must not lose. */
module TaskState {
  import opened Sequences
  import opened Order
  import opened Text
  import opened Messages

  datatype TaskState = TaskState(
    objective: Text,
    constraints: seq<Text>,
    decisions: seq<Text>,
    filesRead: seq<Text>,
    filesChanged: seq<Text>,
    commandsRun: seq<Text>,
    testResults: seq<Text>,
    openProblems: seq<Text>)

  function NewState(objective: Text): TaskState
  {
    TaskState(objective, [], [], [], [], [], [], [])
  }

  /** Insertion into an ordered set kept as its ascending enumeration. */
  function InsertPath(paths: seq<Text>, p: Text): (r: seq<Text>)
    ensures forall x :: x in r <==> x in paths || x == p
  {
    if paths == [] then [p]
    else if p == paths[0] then paths
    else if Less(p, paths[0]) then [p] + paths
    else [paths[0]] + InsertPath(paths[1..], p)
  }

  // ----- Rendering -----

  function Items(items: seq<Text>): Text
  {
    if items == [] then [] else Bytes("- ") + items[0] + Bytes("\n") + Items(items[1..])
  }

  function Section(title: string, items: seq<Text>): Text
  {
    if items == [] then [] else Bytes("\n## ") + Bytes(title) + Bytes("\n") + Items(items)
  }

  function Render(s: TaskState): Text
  {
    Bytes("## Objective\n") + s.objective + Bytes("\n")
    + Section("Constraints", s.constraints)
    + Section("Decisions", s.decisions)
    + Section("Files changed", s.filesChanged)
    + Section("Tests", s.testResults)
    + Section("Open problems", s.openProblems)
  }

  predicate AllWellFormed(ts: seq<Text>)
  {
    forall i :: 0 <= i < |ts| ==> WellFormed(ts[i])
  }

  predicate StateUtf8(s: TaskState)
  {
    && WellFormed(s.objective) && AllWellFormed(s.constraints) && AllWellFormed(s.decisions)
    && AllWellFormed(s.filesChanged) && AllWellFormed(s.testResults) && AllWellFormed(s.openProblems)
  }

  lemma {:induction false} BytesWellFormed(s: string)
    ensures WellFormed(Bytes(s))
  {
    AsciiWellFormed(Bytes(s));
  }

  lemma {:induction false} ItemsWellFormed(items: seq<Text>)
    requires AllWellFormed(items)
    ensures WellFormed(Items(items))
  {
    if items != [] {
      ItemsWellFormed(items[1..]);
      BytesWellFormed("- ");
      BytesWellFormed("\n");
      WellFormedConcat(Bytes("- "), items[0]);
      WellFormedConcat(Bytes("- ") + items[0], Bytes("\n"));
      WellFormedConcat(Bytes("- ") + items[0] + Bytes("\n"), Items(items[1..]));
    }
  }

  lemma {:induction false} SectionWellFormed(before: Text, title: string, items: seq<Text>)
    requires WellFormed(before) && AllWellFormed(items)
    ensures WellFormed(before + Section(title, items))
  {
    if items != [] {
      ItemsWellFormed(items);
      BytesWellFormed("\n## ");
      BytesWellFormed(title);
      BytesWellFormed("\n");
      WellFormedConcat(Bytes("\n## "), Bytes(title));
      WellFormedConcat(Bytes("\n## ") + Bytes(title), Bytes("\n"));
      WellFormedConcat(Bytes("\n## ") + Bytes(title) + Bytes("\n"), Items(items));
    }
    WellFormedConcat(before, Section(title, items));
  }

  lemma {:induction false} RenderWellFormed(s: TaskState)
    requires StateUtf8(s)
    ensures WellFormed(Render(s))
  {
    var t0 := Bytes("## Objective\n") + s.objective + Bytes("\n");
    assert WellFormed(t0) by {
      BytesWellFormed("## Objective\n");
      BytesWellFormed("\n");
      WellFormedConcat(Bytes("## Objective\n"), s.objective);
      WellFormedConcat(Bytes("## Objective\n") + s.objective, Bytes("\n"));
    }
    var t1 := t0 + Section("Constraints", s.constraints);
    SectionWellFormed(t0, "Constraints", s.constraints);
    var t2 := t1 + Section("Decisions", s.decisions);
    SectionWellFormed(t1, "Decisions", s.decisions);
    var t3 := t2 + Section("Files changed", s.filesChanged);
    SectionWellFormed(t2, "Files changed", s.filesChanged);
    var t4 := t3 + Section("Tests", s.testResults);
    SectionWellFormed(t3, "Tests", s.testResults);
    SectionWellFormed(t4, "Open problems", s.openProblems);
  }

  predicate OccursAt(x: Text, t: Text, i: nat) { i + |x| <= |t| && t[i..i + |x|] == x }

  ghost predicate Occurs(x: Text, t: Text) { exists i: nat :: OccursAt(x, t, i) }

  ghost predicate Shown(items: seq<Text>, t: Text)
  {
    forall i :: 0 <= i < |items| ==> Occurs(items[i], t)
  }

  lemma {:induction false} OccursLeft(x: Text, a: Text, b: Text)
    requires Occurs(x, a)
    ensures Occurs(x, a + b)
  {
    var i: nat :| OccursAt(x, a, i);
    assert OccursAt(x, a + b, i);
  }

  lemma {:induction false} OccursRight(x: Text, a: Text, b: Text)
    requires Occurs(x, b)
    ensures Occurs(x, a + b)
  {
    var i: nat :| OccursAt(x, b, i);
    assert OccursAt(x, a + b, |a| + i);
  }

  lemma {:induction false} ShownLeft(items: seq<Text>, a: Text, b: Text)
    requires Shown(items, a)
    ensures Shown(items, a + b)
  {
    forall i | 0 <= i < |items| ensures Occurs(items[i], a + b) {
      OccursLeft(items[i], a, b);
    }
  }

  lemma {:induction false} ItemShown(items: seq<Text>, i: nat)
    requires i < |items|
    ensures Occurs(items[i], Items(items))
    decreases |items|
  {
    var line := Bytes("- ") + items[0] + Bytes("\n");
    if i == 0 {
      assert OccursAt(items[0], line, 2);
      OccursLeft(items[0], line, Items(items[1..]));
    } else {
      ItemShown(items[1..], i - 1);
      OccursRight(items[i], line, Items(items[1..]));
    }
  }

  lemma {:induction false} SectionShown(before: Text, title: string, items: seq<Text>)
    ensures Shown(items, before + Section(title, items))
  {
    forall i | 0 <= i < |items| ensures Occurs(items[i], before + Section(title, items)) {
      ItemShown(items, i);
      OccursRight(items[i], Bytes("\n## ") + Bytes(title) + Bytes("\n"), Items(items));
      OccursRight(items[i], before, Section(title, items));
    }
  }

  /** Everything the model is to be reminded of is in the rendered text, word for word: the
      objective and every entry of the five lists that have a section. */
  lemma {:induction false} RenderShows(s: TaskState)
    ensures Shown([s.objective], Render(s))
    ensures Shown(s.constraints, Render(s)) && Shown(s.decisions, Render(s)) && Shown(s.filesChanged, Render(s))
    ensures Shown(s.testResults, Render(s)) && Shown(s.openProblems, Render(s))
  {
    var t0 := Bytes("## Objective\n") + s.objective + Bytes("\n");
    assert OccursAt(s.objective, t0, 13);
    var lists := [[s.objective]];
    NextSection(t0, "Constraints", s.constraints, lists);
    var t1 := t0 + Section("Constraints", s.constraints);
    NextSection(t1, "Decisions", s.decisions, lists + [s.constraints]);
    var t2 := t1 + Section("Decisions", s.decisions);
    NextSection(t2, "Files changed", s.filesChanged, lists + [s.constraints] + [s.decisions]);
    var t3 := t2 + Section("Files changed", s.filesChanged);
    NextSection(t3, "Tests", s.testResults, lists + [s.constraints] + [s.decisions] + [s.filesChanged]);
    var t4 := t3 + Section("Tests", s.testResults);
    var all := lists + [s.constraints] + [s.decisions] + [s.filesChanged] + [s.testResults];
    NextSection(t4, "Open problems", s.openProblems, all);
    AllAre(all + [s.openProblems], s);
  }

  lemma {:induction false} AllAre(all: seq<seq<Text>>, s: TaskState)
    requires all == [[s.objective]] + [s.constraints] + [s.decisions] + [s.filesChanged] + [s.testResults] + [s.openProblems]
    ensures all[0] == [s.objective] && all[1] == s.constraints && all[2] == s.decisions
    ensures all[3] == s.filesChanged && all[4] == s.testResults && all[5] == s.openProblems
  {
  }

  ghost predicate AllShown(lists: seq<seq<Text>>, t: Text)
  {
    forall k :: 0 <= k < |lists| ==> Shown(lists[k], t)
  }

  /** A section adds its own entries and hides none before it. */
  lemma {:induction false} NextSection(before: Text, title: string, items: seq<Text>, lists: seq<seq<Text>>)
    requires AllShown(lists, before)
    ensures AllShown(lists + [items], before + Section(title, items))
  {
    SectionShown(before, title, items);
    forall k | 0 <= k < |lists| ensures Shown(lists[k], before + Section(title, items)) {
      ShownLeft(lists[k], before, Section(title, items));
    }
  }

  // ----- Ordered paths -----

  /** The paths are the strictly ascending enumeration of a set. */
  predicate Ascends(paths: seq<Text>)
  {
    forall i, j :: 0 <= i < j < |paths| ==> Less(paths[i], paths[j])
  }

  lemma {:induction false} InsertPathAscends(paths: seq<Text>, p: Text)
    requires Ascends(paths)
    ensures Ascends(InsertPath(paths, p))
  {
    if paths != [] && p != paths[0] {
      if Less(p, paths[0]) {
        forall j | 0 < j < |paths| ensures Less(p, paths[j]) {
          LessTransitive(p, paths[0], paths[j]);
        }
      } else {
        LessTotal(p, paths[0]);
        InsertPathAscends(paths[1..], p);
        var rest := InsertPath(paths[1..], p);
        forall j | 0 <= j < |rest| ensures Less(paths[0], rest[j]) {
          assert rest[j] in rest;
        }
      }
    }
  }

  // ----- Evidence -----

  const EVIDENCE_CAP: nat := 40

  datatype Observation = Observation(summary: Text, ok: bool)

  function Commands(calls: seq<ToolCall>): (r: seq<Text>)
    ensures |r| == |calls| && forall i :: 0 <= i < |calls| ==> r[i] == Signature(calls[i])
  {
    seq(|calls|, i requires 0 <= i < |calls| => Signature(calls[i]))
  }

  function Summaries(obs: seq<Observation>): (r: seq<Text>)
    ensures |r| == |obs| && forall i :: 0 <= i < |obs| ==> r[i] == obs[i].summary
  {
    seq(|obs|, i requires 0 <= i < |obs| => obs[i].summary)
  }

  function Failures(obs: seq<Observation>): (r: seq<Text>)
    ensures forall x :: x in r ==> x in Summaries(obs)
  {
    if obs == [] then []
    else
      var init := obs[..|obs| - 1];
      var last := obs[|obs| - 1];
      assert Summaries(obs) == Summaries(init) + [last.summary];
      if last.ok then Failures(init) else Failures(init) + [last.summary]
  }

  /** Folds a turn into the state, every evidence list capped to its most recent entries. */
  function Observe(s: TaskState, calls: seq<ToolCall>, obs: seq<Observation>): TaskState
  {
    s.(constraints := Last(s.constraints, EVIDENCE_CAP),
       decisions := Last(s.decisions, EVIDENCE_CAP),
       commandsRun := Last(s.commandsRun + Commands(calls), EVIDENCE_CAP),
       testResults := Last(s.testResults + Summaries(obs), EVIDENCE_CAP),
       openProblems := Last(s.openProblems + Failures(obs), EVIDENCE_CAP))
  }

  method CapList(list: seq<Text>) returns (r: seq<Text>)
    ensures r == Last(list, EVIDENCE_CAP)
  {
    r := list;
    if |r| > EVIDENCE_CAP {
      var overflow := |r| - EVIDENCE_CAP;
      r := r[overflow..];
    }
  }

  method ObserveTurn(s: TaskState, calls: seq<ToolCall>, obs: seq<Observation>) returns (r: TaskState)
    ensures r == Observe(s, calls, obs)
  {
    var commands, results, problems := s.commandsRun, s.testResults, s.openProblems;
    for i := 0 to |calls|
      invariant commands == s.commandsRun + Commands(calls)[..i]
    {
      commands := commands + [Signature(calls[i])];
    }
    for i := 0 to |obs|
      invariant results == s.testResults + Summaries(obs)[..i]
      invariant problems == s.openProblems + Failures(obs[..i])
    {
      assert obs[..i + 1][..i] == obs[..i];
      if !obs[i].ok {
        problems := problems + [obs[i].summary];
      }
      results := results + [obs[i].summary];
    }
    assert obs[..|obs|] == obs;
    assert Commands(calls)[..|calls|] == Commands(calls) && Summaries(obs)[..|obs|] == Summaries(obs);
    var decisions := CapList(s.decisions);
    commands := CapList(commands);
    results := CapList(results);
    problems := CapList(problems);
    var constraints := CapList(s.constraints);
    r := s.(decisions := decisions, commandsRun := commands, testResults := results,
            openProblems := problems, constraints := constraints);
  }

  // ----- The capped lists against the whole log -----

  datatype Observed = Observed(calls: seq<ToolCall>, obs: seq<Observation>)

  function ObserveAll(s: TaskState, turns: seq<Observed>): TaskState
  {
    if turns == [] then s
    else
      var last := turns[|turns| - 1];
      Observe(ObserveAll(s, turns[..|turns| - 1]), last.calls, last.obs)
  }

  /** The uncapped log of one list: what every turn contributed, in order. */
  function Log(turns: seq<Observed>, entry: Observed -> seq<Text>): seq<Text>
  {
    if turns == [] then [] else Log(turns[..|turns| - 1], entry) + entry(turns[|turns| - 1])
  }

  /** Over any number of turns, each capped list is the last forty entries of the whole log. */
  lemma {:induction false} EvidenceIsLogSuffix(s: TaskState, turns: seq<Observed>)
    requires turns != []
    ensures var r := ObserveAll(s, turns);
            && r.commandsRun == Last(s.commandsRun + Log(turns, (t: Observed) => Commands(t.calls)), EVIDENCE_CAP)
            && r.testResults == Last(s.testResults + Log(turns, (t: Observed) => Summaries(t.obs)), EVIDENCE_CAP)
            && r.openProblems == Last(s.openProblems + Log(turns, (t: Observed) => Failures(t.obs)), EVIDENCE_CAP)
            && r.decisions == Last(s.decisions, EVIDENCE_CAP) && r.constraints == Last(s.constraints, EVIDENCE_CAP)
            && r.objective == s.objective && r.filesChanged == s.filesChanged && r.filesRead == s.filesRead
    decreases |turns|
  {
    var init, last := turns[..|turns| - 1], turns[|turns| - 1];
    var commands, summaries, failures :=
      (t: Observed) => Commands(t.calls), (t: Observed) => Summaries(t.obs), (t: Observed) => Failures(t.obs);
    LogStep(s.commandsRun, init, last, commands);
    LogStep(s.testResults, init, last, summaries);
    LogStep(s.openProblems, init, last, failures);
    if init == [] {
      assert s.commandsRun + [] == s.commandsRun && s.testResults + [] == s.testResults && s.openProblems + [] == s.openProblems;
    } else {
      EvidenceIsLogSuffix(s, init);
    }
  }

  lemma {:induction false} LogStep(start: seq<Text>, init: seq<Observed>, last: Observed, entry: Observed -> seq<Text>)
    ensures Last(start + Log(init + [last], entry), EVIDENCE_CAP)
         == Last(Last(start + Log(init, entry), EVIDENCE_CAP) + entry(last), EVIDENCE_CAP)
         == Last(start + Log(init, entry) + entry(last), EVIDENCE_CAP)
  {
    var turns := init + [last];
    assert turns[..|turns| - 1] == init;
    assert start + Log(turns, entry) == start + Log(init, entry) + entry(last);
    LastOfLast(start + Log(init, entry), entry(last), EVIDENCE_CAP);
  }

  lemma {:induction false} ObserveUtf8(s: TaskState, calls: seq<ToolCall>, obs: seq<Observation>)
    requires StateUtf8(s) && forall i :: 0 <= i < |obs| ==> WellFormed(obs[i].summary)
    ensures StateUtf8(Observe(s, calls, obs))
  {
    forall x | x in Failures(obs) ensures WellFormed(x) {
      assert x in Summaries(obs);
    }
  }
}
