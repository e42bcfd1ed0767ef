/** What a turn that overflows the window costs the conversation. */
module ContextLoss {
  import opened Sequences
  import opened Messages
  import opened TaskState
  import opened TurnUnits
  import opened Compaction
  import opened CompactionShape
  import opened CompactionLoss
  import opened ContextEngine
  import opened ContextRuns

  /** The unit a turn with anything in it forms: its results come out newest first. */
  function TurnUnit(response: Response, results: seq<ToolResult>): seq<Message>
  {
    [Assistant(response.text, response.toolCalls)] + Reverse(ResultMessages(results))
  }

  lemma {:induction false} TurnUnitNoSystem(response: Response, results: seq<ToolResult>)
    ensures NoSystem(TurnUnit(response, results))
  {
    assert forall m :: m in Reverse(ResultMessages(results)) ==> m in ResultMessages(results);
  }

  lemma {:induction false} LastUnit(before: seq<Message>, turn: Block)
    requires Paired(before) && ValidBlock(turn)
    ensures var ms := before + BlockMessages(turn);
            Units(ms) != [] && Newest(ms) == BlockMessages(Flip(turn))
  {
    var bs: seq<Block> :| ValidBlocks(bs) && Transcript(bs) == before;
    TranscriptConcat(bs, [turn]);
    TranscriptOne(turn);
    UnitsOfTranscript(bs + [turn]);
  }

  lemma {:induction false} TurnIsNewest(s: Snapshot, response: Response, results: seq<ToolResult>, b: Budget)
    requires Paired(s.messages) && NoSystem(s.messages) && Answers(response, results)
    requires TurnMessages(response, results) != []
    ensures var ms := Recorded(s, response, results, b).messages;
            Units(ms) != [] && Newest(ms) == TurnUnit(response, results)
  {
    var progress := ProgressMessage(Recorded(s, response, results, b).state, b);
    RecordedShape(s, response, results, b);
    TurnIsBlock(response, results);
    RefreshedPaired(s.messages, progress);
    LastUnit(Refreshed(s.messages, progress), TurnBlock(response, results));
  }

  lemma {:induction false} OverflowsAvailable(s: Snapshot, response: Response, results: seq<ToolResult>, b: Budget)
    requires Paired(s.messages) && NoSystem(s.messages) && Answers(response, results)
    requires !Fits(b, Tokens(Recorded(s, response, results, b).messages))
    ensures Tokens(Recorded(s, response, results, b).messages) > Available(b)
  {
    RecordedLed(s, response, results, b);
    AvailableMeansFits(b, Tokens(Recorded(s, response, results, b).messages));
  }

  lemma {:induction false} LedKeepsOldestIff(ms: seq<Message>, available: nat)
    requires Paired(ms) && ms != [] && IsProgress(ms[0])
    ensures KeepsOldest(ms, available) <==> 2 * MessageTokens(ms[0]) <= available
    ensures Base(ms) == [ms[0]] && Tokens(Base(ms)) == MessageTokens(ms[0])
    ensures !KeepsOldest(ms, available) ==> Carried(ms, available) == [ms[0]]
  {
    ProgressIsOldestUnit(ms);
    assert Tokens([ms[0]]) == MessageTokens(ms[0]) + Tokens([ms[0]][1..]);
    OldestIsProgress(ms, Target(ms, available));
    KeepsProgressIff(ms, available);
  }

  /** What becomes of the newest unit of a transcript led by its progress message: it is lost, and
      a prefix of the units before it stays, when that message fits twice; otherwise it stays, its
      last message cut as far as need be, and whole when it fits beside the progress message. */
  predicate NewestFate(ms: seq<Message>, available: nat, after: seq<Message>)
    requires ms != [] && Units(ms) != []
  {
    var units, kept, newest := Units(ms), Kept(ms, available), Newest(ms);
    && (2 * MessageTokens(ms[0]) <= available ==>
          kept != [] && kept <= units[..|units| - 1] && after == [ms[0]] + Flatten(kept))
    && (2 * MessageTokens(ms[0]) > available ==>
          EndsWith(after, [ms[0]], newest, FallbackLimit(ms, available)))
    && (MessageTokens(ms[0]) + Tokens(newest) <= available < 2 * MessageTokens(ms[0]) ==>
          after == [ms[0]] + newest)
  }

  lemma {:induction false} LedOverflow(ms: seq<Message>, available: nat)
    requires Paired(ms) && ms != [] && IsProgress(ms[0]) && Tokens(ms) > available && Units(ms) != []
    requires NoSystem(Newest(ms))
    ensures NewestFate(ms, available, Compacted(ms, available))
  {
    LedKeepsOldestIff(ms, available);
    KeepsProgressIff(ms, available);
    OverflowDropsNewestIff(ms, available);
    NoneIsUser(Newest(ms));
  }

  /** In a window of any size, the turn that overflows it is lost if and only if the progress
      message fits the window twice. */
  lemma {:induction false} OverflowingTurnIsDroppedIff(s: Snapshot, response: Response, results: seq<ToolResult>, b: Budget)
    requires Paired(s.messages) && NoSystem(s.messages) && Answers(response, results)
    requires TurnMessages(response, results) != []
    requires !Fits(b, Tokens(Recorded(s, response, results, b).messages))
    ensures var ms := Recorded(s, response, results, b).messages;
            && Units(ms) != [] && Newest(ms) == TurnUnit(response, results)
            && NewestFate(ms, Available(b), AfterTurn(s, response, results, b).messages)
  {
    var ms := Recorded(s, response, results, b).messages;
    RecordedLed(s, response, results, b);
    TurnIsNewest(s, response, results, b);
    OverflowsAvailable(s, response, results, b);
    TurnUnitNoSystem(response, results);
    LedOverflow(ms, Available(b));
  }

  lemma {:induction false} NoneIsUser(unit: seq<Message>)
    requires NoSystem(unit)
    ensures AsUsers(unit) == unit
  {
  }

  // ----- A lost answer -----

  /** A first answer too large for the window, where the progress message fits twice, leaves no
      trace: the transcript afterwards is the progress message, twice. */
  lemma {:induction false} OversizedAnswerIsLost(state: TaskState, answer: Response, b: Budget)
    requires answer.text.Some? && answer.toolCalls == [] && EstimateTokens(answer.text.value) > Available(b)
    requires 2 * MessageTokens(Recorded(Initial(state), answer, [], b).messages[0]) <= Available(b)
    ensures var after := AfterTurn(Initial(state), answer, [], b);
            var progress := ProgressMessage(after.state, b);
            after.messages == [progress, progress]
  {
    var recorded := Recorded(Initial(state), answer, [], b);
    var progress, said := recorded.messages[0], Assistant(answer.text, []);
    PairedEmpty();
    FirstAnswer(state, answer, b);
    RecordedLed(Initial(state), answer, [], b);
    OverflowsAvailable(Initial(state), answer, [], b);
    LostAnswer(progress, said, Available(b));
    assert AfterTurn(Initial(state), answer, [], b) == AfterCompact(recorded, b);
  }

  lemma {:induction false} LostAnswer(progress: Message, said: Message, available: nat)
    requires Paired([progress, said]) && IsProgress(progress) && said.Assistant? && said.toolCalls == []
    requires 2 * MessageTokens(progress) <= available < Tokens([progress, said])
    ensures Compacted([progress, said], available) == [progress, progress]
  {
    UnitsOfPair(progress, said);
    LedOverflow([progress, said], available);
    OneOfTwo(progress, said, Kept([progress, said], available));
  }

  lemma {:induction false} FirstAnswer(state: TaskState, answer: Response, b: Budget)
    requires answer.text.Some? && answer.toolCalls == []
    ensures var recorded := Recorded(Initial(state), answer, [], b);
            && recorded.messages == [ProgressMessage(recorded.state, b), Assistant(answer.text, [])]
            && Tokens(recorded.messages) >= EstimateTokens(answer.text.value)
            && (EstimateTokens(answer.text.value) > Available(b) ==> !Fits(b, Tokens(recorded.messages)))
  {
    var recorded := Recorded(Initial(state), answer, [], b);
    var progress, said := ProgressMessage(recorded.state, b), Assistant(answer.text, []);
    RecordedShape(Initial(state), answer, [], b);
    assert Refreshed([], progress) == [progress];
    assert TurnMessages(answer, []) == [said];
    PairTokens(progress, said);
    AvailableMeansFits(b, Tokens(recorded.messages));
  }

  lemma {:induction false} PairTokens(m: Message, said: Message)
    ensures Tokens([m, said]) == MessageTokens(m) + MessageTokens(said)
  {
    assert [m, said] == [m] + [said];
    TokensConcat([m], [said]);
    assert Tokens([m]) == MessageTokens(m) + Tokens([m][1..]);
    assert Tokens([said]) == MessageTokens(said) + Tokens([said][1..]);
  }

  lemma {:induction false} OneOfTwo(m: Message, said: Message, kept: seq<seq<Message>>)
    requires kept != [] && kept <= [[m], [said]][..1]
    ensures Flatten(kept) == [m]
  {
    assert kept == [[m]];
    FlattenOne([m]);
  }

  lemma {:induction false} UnitsOfPair(m: Message, said: Message)
    requires m.User? && said.Assistant? && said.toolCalls == []
    ensures Units([m, said]) == [[m], [said]]
  {
    var before, turn := [Lone(m)], Turn(said, []);
    assert BlockMessages(turn) == [said] && Flip(turn) == turn && BlockMessages(before[0]) == [m];
    TranscriptConcat(before, [turn]);
    TranscriptOne(before[0]);
    TranscriptOne(turn);
    assert Transcript(before + [turn]) == [m] + [said] == [m, said];
    UnitsOfTranscript(before + [turn]);
    var flipped := FlipAll(before + [turn]);
    assert flipped[0] == Lone(m) && flipped[1] == turn;
  }
}
