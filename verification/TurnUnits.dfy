/** Turn units: how compaction groups a transcript, and what a well-paired transcript is. */
module TurnUnits {
  import opened Sequences
  import opened Text
  import opened Messages

  // ----- Grouping -----

  /** The units of a reversed stream, with `pending` holding the tool results met since the
      last assistant message. */
  function UnitsFrom(stream: seq<Message>, pending: seq<Message>): seq<seq<Message>>
  {
    if stream == [] then
      if pending == [] then [] else [pending]
    else
      match stream[0]
      case Tool(_, _, _, _) => UnitsFrom(stream[1..], pending + [stream[0]])
      case Assistant(_, _) => [[stream[0]] + pending] + UnitsFrom(stream[1..], [])
      case _ => [[stream[0]]] + UnitsFrom(stream[1..], pending)
  }

  method TurnUnitsOf(stream: seq<Message>) returns (units: seq<seq<Message>>)
    ensures units == UnitsFrom(stream, [])
  {
    units := [];
    var pending: seq<Message> := [];
    for i := 0 to |stream|
      invariant units + UnitsFrom(stream[i..], pending) == UnitsFrom(stream, [])
    {
      var message := stream[i];
      assert stream[i..][1..] == stream[i + 1..];
      match message {
        case Tool(_, _, _, _) => pending := pending + [message];
        case Assistant(_, _) =>
          units := units + [[message] + pending];
          pending := [];
        case _ => units := units + [[message]];
      }
    }
    if pending != [] {
      units := units + [pending];
    }
  }

  /** The units of a transcript, oldest first. */
  function Units(ms: seq<Message>): seq<seq<Message>>
  {
    Reverse(UnitsFrom(Reverse(ms), []))
  }

  lemma {:induction false} UnitsFromMultiset(stream: seq<Message>, pending: seq<Message>)
    ensures multiset(Flatten(UnitsFrom(stream, pending))) == multiset(stream) + multiset(pending)
    decreases |stream|
  {
    if stream == [] {
      FlattenOne(pending);
    } else {
      var m, rest := stream[0], stream[1..];
      assert multiset(stream) == multiset{m} + multiset(rest) by {
        assert stream == [m] + rest;
      }
      match m {
        case Tool(_, _, _, _) => UnitsFromMultiset(rest, pending + [m]);
        case Assistant(_, _) =>
          UnitsFromMultiset(rest, []);
          FlattenConsMultiset([m] + pending, UnitsFrom(rest, []));
        case _ =>
          UnitsFromMultiset(rest, pending);
          FlattenConsMultiset([m], UnitsFrom(rest, pending));
      }
    }
  }

  lemma {:induction false} UnitsFromNonEmpty(stream: seq<Message>, pending: seq<Message>)
    ensures forall u :: u in UnitsFrom(stream, pending) ==> u != []
    ensures UnitsFrom(stream, pending) == [] <==> stream == [] && pending == []
    decreases |stream|
  {
    if stream != [] {
      match stream[0] {
        case Tool(_, _, _, _) => UnitsFromNonEmpty(stream[1..], pending + [stream[0]]);
        case Assistant(_, _) => UnitsFromNonEmpty(stream[1..], []);
        case _ => UnitsFromNonEmpty(stream[1..], pending);
      }
    }
  }

  /** Any stream, paired or not: every message lands in exactly one unit and no unit is empty. */
  lemma {:induction false} UnitsPartition(ms: seq<Message>)
    ensures multiset(Flatten(Units(ms))) == multiset(ms)
    ensures forall u :: u in Units(ms) ==> u != []
    ensures Units(ms) == [] <==> ms == []
  {
    var reversed := UnitsFrom(Reverse(ms), []);
    UnitsFromMultiset(Reverse(ms), []);
    ReverseMultiset(ms);
    FlattenReverseMultiset(reversed);
    UnitsFromNonEmpty(Reverse(ms), []);
    assert forall u :: u in Units(ms) ==> u in reversed;
  }

  // ----- Pairing -----

  /** A lone user or system message, or an assistant message with the results answering it. */
  datatype Block = Lone(message: Message) | Turn(assistant: Message, results: seq<Message>)

  function CallIds(calls: seq<ToolCall>): seq<Text>
  {
    seq(|calls|, i requires 0 <= i < |calls| => calls[i].id)
  }

  function ResultIds(results: seq<Message>): seq<Text>
    requires forall i :: 0 <= i < |results| ==> results[i].Tool?
  {
    seq(|results|, i requires 0 <= i < |results| => results[i].callId)
  }

  predicate ValidBlock(b: Block)
  {
    match b
    case Lone(m) => m.User? || m.System?
    case Turn(a, results) =>
      && a.Assistant?
      && (forall i :: 0 <= i < |results| ==> results[i].Tool?)
      && multiset(ResultIds(results)) == multiset(CallIds(a.toolCalls))
  }

  predicate ValidBlocks(bs: seq<Block>)
  {
    forall i :: 0 <= i < |bs| ==> ValidBlock(bs[i])
  }

  function BlockMessages(b: Block): (ms: seq<Message>)
    ensures ms != []
  {
    match b
    case Lone(m) => [m]
    case Turn(a, results) => [a] + results
  }

  function AllMessages(bs: seq<Block>): (r: seq<seq<Message>>)
    ensures |r| == |bs|
    ensures forall i :: 0 <= i < |bs| ==> r[i] == BlockMessages(bs[i])
  {
    seq(|bs|, i requires 0 <= i < |bs| => BlockMessages(bs[i]))
  }

  function Transcript(bs: seq<Block>): seq<Message>
  {
    Flatten(AllMessages(bs))
  }

  /** A conversation a provider accepts: every tool result directly follows the assistant turn
      that asked for it, and every call is answered once. */
  ghost predicate Paired(ms: seq<Message>)
  {
    exists bs :: ValidBlocks(bs) && Transcript(bs) == ms
  }

  lemma {:induction false} TranscriptConcat(a: seq<Block>, b: seq<Block>)
    ensures Transcript(a + b) == Transcript(a) + Transcript(b)
  {
    assert AllMessages(a + b) == AllMessages(a) + AllMessages(b);
    FlattenConcat(AllMessages(a), AllMessages(b));
  }

  lemma {:induction false} TranscriptOne(b: Block)
    ensures Transcript([b]) == BlockMessages(b)
  {
    assert AllMessages([b]) == [BlockMessages(b)];
    FlattenOne(BlockMessages(b));
  }

  lemma {:induction false} PairedConcat(a: seq<Message>, b: seq<Message>)
    requires Paired(a) && Paired(b)
    ensures Paired(a + b)
  {
    var x :| ValidBlocks(x) && Transcript(x) == a;
    var y :| ValidBlocks(y) && Transcript(y) == b;
    TranscriptConcat(x, y);
    assert ValidBlocks(x + y);
  }

  lemma {:induction false} PairedBlock(b: Block)
    requires ValidBlock(b)
    ensures Paired(BlockMessages(b))
  {
    TranscriptOne(b);
    assert ValidBlocks([b]);
  }

  lemma {:induction false} PairedEmpty()
    ensures Paired([])
  {
    assert ValidBlocks([]) && Transcript([]) == [];
  }

  // ----- The units of a paired transcript -----

  /** The same block with its results in the opposite order. */
  function Flip(b: Block): Block
  {
    match b
    case Lone(m) => b
    case Turn(a, results) => Turn(a, Reverse(results))
  }

  function FlipAll(bs: seq<Block>): (r: seq<Block>)
    ensures |r| == |bs|
    ensures forall i :: 0 <= i < |bs| ==> r[i] == Flip(bs[i])
  {
    seq(|bs|, i requires 0 <= i < |bs| => Flip(bs[i]))
  }

  lemma {:induction false} ResultIdsReverse(results: seq<Message>)
    requires forall i :: 0 <= i < |results| ==> results[i].Tool?
    ensures multiset(ResultIds(Reverse(results))) == multiset(ResultIds(results))
  {
    assert ResultIds(Reverse(results)) == Reverse(ResultIds(results));
    ReverseMultiset(ResultIds(results));
  }

  lemma {:induction false} FlipValid(b: Block)
    requires ValidBlock(b)
    ensures ValidBlock(Flip(b)) && Flip(Flip(b)) == b
  {
    if b.Turn? {
      ResultIdsReverse(b.results);
      ReverseReverse(b.results);
    }
  }

  lemma {:induction false} FlipAllValid(bs: seq<Block>)
    requires ValidBlocks(bs)
    ensures ValidBlocks(FlipAll(bs)) && FlipAll(FlipAll(bs)) == bs
  {
    forall i | 0 <= i < |bs| ensures ValidBlock(Flip(bs[i])) && Flip(Flip(bs[i])) == bs[i] {
      FlipValid(bs[i]);
    }
  }

  lemma {:induction false} UnitsFromResults(tools: seq<Message>, a: Message, rest: seq<Message>, pending: seq<Message>)
    requires forall i :: 0 <= i < |tools| ==> tools[i].Tool?
    requires a.Assistant?
    ensures UnitsFrom(tools + ([a] + rest), pending) == [[a] + (pending + tools)] + UnitsFrom(rest, [])
    decreases |tools|
  {
    var stream := tools + ([a] + rest);
    if tools == [] {
      assert stream == [a] + rest && stream[1..] == rest;
      assert pending + tools == pending;
    } else {
      UnitsFromResults(tools[1..], a, rest, pending + [tools[0]]);
      assert stream[1..] == tools[1..] + ([a] + rest);
      assert (pending + [tools[0]]) + tools[1..] == pending + tools;
    }
  }

  lemma {:induction false} UnitsFromBlock(b: Block, rest: seq<Message>)
    requires ValidBlock(b)
    ensures UnitsFrom(Reverse(BlockMessages(b)) + rest, []) == [BlockMessages(Flip(b))] + UnitsFrom(rest, [])
  {
    match b {
      case Lone(m) =>
        assert Reverse([m]) == [m];
        assert ([m] + rest)[1..] == rest;
      case Turn(a, results) =>
        ReverseConcat([a], results);
        assert Reverse([a]) == [a];
        assert (Reverse(results) + [a]) + rest == Reverse(results) + ([a] + rest);
        UnitsFromResults(Reverse(results), a, rest, []);
        assert [] + Reverse(results) == Reverse(results);
    }
  }

  lemma {:induction false} TranscriptSnoc(init: seq<Block>, b: Block)
    ensures Reverse(Transcript(init + [b])) == Reverse(BlockMessages(b)) + Reverse(Transcript(init))
    ensures Reverse(AllMessages(FlipAll(init + [b]))) == [BlockMessages(Flip(b))] + Reverse(AllMessages(FlipAll(init)))
  {
    TranscriptConcat(init, [b]);
    TranscriptOne(b);
    ReverseConcat(Transcript(init), BlockMessages(b));
    var flipped := AllMessages(FlipAll(init));
    assert AllMessages(FlipAll(init + [b])) == flipped + [BlockMessages(Flip(b))];
    ReverseConcat(flipped, [BlockMessages(Flip(b))]);
    assert Reverse([BlockMessages(Flip(b))]) == [BlockMessages(Flip(b))];
  }

  lemma {:induction false} UnitsFromTranscript(bs: seq<Block>)
    requires ValidBlocks(bs)
    ensures UnitsFrom(Reverse(Transcript(bs)), []) == Reverse(AllMessages(FlipAll(bs)))
    decreases |bs|
  {
    if bs == [] {
      assert AllMessages(bs) == [] && AllMessages(FlipAll(bs)) == [];
    } else {
      var last := |bs| - 1;
      var init, b := bs[..last], bs[last];
      assert bs == init + [b];
      UnitsFromTranscript(init);
      TranscriptSnoc(init, b);
      UnitsFromBlock(b, Reverse(Transcript(init)));
    }
  }

  /** The units of a paired transcript, read oldest first, are its blocks in order with the
      results inside each turn reversed. */
  lemma {:induction false} UnitsOfTranscript(bs: seq<Block>)
    requires ValidBlocks(bs)
    ensures Units(Transcript(bs)) == AllMessages(FlipAll(bs))
    ensures ValidBlocks(FlipAll(bs))
  {
    UnitsFromTranscript(bs);
    ReverseReverse(AllMessages(FlipAll(bs)));
    FlipAllValid(bs);
  }
}
