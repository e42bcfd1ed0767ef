/** The fragmenting event stream: what the scripted model writes, the loop's reader rebuilds. */
module StreamCodec {
  import opened Wrappers
  import opened Sequences

  const FRAGMENT_SIZE: nat := 19

  datatype Call = Call(id: string, name: string, arguments: string)

  datatype Reply = Reply(content: string, calls: seq<Call>)

  /** One fragment of one call; only the first carries the identity. */
  datatype CallDelta = CallDelta(index: nat, id: Option<string>, name: Option<string>, arguments: string)

  /** One event's choice. */
  datatype Event = Event(content: Option<string>, calls: seq<CallDelta>, finish: Option<string>)

  // ----- Writing -----

  function Pieces(text: string): seq<string>
    decreases |text|
  {
    if |text| <= FRAGMENT_SIZE then (if text == "" then [] else [text])
    else [text[..FRAGMENT_SIZE]] + Pieces(text[FRAGMENT_SIZE..])
  }

  /** Slices of nineteen characters, or one empty slice for an empty text. */
  function Fragments(text: string): seq<string>
  {
    if text == "" then [""] else Pieces(text)
  }

  function ContentEvents(pieces: seq<string>): (r: seq<Event>)
    ensures |r| == |pieces| && forall i :: 0 <= i < |r| ==> r[i] == Event(Some(pieces[i]), [], None)
  {
    seq(|pieces|, i requires 0 <= i < |pieces| => Event(Some(pieces[i]), [], None))
  }

  function CallEvent(index: nat, call: Call, position: nat, piece: string): Event
  {
    Event(None,
          [CallDelta(index, if position == 0 then Some(call.id) else None, if position == 0 then Some(call.name) else None, piece)],
          None)
  }

  function CallEvents(index: nat, call: Call, pieces: seq<string>): (r: seq<Event>)
    ensures |r| == |pieces| && forall i :: 0 <= i < |r| ==> r[i] == CallEvent(index, call, i, pieces[i])
  {
    seq(|pieces|, i requires 0 <= i < |pieces| => CallEvent(index, call, i, pieces[i]))
  }

  function AllCallEvents(calls: seq<Call>): seq<Event>
  {
    if calls == [] then []
    else
      var last := |calls| - 1;
      AllCallEvents(calls[..last]) + CallEvents(last, calls[last], Fragments(calls[last].arguments))
  }

  const ROLE_EVENT := Event(None, [], None)

  function FinishEvent(reply: Reply): Event
  {
    Event(None, [], Some(if reply.calls != [] then "tool_calls" else "stop"))
  }

  function Stream(reply: Reply): seq<Event>
  {
    [ROLE_EVENT]
    + (if reply.content != "" then ContentEvents(Fragments(reply.content)) else [])
    + AllCallEvents(reply.calls)
    + [FinishEvent(reply)]
  }

  method WriteContent(content: string) returns (events: seq<Event>)
    ensures events == if content != "" then ContentEvents(Fragments(content)) else []
  {
    events := [];
    if content != "" {
      var pieces := Fragments(content);
      for i := 0 to |pieces|
        invariant events == ContentEvents(pieces)[..i]
      {
        events := events + [Event(Some(pieces[i]), [], None)];
      }
    }
  }

  method WriteCall(index: nat, call: Call) returns (events: seq<Event>)
    ensures events == CallEvents(index, call, Fragments(call.arguments))
  {
    events := [];
    var pieces := Fragments(call.arguments);
    for position := 0 to |pieces|
      invariant events == CallEvents(index, call, pieces)[..position]
    {
      events := events + [CallEvent(index, call, position, pieces[position])];
    }
  }

  method WriteStream(reply: Reply) returns (events: seq<Event>)
    ensures events == Stream(reply)
  {
    var content := WriteContent(reply.content);
    var calls: seq<Event> := [];
    for index := 0 to |reply.calls|
      invariant calls == AllCallEvents(reply.calls[..index])
    {
      var fragments := WriteCall(index, reply.calls[index]);
      assert reply.calls[..index + 1][..index] == reply.calls[..index];
      calls := calls + fragments;
    }
    assert reply.calls[..|reply.calls|] == reply.calls;
    events := [ROLE_EVENT] + content + calls + [FinishEvent(reply)];
  }

  // ----- Reading -----

  datatype Slot = Slot(id: Option<string>, name: string, arguments: string)

  datatype Indexed = Indexed(index: nat, slot: Slot)

  /** The reader's accumulators; slots are kept in ascending index order. */
  datatype Reader = Reader(content: string, slots: seq<Indexed>, finish: Option<string>)

  const EMPTY_READER := Reader("", [], None)
  const EMPTY_SLOT := Slot(None, "", "")

  /** Absent and empty members leave a slot as it was. */
  function Merge(s: Slot, d: CallDelta): Slot
  {
    Slot(if d.id.Some? && d.id.value != "" then d.id else s.id,
         if d.name.Some? && d.name.value != "" then d.name.value else s.name,
         s.arguments + d.arguments)
  }

  function Touch(slots: seq<Indexed>, d: CallDelta): seq<Indexed>
  {
    if slots == [] || d.index < slots[0].index then [Indexed(d.index, Merge(EMPTY_SLOT, d))] + slots
    else if slots[0].index == d.index then [Indexed(d.index, Merge(slots[0].slot, d))] + slots[1..]
    else [slots[0]] + Touch(slots[1..], d)
  }

  function TouchAll(slots: seq<Indexed>, ds: seq<CallDelta>): seq<Indexed>
    decreases |ds|
  {
    if ds == [] then slots else TouchAll(Touch(slots, ds[0]), ds[1..])
  }

  function ReadEvent(r: Reader, e: Event): Reader
  {
    Reader(if e.content.Some? then r.content + e.content.value else r.content,
           TouchAll(r.slots, e.calls),
           if e.finish.Some? && e.finish.value != "" then e.finish else r.finish)
  }

  function ReadFrom(r: Reader, events: seq<Event>): Reader
    decreases |events|
  {
    if events == [] then r else ReadFrom(ReadEvent(r, events[0]), events[1..])
  }

  /** What the reader makes of a whole stream. */
  function Read(events: seq<Event>): Reader { ReadFrom(EMPTY_READER, events) }

  method ReadStream(events: seq<Event>) returns (r: Reader, count: nat)
    ensures r == Read(events)
    ensures count == |events| + 1
  {
    r, count := EMPTY_READER, 0;
    for i := 0 to |events|
      invariant ReadFrom(r, events[i..]) == Read(events) && count == i
    {
      var e := events[i];
      assert events[i..][1..] == events[i + 1..];
      count := count + 1;
      r := ReadEvent(r, e);
    }
    // The terminator counts as an event too.
    count := count + 1;
  }

  // ----- Round trip -----

  lemma {:induction false} ReadFromConcat(r: Reader, a: seq<Event>, b: seq<Event>)
    ensures ReadFrom(r, a + b) == ReadFrom(ReadFrom(r, a), b)
    decreases |a|
  {
    if a == [] {
      assert a + b == b;
    } else {
      ReadFromConcat(ReadEvent(r, a[0]), a[1..], b);
      assert (a + b)[1..] == a[1..] + b;
    }
  }

  lemma {:induction false} PiecesJoin(text: string)
    ensures Flatten(Pieces(text)) == text
    ensures forall i :: 0 <= i < |Pieces(text)| ==> 1 <= |Pieces(text)[i]| <= FRAGMENT_SIZE
    decreases |text|
  {
    if |text| > FRAGMENT_SIZE {
      PiecesJoin(text[FRAGMENT_SIZE..]);
      assert text == text[..FRAGMENT_SIZE] + text[FRAGMENT_SIZE..];
    } else if text != "" {
      FlattenOne(text);
    }
  }

  /** The fragments of a text join back to it, and there is always at least one. */
  lemma {:induction false} FragmentsJoin(text: string)
    ensures Fragments(text) != [] && Flatten(Fragments(text)) == text
  {
    PiecesJoin(text);
    if text == "" {
      FlattenOne("");
    }
  }

  lemma {:induction false} ReadContent(r: Reader, pieces: seq<string>)
    ensures ReadFrom(r, ContentEvents(pieces)) == r.(content := r.content + Flatten(pieces))
    decreases |pieces|
  {
    if pieces == [] {
      assert r.content + "" == r.content;
    } else {
      var next := r.(content := r.content + pieces[0]);
      assert ReadEvent(r, ContentEvents(pieces)[0]) == next;
      assert ContentEvents(pieces)[1..] == ContentEvents(pieces[1..]);
      ReadContent(next, pieces[1..]);
      assert r.content + (pieces[0] + Flatten(pieces[1..])) == (r.content + pieces[0]) + Flatten(pieces[1..]);
    }
  }

  predicate Below(slots: seq<Indexed>, index: nat)
  {
    forall i :: 0 <= i < |slots| ==> slots[i].index < index
  }

  lemma {:induction false} TouchNew(slots: seq<Indexed>, d: CallDelta)
    requires Below(slots, d.index)
    ensures Touch(slots, d) == slots + [Indexed(d.index, Merge(EMPTY_SLOT, d))]
  {
    if slots != [] {
      TouchNew(slots[1..], d);
      assert slots == [slots[0]] + slots[1..];
    }
  }

  lemma {:induction false} TouchLast(slots: seq<Indexed>, s: Slot, d: CallDelta)
    requires Below(slots, d.index)
    ensures Touch(slots + [Indexed(d.index, s)], d) == slots + [Indexed(d.index, Merge(s, d))]
  {
    var all := slots + [Indexed(d.index, s)];
    if slots == [] {
      assert all[1..] == [];
    } else {
      TouchLast(slots[1..], s, d);
      assert all[1..] == slots[1..] + [Indexed(d.index, s)];
      assert slots == [slots[0]] + slots[1..];
    }
  }

  /** The fragments after the first only add argument text. */
  lemma {:induction false} ReadRest(r: Reader, slots: seq<Indexed>, s: Slot, index: nat, call: Call, pieces: seq<string>, from: nat)
    requires 1 <= from <= |pieces| && Below(slots, index) && r.slots == slots + [Indexed(index, s)]
    ensures ReadFrom(r, CallEvents(index, call, pieces)[from..])
         == r.(slots := slots + [Indexed(index, s.(arguments := s.arguments + Flatten(pieces[from..])))])
    decreases |pieces| - from
  {
    var events := CallEvents(index, call, pieces);
    if from == |pieces| {
      assert pieces[from..] == [] && s.arguments + "" == s.arguments;
    } else {
      var d := events[from].calls[0];
      var s' := s.(arguments := s.arguments + pieces[from]);
      TouchLast(slots, s, d);
      assert Merge(s, d) == s';
      var r' := ReadEvent(r, events[from]);
      OneDelta(r.slots, d);
      assert r' == r.(slots := slots + [Indexed(index, s')]);
      ReadRest(r', slots, s', index, call, pieces, from + 1);
      assert events[from..][1..] == events[from + 1..] && pieces[from..][1..] == pieces[from + 1..];
      assert s.arguments + (pieces[from] + Flatten(pieces[from + 1..])) == s'.arguments + Flatten(pieces[from + 1..]);
    }
  }

  lemma {:induction false} OneDelta(slots: seq<Indexed>, d: CallDelta)
    ensures TouchAll(slots, [d]) == Touch(slots, d)
  {
    assert [d][1..] == [];
    assert TouchAll(Touch(slots, d), []) == Touch(slots, d);
  }

  /** What the reader makes of a call: an empty id is not an id. */
  function SlotOf(call: Call): Slot
  {
    Slot(if call.id != "" then Some(call.id) else None, call.name, call.arguments)
  }

  lemma {:induction false} ReadCall(r: Reader, index: nat, call: Call)
    requires Below(r.slots, index)
    ensures ReadFrom(r, CallEvents(index, call, Fragments(call.arguments)))
         == r.(slots := r.slots + [Indexed(index, SlotOf(call))])
  {
    var pieces := Fragments(call.arguments);
    FragmentsJoin(call.arguments);
    var events := CallEvents(index, call, pieces);
    var d := events[0].calls[0];
    var s := SlotOf(call).(arguments := pieces[0]);
    TouchNew(r.slots, d);
    OneDelta(r.slots, d);
    assert "" + pieces[0] == pieces[0];
    assert Merge(EMPTY_SLOT, d) == s;
    var r' := ReadEvent(r, events[0]);
    assert r' == r.(slots := r.slots + [Indexed(index, s)]);
    ReadRest(r', r.slots, s, index, call, pieces, 1);
    assert pieces[0] + Flatten(pieces[1..]) == call.arguments;
  }

  function SlotsOf(calls: seq<Call>): (r: seq<Indexed>)
    ensures |r| == |calls| && forall i :: 0 <= i < |r| ==> r[i] == Indexed(i, SlotOf(calls[i]))
  {
    seq(|calls|, i requires 0 <= i < |calls| => Indexed(i, SlotOf(calls[i])))
  }

  lemma {:induction false} SlotsSnoc(calls: seq<Call>)
    requires calls != []
    ensures var last := |calls| - 1;
            SlotsOf(calls) == SlotsOf(calls[..last]) + [Indexed(last, SlotOf(calls[last]))]
  {
  }

  lemma {:induction false} ReadCalls(r: Reader, calls: seq<Call>)
    requires r.slots == []
    ensures ReadFrom(r, AllCallEvents(calls)) == r.(slots := SlotsOf(calls))
    decreases |calls|
  {
    if calls != [] {
      var last := |calls| - 1;
      var init, call := calls[..last], calls[last];
      ReadCalls(r, init);
      ReadFromConcat(r, AllCallEvents(init), CallEvents(last, call, Fragments(call.arguments)));
      ReadCall(r.(slots := SlotsOf(init)), last, call);
      SlotsSnoc(calls);
    }
  }

  /** For every reply the reader rebuilds the content, the calls in order with their names and
      argument text, and the matching finish reason. */
  lemma {:induction false} RoundTrip(reply: Reply)
    ensures Read(Stream(reply))
         == Reader(reply.content, SlotsOf(reply.calls), Some(if reply.calls != [] then "tool_calls" else "stop"))
  {
    var content := if reply.content != "" then ContentEvents(Fragments(reply.content)) else [];
    var calls, finish := AllCallEvents(reply.calls), [FinishEvent(reply)];
    var opening := [ROLE_EVENT];
    ReadFromConcat(EMPTY_READER, opening + content + calls, finish);
    ReadFromConcat(EMPTY_READER, opening + content, calls);
    ReadFromConcat(EMPTY_READER, opening, content);
    ReadOne(EMPTY_READER, ROLE_EVENT);
    var written := Reader(reply.content, [], None);
    assert ReadFrom(EMPTY_READER, content) == written by {
      if reply.content != "" {
        ReadContent(EMPTY_READER, Fragments(reply.content));
        FragmentsJoin(reply.content);
        assert "" + reply.content == reply.content;
      }
    }
    ReadCalls(written, reply.calls);
    ReadOne(written.(slots := SlotsOf(reply.calls)), FinishEvent(reply));
  }

  lemma {:induction false} ReadOne(r: Reader, e: Event)
    ensures ReadFrom(r, [e]) == ReadEvent(r, e)
  {
    assert [e][1..] == [];
  }

  /** The calls come back exactly as they were sent, ids included, if and only if none of them
      has an empty id. */
  lemma {:induction false} CallsSurviveIff(reply: Reply)
    ensures var slots := Read(Stream(reply)).slots;
            && |slots| == |reply.calls|
            && ((forall i :: 0 <= i < |slots| ==>
                   slots[i].slot == Slot(Some(reply.calls[i].id), reply.calls[i].name, reply.calls[i].arguments))
                <==> (forall i :: 0 <= i < |reply.calls| ==> reply.calls[i].id != ""))
  {
    RoundTrip(reply);
    var slots := SlotsOf(reply.calls);
    if i :| 0 <= i < |slots| && reply.calls[i].id == "" {
      assert slots[i].slot != Slot(Some(reply.calls[i].id), reply.calls[i].name, reply.calls[i].arguments);
    }
  }
}
