/** What a sender puts on the wire is what the reader makes of it, in plain terms:
    field names, the colon, the optional space and the event types are spelled
    out here and nowhere taken from the parser. */
module SseWire {
  import opened Options
  import opened SseParser
  import opened SseStream

  // ------------------------------------------------------------- writing

  /** One line as a sender writes it; an empty name makes a comment. */
  datatype Field = Field(name: bytes, value: bytes, space: bool)

  function Write(f: Field): bytes { f.name + [58] + (if f.space then [32] else []) + f.value }

  /** A line a sender can write: the value keeps its own leading space only
      behind another one. */
  predicate Writable(f: Field) {
    && Plain(f.name) && Plain(f.value) && !(f.name != [] && f.name[0] == 0xEF)
    && (forall i | 0 <= i < |f.name| :: f.name[i] != 58)
    && (!f.space ==> f.value == [] || f.value[0] != 32)
  }

  /** An event is a list of fields and ends with a blank line. */
  function Lines(events: seq<seq<Field>>): seq<bytes> {
    if events == [] then [] else EventLines(events[0]) + [[]] + Lines(events[1..])
  }

  function EventLines(fields: seq<Field>): seq<bytes> {
    seq(|fields|, i requires 0 <= i < |fields| => Write(fields[i]))
  }

  /** The values of the `data` fields, each followed by a line feed. */
  function DataText(fields: seq<Field>): bytes {
    if fields == [] then []
    else
      var f := fields[|fields| - 1];
      DataText(fields[..|fields| - 1]) + if f.name == Ascii("data") then f.value + [10] else []
  }

  /** The value of the last `event` field. */
  function EventName(fields: seq<Field>): bytes {
    if fields == [] then []
    else
      var f := fields[|fields| - 1];
      if f.name == Ascii("event") then f.value else EventName(fields[..|fields| - 1])
  }

  /** Too large: a line or all data together exceed 1 MiB. */
  predicate Huge(fields: seq<Field>) { HasHugeLine(fields) || |DataText(fields)| > 1048576 }

  predicate HasHugeLine(fields: seq<Field>) { exists i | 0 <= i < |fields| :: |Write(fields[i])| > 1048576 }

  /** What a reader is to make of the events: those with data that are not too large. */
  function Received(events: seq<seq<Field>>): seq<SseEvent> {
    if events == [] then []
    else ReceivedFrom(events[0]) + Received(events[1..])
  }

  function ReceivedFrom(fields: seq<Field>): seq<SseEvent> {
    if Huge(fields) || DataText(fields) == [] then [] else [SseEvent(EventName(fields), DataText(fields))]
  }

  // -------------------------------------------------------- line by line

  /** Reading a line takes it apart where the sender put it together. */
  lemma FieldIsRead(f: Field)
    requires Writable(f)
    ensures SseParser.Field(Write(f)) == f.name && Value(Write(f)) == f.value
  {
    var line := Write(f);
    var n := |f.name|;
    assert line[n] == 58 && line[..n] == f.name;
    assert forall i | 0 <= i < n :: line[i] == f.name[i];
    assert IndexOf(line, COLON) == n;
    var tail := (if f.space then [32] else []) + f.value;
    assert line[n + 1..] == tail;
    if f.space { assert tail[0] == 32 && tail[1..] == f.value; } else { assert tail == f.value; }
  }

  lemma FieldIsPlain(f: Field)
    requires Writable(f)
    ensures !(BOM <= Write(f)) && Plain(Write(f))
  {
    var line := Write(f);
    assert line[0] == if f.name == [] then 58 else f.name[0];
    assert line[0] != 0xEF;
  }

  /** The lines of an event as the reader classifies them. */
  function KeptLines(fields: seq<Field>): seq<Line> {
    if fields == [] then []
    else
      var line := Write(fields[|fields| - 1]);
      KeptLines(fields[..|fields| - 1]) + [if |line| > 1048576 then Oversized else Kept(line)]
  }

  lemma {:induction false} GroupIsEvent(fields: seq<Field>)
    requires (forall i | 0 <= i < |fields| :: Writable(fields[i])) && !HasHugeLine(fields)
    ensures Payload(KeptLines(fields)) == DataText(fields) && TypeOf(KeptLines(fields)) == EventName(fields)
    ensures Oversized !in KeptLines(fields)
  {
    if fields != [] {
      var init, f := fields[..|fields| - 1], fields[|fields| - 1];
      GroupIsEvent(init);
      FieldIsRead(f);
      var group := KeptLines(fields);
      assert group[..|group| - 1] == KeptLines(init) && group[|group| - 1] == Kept(Write(f));
      NamesDiffer();
    }
  }

  lemma NamesDiffer()
    ensures Ascii("event") != Ascii("data")
  {
    assert |Ascii("event")| != |Ascii("data")|;
  }

  lemma {:induction false} HugeLineIsSeen(fields: seq<Field>)
    ensures Oversized in KeptLines(fields) <==> HasHugeLine(fields)
    ensures Kept([]) !in KeptLines(fields)
  {
    if fields != [] { HugeLineIsSeen(fields[..|fields| - 1]); }
  }

  lemma EmitsReceived(fields: seq<Field>)
    requires forall i | 0 <= i < |fields| :: Writable(fields[i])
    ensures Emit(KeptLines(fields)) == ReceivedFrom(fields)
  {
    HugeLineIsSeen(fields);
    if HasHugeLine(fields) {
      assert TooLarge(KeptLines(fields)) && Huge(fields);
    } else {
      GroupIsEvent(fields);
      assert TooLarge(KeptLines(fields)) <==> Huge(fields);
    }
  }

  /** A group without a blank line stays open until the blank line after it. */
  lemma {:induction false} GroupUntilBlank(open: seq<Line>, group: seq<Line>, rest: seq<Line>)
    requires Kept([]) !in group
    ensures Events(open, group + [Kept([])] + rest) == Emit(open + group) + Events([], rest)
    decreases |group|
  {
    var all := group + [Kept([])] + rest;
    if group == [] {
      assert all[1..] == rest && open + group == open;
    } else {
      assert all[0] == group[0] && all[1..] == group[1..] + [Kept([])] + rest;
      GroupUntilBlank(open + [group[0]], group[1..], rest);
      assert open + [group[0]] + group[1..] == open + group;
    }
  }

  // -------------------------------------------------------- whole streams

  predicate AllWritable(events: seq<seq<Field>>) {
    forall i, j | 0 <= i < |events| && 0 <= j < |events[i]| :: Writable(events[i][j])
  }

  function AllKept(events: seq<seq<Field>>): seq<Line> {
    if events == [] then [] else KeptLines(events[0]) + [Kept([])] + AllKept(events[1..])
  }

  lemma {:induction false} EventsAreReceived(events: seq<seq<Field>>)
    requires AllWritable(events)
    ensures Events([], AllKept(events)) == Received(events)
  {
    if events != [] {
      HugeLineIsSeen(events[0]);
      GroupUntilBlank([], KeptLines(events[0]), AllKept(events[1..]));
      assert [] + KeptLines(events[0]) == KeptLines(events[0]);
      assert forall j | 0 <= j < |events[0]| :: Writable(events[0][j]);
      EmitsReceived(events[0]);
      EventsAreReceived(events[1..]);
    }
  }

  /** A line that starts with no byte-order mark is classified by its size alone. */
  function KeptLine(line: bytes): Line { if |line| > 1048576 then Oversized else Kept(line) }

  lemma {:induction false} ClassifyAll(lines: seq<bytes>, started: bool)
    requires forall i | 0 <= i < |lines| :: !(BOM <= lines[i])
    ensures Classify(lines, started) == seq(|lines|, i requires 0 <= i < |lines| => KeptLine(lines[i]))
    decreases |lines|
  {
    if lines != [] {
      ClassifyAll(lines[1..], true);
      ClassifyAll(lines[1..], started);
      var all := seq(|lines|, i requires 0 <= i < |lines| => KeptLine(lines[i]));
      var rest := seq(|lines[1..]|, i requires 0 <= i < |lines[1..]| => KeptLine(lines[1..][i]));
      assert all == [KeptLine(lines[0])] + rest;
    }
  }

  lemma {:induction false} EventLinesKept(fields: seq<Field>)
    ensures KeptLines(fields) == seq(|fields|, i requires 0 <= i < |fields| => KeptLine(Write(fields[i])))
  {
    if fields != [] { EventLinesKept(fields[..|fields| - 1]); }
  }

  lemma {:induction false} LinesKept(events: seq<seq<Field>>)
    ensures AllKept(events) == seq(|Lines(events)|, i requires 0 <= i < |Lines(events)| => KeptLine(Lines(events)[i]))
  {
    if events != [] {
      EventLinesKept(events[0]);
      LinesKept(events[1..]);
      assert Lines(events) == EventLines(events[0]) + [[]] + Lines(events[1..]);
    }
  }

  lemma {:induction false} LinesArePlain(events: seq<seq<Field>>)
    requires AllWritable(events)
    ensures forall i | 0 <= i < |Lines(events)| :: Plain(Lines(events)[i]) && !(BOM <= Lines(events)[i])
  {
    if events != [] {
      LinesArePlain(events[1..]);
      forall i | 0 <= i < |events[0]| ensures Plain(Write(events[0][i])) && !(BOM <= Write(events[0][i])) {
        assert Writable(events[0][i]);
        FieldIsPlain(events[0][i]);
      }
    }
  }

  lemma LinesAreClassified(events: seq<seq<Field>>, started: bool)
    requires AllWritable(events)
    ensures Classify(Lines(events), started) == AllKept(events)
  {
    LinesKept(events);
    LinesArePlain(events);
    ClassifyAll(Lines(events), started);
  }

  /** The round trip: whatever fields a sender writes, with whichever line endings
      and whatever unfinished line at the end, the reader gets exactly the events
      with data that fit, each with its name and its data. */
  lemma ReaderGetsWhatIsSent(events: seq<seq<Field>>, endings: seq<Ending>, tail: bytes)
    requires AllWritable(events) && |endings| == |Lines(events)|
    requires Plain(tail) && Unambiguous(Lines(events), endings, tail)
    ensures Dispatched(Render(Lines(events), endings, tail)) == Received(events)
  {
    LinesArePlain(events);
    SplitUndoesRender(Lines(events), endings, tail);
    LinesAreClassified(events, false);
    EventsAreReceived(events);
  }

  /** A byte-order mark before the first line makes no difference. */
  lemma MarkMakesNoDifference(events: seq<seq<Field>>, endings: seq<Ending>, tail: bytes)
    requires AllWritable(events) && |endings| == |Lines(events)| && events != []
    requires Plain(tail) && Unambiguous(Lines(events), endings, tail)
    requires |Lines(events)[0]| + 3 <= 1048576
    ensures Dispatched([0xEF, 0xBB, 0xBF] + Render(Lines(events), endings, tail)) == Received(events)
  {
    var lines := Lines(events);
    LinesArePlain(events);
    MarkedLines(lines, endings, tail);
    MarkIsStripped(events);
    EventsAreReceived(events);
  }

  function Marked(lines: seq<bytes>): seq<bytes>
    requires lines != []
  {
    [[0xEF, 0xBB, 0xBF] + lines[0]] + lines[1..]
  }

  lemma MarkedLines(lines: seq<bytes>, endings: seq<Ending>, tail: bytes)
    requires lines != [] && |endings| == |lines| && Plain(tail) && Unambiguous(lines, endings, tail)
    requires forall i | 0 <= i < |lines| :: Plain(lines[i])
    ensures SplitLines([0xEF, 0xBB, 0xBF] + Render(lines, endings, tail)).lines == Marked(lines)
  {
    var marked := Marked(lines);
    assert marked[1..] == lines[1..];
    var rest := EndingBytes(endings[0]) + Render(lines[1..], endings[1..], tail);
    assert Render(marked, endings, tail) == [0xEF, 0xBB, 0xBF] + Render(lines, endings, tail);
    forall k | 0 <= k < |marked| ensures Plain(marked[k]) { if k > 0 { assert marked[k] == lines[k]; } }
    SplitUndoesRender(marked, endings, tail);
  }

  lemma MarkIsStripped(events: seq<seq<Field>>)
    requires AllWritable(events) && events != [] && |Lines(events)[0]| + 3 <= 1048576
    ensures Classify(Marked(Lines(events)), false) == AllKept(events)
  {
    var lines := Lines(events);
    var marked := Marked(lines);
    LinesAreClassified(events, true);
    assert marked[0] == [0xEF, 0xBB, 0xBF] + lines[0] && marked[1..] == lines[1..];
    assert TrimPrefix(marked[0], BOM) == lines[0];
  }

  // ---------------------------------------------------------- event types

  /** A dispatched event that decodes, with the type that counts: its own or,
      without one, the one the stream named. */
  ghost predicate Carries(cfg: Config, e: SseEvent, typ: bytes, d: Event) {
    && cfg.decoder.trim(e.data) != Ascii("[DONE]")
    && cfg.decoder.decode(cfg.decoder.trim(e.data)) == Some(d)
    && typ == (if d.typ == [] then e.typ else d.typ)
  }

  lemma CarriesDecoded(cfg: Config, e: SseEvent, typ: bytes, d: Event)
    ensures Carries(cfg, e, typ, d) <==> Decoded(cfg, e) == Some(d) && typ == EffectiveType(d, e.typ)
  {}

  ghost predicate SaysFailure(cfg: Config, e: SseEvent) {
    exists typ, d :: Carries(cfg, e, typ, d)
      && (|| d.errorPresent || typ == Ascii("error")
          || typ == Ascii("response.failed") || typ == Ascii("response.incomplete"))
  }

  ghost predicate SaysCompletion(cfg: Config, e: SseEvent) {
    || cfg.decoder.trim(e.data) == Ascii("[DONE]")
    || exists typ, d :: Carries(cfg, e, typ, d) && (typ == Ascii("response.completed") || typ == Ascii("message_stop"))
  }

  /** Text by protocol: response deltas, content block deltas, chat choices. */
  ghost predicate SaysText(cfg: Config, e: SseEvent) {
    exists typ, d :: Carries(cfg, e, typ, d)
      && match cfg.protocol
         case Responses => typ == Ascii("response.output_text.delta") && d.deltaText != []
         case Messages => typ == Ascii("content_block_delta") && d.deltaBlock.Some?
                          && d.deltaBlock.value.typ == Ascii("text_delta") && d.deltaBlock.value.text != []
         case Chat => exists i | 0 <= i < |d.choices| :: Speaks(d.choices[i])
         case Unspecified => false
  }

  /** A choice speaks in its text, its content, or a text part of its content. */
  predicate Speaks(c: Choice) {
    || c.text != [] || c.content != []
    || (c.parts.Some? && exists i | 0 <= i < |c.parts.value| :: SpeaksIn(c.parts.value[i]))
  }

  predicate SpeaksIn(part: TextBlock) {
    part.text != [] && (part.typ == [] || part.typ == Ascii("text") || part.typ == Ascii("output_text"))
  }

  lemma TypesInWords(cfg: Config, e: SseEvent)
    ensures Fails(cfg, e) <==> SaysFailure(cfg, e)
    ensures Completes(cfg, e) <==> SaysCompletion(cfg, e)
    ensures Decoded(cfg, e).Some? <==> exists typ, d :: Carries(cfg, e, typ, d)
  {
    var d := Decoded(cfg, e);
    if d.Some? { assert Carries(cfg, e, EffectiveType(d.value, e.typ), d.value); }
  }

  lemma ChoicesInWords(c: Choice)
    ensures ChoiceHasText(c) <==> Speaks(c)
  {
    if c.parts.Some? {
      assert forall i | 0 <= i < |c.parts.value| :: PartHasText(c.parts.value[i]) <==> SpeaksIn(c.parts.value[i]);
    }
  }

  lemma TextInWords(cfg: Config, e: SseEvent)
    ensures BringsText(cfg, e) <==> SaysText(cfg, e)
  {
    var d := Decoded(cfg, e);
    if d.Some? {
      assert Carries(cfg, e, EffectiveType(d.value, e.typ), d.value);
      forall i | 0 <= i < |d.value.choices| ensures ChoiceHasText(d.value.choices[i]) <==> Speaks(d.value.choices[i]) {
        ChoicesInWords(d.value.choices[i]);
      }
    }
  }

  /** How a stream ends, by the types of its events: with a reported failure, too
      early, or well. */
  lemma StreamEndsByTypes(cfg: Config, chunks: seq<bytes>)
    ensures var events := Dispatched(Concat(chunks));
            var failure := StreamErrorSpec(cfg, FeedChunks(SinkOf(cfg), INITIAL, chunks).event.summary);
            && (failure == Some(ReportedFailure) <==> exists i | 0 <= i < |events| :: SaysFailure(cfg, events[i]))
            && (failure == Some(EndedEarly) <==>
                  && (forall i | 0 <= i < |events| :: !SaysFailure(cfg, events[i]) && !SaysCompletion(cfg, events[i]))
                  && (cfg.requireCompletion
                      || (cfg.protocol != Unspecified
                          && exists i, typ, d | 0 <= i < |events| :: Carries(cfg, events[i], typ, d))))
  {
    var events := Dispatched(Concat(chunks));
    StreamErrorIff(cfg, chunks);
    forall i | 0 <= i < |events|
      ensures Sets(cfg, FailedFlag, events[i]) <==> SaysFailure(cfg, events[i])
      ensures Sets(cfg, CompletedFlag, events[i]) <==> SaysCompletion(cfg, events[i])
      ensures Sets(cfg, SeenFlag, events[i]) <==> exists typ, d :: Carries(cfg, events[i], typ, d)
    {
      TypesInWords(cfg, events[i]);
    }
  }

  /** Text was seen exactly if some event of the stream says some. */
  lemma TextByTypes(cfg: Config, chunks: seq<bytes>)
    ensures var events := Dispatched(Concat(chunks));
            && (FeedChunks(SinkOf(cfg), INITIAL, chunks).event.summary.textSeen <==>
                  exists i | 0 <= i < |events| :: SaysText(cfg, events[i]))
  {
    var events := Dispatched(Concat(chunks));
    TextIff(cfg, chunks);
    forall i | 0 <= i < |events| ensures Sets(cfg, TextFlag, events[i]) <==> SaysText(cfg, events[i]) {
      TextInWords(cfg, events[i]);
    }
  }
}
