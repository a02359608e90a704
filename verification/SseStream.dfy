/** What a whole event stream means (sections 9.2.5 and 9.2.6 of the WHATWG HTML
    Standard, with the program's size limits), and the proof that the parser of
    SseParser computes exactly that meaning however the stream is cut. */
module SseStream {
  import opened Options
  import opened SseParser

  // ------------------------------------------------------------- lines

  /** The terminated lines of a stream and the unterminated rest. */
  datatype Split = Split(lines: seq<bytes>, tail: bytes)

  /** Where the text after the line break at `i` starts: CR LF is one break. */
  function AfterBreak(s: bytes, i: nat): (j: nat)
    requires i < |s|
    ensures i < j <= |s|
  {
    if s[i] == CR && i + 1 < |s| && s[i + 1] == LF then i + 2 else i + 1
  }

  function SplitLines(s: bytes): Split
    decreases |s|
  {
    var i := FirstBreak(s);
    if i == |s| then Split([], s)
    else
      var rest := SplitLines(s[AfterBreak(s, i)..]);
      Split([s[..i]] + rest.lines, rest.tail)
  }

  datatype Ending = EndLF | EndCR | EndCRLF

  function EndingBytes(e: Ending): bytes {
    match e
    case EndLF => [10]
    case EndCR => [13]
    case EndCRLF => [13, 10]
  }

  function Render(lines: seq<bytes>, endings: seq<Ending>, tail: bytes): bytes
    requires |lines| == |endings|
  {
    if lines == [] then tail
    else lines[0] + EndingBytes(endings[0]) + Render(lines[1..], endings[1..], tail)
  }

  predicate Plain(s: bytes) { forall i | 0 <= i < |s| :: !IsBreak(s[i]) }

  predicate StartsWithLF(s: bytes) { s != [] && s[0] == LF }

  /** No lone CR is directly followed by a line feed, which would fuse with it. */
  predicate Unambiguous(lines: seq<bytes>, endings: seq<Ending>, tail: bytes)
    requires |lines| == |endings|
  {
    lines != [] ==>
      && (endings[0] == EndCR ==> !StartsWithLF(Render(lines[1..], endings[1..], tail)))
      && Unambiguous(lines[1..], endings[1..], tail)
  }

  lemma FirstBreakOfLine(line: bytes, rest: bytes)
    requires Plain(line) && rest != [] && IsBreak(rest[0])
    ensures FirstBreak(line + rest) == |line|
  {
    assert forall k | 0 <= k < |line| :: (line + rest)[k] == line[k];
    assert (line + rest)[|line|] == rest[0];
  }

  /** The first line comes off whole, and its ending with it. */
  lemma SplitFirst(line: bytes, ending: Ending, rest: bytes)
    requires Plain(line) && (ending == EndCR ==> !StartsWithLF(rest))
    ensures var r := SplitLines(rest); SplitLines(line + EndingBytes(ending) + rest) == Split([line] + r.lines, r.tail)
  {
    var e, i := EndingBytes(ending), |line|;
    var s := line + e + rest;
    assert s == line + (e + rest);
    FirstBreakOfLine(line, e + rest);
    assert s[..i] == line && s[i] == e[0];
    if i + 1 < |s| { assert s[i + 1] == (e + rest)[1]; }
    assert AfterBreak(s, i) == i + |e|;
    assert s[i + |e|..] == rest;
  }

  /** Splitting undoes rendering, whichever line ending each line uses. */
  lemma {:induction false} SplitUndoesRender(lines: seq<bytes>, endings: seq<Ending>, tail: bytes)
    requires |lines| == |endings| && Plain(tail)
    requires forall k | 0 <= k < |lines| :: Plain(lines[k])
    requires Unambiguous(lines, endings, tail)
    ensures SplitLines(Render(lines, endings, tail)) == Split(lines, tail)
    decreases |lines|
  {
    if lines == [] {
      assert FirstBreak(tail) == |tail|;
    } else {
      var rest := Render(lines[1..], endings[1..], tail);
      SplitFirst(lines[0], endings[0], rest);
      SplitUndoesRender(lines[1..], endings[1..], tail);
      assert [lines[0]] + lines[1..] == lines;
    }
  }

  // ------------------------------------- the machine, one line at a time

  function StepLine(sink: Sink, e: EventBuffer, line: bytes): EventBuffer {
    if |line| > MAX_EVENT_BYTES then e.(discard := true) else ParseLineSpec(sink, e, line)
  }

  function FeedLines(sink: Sink, e: EventBuffer, lines: seq<bytes>): EventBuffer
    decreases |lines|
  {
    if lines == [] then e else FeedLines(sink, StepLine(sink, e, lines[0]), lines[1..])
  }

  /** The line buffer between two lines. */
  const AT_LINE_START := LineBuffer([], false, false)

  function Holding(tail: bytes, afterCR: bool): LineBuffer {
    if |tail| > MAX_EVENT_BYTES then LineBuffer([], true, afterCR) else LineBuffer(tail, false, afterCR)
  }

  predicate EndsWithCR(s: bytes) { s != [] && s[|s| - 1] == CR }

  /** Every field after a stream: the terminated lines have been processed in
      order, and the unterminated tail sits in the line buffer or was dropped. */
  lemma {:induction false} FeedIsLineWise(sink: Sink, e: EventBuffer, s: bytes)
    ensures FeedBytes(sink, State(AT_LINE_START, e), s)
         == State(Holding(SplitLines(s).tail, EndsWithCR(s)), FeedLines(sink, e, SplitLines(s).lines))
    decreases |s|
  {
    var st := State(AT_LINE_START, e);
    var i := FirstBreak(s);
    if i == |s| {
      if s != [] {
        PlainRun(sink, st, s);
        assert [] + s == s;
        assert !IsBreak(s[|s| - 1]);
      }
    } else {
      LineConsumed(sink, st, s, i);
      assert [] + s[..i] == s[..i];
      var next := StepLine(sink, e, s[..i]);
      assert EndLine(sink, AppendTo(st, s[..i]), s[i]) == State(LineBuffer([], false, s[i] == CR), next);
      var j := AfterBreak(s, i);
      SkipLF(sink, next, s, i);
      FeedIsLineWise(sink, next, s[j..]);
      assert SplitLines(s).lines[1..] == SplitLines(s[j..]).lines;
      if j == |s| {
        assert s[j..] == [];
      } else {
        assert s[j..][|s[j..]| - 1] == s[|s| - 1];
      }
    }
  }

  // The line feed of a CR LF pair is swallowed; any other byte is read as usual.
  lemma SkipLF(sink: Sink, e: EventBuffer, s: bytes, i: nat)
    requires i < |s| && IsBreak(s[i])
    ensures FeedBytes(sink, State(LineBuffer([], false, s[i] == CR), e), s[i + 1..])
         == if AfterBreak(s, i) == |s| then State(LineBuffer([], false, s[|s| - 1] == CR), e)
            else FeedBytes(sink, State(AT_LINE_START, e), s[AfterBreak(s, i)..])
  {
    var ended := State(LineBuffer([], false, s[i] == CR), e);
    var start := State(AT_LINE_START, e);
    var rest := s[i + 1..];
    if rest != [] {
      assert rest[0] == s[i + 1];
      if s[i] == CR && s[i + 1] == LF {
        assert rest[1..] == s[i + 2..];
        assert StepByte(sink, ended, rest[0]) == start;
      } else {
        assert StepByte(sink, ended, rest[0]) == StepByte(sink, start, rest[0]);
      }
    }
  }

  // ------------------------------------------------------------ events

  datatype Line = Oversized | Kept(text: bytes)

  /** Lines over the limit are discarded; a byte-order mark is removed from the
      first line that is not. */
  function Classify(lines: seq<bytes>, started: bool): seq<Line>
    decreases |lines|
  {
    if lines == [] then []
    else if |lines[0]| > MAX_EVENT_BYTES then [Oversized] + Classify(lines[1..], started)
    else [Kept(if started then lines[0] else TrimPrefix(lines[0], BOM))] + Classify(lines[1..], true)
  }

  function DataOf(l: Line): bytes {
    if l.Kept? && KindOf(l.text) == DataField then Value(l.text) + [LF] else []
  }

  /** The data lines of an event, joined; every value is followed by one LF. */
  function Payload(group: seq<Line>): bytes {
    if group == [] then [] else Payload(group[..|group| - 1]) + DataOf(group[|group| - 1])
  }

  /** The last `event` field of the group. */
  function TypeOf(group: seq<Line>): bytes {
    if group == [] then []
    else
      var l := group[|group| - 1];
      if l.Kept? && KindOf(l.text) == EventField then Value(l.text) else TypeOf(group[..|group| - 1])
  }

  predicate TooLarge(group: seq<Line>) {
    Oversized in group || |Payload(group)| > MAX_EVENT_BYTES
  }

  datatype SseEvent = SseEvent(typ: bytes, data: bytes)

  function Emit(group: seq<Line>): seq<SseEvent> {
    if TooLarge(group) || Payload(group) == [] then [] else [SseEvent(TypeOf(group), Payload(group))]
  }

  /** Blank lines end events; `open` is the event under way and what it holds
      at the end of the input is never emitted. */
  function Events(open: seq<Line>, lines: seq<Line>): seq<SseEvent>
    decreases |lines|
  {
    if lines == [] then []
    else if lines[0] == Kept([]) then Emit(open) + Events([], lines[1..])
    else Events(open + [lines[0]], lines[1..])
  }

  function Dispatched(stream: bytes): seq<SseEvent> {
    Events([], Classify(SplitLines(stream).lines, false))
  }

  function AbsorbAll(sink: Sink, s: Summary, events: seq<SseEvent>): Summary
    decreases |events|
  {
    if events == [] then s else AbsorbAll(sink, sink(s, events[0].typ, events[0].data), events[1..])
  }

  /** The event buffer holds exactly the lines of the open event. */
  predicate Open(e: EventBuffer, group: seq<Line>) {
    && e.typ == TypeOf(group)
    && e.discard == TooLarge(group)
    && (!e.discard ==> e.data == Payload(group))
  }

  lemma OpenExtends(e: EventBuffer, group: seq<Line>, line: bytes)
    requires Open(e, group)
    ensures Open(ParseField(e, line), group + [Kept(line)])
  {
    var bigger := group + [Kept(line)];
    assert bigger[..|bigger| - 1] == group;
    assert Payload(bigger) == Payload(group) + DataOf(Kept(line));
    assert Oversized in bigger <==> Oversized in group;
  }

  lemma OpenOversized(e: EventBuffer, group: seq<Line>)
    requires Open(e, group)
    ensures Open(e.(discard := true), group + [Oversized])
  {
    var bigger := group + [Oversized];
    assert bigger[..|bigger| - 1] == group;
    assert bigger[|bigger| - 1] == Oversized;
  }

  // Ending the open event absorbs what it emits.
  lemma OpenEnds(sink: Sink, e: EventBuffer, group: seq<Line>, later: seq<SseEvent>)
    requires Open(e, group)
    ensures AbsorbAll(sink, e.summary, Emit(group) + later) == AbsorbAll(sink, DispatchSpec(sink, e).summary, later)
  {
    if Emit(group) == [] {
      assert Emit(group) + later == later;
    } else {
      assert (Emit(group) + later)[1..] == later;
    }
  }

  lemma ClassifyFirst(line: bytes, rest: seq<bytes>, started: bool)
    ensures Classify([line] + rest, started)
         == if |line| > MAX_EVENT_BYTES then [Oversized] + Classify(rest, started)
            else [Kept(if started then line else TrimPrefix(line, BOM))] + Classify(rest, true)
  {
    assert ([line] + rest)[1..] == rest;
  }

  lemma {:induction false} LinesRefineEvents(sink: Sink, e: EventBuffer, group: seq<Line>, lines: seq<bytes>)
    requires Open(e, group)
    ensures FeedLines(sink, e, lines).summary
         == AbsorbAll(sink, e.summary, Events(group, Classify(lines, e.started)))
    decreases |lines|, 0
  {
    if lines != [] {
      var line, rest := lines[0], lines[1..];
      assert lines == [line] + rest;
      ClassifyFirst(line, rest, e.started);
      if |line| > MAX_EVENT_BYTES {
        OpenOversized(e, group);
        LinesRefineEvents(sink, e.(discard := true), group + [Oversized], rest);
      } else {
        var text := if e.started then line else TrimPrefix(line, BOM);
        if text == [] {
          BlankLineRefines(sink, e, group, line, rest);
        } else {
          TextLineRefines(sink, e, group, line, text, rest);
        }
      }
    }
  }

  lemma {:induction false} TextLineRefines(sink: Sink, e: EventBuffer, group: seq<Line>, line: bytes, text: bytes,
      rest: seq<bytes>)
    requires Open(e, group)
    requires text == (if e.started then line else TrimPrefix(line, BOM)) && text != []
    ensures FeedLines(sink, ParseLineSpec(sink, e, line), rest).summary
         == AbsorbAll(sink, e.summary, Events(group + [Kept(text)], Classify(rest, true)))
    decreases |rest|, 1
  {
    var begun := e.(started := true);
    var next := ParseField(begun, text);
    assert next.summary == e.summary && next.started;
    OpenExtends(begun, group, text);
    LinesRefineEvents(sink, next, group + [Kept(text)], rest);
  }

  lemma {:induction false} BlankLineRefines(sink: Sink, e: EventBuffer, group: seq<Line>, line: bytes, rest: seq<bytes>)
    requires Open(e, group)
    requires |line| <= MAX_EVENT_BYTES && (if e.started then line else TrimPrefix(line, BOM)) == []
    ensures FeedLines(sink, ParseLineSpec(sink, e, line), rest).summary
         == AbsorbAll(sink, e.summary, Emit(group) + Events([], Classify(rest, true)))
    decreases |rest|, 1
  {
    var begun := e.(started := true);
    var next := DispatchSpec(sink, begun).(data := [], typ := [], discard := false);
    assert Open(next, []);
    LinesRefineEvents(sink, next, [], rest);
    OpenEnds(sink, begun, group, Events([], Classify(rest, true)));
  }

  /** Refinement: after any feeding, in any chunks, the summary is what the
      events of the whole stream amount to. */
  lemma StreamRefinement(cfg: Config, chunks: seq<bytes>)
    ensures FeedChunks(SinkOf(cfg), INITIAL, chunks).event.summary
         == AbsorbAll(SinkOf(cfg), NOTHING_SEEN, Dispatched(Concat(chunks)))
  {
    var stream := Concat(chunks);
    ChunksAreIrrelevant(SinkOf(cfg), INITIAL, chunks);
    FeedIsLineWise(SinkOf(cfg), INITIAL.event, stream);
    LinesRefineEvents(SinkOf(cfg), INITIAL.event, [], SplitLines(stream).lines);
  }

  // ------------------------------------------------ what the summary says

  /** The decoded event a dispatched payload carries, unless it is `[DONE]`. */
  function Decoded(cfg: Config, e: SseEvent): Option<Event> {
    var data := cfg.decoder.trim(e.data);
    if data == DONE_MARK then None else cfg.decoder.decode(data)
  }

  predicate IsDone(cfg: Config, e: SseEvent) { cfg.decoder.trim(e.data) == DONE_MARK }

  predicate Fails(cfg: Config, e: SseEvent) {
    var d := Decoded(cfg, e);
    d.Some? && (FailureType(EffectiveType(d.value, e.typ)) || d.value.errorPresent)
  }

  predicate Completes(cfg: Config, e: SseEvent) {
    var d := Decoded(cfg, e);
    IsDone(cfg, e) || (d.Some? && CompletionType(EffectiveType(d.value, e.typ)))
  }

  predicate BringsText(cfg: Config, e: SseEvent) {
    var d := Decoded(cfg, e);
    d.Some? && EventHasText(EffectiveType(d.value, e.typ), d.value, cfg.protocol)
  }

  /** All usage objects reported by the events, oldest first. */
  function Reports(cfg: Config, events: seq<SseEvent>): seq<Usage>
    decreases |events|
  {
    if events == [] then []
    else ReportsOf(cfg, events[0]) + Reports(cfg, events[1..])
  }

  function ReportsOf(cfg: Config, e: SseEvent): seq<Usage> {
    var d := Decoded(cfg, e);
    if d.Some? then RawReports(d.value.usages, cfg.protocol) else []
  }

  function RawReports(usages: seq<UsageFields>, protocol: Protocol): (r: seq<Usage>)
    ensures |r| == |usages|
  {
    seq(|usages|, i requires 0 <= i < |usages| => Reported(usages[i], protocol))
  }

  /** The last present value of one count among the reports. */
  function Last(reports: seq<Usage>, count: Usage -> Option<int>): Option<int>
    decreases |reports|
  {
    if reports == [] then None
    else Or(count(reports[|reports| - 1]), Last(reports[..|reports| - 1], count))
  }

  const INPUT := (u: Usage) => u.input
  const OUTPUT := (u: Usage) => u.output
  const CACHED := (u: Usage) => u.cached
  const CREATION := (u: Usage) => u.cacheCreation

  function LastReported(reports: seq<Usage>): Usage {
    Usage(None, Last(reports, INPUT), Last(reports, OUTPUT), Last(reports, CACHED), Last(reports, CREATION), None)
  }

  predicate Holds(u: Usage, reports: seq<Usage>) {
    && u.(uncached := None) == LastReported(reports)
    && (u.uncached.Some? ==> u.input.Some?)
  }

  lemma LastOfSnoc(reports: seq<Usage>, r: Usage, count: Usage -> Option<int>)
    ensures Last(reports + [r], count) == Or(count(r), Last(reports, count))
  {
    assert (reports + [r])[..|reports|] == reports;
  }

  lemma {:induction false} MergeKeepsLast(u: Usage, seen: seq<Usage>, usages: seq<UsageFields>, protocol: Protocol)
    requires Holds(u, seen)
    ensures Holds(MergeReports(u, usages, protocol), seen + RawReports(usages, protocol))
    decreases |usages|
  {
    var reports := RawReports(usages, protocol);
    if usages == [] {
      assert seen + reports == seen;
    } else {
      var r := Reported(usages[0], protocol);
      LastOfSnoc(seen, r, INPUT);
      LastOfSnoc(seen, r, OUTPUT);
      LastOfSnoc(seen, r, CACHED);
      LastOfSnoc(seen, r, CREATION);
      MergeKeepsLast(Merge(u, Normalize(r, protocol)), seen + [r], usages[1..], protocol);
      assert seen + [r] + RawReports(usages[1..], protocol) == seen + reports;
    }
  }

  lemma OneEventKeepsLast(cfg: Config, s: Summary, seen: seq<Usage>, e: SseEvent)
    requires Holds(s.usage, seen)
    ensures Holds(Absorb(cfg, s, e.typ, e.data).usage, seen + ReportsOf(cfg, e))
  {
    var d := Decoded(cfg, e);
    if d.Some? {
      MergeKeepsLast(s.usage, seen, d.value.usages, cfg.protocol);
    } else {
      assert seen + ReportsOf(cfg, e) == seen;
    }
  }

  lemma {:induction false} AbsorbKeepsLast(cfg: Config, s: Summary, seen: seq<Usage>, events: seq<SseEvent>)
    requires Holds(s.usage, seen)
    ensures Holds(AbsorbAll(SinkOf(cfg), s, events).usage, seen + Reports(cfg, events))
    decreases |events|
  {
    if events == [] {
      assert seen + Reports(cfg, events) == seen;
    } else {
      var next := Absorb(cfg, s, events[0].typ, events[0].data);
      OneEventKeepsLast(cfg, s, seen, events[0]);
      AbsorbKeepsLast(cfg, next, seen + ReportsOf(cfg, events[0]), events[1..]);
      assert seen + ReportsOf(cfg, events[0]) + Reports(cfg, events[1..]) == seen + Reports(cfg, events);
    }
  }

  lemma UncachedIsRecomputed(u: Usage, reports: seq<Usage>, protocol: Protocol)
    requires Holds(u, reports)
    ensures Normalize(u, protocol) == Normalize(LastReported(reports), protocol)
  {
    assert u.(uncached := None) == LastReported(reports);
    if u.input.None? { assert u == LastReported(reports); }
  }

  /** The reported usage is the normalisation of the last present value of each
      count; the normalised values merged on the way leave no trace. */
  lemma UsageIsNormalizedLastReport(cfg: Config, chunks: seq<bytes>)
    ensures Normalize(FeedChunks(SinkOf(cfg), INITIAL, chunks).event.summary.usage, cfg.protocol)
         == Normalize(LastReported(Reports(cfg, Dispatched(Concat(chunks)))), cfg.protocol)
    ensures Bills(Normalize(FeedChunks(SinkOf(cfg), INITIAL, chunks).event.summary.usage, cfg.protocol),
                  LastReported(Reports(cfg, Dispatched(Concat(chunks)))), cfg.protocol)
  {
    NormalizeBills(LastReported(Reports(cfg, Dispatched(Concat(chunks)))), cfg.protocol);
    var events := Dispatched(Concat(chunks));
    StreamRefinement(cfg, chunks);
    AbsorbKeepsLast(cfg, NOTHING_SEEN, [], events);
    assert [] + Reports(cfg, events) == Reports(cfg, events);
    UncachedIsRecomputed(AbsorbAll(SinkOf(cfg), NOTHING_SEEN, events).usage, Reports(cfg, events), cfg.protocol);
  }

  /** The four flags of a summary. */
  datatype Flag = FailedFlag | CompletedFlag | SeenFlag | TextFlag

  predicate IsSet(s: Summary, flag: Flag) {
    match flag
    case FailedFlag => s.failed
    case CompletedFlag => s.completed
    case SeenFlag => s.sawEvent
    case TextFlag => s.textSeen
  }

  /** What a single event says about a flag. */
  predicate Sets(cfg: Config, flag: Flag, e: SseEvent) {
    match flag
    case FailedFlag => Fails(cfg, e)
    case CompletedFlag => Completes(cfg, e)
    case SeenFlag => Decoded(cfg, e).Some?
    case TextFlag => BringsText(cfg, e)
  }

  predicate SomeEvent(cfg: Config, flag: Flag, events: seq<SseEvent>) {
    exists i | 0 <= i < |events| :: Sets(cfg, flag, events[i])
  }

  lemma OneEventSets(cfg: Config, s: Summary, e: SseEvent, flag: Flag)
    ensures IsSet(Absorb(cfg, s, e.typ, e.data), flag) <==> IsSet(s, flag) || Sets(cfg, flag, e)
  {}

  /** A flag is up after the events if and only if it was up before or one of
      the events raises it. */
  lemma {:induction false} FlagsOfEvents(cfg: Config, s: Summary, events: seq<SseEvent>, flag: Flag)
    ensures IsSet(AbsorbAll(SinkOf(cfg), s, events), flag) <==> IsSet(s, flag) || SomeEvent(cfg, flag, events)
    decreases |events|
  {
    if events != [] {
      OneEventSets(cfg, s, events[0], flag);
      FlagsOfEvents(cfg, Absorb(cfg, s, events[0].typ, events[0].data), events[1..], flag);
      assert forall i | 1 <= i < |events| :: events[i] == events[1..][i - 1];
    }
  }

  /** Whether a stream of these events has to be completed by one of them. */
  predicate MustComplete(cfg: Config, events: seq<SseEvent>) {
    cfg.requireCompletion || (cfg.protocol != Unspecified && SomeEvent(cfg, SeenFlag, events))
  }

  /** How a stream ends is decided by its events: with the reported failure when
      one of them reports it, else too early when it must be completed and none
      completes it, else well. */
  lemma StreamErrorIff(cfg: Config, chunks: seq<bytes>)
    ensures var events := Dispatched(Concat(chunks));
            var failure := StreamErrorSpec(cfg, FeedChunks(SinkOf(cfg), INITIAL, chunks).event.summary);
            && (failure == Some(ReportedFailure) <==> SomeEvent(cfg, FailedFlag, events))
            && (failure == Some(EndedEarly) <==>
                  && !SomeEvent(cfg, FailedFlag, events) && MustComplete(cfg, events)
                  && !SomeEvent(cfg, CompletedFlag, events))
  {
    var events := Dispatched(Concat(chunks));
    StreamRefinement(cfg, chunks);
    FlagsOfEvents(cfg, NOTHING_SEEN, events, FailedFlag);
    FlagsOfEvents(cfg, NOTHING_SEEN, events, CompletedFlag);
    FlagsOfEvents(cfg, NOTHING_SEEN, events, SeenFlag);
  }

  lemma TextIff(cfg: Config, chunks: seq<bytes>)
    ensures FeedChunks(SinkOf(cfg), INITIAL, chunks).event.summary.textSeen
       <==> SomeEvent(cfg, TextFlag, Dispatched(Concat(chunks)))
  {
    StreamRefinement(cfg, chunks);
    FlagsOfEvents(cfg, NOTHING_SEEN, Dispatched(Concat(chunks)), TextFlag);
  }

  /** Reading a stream to its end, chunk by chunk, as the proxy does. */
  method ReadStream(cfg: Config, chunks: seq<bytes>)
    returns (usage: Usage, hasText: bool, failure: Option<StreamFailure>)
    ensures usage == Normalize(LastReported(Reports(cfg, Dispatched(Concat(chunks)))), cfg.protocol)
    ensures Bills(usage, LastReported(Reports(cfg, Dispatched(Concat(chunks)))), cfg.protocol)
    ensures hasText <==> SomeEvent(cfg, TextFlag, Dispatched(Concat(chunks)))
    ensures failure == Some(ReportedFailure) <==> SomeEvent(cfg, FailedFlag, Dispatched(Concat(chunks)))
    ensures failure == Some(EndedEarly) <==>
              && !SomeEvent(cfg, FailedFlag, Dispatched(Concat(chunks)))
              && MustComplete(cfg, Dispatched(Concat(chunks)))
              && !SomeEvent(cfg, CompletedFlag, Dispatched(Concat(chunks)))
  {
    var parser := new SseUsageParser(cfg);
    var i := 0;
    while i < |chunks|
      invariant 0 <= i <= |chunks| && parser.cfg == cfg && fresh(parser)
      invariant FeedChunks(SinkOf(cfg), parser.View(), chunks[i..]) == FeedChunks(SinkOf(cfg), INITIAL, chunks)
    {
      assert chunks[i..][1..] == chunks[i + 1..];
      parser.Feed(chunks[i]);
      i := i + 1;
    }
    usage := parser.CurrentUsage();
    hasText := parser.HasText();
    failure := parser.StreamError();
    UsageIsNormalizedLastReport(cfg, chunks);
    NormalizeBills(LastReported(Reports(cfg, Dispatched(Concat(chunks)))), cfg.protocol);
    TextIff(cfg, chunks);
    StreamErrorIff(cfg, chunks);
  }
}
