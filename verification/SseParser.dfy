/** The incremental server-sent-event reader of internal/gateway/usage.go.

    `SseUsageParser` is the program's object: it is fed arbitrary chunks and
    keeps one line buffer, one event buffer and a few flags. `FeedBytes` is the
    same machine one byte at a time. The module SseStream states what a whole
    stream means and proves that the machine computes it. */
module SseParser {
  import opened Options

  type byte = x: int | 0 <= x < 256
  type bytes = seq<byte>

  const LF: byte := 10
  const CR: byte := 13
  const SPACE: byte := 32
  const COLON: byte := 58
  const BOM: bytes := [0xEF, 0xBB, 0xBF]
  const MAX_EVENT_BYTES := 1048576

  /** The bytes of a word; all words here are ASCII. */
  function Ascii(word: string): (r: bytes)
    ensures |r| == |word| && forall i | 0 <= i < |r| :: r[i] == word[i] as int % 256
  {
    seq(|word|, i requires 0 <= i < |word| => word[i] as int % 256)
  }

  const T_TEXT := Ascii("text")
  const T_OUTPUT_TEXT := Ascii("output_text")
  const T_RESPONSE_OUTPUT_TEXT_DELTA := Ascii("response.output_text.delta")
  const T_CONTENT_BLOCK_DELTA := Ascii("content_block_delta")
  const T_TEXT_DELTA := Ascii("text_delta")
  const T_ERROR := Ascii("error")
  const T_RESPONSE_FAILED := Ascii("response.failed")
  const T_RESPONSE_INCOMPLETE := Ascii("response.incomplete")
  const T_RESPONSE_COMPLETED := Ascii("response.completed")
  const T_MESSAGE_STOP := Ascii("message_stop")
  const DONE_MARK := Ascii("[DONE]")
  const F_EVENT := Ascii("event")
  const F_DATA := Ascii("data")

  // ---------------------------------------------------------------- usage

  datatype Protocol = Unspecified | Chat | Responses | Messages

  /** Token counts; a nil pointer of the source is `None`. */
  datatype Usage = Usage(
    billable: Option<int>, input: Option<int>, output: Option<int>,
    cached: Option<int>, cacheCreation: Option<int>, uncached: Option<int>)

  const NO_USAGE := Usage(None, None, None, None, None, None)

  /** One decoded `usage` object, under every name a provider may use. */
  datatype UsageFields = UsageFields(
    input: Option<int>, output: Option<int>, prompt: Option<int>, completion: Option<int>,
    cached: Option<int>, cacheRead: Option<int>, cacheCreation: Option<int>,
    promptCacheHit: Option<int>, inputDetailsCached: Option<int>, promptDetailsCached: Option<int>)

  function Or(a: Option<int>, b: Option<int>): Option<int> {
    if a.Some? then a else b
  }

  /** The four counts a usage object reports, before normalisation. */
  function Reported(f: UsageFields, protocol: Protocol): Usage {
    var cached := Or(Or(Or(f.cached, f.cacheRead), f.inputDetailsCached), f.promptDetailsCached);
    Usage(None, Or(f.input, f.prompt), Or(f.output, f.completion),
          if protocol != Messages then Or(cached, f.promptCacheHit) else cached,
          f.cacheCreation, None)
  }

  /** Two's-complement wrap-around of 64-bit addition. */
  function Wrap64(x: int): int {
    (x + 0x8000_0000_0000_0000) % 0x1_0000_0000_0000_0000 - 0x8000_0000_0000_0000
  }

  function Normalize(u: Usage, protocol: Protocol): Usage {
    if u.input.None? then u
    else
      var raw :=
        if protocol == Messages then
          if u.cacheCreation.Some? then Wrap64(u.input.value + u.cacheCreation.value) else u.input.value
        else
          if u.cached.Some? then Wrap64(u.input.value - u.cached.value) else u.input.value;
      u.(billable := if protocol == Messages then u.input else u.billable,
         uncached := Some(if raw < 0 then 0 else raw))
  }

  predicate In64(x: int) { -0x8000_0000_0000_0000 <= x < 0x8000_0000_0000_0000 }

  /** What a reader is told: the reported counts as they are, the uncached input
      exactly when an input was reported, and never below zero. */
  ghost predicate Bills(r: Usage, u: Usage, protocol: Protocol) {
    && r.input == u.input && r.output == u.output && r.cached == u.cached && r.cacheCreation == u.cacheCreation
    && (u.input.None? ==> r.uncached == u.uncached && r.billable == u.billable)
    && (u.input.Some? ==>
          && r.uncached.Some?
          && (protocol == Messages ==>
                && r.billable == u.input
                && Clamps(r.uncached.value, u.input.value + u.cacheCreation.GetOr(0)))
          && (protocol != Messages ==>
                && r.billable == u.billable
                && Clamps(r.uncached.value, u.input.value - u.cached.GetOr(0))))
  }

  /** The exact count where 64 bits hold it, and zero for a negative one. */
  predicate Clamps(r: int, exact: int) {
    r >= 0 && (In64(exact) ==> r == if exact < 0 then 0 else exact)
  }

  lemma NormalizeBills(u: Usage, protocol: Protocol)
    ensures Bills(Normalize(u, protocol), u, protocol)
  {}

  /** Where the sum or difference of two 64-bit counts leaves the range: above it
      the reader is told zero, below it the count wraps to a positive one. */
  lemma OverflowOfUncached(u: Usage, protocol: Protocol)
    requires u.input.Some? && In64(u.input.value) && In64(u.cached.GetOr(0)) && In64(u.cacheCreation.GetOr(0))
    ensures var exact := if protocol == Messages then u.input.value + u.cacheCreation.GetOr(0)
                         else u.input.value - u.cached.GetOr(0);
            && (exact >= 0x8000_0000_0000_0000 ==> Normalize(u, protocol).uncached == Some(0))
            && (exact < -0x8000_0000_0000_0000 ==>
                  Normalize(u, protocol).uncached == Some(exact + 0x1_0000_0000_0000_0000))
  {}

  /** No token is counted twice: a cached part of the input and the uncached rest
      make up the input. */
  lemma CachedAndUncachedAreInput(u: Usage, protocol: Protocol)
    requires protocol != Messages && u.input.Some? && u.cached.Some? && 0 <= u.cached.value <= u.input.value
    requires In64(u.input.value)
    ensures Normalize(u, protocol).uncached.Some?
    ensures Normalize(u, protocol).uncached.value + Normalize(u, protocol).cached.value == u.input.value
  {
    NormalizeBills(u, protocol);
  }

  /** The first count that is present. */
  ghost predicate FirstPresent(r: Option<int>, names: seq<Option<int>>) {
    && (r.None? <==> forall i | 0 <= i < |names| :: names[i].None?)
    && (r.Some? ==> exists i | 0 <= i < |names| :: names[i] == r && forall j | 0 <= j < i :: names[j].None?)
  }

  /** Providers name the counts differently; the first name that is present counts. */
  lemma ReportedIsFirstPresent(f: UsageFields, protocol: Protocol)
    ensures var r := Reported(f, protocol);
            && FirstPresent(r.input, [f.input, f.prompt]) && FirstPresent(r.output, [f.output, f.completion])
            && FirstPresent(r.cached, [f.cached, f.cacheRead, f.inputDetailsCached, f.promptDetailsCached]
                                      + if protocol == Messages then [] else [f.promptCacheHit])
            && r.cacheCreation == f.cacheCreation
  {
    var names := [f.cached, f.cacheRead, f.inputDetailsCached, f.promptDetailsCached]
      + if protocol == Messages then [] else [f.promptCacheHit];
    var r := Reported(f, protocol);
    assert [f.input, f.prompt][0] == f.input && [f.input, f.prompt][1] == f.prompt;
    assert [f.output, f.completion][0] == f.output && [f.output, f.completion][1] == f.completion;
    assert names[0] == f.cached && names[1] == f.cacheRead;
    assert names[2] == f.inputDetailsCached && names[3] == f.promptDetailsCached;
    assert protocol != Messages ==> names[4] == f.promptCacheHit;
  }

  function Merge(into: Usage, u: Usage): Usage {
    into.(input := Or(u.input, into.input), output := Or(u.output, into.output),
          cached := Or(u.cached, into.cached), cacheCreation := Or(u.cacheCreation, into.cacheCreation),
          uncached := Or(u.uncached, into.uncached))
  }

  // --------------------------------------------------------------- events

  datatype TextBlock = TextBlock(typ: bytes, text: bytes)

  datatype Choice = Choice(text: bytes, content: bytes, parts: Option<seq<TextBlock>>)

  /** What JSON decoding extracts from one event payload. `usages` lists the
      decodable usage objects in the order usage, response, message. */
  datatype Event = Event(
    typ: bytes, errorPresent: bool, usages: seq<UsageFields>,
    deltaText: bytes, deltaBlock: Option<TextBlock>, choices: seq<Choice>)

  /** White-space trimming and JSON decoding, left uninterpreted. */
  datatype Decoder = Decoder(trim: bytes -> bytes, decode: bytes -> Option<Event>)

  datatype Config = Config(decoder: Decoder, protocol: Protocol, requireCompletion: bool)

  datatype Summary = Summary(usage: Usage, textSeen: bool, failed: bool, completed: bool, sawEvent: bool)

  const NOTHING_SEEN := Summary(NO_USAGE, false, false, false, false)

  predicate PartHasText(p: TextBlock) {
    (p.typ == T_TEXT || p.typ == T_OUTPUT_TEXT || p.typ == []) && p.text != []
  }

  predicate ChoiceHasText(c: Choice) {
    || c.content != []
    || (c.parts.Some? && exists i | 0 <= i < |c.parts.value| :: PartHasText(c.parts.value[i]))
    || c.text != []
  }

  predicate EventHasText(typ: bytes, e: Event, protocol: Protocol) {
    match protocol
    case Responses => typ == T_RESPONSE_OUTPUT_TEXT_DELTA && e.deltaText != []
    case Messages => typ == T_CONTENT_BLOCK_DELTA && e.deltaBlock.Some?
                     && e.deltaBlock.value.typ == T_TEXT_DELTA && e.deltaBlock.value.text != []
    case Chat => exists i | 0 <= i < |e.choices| :: ChoiceHasText(e.choices[i])
    case Unspecified => false
  }

  predicate FailureType(typ: bytes) {
    typ == T_ERROR || typ == T_RESPONSE_FAILED || typ == T_RESPONSE_INCOMPLETE
  }

  predicate CompletionType(typ: bytes) {
    typ == T_RESPONSE_COMPLETED || typ == T_MESSAGE_STOP
  }

  function MergeReports(u: Usage, reports: seq<UsageFields>, protocol: Protocol): Usage
    decreases |reports|
  {
    if reports == [] then u
    else MergeReports(Merge(u, Normalize(Reported(reports[0], protocol), protocol)), reports[1..], protocol)
  }

  function EffectiveType(e: Event, eventType: bytes): bytes {
    if e.typ == [] then eventType else e.typ
  }

  /** What a decoded event adds to the summary. */
  function AbsorbEvent(protocol: Protocol, s: Summary, typ: bytes, e: Event): Summary {
    Summary(MergeReports(s.usage, e.usages, protocol),
            s.textSeen || EventHasText(typ, e, protocol),
            s.failed || FailureType(typ) || e.errorPresent,
            s.completed || CompletionType(typ),
            true)
  }

  /** What one dispatched event adds to the summary. */
  function Absorb(cfg: Config, s: Summary, eventType: bytes, payload: bytes): Summary {
    var data := cfg.decoder.trim(payload);
    if data == DONE_MARK then s.(completed := true)
    else
      match cfg.decoder.decode(data)
      case None => s
      case Some(e) => AbsorbEvent(cfg.protocol, s, EffectiveType(e, eventType), e)
  }

  /** What is done with a dispatched event. The byte-wise machine below does not
      depend on it. */
  type Sink = (Summary, bytes, bytes) -> Summary

  function SinkOf(cfg: Config): Sink {
    (s, eventType, payload) => Absorb(cfg, s, eventType, payload)
  }

  // ------------------------------------------------- the byte-wise machine

  /** The unfinished line: `discard` once it has outgrown the limit. */
  datatype LineBuffer = LineBuffer(pending: bytes, discard: bool, afterCR: bool)

  /** The unfinished event and everything learned from the finished ones. */
  datatype EventBuffer = EventBuffer(
    data: bytes, typ: bytes, discard: bool, started: bool, summary: Summary)

  datatype State = State(line: LineBuffer, event: EventBuffer)

  const INITIAL := State(LineBuffer([], false, false), EventBuffer([], [], false, false, NOTHING_SEEN))

  predicate IsBreak(c: byte) { c == CR || c == LF }

  /** Index of the first line break, or the length when there is none. */
  function FirstBreak(s: bytes): (i: nat)
    ensures i <= |s|
    ensures forall k | 0 <= k < i :: !IsBreak(s[k])
    ensures i < |s| ==> IsBreak(s[i])
  {
    if s == [] || IsBreak(s[0]) then 0 else 1 + FirstBreak(s[1..])
  }

  /** Index of the first `c`, or the length when there is none. */
  function IndexOf(s: bytes, c: byte): (i: nat)
    ensures i <= |s|
    ensures forall k | 0 <= k < i :: s[k] != c
    ensures i < |s| ==> s[i] == c
  {
    if s == [] || s[0] == c then 0 else 1 + IndexOf(s[1..], c)
  }

  function TrimPrefix(s: bytes, prefix: bytes): bytes {
    if prefix <= s then s[|prefix|..] else s
  }

  function Field(line: bytes): bytes { line[..IndexOf(line, COLON)] }

  function Value(line: bytes): bytes {
    var i := IndexOf(line, COLON);
    TrimPrefix(if i < |line| then line[i + 1..] else [], [SPACE])
  }

  datatype FieldKind = EventField | DataField | OtherField

  function KindOf(line: bytes): FieldKind {
    if Field(line) == F_EVENT then EventField
    else if Field(line) == F_DATA then DataField
    else OtherField
  }

  function AppendSpec(b: LineBuffer, content: bytes): LineBuffer {
    if b.discard then b
    else if |b.pending| + |content| > MAX_EVENT_BYTES then b.(pending := [], discard := true)
    else b.(pending := b.pending + content)
  }

  function DispatchSpec(sink: Sink, e: EventBuffer): EventBuffer {
    if e.discard || e.data == [] then e
    else e.(summary := sink(e.summary, e.typ, e.data))
  }

  function ParseField(e: EventBuffer, line: bytes): EventBuffer {
    match KindOf(line)
    case EventField => e.(typ := Value(line))
    case DataField =>
      if e.discard then e
      else if |e.data| + |Value(line)| + 1 > MAX_EVENT_BYTES then e.(data := [], discard := true)
      else e.(data := e.data + Value(line) + [LF])
    case OtherField => e
  }

  function ParseLineSpec(sink: Sink, e: EventBuffer, raw: bytes): EventBuffer {
    var line := if e.started then raw else TrimPrefix(raw, BOM);
    var begun := e.(started := true);
    if line == [] then DispatchSpec(sink, begun).(data := [], typ := [], discard := false)
    else ParseField(begun, line)
  }

  function EndLine(sink: Sink, st: State, c: byte): State {
    State(LineBuffer([], false, c == CR),
          if st.line.discard then st.event.(discard := true) else ParseLineSpec(sink, st.event, st.line.pending))
  }

  function AppendTo(st: State, content: bytes): State {
    st.(line := AppendSpec(st.line, content))
  }

  function StepByte(sink: Sink, st: State, c: byte): State {
    var t := st.(line := st.line.(afterCR := false));
    if st.line.afterCR && c == LF then t
    else if IsBreak(c) then EndLine(sink, AppendTo(t, []), c)
    else AppendTo(t, [c])
  }

  function FeedBytes(sink: Sink, st: State, s: bytes): State
    decreases |s|
  {
    if s == [] then st else FeedBytes(sink, StepByte(sink, st, s[0]), s[1..])
  }

  // A run without line breaks only grows the line buffer.
  lemma {:induction false} PlainRun(sink: Sink, st: State, run: bytes)
    requires !st.line.afterCR && run != [] && FirstBreak(run) == |run|
    ensures FeedBytes(sink, st, run) == AppendTo(st, run)
    decreases |run|
  {
    assert !IsBreak(run[0]);
    var t := StepByte(sink, st, run[0]);
    if |run| == 1 {
      assert run[1..] == [];
      assert run == [run[0]];
    } else {
      assert FirstBreak(run[1..]) == |run[1..]|;
      PlainRun(sink, t, run[1..]);
      assert [run[0]] + run[1..] == run;
      assert st.line.pending + [run[0]] + run[1..] == st.line.pending + run;
    }
  }

  /** Chunk invariance: where the bytes are cut leaves no trace in any field,
      whatever the state the parser was in. */
  lemma {:induction false} ChunkInvariance(sink: Sink, st: State, a: bytes, b: bytes)
    ensures FeedBytes(sink, st, a + b) == FeedBytes(sink, FeedBytes(sink, st, a), b)
    decreases |a|
  {
    if a == [] {
      assert a + b == b;
    } else {
      assert (a + b)[1..] == a[1..] + b;
      ChunkInvariance(sink, StepByte(sink, st, a[0]), a[1..], b);
    }
  }

  function FeedChunks(sink: Sink, st: State, chunks: seq<bytes>): State
    decreases |chunks|
  {
    if chunks == [] then st else FeedChunks(sink, FeedBytes(sink, st, chunks[0]), chunks[1..])
  }

  function Concat(chunks: seq<bytes>): bytes {
    if chunks == [] then [] else chunks[0] + Concat(chunks[1..])
  }

  lemma {:induction false} ChunksAreIrrelevant(sink: Sink, st: State, chunks: seq<bytes>)
    ensures FeedChunks(sink, st, chunks) == FeedBytes(sink, st, Concat(chunks))
    decreases |chunks|
  {
    if chunks != [] {
      ChunksAreIrrelevant(sink, FeedBytes(sink, st, chunks[0]), chunks[1..]);
      ChunkInvariance(sink, st, chunks[0], Concat(chunks[1..]));
    }
  }

  predicate Bounded(st: State) {
    |st.line.pending| <= 1048576 && |st.event.data| <= 1048576
  }

  /** Neither buffer ever exceeds the limit. */
  lemma {:induction false} BuffersStayBounded(sink: Sink, st: State, s: bytes)
    requires Bounded(st)
    ensures Bounded(FeedBytes(sink, st, s))
    decreases |s|
  {
    if s != [] {
      BuffersStayBounded(sink, StepByte(sink, st, s[0]), s[1..]);
    }
  }

  // ------------------------------------------------ the program's object

  class SseUsageParser {
    const cfg: Config
    var pending: bytes
    var eventData: bytes
    var eventDiscard: bool
    var afterCR: bool
    var started: bool
    var discard: bool
    var usage: Usage
    var textSeen: bool
    var failed: bool
    var completed: bool
    var sawEvent: bool
    var eventType: bytes

    ghost function View(): State
      reads this
    {
      State(LineBuffer(pending, discard, afterCR),
            EventBuffer(eventData, eventType, eventDiscard, started, Seen()))
    }

    ghost function Seen(): Summary
      reads this
    {
      Summary(usage, textSeen, failed, completed, sawEvent)
    }

    ghost function Sink(): Sink { SinkOf(cfg) }

    constructor (cfg: Config)
      ensures this.cfg == cfg && View() == INITIAL
    {
      this.cfg := cfg;
      pending, eventData, eventType := [], [], [];
      eventDiscard, afterCR, started, discard := false, false, false, false;
      usage, textSeen, failed, completed, sawEvent := NO_USAGE, false, false, false, false;
    }

    method Feed(content: bytes)
      modifies this
      ensures View() == FeedBytes(Sink(), old(View()), content)
    {
      var rest := content;
      while |rest| > 0
        invariant FeedBytes(Sink(), View(), rest) == FeedBytes(Sink(), old(View()), content)
        decreases |rest|
      {
        ghost var before, input := View(), rest;
        if afterCR {
          afterCR := false;
          if rest[0] == LF {
            rest := rest[1..];
            continue;
          }
        }
        ghost var st := View();
        assert FeedBytes(Sink(), before, rest) == FeedBytes(Sink(), st, rest);
        var newline := FirstBreak(rest);
        if newline == |rest| {
          Append(rest);
          PlainRun(Sink(), st, rest);
          return;
        }
        Append(rest[..newline]);
        ghost var filled := View();
        LineConsumed(Sink(), st, rest, newline);
        if !discard {
          ParseLine(pending);
        } else {
          eventDiscard := true;
        }
        pending := [];
        discard := false;
        afterCR := rest[newline] == CR;
        assert View() == EndLine(Sink(), filled, rest[newline]);
        rest := rest[newline + 1..];
      }
    }

    method Append(content: bytes)
      modifies this`pending, this`discard
      ensures View() == AppendTo(old(View()), content)
    {
      if discard { return; }
      if |pending| + |content| > MAX_EVENT_BYTES {
        pending := [];
        discard := true;
        return;
      }
      pending := pending + content;
    }

    method ParseLine(raw: bytes)
      modifies this
      ensures View() == old(View()).(event := ParseLineSpec(Sink(), old(View().event), raw))
    {
      var line := raw;
      if !started {
        line := TrimPrefix(line, BOM);
        started := true;
      }
      if |line| == 0 {
        Dispatch();
        eventData := [];
        eventType := [];
        eventDiscard := false;
        return;
      }
      var value := Value(line);
      match KindOf(line)
      case EventField =>
        eventType := value;
      case DataField =>
        if eventDiscard { return; }
        if |eventData| + |value| + 1 > MAX_EVENT_BYTES {
          eventData := [];
          eventDiscard := true;
          return;
        }
        eventData := eventData + value;
        eventData := eventData + [LF];
      case OtherField =>
    }

    method Dispatch()
      modifies this`usage, this`textSeen, this`failed, this`completed, this`sawEvent
      ensures View() == old(View()).(event := DispatchSpec(Sink(), old(View().event)))
    {
      if eventDiscard || |eventData| == 0 { return; }
      var data := cfg.decoder.trim(eventData);
      if data == DONE_MARK {
        completed := true;
        return;
      }
      var decoded := cfg.decoder.decode(data);
      if decoded.None? { return; }
      var event := decoded.value;
      TakeEvent(if event.typ == [] then eventType else event.typ, event);
    }

    // The last part of dispatch: what a decoded event says.
    method TakeEvent(typ: bytes, event: Event)
      modifies this`usage, this`textSeen, this`failed, this`completed, this`sawEvent
      ensures Seen() == AbsorbEvent(cfg.protocol, old(Seen()), typ, event)
    {
      sawEvent := true;
      MarkType(typ);
      if event.errorPresent {
        failed := true;
      }
      MergeAll(event.usages);
      if EventHasText(typ, event, cfg.protocol) {
        textSeen := true;
      }
    }

    method MarkType(typ: bytes)
      modifies this`failed, this`completed
      ensures failed == (old(failed) || FailureType(typ)) && completed == (old(completed) || CompletionType(typ))
    {
      TypesAreDisjoint(typ);
      if FailureType(typ) {
        failed := true;
      } else if CompletionType(typ) {
        completed := true;
      }
    }

    method MergeAll(usages: seq<UsageFields>)
      modifies this`usage
      ensures usage == MergeReports(old(usage), usages, cfg.protocol)
    {
      var i := 0;
      while i < |usages|
        invariant 0 <= i <= |usages|
        invariant MergeReports(usage, usages[i..], cfg.protocol) == MergeReports(old(usage), usages, cfg.protocol)
      {
        assert usages[i..][1..] == usages[i + 1..];
        MergeUsage(Normalize(Reported(usages[i], cfg.protocol), cfg.protocol));
        i := i + 1;
      }
    }

    method MergeUsage(u: Usage)
      modifies this`usage
      ensures usage == Merge(old(usage), u)
    {
      if u.input.Some? { usage := usage.(input := u.input); }
      if u.output.Some? { usage := usage.(output := u.output); }
      if u.cached.Some? { usage := usage.(cached := u.cached); }
      if u.cacheCreation.Some? { usage := usage.(cacheCreation := u.cacheCreation); }
      if u.uncached.Some? { usage := usage.(uncached := u.uncached); }
    }

    method CurrentUsage() returns (r: Usage)
      ensures r == Normalize(View().event.summary.usage, cfg.protocol)
      ensures Bills(r, View().event.summary.usage, cfg.protocol)
    {
      NormalizeBills(usage, cfg.protocol);
      r := Normalize(usage, cfg.protocol);
    }

    method HasText() returns (r: bool)
      ensures r == View().event.summary.textSeen
    {
      r := textSeen;
    }

    method StreamError() returns (r: Option<StreamFailure>)
      ensures r == StreamErrorSpec(cfg, View().event.summary)
    {
      if failed { return Some(ReportedFailure); }
      if (cfg.requireCompletion || (sawEvent && cfg.protocol != Unspecified)) && !completed {
        return Some(EndedEarly);
      }
      return None;
    }
  }

  datatype StreamFailure = ReportedFailure | EndedEarly

  function StreamErrorSpec(cfg: Config, s: Summary): Option<StreamFailure> {
    if s.failed then Some(ReportedFailure)
    else if (cfg.requireCompletion || (s.sawEvent && cfg.protocol != Unspecified)) && !s.completed then Some(EndedEarly)
    else None
  }

  lemma TypesAreDisjoint(typ: bytes)
    ensures !(FailureType(typ) && CompletionType(typ))
  {
    assert T_RESPONSE_COMPLETED[9] != T_RESPONSE_FAILED[9] && T_RESPONSE_COMPLETED[9] != T_RESPONSE_INCOMPLETE[9];
  }

  // Consuming the bytes before the first line break.
  lemma RunConsumed(sink: Sink, st: State, run: bytes, rest: bytes)
    requires !st.line.afterCR && run != [] && FirstBreak(run) == |run|
    ensures FeedBytes(sink, st, run + rest) == FeedBytes(sink, AppendTo(st, run), rest)
  {
    PlainRun(sink, st, run);
    ChunkInvariance(sink, st, run, rest);
  }

  lemma BreakOfPrefix(s: bytes, i: nat)
    requires i == FirstBreak(s)
    ensures FirstBreak(s[..i]) == i
  {
    assert forall k | 0 <= k < i :: s[..i][k] == s[k];
  }

  // An append that left room for nothing more is not changed by an empty one.
  lemma AppendNothing(st: State, run: bytes)
    requires run != []
    ensures AppendTo(AppendTo(st, run), []) == AppendTo(st, run)
    ensures !st.line.afterCR ==> !AppendTo(st, run).line.afterCR
  {
    var t := AppendTo(st, run);
    assert t.line.pending + [] == t.line.pending;
  }

  // Consuming up to and including the first line break.
  lemma LineConsumed(sink: Sink, st: State, s: bytes, i: nat)
    requires !st.line.afterCR && i == FirstBreak(s) && i < |s|
    ensures FeedBytes(sink, st, s) == FeedBytes(sink, EndLine(sink, AppendTo(st, s[..i]), s[i]), s[i + 1..])
  {
    if i == 0 {
      assert s[..0] == [];
      assert StepByte(sink, st, s[0]) == EndLine(sink, AppendTo(st, []), s[0]);
    } else {
      var t := AppendTo(st, s[..i]);
      BreakOfPrefix(s, i);
      RunConsumed(sink, st, s[..i], s[i..]);
      assert s == s[..i] + s[i..];
      AppendNothing(st, s[..i]);
      assert s[i..][0] == s[i] && s[i..][1..] == s[i + 1..];
      assert StepByte(sink, t, s[i]) == EndLine(sink, t, s[i]);
    }
  }
}
