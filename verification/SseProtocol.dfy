/**
  The bytes that end a stream (src/sse_protocol.rs) and when the receipt finalizer
  appends them (src/aggregator/service/streaming.rs): whatever was sent before,
  they form their own events.
 */
module SseProtocol {
  import opened Foundation
  import opened EventStream
  import opened SseFraming
  import opened SseObservation
  import opened SseStandard

  const EVENT_COLON: seq<byte> := [101, 118, 101, 110, 116, 58] // event:
  const ERROR: seq<byte> := [101, 114, 114, 111, 114]           // error

  /** The JSON bodies of the error events, per protocol; the last argument of `responses` is the event number. */
  datatype Bodies = Bodies(
    chat: nat -> seq<byte>, anthropic: (nat, Option<string>) -> seq<byte>, responses: (nat, u64) -> seq<byte>)
  {
    /** JSON text has no line terminator in it. */
    ghost predicate OneLine() {
      && (forall status :: OpenLine(chat(status)))
      && (forall status, id :: OpenLine(anthropic(status, id)))
      && (forall status, n :: OpenLine(responses(status, n)))
    }
  }

  ghost predicate OpenLine(s: seq<byte>) {
    forall j :: 0 <= j < |s| ==> !Ends(s[j])
  }

  function DataLine(payload: seq<byte>): seq<byte> {
    DATA_COLON + [SPACE] + payload
  }

  function DataEvent(payload: seq<byte>): seq<byte> {
    DataLine(payload) + [LF] + [LF]
  }

  const EventLine: seq<byte> := EVENT_COLON + [SPACE] + ERROR

  function SuccessTerminator(protocol: Protocol): Option<seq<byte>> {
    if protocol == OpenaiChat then Some(DataEvent(DONE)) else None
  }

  /** The number an error event takes: the successor of the last one, saturating. */
  function NextNumber(last: Option<u64>): u64 {
    if last.None? then 0 else if last.value < U64_MAX then last.value + 1 else U64_MAX
  }

  function ErrorBody(b: Bodies, protocol: Protocol, status: nat, requestId: Option<string>,
                     last: Option<u64>): seq<byte> {
    match protocol
    case OpenaiChat => b.chat(status)
    case AnthropicMessages => b.anthropic(status, requestId)
    case OpenaiResponses => b.responses(status, NextNumber(last))
  }

  function ErrorEvent(b: Bodies, protocol: Protocol, status: nat, requestId: Option<string>,
                      last: Option<u64>): seq<byte> {
    var body := ErrorBody(b, protocol, status, requestId, last);
    [LF, LF] + match protocol
               case OpenaiChat => DataEvent(body) + DataEvent(DONE)
               case _ => EventLine + [LF] + DataEvent(body)
  }

  // ---------- the lines of a terminator ----------

  lemma DataLineReads(payload: seq<byte>)
    ensures DataLine(payload) != [] && DataLine(payload)[0] != COLON
    ensures FieldName(DataLine(payload)) == DATA && FieldValue(DataLine(payload)) == payload
  {
    var line := DataLine(payload);
    ColonAtIs(line, 4);
    assert line[..4] == DATA;
    assert line[5..] == [SPACE] + payload;
    assert ([SPACE] + payload)[1..] == payload;
  }

  lemma EventLineReads()
    ensures EventLine[0] != COLON && FieldName(EventLine) == EVENT && FieldValue(EventLine) == ERROR
  {
    ColonAtIs(EventLine, 5);
    assert EventLine[..5] == EVENT;
    assert EventLine[6..] == [SPACE] + ERROR;
    assert ([SPACE] + ERROR)[1..] == ERROR;
  }

  lemma DataEventLines(payload: seq<byte>)
    requires OpenLine(payload)
    ensures Lines(DataEvent(payload)) == [DataLine(payload), []] && EndsWith(DataEvent(payload), LF)
  {
    LinesOfOpen([]);
    LinesOfFirst([], LF, []);
    assert [] + [LF] + [] == [LF];
    LinesOfFirst(DataLine(payload), LF, [LF]);
    assert [DataLine(payload)] + [[]] == [DataLine(payload), []];
  }

  lemma InterpretOne(line: seq<byte>, b: Buffers)
    ensures Interpret([line], b) == Dispatched(b, line) && BuffersAfter([line], b) == Buffered(b, line)
  {
    assert [line][1..] == [];
  }

  lemma DataLinesInterpret(payload: seq<byte>, name: seq<byte>)
    ensures Interpret([DataLine(payload), []], Buffers(name, []))
            == [Event(if name == [] then MESSAGE else name, payload)]
    ensures BuffersAfter([DataLine(payload), []], Buffers(name, [])) == Fresh
  {
    var line, b, filled := DataLine(payload), Buffers(name, []), Buffers(name, payload + [LF]);
    DataLineReads(payload);
    assert [] + payload + [LF] == payload + [LF];
    assert Buffered(b, line) == filled;
    assert (payload + [LF])[..|payload|] == payload;
    InterpretOne(line, b);
    InterpretOne([], filled);
    assert [line, []] == [line] + [[]];
    InterpretConcat([line], [[]], b);
  }

  lemma DataEventInterprets(payload: seq<byte>, name: seq<byte>)
    requires OpenLine(payload)
    ensures Interpret(Lines(DataEvent(payload)), Buffers(name, [])) == [Event(if name == [] then MESSAGE else name, payload)]
    ensures BuffersAfter(Lines(DataEvent(payload)), Buffers(name, [])) == Fresh
  {
    DataEventLines(payload);
    DataLinesInterpret(payload, name);
  }

  lemma NamedEventInterprets(payload: seq<byte>)
    requires OpenLine(payload)
    ensures Interpret(Lines(EventLine + [LF] + DataEvent(payload)), Fresh) == [Event(ERROR, payload)]
  {
    LinesOfFirst(EventLine, LF, DataEvent(payload));
    EventLineReads();
    InterpretOne(EventLine, Fresh);
    InterpretConcat([EventLine], Lines(DataEvent(payload)), Fresh);
    DataEventInterprets(payload, ERROR);
  }

  lemma DoneIsOpen()
    ensures OpenLine(DONE)
  {
  }

  lemma TwoDataEvents(first: seq<byte>, second: seq<byte>)
    requires OpenLine(first) && OpenLine(second)
    ensures Interpret(Lines(DataEvent(first) + DataEvent(second)), Fresh) == [Event(MESSAGE, first), Event(MESSAGE, second)]
  {
    DataEventLines(first);
    LinesAfterLine(DataEvent(first), DataEvent(second));
    InterpretConcat(Lines(DataEvent(first)), Lines(DataEvent(second)), Fresh);
    DataEventInterprets(first, []);
    DataEventInterprets(second, []);
  }

  // ---------- splicing ----------

  /** After a blank line nothing is buffered, whatever came before. */
  lemma BlankResets(s: seq<byte>)
    ensures BuffersAfter(Lines(s + [LF, LF]), Fresh) == Fresh
  {
    var one := s + [LF];
    LinesSnoc(s, LF);
    LinesSnoc(one, LF);
    assert one + [LF] == s + [LF, LF];
    InterpretConcat(Lines(one), [[]], Fresh);
    InterpretOne([], BuffersAfter(Lines(one), Fresh));
  }

  lemma DecodedSplice(p: seq<byte>, more: seq<byte>)
    requires |p| >= |BOM| || !(BOM <= p + more)
    ensures Decoded(p + more) == Decoded(p) + more
  {
    if |p| >= |BOM| {
      assert (p + more)[..|BOM|] == p[..|BOM|];
      assert BOM <= p + more <==> BOM <= p;
      if BOM <= p { assert (p + more)[|BOM|..] == p[|BOM|..] + more; }
    }
  }

  lemma NoMarkAfter(p: seq<byte>, more: seq<byte>)
    requires |p| < |BOM| && more != [] && more[0] !in BOM
    ensures !(BOM <= p + more)
  {
    assert (p + more)[|p|] == more[0];
    assert |p| == 0 || |p| == 1 || |p| == 2;
    assert BOM[0] in BOM && BOM[1] in BOM && BOM[2] in BOM;
  }

  // What follows two line feeds is read on its own.
  lemma SpliceAfterBlank(p: seq<byte>, more: seq<byte>)
    ensures Events(p + ([LF, LF] + more)) == Events(p + [LF, LF]) + Interpret(Lines(more), Fresh)
  {
    if |p| < |BOM| {
      NoMarkAfter(p, [LF, LF]);
      NoMarkAfter(p, [LF, LF] + more);
    }
    DecodedSplice(p, [LF, LF]);
    DecodedSplice(p, [LF, LF] + more);
    var d := Decoded(p);
    BlankResets(d);
    ConcatAssoc(d, [LF, LF], more);
    LinesAfterLine(d + [LF, LF], more);
    InterpretConcat(Lines(d + [LF, LF]), Lines(more), Fresh);
  }

  /** What an error event must say to the client, protocol by protocol; `n` is the number of a Responses error. */
  ghost predicate ErrorReads(b: Bodies, protocol: Protocol, status: nat, requestId: Option<string>, n: u64,
                             events: seq<Event>) {
    match protocol
    case OpenaiChat => events == [Event(MESSAGE, b.chat(status)), Event(MESSAGE, DONE)]
    case AnthropicMessages => events == [Event(ERROR, b.anthropic(status, requestId))]
    case OpenaiResponses => events == [Event(ERROR, b.responses(status, n))]
  }

  /** `n` follows `last`: zero after nothing, otherwise one more, as long as there is one. */
  ghost predicate Successor(last: Option<u64>, n: u64) {
    match last
    case None => n == 0
    case Some(m) => n == m + 1 || (m == U64_MAX && n == U64_MAX)
  }

  /**
    Appended anywhere, in the middle of a line, after a lone carriage return or
    in the middle of an event, an error event is read as exactly its own events,
    after whatever a blank line there would have dispatched.
   */
  lemma ErrorSplices(b: Bodies, protocol: Protocol, status: nat, requestId: Option<string>, last: Option<u64>,
                     p: seq<byte>) returns (n: u64, events: seq<Event>)
    requires b.OneLine()
    ensures Events(p + ErrorEvent(b, protocol, status, requestId, last)) == Events(p + [LF, LF]) + events
    ensures ErrorReads(b, protocol, status, requestId, n, events) && Successor(last, n)
  {
    n := NextNumber(last);
    var body := ErrorBody(b, protocol, status, requestId, last);
    if protocol == OpenaiChat {
      SpliceAfterBlank(p, DataEvent(body) + DataEvent(DONE));
      DoneIsOpen();
      TwoDataEvents(body, DONE);
      events := [Event(MESSAGE, body), Event(MESSAGE, DONE)];
    } else {
      SpliceAfterBlank(p, EventLine + [LF] + DataEvent(body));
      NamedEventInterprets(body);
      events := [Event(ERROR, body)];
    }
  }

  /** `n` comes right after the numbers of a stream: above them all, and one above one of them unless it is zero. */
  ghost predicate NextAfter(parse: Parser, payloads: seq<seq<byte>>, n: nat) {
    && (forall i :: 0 <= i < |payloads| && NumberOf(parse, payloads[i]).Some? ==> NumberOf(parse, payloads[i]).value < n)
    && (n > 0 ==> exists i :: 0 <= i < |payloads| && NumberOf(parse, payloads[i]) == Some(n - 1))
  }

  /** The number of an error event comes right after those seen exactly when there is one left. */
  lemma NumberContinues(parse: Parser, payloads: seq<seq<byte>>, last: Option<u64>, n: u64)
    requires IsHighest(parse, payloads, last) && Successor(last, n)
    ensures NextAfter(parse, payloads, n) <==> last != Some(U64_MAX)
  {
    if last.Some? {
      var i :| 0 <= i < |payloads| && NumberOf(parse, payloads[i]) == last;
      assert NumberOf(parse, payloads[i]).value == last.value;
    }
  }

  // ---------- at an event boundary ----------

  lemma ItemsTail(lines: seq<seq<byte>>)
    requires lines != []
    ensures ItemsOf(lines)[1..] == ItemsOf(lines[1..]) && ItemsOf(lines)[0] == ItemOf(lines[0])
  {
  }

  // Where the observer has no event in progress, neither has the client.
  lemma {:induction false} QuietBuffers(lines: seq<seq<byte>>, b: Buffers, already: bool)
    requires !InEvent(ItemsOf(lines), already) && (!already ==> b == Fresh)
    ensures BuffersAfter(lines, b) == Fresh
    decreases |lines|
  {
    if lines != [] {
      ItemsTail(lines);
      match ItemOf(lines[0])
      case Blank => QuietBuffers(lines[1..], Buffered(b, lines[0]), false);
      case Comment => QuietBuffers(lines[1..], Buffered(b, lines[0]), already);
      case _ => QuietBuffers(lines[1..], Buffered(b, lines[0]), true);
    }
  }

  /** The stream is between events: no line open and, to the observer, no event in progress. */
  ghost predicate Quiet(s: seq<byte>) {
    Tail(s) == [] && !InEvent(ItemsOf(Lines(s)), false)
  }

  lemma MarkedTail(r: seq<byte>)
    requires Tail(BOM + r) == []
    ensures Lines(r) != [] && Tail(r) == []
  {
    var i := FirstEnd(r);
    FirstEndIs(BOM + r, |BOM| + i);
    if i < |r| { MarkedAfterEnd(r, i); }
  }

  lemma QuietIsQuiet(s: seq<byte>)
    requires Quiet(s)
    ensures BuffersAfter(Lines(Decoded(s)), Fresh) == Fresh && Tail(Decoded(s)) == []
  {
    if BOM <= s {
      var r := s[|BOM|..];
      assert s == BOM + r;
      MarkedTail(r);
      MarkedLines(r);
      var lines := Lines(r);
      MarkedFirstItem(lines[0]);
      ItemsTail(Lines(s));
      assert Lines(s)[1..] == lines[1..];
      QuietBuffers(lines[1..], Buffered(Fresh, lines[0]), true);
    } else {
      QuietBuffers(Lines(s), Fresh, false);
    }
  }

  lemma QuietDecodes(s: seq<byte>, more: seq<byte>)
    requires Quiet(s) && more != [] && more[0] !in BOM
    ensures Decoded(s + more) == Decoded(s) + more
  {
    if |s| < |BOM| { NoMarkAfter(s, more); }
    DecodedSplice(s, more);
  }

  /** Between events, anything that starts a line of its own is read on its own. */
  lemma SpliceAtBoundary(s: seq<byte>, more: seq<byte>)
    requires Quiet(s) && more != [] && more[0] !in BOM && more[0] != LF
    ensures Events(s + more) == Events(s) + Interpret(Lines(more), Fresh)
  {
    QuietDecodes(s, more);
    QuietIsQuiet(s);
    NoTail(Decoded(s));
    LinesAfterLine(Decoded(s), more);
    InterpretConcat(Lines(Decoded(s)), Lines(more), Fresh);
  }

  lemma BlankAtBoundary(s: seq<byte>)
    requires Quiet(s)
    ensures Events(s + [LF, LF]) == Events(s)
  {
    var d := Decoded(s);
    QuietDecodes(s, [LF, LF]);
    QuietIsQuiet(s);
    LinesSnoc(d, LF);
    LinesSnoc(d + [LF], LF);
    assert d + [LF] + [LF] == d + [LF, LF];
    InterpretOne([], Fresh);
    InterpretConcat(Lines(d), [[]], Fresh);
    InterpretConcat(Lines(d + [LF]), [[]], Fresh);
  }

  /** The success terminator, spliced between events, is exactly one `[DONE]` event. */
  lemma SuccessSplices(s: seq<byte>)
    requires Quiet(s)
    ensures Events(s + DataEvent(DONE)) == Events(s) + [Event(MESSAGE, DONE)]
  {
    SpliceAtBoundary(s, DataEvent(DONE));
    DoneIsOpen();
    DataEventInterprets(DONE, []);
  }

  // ---------- the finalizer ----------

  /** The bytes the finalizer appends to a stream it has watched, if any. */
  function SynthesizedTail(b: Bodies, w: Watch, broken: bool, requestId: Option<string>): Option<seq<byte>> {
    if w.protocol.None? || w.sawTerminal || w.sawError then None
    else if !w.AtEventBoundary() || w.failed then None
    else if !broken then SuccessTerminator(w.protocol.value)
    else if w.protocol == Some(OpenaiResponses) && w.lastSequence == Some(U64_MAX) then None
    else Some(ErrorEvent(b, w.protocol.value, 502, requestId, w.lastSequence))
  }

  lemma UnfinishedIsQuiet(parse: Parser, protocol: Protocol, s: seq<byte>)
    requires var w := Feed(parse, New(Some(protocol)), s);
             !w.failed && !w.sawTerminal && !w.sawError && w.AtEventBoundary()
    ensures var w := Feed(parse, New(Some(protocol)), s);
            && w.protocol == Some(protocol) && Quiet(s)
            && IsHighest(parse, Seen(s), w.lastSequence)
            && !AnyTerminal(parse, Some(protocol), Seen(s)) && !AnyError(parse, Some(protocol), Seen(s))
  {
    FeedProtocol(parse, New(Some(protocol)), s);
    var k := ObserverFollows(parse, Some(protocol), s);
    assert s[..k] == s;
  }

  /** What a tail must say to the client. */
  ghost predicate TailReads(parse: Parser, b: Bodies, protocol: Protocol, s: seq<byte>, broken: bool,
                            requestId: Option<string>, events: seq<Event>) {
    if !broken then protocol == OpenaiChat && events == [Event(MESSAGE, DONE)]
    else match protocol
      case OpenaiChat => events == [Event(MESSAGE, b.chat(502)), Event(MESSAGE, DONE)]
      case AnthropicMessages => events == [Event(ERROR, b.anthropic(502, requestId))]
      case OpenaiResponses =>
        exists n: u64 :: NextAfter(parse, Seen(s), n) && events == [Event(ERROR, b.responses(502, n))]
  }

  /**
    Whatever the finalizer appends, the client reads the events it had and then
    only those of the tail: one `[DONE]` after a clean end, the protocol's error
    after a broken one, numbered right after all the stream has used. It appends
    only to a stream that named no terminal and no error.
   */
  lemma TailIsItsOwn(parse: Parser, b: Bodies, protocol: Protocol, s: seq<byte>, broken: bool,
                     requestId: Option<string>) returns (events: seq<Event>)
    requires b.OneLine()
    requires SynthesizedTail(b, Feed(parse, New(Some(protocol)), s), broken, requestId).Some?
    ensures var tail := SynthesizedTail(b, Feed(parse, New(Some(protocol)), s), broken, requestId).value;
            && Events(s + tail) == Events(s) + events
            && TailReads(parse, b, protocol, s, broken, requestId, events)
            && !AnyTerminal(parse, Some(protocol), Seen(s)) && !AnyError(parse, Some(protocol), Seen(s))
  {
    var w := Feed(parse, New(Some(protocol)), s);
    UnfinishedIsQuiet(parse, protocol, s);
    if broken {
      var n;
      n, events := ErrorSplices(b, protocol, 502, requestId, w.lastSequence, s);
      BlankAtBoundary(s);
      NumberContinues(parse, Seen(s), w.lastSequence, n);
    } else {
      SuccessSplices(s);
      events := [Event(MESSAGE, DONE)];
    }
  }

  /** The stream used the last number there is. */
  ghost predicate NumbersSpent(parse: Parser, payloads: seq<seq<byte>>) {
    exists i :: 0 <= i < |payloads| && NumberOf(parse, payloads[i]) == Some(U64_MAX)
  }

  lemma SpentIff(parse: Parser, payloads: seq<seq<byte>>, last: Option<u64>)
    requires IsHighest(parse, payloads, last)
    ensures last == Some(U64_MAX) <==> NumbersSpent(parse, payloads)
  {
    if NumbersSpent(parse, payloads) {
      var i :| 0 <= i < |payloads| && NumberOf(parse, payloads[i]) == Some(U64_MAX);
    }
  }

  /**
    A stream gets a tail exactly when no event of it was too large to follow, it
    stopped between events without a terminal or an error, and the protocol has
    one to give: the marker of a chat that ended cleanly, or an error that can be
    numbered.
   */
  lemma TailExactlyWhen(parse: Parser, b: Bodies, protocol: Protocol, s: seq<byte>, broken: bool,
                        requestId: Option<string>)
    ensures SynthesizedTail(b, Feed(parse, New(Some(protocol)), s), broken, requestId).Some?
            <==> && !Overflows(parse, Some(protocol), s) && Quiet(s)
                 && !AnyTerminal(parse, Some(protocol), Seen(s)) && !AnyError(parse, Some(protocol), Seen(s))
                 && (if broken then protocol != OpenaiResponses || !NumbersSpent(parse, Seen(s)) else protocol == OpenaiChat)
  {
    FailsExactly(parse, Some(protocol), s);
    if !Overflows(parse, Some(protocol), s) { TailUnlessOverflow(parse, b, protocol, s, broken, requestId); }
  }

  lemma TailUnlessOverflow(parse: Parser, b: Bodies, protocol: Protocol, s: seq<byte>, broken: bool,
                           requestId: Option<string>)
    requires !Overflows(parse, Some(protocol), s)
    ensures SynthesizedTail(b, Feed(parse, New(Some(protocol)), s), broken, requestId).Some?
            <==> && Quiet(s) && !AnyTerminal(parse, Some(protocol), Seen(s)) && !AnyError(parse, Some(protocol), Seen(s))
                 && (if broken then protocol != OpenaiResponses || !NumbersSpent(parse, Seen(s)) else protocol == OpenaiChat)
  {
    var w := Feed(parse, New(Some(protocol)), s);
    FailsExactly(parse, Some(protocol), s);
    FeedProtocol(parse, New(Some(protocol)), s);
    AnswersAreTheStreams(parse, Some(protocol), s);
    var k := ObserverFollows(parse, Some(protocol), s);
    if !w.Done() {
      assert s[..k] == s;
      SpentIff(parse, Seen(s), w.lastSequence);
    }
  }

  /** The part of the receipt finalizer that ends a stream: it watches what is sent and appends a tail at most once. */
  class StreamEnd {
    const bodies: Bodies
    const requestId: Option<string>
    const observer: SseFramingObserver
    var settled: bool
    var broken: bool

    constructor (parse: Parser, protocol: Option<Protocol>, bodies: Bodies, requestId: Option<string>)
      ensures observer.View() == New(protocol) && observer.parse == parse && fresh(observer)
      ensures this.bodies == bodies && this.requestId == requestId && !settled && !broken
    {
      this.bodies, this.requestId, settled, broken := bodies, requestId, false, false;
      observer := new SseFramingObserver(parse, protocol);
    }

    method TakeSynthesizedTail() returns (tail: Option<seq<byte>>)
      modifies this`settled
      ensures settled
      ensures tail == if old(settled) then None else SynthesizedTail(bodies, observer.View(), broken, requestId)
    {
      var already := settled;
      settled := true;
      if already { return None; }
      if observer.protocol.None? { return None; }
      if observer.sawTerminal || observer.sawError { return None; }
      if observer.lineBuffer != [] || observer.midEvent || observer.failed { return None; }
      if !broken { return SuccessTerminator(observer.protocol.value); }
      if observer.protocol == Some(OpenaiResponses) && observer.lastSequence == Some(U64_MAX) { return None; }
      return Some(ErrorEvent(bodies, observer.protocol.value, 502, requestId, observer.lastSequence));
    }
  }
}
