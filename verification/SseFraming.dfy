/**
  The framing observer (src/sse_framing.rs): it reads a stream byte by byte as it
  flows past and answers how the stream ended. JSON parsing is a function from a
  payload to the facts the observer looks at.
 */
module SseFraming {
  import opened Foundation
  import opened EventStream

  datatype Protocol = OpenaiChat | OpenaiResponses | AnthropicMessages

  /** What one JSON payload says; `fault` is any error mark other than the event's own type. */
  datatype Facts = Facts(id: Option<string>, model: Option<string>, kind: Option<string>, sequence: Option<u64>, fault: bool)

  type Parser = seq<byte> -> Option<Facts>

  const CAP: nat := 16 * 1024 * 1024
  const DATA_COLON: seq<byte> := [100, 97, 116, 97, 58]   // data:
  const DONE: seq<byte> := [91, 68, 79, 78, 69, 93]       // [DONE]

  // ---------- what a payload means ----------

  /** The facts of a payload; the chat sentinel carries none. */
  function Known(parse: Parser, payload: seq<byte>): Option<Facts> {
    if payload == DONE then None else parse(payload)
  }

  /** The payload ends a stream of the protocol well: `[DONE]` for chat, an event of the right type for the others. */
  predicate IsTerminal(parse: Parser, protocol: Option<Protocol>, payload: seq<byte>) {
    var f := Known(parse, payload);
    match protocol
    case None => false
    case Some(OpenaiChat) => payload == DONE
    case Some(AnthropicMessages) => f.Some? && f.value.kind == Some("message_stop")
    case Some(OpenaiResponses) =>
      f.Some? && f.value.kind in {Some("response.completed"), Some("response.incomplete"), Some("response.failed")}
  }

  predicate IsError(parse: Parser, protocol: Option<Protocol>, payload: seq<byte>) {
    && protocol.Some? && Known(parse, payload).Some?
    && var f := Known(parse, payload).value;
       f.fault || f.kind == Some("error") || f.kind == Some("response.failed")
  }

  /** The first id any payload names. */
  function FirstId(parse: Parser, payloads: seq<seq<byte>>): Option<string> {
    if payloads == [] then None
    else
      var f := Known(parse, payloads[0]);
      if f.Some? && f.value.id.Some? then f.value.id else FirstId(parse, payloads[1..])
  }

  function FirstModel(parse: Parser, payloads: seq<seq<byte>>): Option<string> {
    if payloads == [] then None
    else
      var f := Known(parse, payloads[0]);
      if f.Some? && f.value.model.Some? then f.value.model else FirstModel(parse, payloads[1..])
  }

  ghost predicate AnyTerminal(parse: Parser, protocol: Option<Protocol>, payloads: seq<seq<byte>>) {
    exists i :: 0 <= i < |payloads| && IsTerminal(parse, protocol, payloads[i])
  }

  ghost predicate AnyError(parse: Parser, protocol: Option<Protocol>, payloads: seq<seq<byte>>) {
    exists i :: 0 <= i < |payloads| && IsError(parse, protocol, payloads[i])
  }

  function NumberOf(parse: Parser, payload: seq<byte>): Option<u64> {
    var f := Known(parse, payload);
    if f.Some? then f.value.sequence else None
  }

  /** `highest` is the largest number among the payloads, if any has one. */
  ghost predicate IsHighest(parse: Parser, payloads: seq<seq<byte>>, highest: Option<u64>) {
    && (highest.Some? ==> exists i :: 0 <= i < |payloads| && NumberOf(parse, payloads[i]) == highest)
    && (forall i :: 0 <= i < |payloads| && NumberOf(parse, payloads[i]).Some?
                    ==> highest.Some? && NumberOf(parse, payloads[i]).value <= highest.value)
  }

  // ---------- the observer's steps ----------

  datatype Watch = Watch(
    lineBuffer: seq<byte>, eventData: seq<byte>, pendingCr: bool,
    chatId: Option<string>, modelId: Option<string>, protocol: Option<Protocol>,
    sawTerminal: bool, sawError: bool, midEvent: bool, lastSequence: Option<u64>, failed: bool)
  {
    predicate Done() {
      failed || (chatId.Some? && modelId.Some? && (protocol.None? || sawTerminal || sawError))
    }

    predicate AtEventBoundary() {
      lineBuffer == [] && !midEvent
    }
  }

  function New(protocol: Option<Protocol>): Watch {
    Watch([], [], false, None, None, protocol, false, false, false, None, false)
  }

  function Higher(a: Option<u64>, b: Option<u64>): Option<u64> {
    if a.None? then b else if b.None? then a else Some(Max(a.value, b.value))
  }

  /** The event type that ends a stream of the protocol; a chat has none. */
  predicate EndsProtocol(protocol: Protocol, kind: Option<string>) {
    match protocol
    case OpenaiChat => false
    case AnthropicMessages => kind == Some("message_stop")
    case OpenaiResponses =>
      kind == Some("response.completed") || kind == Some("response.incomplete") || kind == Some("response.failed")
  }

  function LearnEnd(w: Watch, f: Facts): Watch {
    w.(lastSequence := Higher(w.lastSequence, f.sequence),
       sawTerminal := w.sawTerminal || (w.protocol.Some? && EndsProtocol(w.protocol.value, f.kind)),
       sawError := w.sawError
                   || (w.protocol.Some? && (f.fault || f.kind == Some("error") || f.kind == Some("response.failed"))))
  }

  /** Learning from one dispatched payload. */
  function Learn(parse: Parser, w: Watch, payload: seq<byte>): Watch {
    if payload == DONE then w.(sawTerminal := w.sawTerminal || w.protocol == Some(OpenaiChat))
    else match parse(payload)
      case None => w
      case Some(f) =>
        LearnEnd(w, f).(chatId := if w.chatId.None? then f.id else w.chatId,
                        modelId := if w.modelId.None? then f.model else w.modelId)
  }

  function Dispatch(parse: Parser, w: Watch): Watch {
    if w.eventData == [] then w else Learn(parse, w.(eventData := []), w.eventData[..|w.eventData| - 1])
  }

  /** The observer's reading of a line. */
  function ItemOf(line: seq<byte>): Item {
    if line == [] then Blank
    else if line[0] == COLON then Comment
    else if DATA_COLON <= line then Data(Unpadded(line[|DATA_COLON|..]))
    else Field
  }

  function TakeLine(parse: Parser, w: Watch, line: seq<byte>): Watch {
    match ItemOf(line)
    case Blank => Dispatch(parse, w).(midEvent := false)
    case Comment => w
    case Field => w.(midEvent := true)
    case Data(value) => w.(midEvent := true, eventData := w.eventData + value + [LF])
  }

  /** One byte that is not the second half of CRLF, before the buffers are measured. */
  function Take(parse: Parser, w: Watch, b: byte): Watch {
    if Ends(b) then TakeLine(parse, w.(pendingCr := b == CR, lineBuffer := []), w.lineBuffer)
    else w.(pendingCr := false, lineBuffer := w.lineBuffer + [b])
  }

  function Capped(w: Watch): Watch {
    if |w.lineBuffer| + |w.eventData| > CAP then w.(failed := true, lineBuffer := [], eventData := []) else w
  }

  function Step(parse: Parser, w: Watch, b: byte): Watch {
    if w.pendingCr && b == LF then w.(pendingCr := false)
    else
      var t := Take(parse, w, b);
      if t.Done() then t else Capped(t)
  }

  /** Reading on until nothing is left to learn. */
  function Feed(parse: Parser, w: Watch, bytes: seq<byte>): Watch
    decreases |bytes|
  {
    if w.Done() || bytes == [] then w else Feed(parse, Step(parse, w, bytes[0]), bytes[1..])
  }

  lemma {:induction false} FeedConcat(parse: Parser, w: Watch, a: seq<byte>, b: seq<byte>)
    ensures Feed(parse, w, a + b) == Feed(parse, Feed(parse, w, a), b)
    decreases |a|
  {
    if a == [] {
      assert a + b == b;
    } else if w.Done() {
      FeedDone(parse, w, b);
    } else {
      assert (a + b)[1..] == a[1..] + b;
      FeedConcat(parse, Step(parse, w, a[0]), a[1..], b);
    }
  }

  lemma FeedDone(parse: Parser, w: Watch, bytes: seq<byte>)
    requires w.Done()
    ensures Feed(parse, w, bytes) == w
  {
  }

  function Joined(chunks: seq<seq<byte>>): seq<byte> {
    if chunks == [] then [] else chunks[0] + Joined(chunks[1..])
  }

  function FeedChunks(parse: Parser, w: Watch, chunks: seq<seq<byte>>): Watch
    decreases |chunks|
  {
    if chunks == [] then w else FeedChunks(parse, Feed(parse, w, chunks[0]), chunks[1..])
  }

  /** However the stream is cut into chunks, the observer ends in the same state. */
  lemma {:induction false} ChunksDoNotMatter(parse: Parser, w: Watch, chunks: seq<seq<byte>>)
    ensures FeedChunks(parse, w, chunks) == Feed(parse, w, Joined(chunks))
    decreases |chunks|
  {
    if chunks != [] {
      FeedConcat(parse, w, chunks[0], Joined(chunks[1..]));
      ChunksDoNotMatter(parse, Feed(parse, w, chunks[0]), chunks[1..]);
    }
  }

  // ---------- the observer in place ----------

  class SseFramingObserver {
    const parse: Parser
    var lineBuffer: seq<byte>
    var eventData: seq<byte>
    var pendingCr: bool
    var chatId: Option<string>
    var modelId: Option<string>
    const protocol: Option<Protocol>
    var sawTerminal: bool
    var sawError: bool
    var midEvent: bool
    var lastSequence: Option<u64>
    var failed: bool

    function View(): Watch
      reads this
    {
      Watch(lineBuffer, eventData, pendingCr, chatId, modelId, protocol, sawTerminal, sawError, midEvent, lastSequence, failed)
    }

    constructor (parse: Parser, protocol: Option<Protocol>)
      ensures View() == New(protocol) && this.parse == parse
    {
      this.parse, this.protocol := parse, protocol;
      lineBuffer, eventData, pendingCr := [], [], false;
      chatId, modelId, lastSequence := None, None, None;
      sawTerminal, sawError, midEvent, failed := false, false, false, false;
    }

    predicate Finished()
      reads this
    {
      View().Done()
    }

    method Observe(chunk: seq<byte>)
      modifies this
      ensures View() == Feed(parse, old(View()), chunk)
    {
      if Finished() { return; }
      var i := 0;
      while i < |chunk|
        invariant i <= |chunk|
        invariant Feed(parse, View(), chunk[i..]) == Feed(parse, old(View()), chunk)
      {
        assert chunk[i..][1..] == chunk[i + 1..];
        if Finished() { return; }
        ObserveByte(chunk[i]);
        i := i + 1;
      }
    }

    method ObserveByte(b: byte)
      requires !Finished()
      modifies this
      ensures View() == Step(parse, old(View()), b)
    {
      var wasPendingCr := pendingCr;
      pendingCr := false;
      if wasPendingCr && b == LF { return; }
      if b == CR || b == LF {
        pendingCr := b == CR;
        var line := lineBuffer;
        lineBuffer := [];
        ObserveLine(line);
        if Finished() { return; }
      } else {
        lineBuffer := lineBuffer + [b];
      }
      if |lineBuffer| + |eventData| > CAP {
        failed := true;
        lineBuffer, eventData := [], [];
      }
    }

    method ObserveLine(line: seq<byte>)
      modifies this
      ensures View() == TakeLine(parse, old(View()), line)
    {
      if line == [] {
        DispatchEvent();
        midEvent := false;
        return;
      }
      if line[0] == COLON { return; }
      midEvent := true;
      if !(DATA_COLON <= line) { return; }
      var rest := line[|DATA_COLON|..];
      var data := if rest != [] && rest[0] == SPACE then rest[1..] else rest;
      eventData := eventData + data;
      eventData := eventData + [LF];
    }

    method DispatchEvent()
      modifies this
      ensures View() == Dispatch(parse, old(View()))
    {
      if eventData == [] { return; }
      var data := eventData;
      eventData := [];
      data := data[..|data| - 1];
      if data == DONE {
        sawTerminal := sawTerminal || protocol == Some(OpenaiChat);
        return;
      }
      var parsed := parse(data);
      if parsed.None? { return; }
      ObserveTerminal(parsed.value);
      if chatId.None? { chatId := parsed.value.id; }
      if modelId.None? { modelId := parsed.value.model; }
    }

    method ObserveTerminal(f: Facts)
      modifies this`lastSequence, this`sawTerminal, this`sawError
      ensures View() == LearnEnd(old(View()), f)
    {
      if f.sequence.Some? {
        lastSequence := Some(if lastSequence.Some? then Max(lastSequence.value, f.sequence.value) else f.sequence.value);
      }
      if protocol.None? { return; }
      sawTerminal := sawTerminal || EndsProtocol(protocol.value, f.kind);
      sawError := sawError || f.kind == Some("error") || f.fault || f.kind == Some("response.failed");
    }
  }
}
