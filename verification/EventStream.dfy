/**
  The event streams a client reads: sections 9.2.5 (parsing an event stream) and
  9.2.6 (interpreting an event stream) of the WHATWG HTML standard, on bytes.
  Ids and reconnection times are left out; they change no event's data or type.
 */
module EventStream {
  import opened Foundation

  const SPACE: byte := 32
  const COLON: byte := 58
  const DATA: seq<byte> := [100, 97, 116, 97]              // data
  const EVENT: seq<byte> := [101, 118, 101, 110, 116]      // event
  const MESSAGE: seq<byte> := [109, 101, 115, 115, 97, 103, 101] // message
  const BOM: seq<byte> := [0xEF, 0xBB, 0xBF]

  // ---------- lines ----------

  predicate Ends(b: byte) {
    b == CR || b == LF
  }

  /** The offset of the first line terminator, or the length. */
  function FirstEnd(s: seq<byte>): (i: nat)
    ensures i <= |s| && (i < |s| ==> Ends(s[i])) && forall j :: 0 <= j < i ==> !Ends(s[j])
  {
    if s == [] || Ends(s[0]) then 0 else 1 + FirstEnd(s[1..])
  }

  /** What follows the terminator at `i`: CRLF is one terminator, and so are LF and CR alone. */
  function AfterEnd(s: seq<byte>, i: nat): (rest: seq<byte>)
    requires i < |s|
    ensures |rest| < |s|
  {
    if s[i] == CR && i + 1 < |s| && s[i + 1] == LF then s[i + 2..] else s[i + 1..]
  }

  /** The lines that are terminated. */
  function Lines(s: seq<byte>): seq<seq<byte>>
    decreases |s|
  {
    var i := FirstEnd(s);
    if i == |s| then [] else [s[..i]] + Lines(AfterEnd(s, i))
  }

  /** The line still open at the end. */
  function Tail(s: seq<byte>): seq<byte>
    decreases |s|
  {
    var i := FirstEnd(s);
    if i == |s| then s else Tail(AfterEnd(s, i))
  }

  predicate EndsWith(s: seq<byte>, b: byte) {
    s != [] && s[|s| - 1] == b
  }

  lemma FirstEndIs(s: seq<byte>, i: nat)
    requires i <= |s| && (i < |s| ==> Ends(s[i])) && forall j :: 0 <= j < i ==> !Ends(s[j])
    ensures FirstEnd(s) == i
  {
  }

  lemma LinesOfOpen(s: seq<byte>)
    requires forall j :: 0 <= j < |s| ==> !Ends(s[j])
    ensures Lines(s) == [] && Tail(s) == s
  {
    FirstEndIs(s, |s|);
  }

  lemma LinesOfFirst(line: seq<byte>, b: byte, rest: seq<byte>)
    requires (forall j :: 0 <= j < |line| ==> !Ends(line[j])) && Ends(b) && !(b == CR && rest != [] && rest[0] == LF)
    ensures Lines(line + [b] + rest) == [line] + Lines(rest) && Tail(line + [b] + rest) == Tail(rest)
  {
    var s := line + [b] + rest;
    FirstEndIs(s, |line|);
    assert s[..|line|] == line && s[|line| + 1..] == rest;
  }

  lemma LinesOfCrLf(line: seq<byte>, rest: seq<byte>)
    requires forall j :: 0 <= j < |line| ==> !Ends(line[j])
    ensures Lines(line + [CR, LF] + rest) == [line] + Lines(rest) && Tail(line + [CR, LF] + rest) == Tail(rest)
  {
    var s := line + [CR, LF] + rest;
    FirstEndIs(s, |line|);
    assert s[..|line|] == line && s[|line| + 2..] == rest;
  }

  /** A line feed right after a carriage return ends no line of its own. */
  predicate Absorbed(s: seq<byte>, b: byte) {
    b == LF && EndsWith(s, CR)
  }

  /** How one more byte changes the lines. */
  lemma {:induction false} LinesSnoc(s: seq<byte>, b: byte)
    ensures Absorbed(s, b) ==> Lines(s + [b]) == Lines(s) && Tail(s + [b]) == Tail(s) == []
    ensures !Absorbed(s, b) && Ends(b) ==> Lines(s + [b]) == Lines(s) + [Tail(s)] && Tail(s + [b]) == []
    ensures !Ends(b) ==> Lines(s + [b]) == Lines(s) && Tail(s + [b]) == Tail(s) + [b]
    decreases |s|
  {
    var i := FirstEnd(s);
    if i == |s| {
      LinesSnocOpen(s, b);
    } else {
      var rest := AfterEnd(s, i);
      if rest == [] {
        LinesSnocClosed(s, i, b);
        LinesSnocOpen([], b);
        assert [] + [b] == [b];
      } else {
        AfterEndConcat(s, i, [b]);
        AfterEndLast(s, i, CR);
        DropConcat(s, i, [b]);
        LinesUnfold(s, i);
        LinesUnfold(s + [b], i);
        LinesSnoc(rest, b);
      }
    }
  }

  lemma LinesSnocOpen(s: seq<byte>, b: byte)
    requires FirstEnd(s) == |s|
    ensures Lines(s) == [] && Tail(s) == s
    ensures Ends(b) ==> Lines(s + [b]) == [s] && Tail(s + [b]) == []
    ensures !Ends(b) ==> Lines(s + [b]) == [] && Tail(s + [b]) == s + [b]
  {
    LinesOfOpen(s);
    LinesOfOpen([]);
    if Ends(b) {
      LinesOfFirst(s, b, []);
      assert s + [b] + [] == s + [b];
    } else {
      LinesOfOpen(s + [b]);
    }
  }

  // The whole of `s` is one terminated line.
  lemma LinesSnocClosed(s: seq<byte>, i: nat, b: byte)
    requires i == FirstEnd(s) < |s| && AfterEnd(s, i) == []
    ensures Lines(s) == [s[..i]] && Tail(s) == []
    ensures Absorbed(s, b) ==> Lines(s + [b]) == [s[..i]] && Tail(s + [b]) == []
    ensures !Absorbed(s, b) ==> Lines(s + [b]) == [s[..i]] + Lines([b]) && Tail(s + [b]) == Tail([b])
  {
    LinesClosed(s, i);
    if |s| == i + 2 {
      SnocCrLf(s, i, b);
    } else if Absorbed(s, b) {
      SnocAbsorbed(s, i, b);
    } else {
      SnocOther(s, i, b);
    }
  }

  lemma LinesClosed(s: seq<byte>, i: nat)
    requires i == FirstEnd(s) < |s| && AfterEnd(s, i) == []
    ensures Lines(s) == [s[..i]] && Tail(s) == []
  {
    LinesOfOpen([]);
    LinesUnfold(s, i);
  }

  lemma OpenBefore(s: seq<byte>, i: nat)
    requires i == FirstEnd(s)
    ensures forall j :: 0 <= j < |s[..i]| ==> !Ends(s[..i][j])
  {
  }

  lemma SnocCrLf(s: seq<byte>, i: nat, b: byte)
    requires i == FirstEnd(s) && |s| == i + 2 && s[i] == CR && s[i + 1] == LF
    ensures Lines(s + [b]) == [s[..i]] + Lines([b]) && Tail(s + [b]) == Tail([b])
  {
    ClosedByCrLf(s, i, b);
    OpenBefore(s, i);
    LinesOfCrLf(s[..i], [b]);
  }

  lemma SnocAbsorbed(s: seq<byte>, i: nat, b: byte)
    requires i == FirstEnd(s) && |s| == i + 1 && s[i] == CR && b == LF
    ensures Lines(s + [b]) == [s[..i]] && Tail(s + [b]) == []
  {
    ClosedByCr(s, i, b);
    OpenBefore(s, i);
    LinesOfCrLf(s[..i], []);
    LinesOfOpen([]);
  }

  lemma SnocOther(s: seq<byte>, i: nat, b: byte)
    requires i == FirstEnd(s) && |s| == i + 1 && !(s[i] == CR && b == LF)
    ensures Lines(s + [b]) == [s[..i]] + Lines([b]) && Tail(s + [b]) == Tail([b])
  {
    ClosedByOne(s, i, b);
    OpenBefore(s, i);
    LinesOfFirst(s[..i], s[i], [b]);
  }

  lemma ClosedByCrLf(s: seq<byte>, i: nat, b: byte)
    requires |s| == i + 2 && s[i] == CR && s[i + 1] == LF
    ensures s + [b] == s[..i] + [CR, LF] + [b]
  {
  }

  lemma ClosedByCr(s: seq<byte>, i: nat, b: byte)
    requires |s| == i + 1 && s[i] == CR && b == LF
    ensures s + [b] == s[..i] + [CR, LF] + []
  {
  }

  lemma ClosedByOne(s: seq<byte>, i: nat, b: byte)
    requires |s| == i + 1
    ensures s + [b] == s[..i] + [s[i]] + [b]
  {
  }

  lemma AfterEndConcat(s: seq<byte>, i: nat, more: seq<byte>)
    requires i == FirstEnd(s) < |s| && (AfterEnd(s, i) == [] ==> Between(s, more))
    ensures FirstEnd(s + more) == i && AfterEnd(s + more, i) == AfterEnd(s, i) + more
  {
    FirstEndIs(s + more, i);
    var k := if s[i] == CR && i + 1 < |s| && s[i + 1] == LF then i + 2 else i + 1;
    DropConcat(s, k, more);
  }

  lemma DropConcat(s: seq<byte>, k: nat, more: seq<byte>)
    requires k <= |s|
    ensures (s + more)[k..] == s[k..] + more && (s + more)[..k] == s[..k]
  {
  }

  lemma DropLast(s: seq<byte>, k: nat)
    requires k < |s|
    ensures s[k..] != [] && s[k..][|s[k..]| - 1] == s[|s| - 1]
  {
  }

  lemma AfterEndLast(s: seq<byte>, i: nat, b: byte)
    requires i == FirstEnd(s) < |s| && AfterEnd(s, i) != []
    ensures EndsWith(AfterEnd(s, i), b) == EndsWith(s, b)
  {
    if s[i] == CR && i + 1 < |s| && s[i + 1] == LF { DropLast(s, i + 2); } else { DropLast(s, i + 1); }
  }

  lemma Shift(s: seq<byte>, more: seq<byte>)
    requires more != []
    ensures s + more == s + [more[0]] + more[1..]
  {
  }

  lemma PrefixTrans<T>(a: seq<T>, b: seq<T>, d: seq<T>)
    requires a <= b <= d
    ensures a <= d
  {
  }

  lemma {:induction false} LinesPrefix(s: seq<byte>, more: seq<byte>)
    ensures Lines(s) <= Lines(s + more)
    decreases |more|
  {
    if more == [] {
      assert s + more == s;
    } else {
      LinesSnoc(s, more[0]);
      LinesPrefix(s + [more[0]], more[1..]);
      Shift(s, more);
      PrefixTrans(Lines(s), Lines(s + [more[0]]), Lines(s + more));
    }
  }

  lemma LinesUnfold(s: seq<byte>, i: nat)
    requires i == FirstEnd(s) < |s|
    ensures Lines(s) == [s[..i]] + Lines(AfterEnd(s, i)) && Tail(s) == Tail(AfterEnd(s, i))
  {
  }

  /** No line is open at the end of `s`, and `more` does not complete its last terminator. */
  predicate Between(s: seq<byte>, more: seq<byte>) {
    s == [] || EndsWith(s, LF) || (EndsWith(s, CR) && (more == [] || more[0] != LF))
  }

  lemma BetweenRest(s: seq<byte>, i: nat, more: seq<byte>)
    requires Between(s, more) && i == FirstEnd(s) < |s|
    ensures Between(AfterEnd(s, i), more)
  {
    if AfterEnd(s, i) != [] {
      AfterEndLast(s, i, LF);
      AfterEndLast(s, i, CR);
    }
  }

  lemma BetweenHasEnd(s: seq<byte>, more: seq<byte>)
    requires Between(s, more) && s != []
    ensures FirstEnd(s) < |s|
  {
  }

  /** There, lines start afresh. */
  lemma {:induction false} LinesAfterLine(s: seq<byte>, more: seq<byte>)
    requires Between(s, more)
    ensures Lines(s + more) == Lines(s) + Lines(more) && Tail(s + more) == Tail(more)
    decreases |s|
  {
    if s == [] {
      LinesOfOpen([]);
      assert s + more == more;
    } else {
      var i := FirstEnd(s);
      BetweenHasEnd(s, more);
      var rest := AfterEnd(s, i);
      BetweenRest(s, i, more);
      AfterEndConcat(s, i, more);
      LinesAfterLine(rest, more);
      LinesUnfold(s, i);
      LinesUnfold(s + more, i);
      DropConcat(s, i, more);
      ConcatAssoc([s[..i]], Lines(rest), Lines(more));
    }
  }

  lemma {:induction false} NoTail(s: seq<byte>)
    ensures Tail(s) == [] <==> s == [] || EndsWith(s, LF) || EndsWith(s, CR)
  {
    if s == [] {
      LinesOfOpen([]);
    } else {
      LinesSnoc(s[..|s| - 1], s[|s| - 1]);
      SplitLast(s);
    }
  }

  lemma SplitLast(s: seq<byte>)
    requires s != []
    ensures s == s[..|s| - 1] + [s[|s| - 1]]
  {
  }

  // ---------- events ----------

  datatype Event = Event(name: seq<byte>, data: seq<byte>)

  /** The event type buffer and the data buffer. */
  datatype Buffers = Buffers(name: seq<byte>, data: seq<byte>)

  const Fresh := Buffers([], [])

  /** The offset of the first colon, or the length. */
  function ColonAt(line: seq<byte>): (i: nat)
    ensures i <= |line| && (i < |line| ==> line[i] == COLON) && forall j :: 0 <= j < i ==> line[j] != COLON
  {
    if line == [] || line[0] == COLON then 0 else 1 + ColonAt(line[1..])
  }

  function Unpadded(value: seq<byte>): seq<byte> {
    if value != [] && value[0] == SPACE then value[1..] else value
  }

  function FieldName(line: seq<byte>): seq<byte> {
    line[..ColonAt(line)]
  }

  function FieldValue(line: seq<byte>): seq<byte> {
    if ColonAt(line) == |line| then [] else Unpadded(line[ColonAt(line) + 1..])
  }

  function Buffered(b: Buffers, line: seq<byte>): Buffers {
    if line == [] then Fresh
    else if line[0] == COLON then b
    else if FieldName(line) == EVENT then b.(name := FieldValue(line))
    else if FieldName(line) == DATA then b.(data := b.data + FieldValue(line) + [LF])
    else b
  }

  /** A blank line dispatches what was buffered, unless there is no data. */
  function Dispatched(b: Buffers, line: seq<byte>): seq<Event> {
    if line == [] && b.data != [] then [Event(if b.name == [] then MESSAGE else b.name, b.data[..|b.data| - 1])] else []
  }

  function Interpret(lines: seq<seq<byte>>, b: Buffers): seq<Event> {
    if lines == [] then [] else Dispatched(b, lines[0]) + Interpret(lines[1..], Buffered(b, lines[0]))
  }

  function BuffersAfter(lines: seq<seq<byte>>, b: Buffers): Buffers {
    if lines == [] then b else BuffersAfter(lines[1..], Buffered(b, lines[0]))
  }

  /** Decoding drops one leading byte order mark. */
  function Decoded(s: seq<byte>): seq<byte> {
    if BOM <= s then s[|BOM|..] else s
  }

  /** The events a client dispatches for the stream `s`. */
  function Events(s: seq<byte>): seq<Event> {
    Interpret(Lines(Decoded(s)), Fresh)
  }

  lemma {:induction false} InterpretConcat(a: seq<seq<byte>>, d: seq<seq<byte>>, b: Buffers)
    ensures Interpret(a + d, b) == Interpret(a, b) + Interpret(d, BuffersAfter(a, b))
    ensures BuffersAfter(a + d, b) == BuffersAfter(d, BuffersAfter(a, b))
  {
    if a == [] {
      assert a + d == d;
    } else {
      var next := Buffered(b, a[0]);
      InterpretConcat(a[1..], d, next);
      TailConcat(a, d);
      ConcatAssoc(Dispatched(b, a[0]), Interpret(a[1..], next), Interpret(d, BuffersAfter(a[1..], next)));
    }
  }

  lemma TailConcat<T>(a: seq<T>, d: seq<T>)
    requires a != []
    ensures a + d != [] && (a + d)[0] == a[0] && (a + d)[1..] == a[1..] + d
  {
  }

  lemma ColonAtIs(line: seq<byte>, i: nat)
    requires i <= |line| && (i < |line| ==> line[i] == COLON) && forall j :: 0 <= j < i ==> line[j] != COLON
    ensures ColonAt(line) == i
  {
  }

  // ---------- the data of a stream ----------

  /** What a line is to a reader that only follows the data. */
  datatype Item = Blank | Comment | Field | Data(value: seq<byte>)

  function StandardItem(line: seq<byte>): Item {
    if line == [] then Blank
    else if line[0] == COLON then Comment
    else if FieldName(line) == DATA then Data(FieldValue(line))
    else Field
  }

  function StandardItems(lines: seq<seq<byte>>): (items: seq<Item>)
    ensures |items| == |lines|
  {
    seq(|lines|, i requires 0 <= i < |lines| => StandardItem(lines[i]))
  }

  function Pending(items: seq<Item>, data: seq<byte>): seq<byte> {
    if items == [] then data
    else match items[0]
      case Blank => Pending(items[1..], [])
      case Data(value) => Pending(items[1..], data + value + [LF])
      case _ => Pending(items[1..], data)
  }

  /** The data of the events dispatched, starting with `data` in the buffer. */
  function Payloads(items: seq<Item>, data: seq<byte>): seq<seq<byte>> {
    if items == [] then []
    else match items[0]
      case Blank => (if data == [] then [] else [data[..|data| - 1]]) + Payloads(items[1..], [])
      case Data(value) => Payloads(items[1..], data + value + [LF])
      case _ => Payloads(items[1..], data)
  }

  /** Some field was read since the last blank line. */
  predicate InEvent(items: seq<Item>, already: bool) {
    if items == [] then already
    else match items[0]
      case Blank => InEvent(items[1..], false)
      case Comment => InEvent(items[1..], already)
      case _ => InEvent(items[1..], true)
  }

  function DataOf(events: seq<Event>): (payloads: seq<seq<byte>>)
    ensures |payloads| == |events|
  {
    seq(|events|, i requires 0 <= i < |events| => events[i].data)
  }

  lemma {:induction false} PayloadsSnoc(items: seq<Item>, data: seq<byte>, item: Item)
    ensures Payloads(items + [item], data)
            == Payloads(items, data) + (if item.Blank? && Pending(items, data) != []
                                        then [Pending(items, data)[..|Pending(items, data)| - 1]] else [])
    ensures Pending(items + [item], data)
            == match item
               case Blank => []
               case Data(value) => Pending(items, data) + value + [LF]
               case _ => Pending(items, data)
    decreases |items|
  {
    if items == [] {
      assert items + [item] == [item] && [item][1..] == [];
    } else {
      assert (items + [item])[1..] == items[1..] + [item];
      match items[0]
      case Blank => PayloadsSnoc(items[1..], [], item);
      case Data(value) => PayloadsSnoc(items[1..], data + value + [LF], item);
      case _ => PayloadsSnoc(items[1..], data, item);
    }
  }

  lemma {:induction false} InEventSnoc(items: seq<Item>, already: bool, item: Item)
    ensures InEvent(items + [item], already) == (!item.Blank? && (InEvent(items, already) || !item.Comment?))
    decreases |items|
  {
    if items == [] {
      assert items + [item] == [item] && [item][1..] == [];
    } else {
      assert (items + [item])[1..] == items[1..] + [item];
      match items[0]
      case Blank => InEventSnoc(items[1..], false, item);
      case Comment => InEventSnoc(items[1..], already, item);
      case _ => InEventSnoc(items[1..], true, item);
    }
  }

  lemma {:induction false} PayloadsConcat(a: seq<Item>, b: seq<Item>, data: seq<byte>)
    ensures Payloads(a + b, data) == Payloads(a, data) + Payloads(b, Pending(a, data))
    decreases |a|
  {
    if a == [] {
      assert a + b == b;
    } else {
      assert (a + b)[1..] == a[1..] + b;
      match a[0]
      case Blank => PayloadsConcat(a[1..], b, []);
      case Data(value) => PayloadsConcat(a[1..], b, data + value + [LF]);
      case _ => PayloadsConcat(a[1..], b, data);
    }
  }

  lemma DataOfConcat(a: seq<Event>, b: seq<Event>)
    ensures DataOf(a + b) == DataOf(a) + DataOf(b)
  {
  }

  lemma StandardItemsTail(lines: seq<seq<byte>>)
    requires lines != []
    ensures StandardItems(lines)[0] == StandardItem(lines[0]) && StandardItems(lines)[1..] == StandardItems(lines[1..])
  {
  }

  lemma DispatchedData(b: Buffers, line: seq<byte>)
    ensures DataOf(Dispatched(b, line)) == if line == [] && b.data != [] then [b.data[..|b.data| - 1]] else []
  {
  }

  /** Following the data alone finds the data of exactly the events dispatched. */
  lemma {:induction false} PayloadsAreData(lines: seq<seq<byte>>, b: Buffers)
    ensures DataOf(Interpret(lines, b)) == Payloads(StandardItems(lines), b.data)
    ensures BuffersAfter(lines, b).data == Pending(StandardItems(lines), b.data)
    decreases |lines|
  {
    if lines != [] {
      var next := Buffered(b, lines[0]);
      StandardItemsTail(lines);
      PayloadsAreData(lines[1..], next);
      DataOfConcat(Dispatched(b, lines[0]), Interpret(lines[1..], next));
      DispatchedData(b, lines[0]);
      DataLineIsNotEvent(lines[0]);
    }
  }

  lemma DataLineIsNotEvent(line: seq<byte>)
    ensures FieldName(line) == DATA ==> FieldName(line) != EVENT
  {
  }
}
