/**
  Exactly when the observer's reading of a stream is the client's: the payloads it
  dispatches (src/sse_framing.rs) against those of sections 9.2.5 and 9.2.6 of
  the WHATWG HTML standard.
 */
module SseStandard {
  import opened Foundation
  import opened EventStream
  import opened SseFraming
  import opened SseObservation

  // ---------- one line ----------

  lemma FieldNameOfData(line: seq<byte>)
    ensures FieldName(line) == DATA <==> line == DATA || DATA_COLON <= line
    ensures DATA_COLON <= line ==> FieldValue(line) == Unpadded(line[|DATA_COLON|..])
  {
    if line == DATA {
      ColonAtIs(line, 4);
    } else if DATA_COLON <= line {
      ColonAtIs(line, 4);
      assert line[..4] == DATA;
    }
  }

  /** Without a colon `data` is still a data field to the standard; it is all the two disagree on. */
  lemma ItemsDiffer(line: seq<byte>)
    ensures StandardItem(line) == if line == DATA then Data([]) else ItemOf(line)
  {
    FieldNameOfData(line);
    if line == DATA { ColonAtIs(line, 4); }
  }

  // ---------- items read loosely ----------

  /** The first reader skips what the second counts as data. */
  predicate Stray(x: Item, y: Item) {
    !x.Data? && !x.Blank? && y.Data?
  }

  predicate Matches(x: Item, y: Item) {
    x == y || (!x.Data? && !x.Blank? && !y.Blank?)
  }

  ghost predicate AllMatch(xs: seq<Item>, ys: seq<Item>) {
    |xs| == |ys| && forall i :: 0 <= i < |xs| ==> Matches(xs[i], ys[i])
  }

  /** A stray line is in an event that was dispatched. */
  ghost predicate StrayCounted(xs: seq<Item>, ys: seq<Item>)
    requires |xs| == |ys|
  {
    exists i, j :: 0 <= i < j < |xs| && Stray(xs[i], ys[i]) && xs[j].Blank?
  }

  /** The bytes of data dispatched, with the line feed each field adds, starting with `n` buffered. */
  function Volume(items: seq<Item>, n: nat): nat {
    if items == [] then 0
    else match items[0]
      case Blank => n + Volume(items[1..], 0)
      case Data(value) => Volume(items[1..], n + |value| + 1)
      case _ => Volume(items[1..], n)
  }

  function Weight(payloads: seq<seq<byte>>): nat {
    if payloads == [] then 0 else |payloads[0]| + 1 + Weight(payloads[1..])
  }

  lemma {:induction false} VolumeIsWeight(items: seq<Item>, data: seq<byte>)
    ensures Weight(Payloads(items, data)) == Volume(items, |data|)
    decreases |items|
  {
    if items != [] {
      match items[0]
      case Blank =>
        VolumeIsWeight(items[1..], []);
        var rest := Payloads(items[1..], []);
        if data != [] {
          var first := data[..|data| - 1];
          assert ([first] + rest)[1..] == rest;
        } else {
          assert [] + rest == rest;
        }
      case Data(value) => VolumeIsWeight(items[1..], data + value + [LF]);
      case _ => VolumeIsWeight(items[1..], data);
    }
  }

  ghost predicate HasBlank(items: seq<Item>) {
    exists j :: 0 <= j < |items| && items[j].Blank?
  }

  // The looser reader dispatches no less, and more if it has more buffered at a blank line.
  lemma {:induction false} VolumeGrows(xs: seq<Item>, ys: seq<Item>, n: nat, m: nat)
    requires AllMatch(xs, ys) && n <= m
    ensures Volume(xs, n) <= Volume(ys, m)
    ensures n < m && HasBlank(xs) ==> Volume(xs, n) < Volume(ys, m)
    decreases |xs|
  {
    if xs != [] {
      assert AllMatch(xs[1..], ys[1..]);
      assert Matches(xs[0], ys[0]);
      if HasBlank(xs) && !xs[0].Blank? {
        var j :| 0 <= j < |xs| && xs[j].Blank?;
        assert xs[1..][j - 1].Blank?;
      }
      match xs[0]
      case Blank => VolumeGrows(xs[1..], ys[1..], 0, 0);
      case Data(value) => VolumeGrows(xs[1..], ys[1..], n + |value| + 1, m + |value| + 1);
      case _ =>
        VolumeGrows(xs[1..], ys[1..], n, if ys[0].Data? then m + |ys[0].value| + 1 else m);
    }
  }

  // A stray line that is dispatched shows in the volume.
  lemma {:induction false} StrayShows(xs: seq<Item>, ys: seq<Item>, n: nat, m: nat, i: nat, j: nat)
    requires AllMatch(xs, ys) && n <= m && i < j < |xs| && Stray(xs[i], ys[i]) && xs[j].Blank?
    ensures Volume(xs, n) < Volume(ys, m)
    decreases |xs|
  {
    assert AllMatch(xs[1..], ys[1..]);
    assert Matches(xs[0], ys[0]);
    if i == 0 {
      assert xs[1..][j - 1].Blank?;
      VolumeGrows(xs[1..], ys[1..], n, m + |ys[0].value| + 1);
    } else {
      match xs[0]
      case Blank => StrayShows(xs[1..], ys[1..], 0, 0, i - 1, j - 1);
      case Data(value) => StrayShows(xs[1..], ys[1..], n + |value| + 1, m + |value| + 1, i - 1, j - 1);
      case _ =>
        StrayShows(xs[1..], ys[1..], n, if ys[0].Data? then m + |ys[0].value| + 1 else m, i - 1, j - 1);
    }
  }

  lemma {:induction false} NothingDispatched(items: seq<Item>, data: seq<byte>)
    requires !HasBlank(items)
    ensures Payloads(items, data) == []
    decreases |items|
  {
    if items != [] {
      assert forall j :: 0 <= j < |items[1..]| ==> items[1..][j] == items[j + 1];
      NothingDispatched(items[1..], if items[0].Data? then data + items[0].value + [LF] else data);
    }
  }

  lemma {:induction false} NoStrayNoDifference(xs: seq<Item>, ys: seq<Item>, data: seq<byte>)
    requires AllMatch(xs, ys) && !StrayCounted(xs, ys)
    ensures Payloads(xs, data) == Payloads(ys, data)
    decreases |xs|
  {
    if xs != [] {
      assert Matches(xs[0], ys[0]);
      if HasBlank(xs) {
        TailHasNoStray(xs, ys);
        if xs[0].Blank? {
          NoStrayNoDifference(xs[1..], ys[1..], []);
        } else if xs[0].Data? {
          NoStrayNoDifference(xs[1..], ys[1..], data + xs[0].value + [LF]);
        } else {
          var j :| 0 <= j < |xs| && xs[j].Blank?;
          assert !Stray(xs[0], ys[0]);
          NoStrayNoDifference(xs[1..], ys[1..], data);
        }
      } else {
        assert forall j :: 0 <= j < |ys| ==> Matches(xs[j], ys[j]);
        NothingDispatched(xs, data);
        NothingDispatched(ys, data);
      }
    }
  }

  lemma TailHasNoStray(xs: seq<Item>, ys: seq<Item>)
    requires AllMatch(xs, ys) && !StrayCounted(xs, ys) && xs != []
    ensures AllMatch(xs[1..], ys[1..]) && !StrayCounted(xs[1..], ys[1..])
  {
    var xt, yt := xs[1..], ys[1..];
    forall i, j | 0 <= i < j < |xt|
      ensures !(Stray(xt[i], yt[i]) && xt[j].Blank?)
    {
      assert xt[i] == xs[i + 1] && yt[i] == ys[i + 1] && xt[j] == xs[j + 1];
    }
  }

  /** Two readings dispatch the same data exactly when no line only one of them counts is dispatched. */
  lemma SameDataIff(xs: seq<Item>, ys: seq<Item>)
    requires AllMatch(xs, ys)
    ensures Payloads(xs, []) == Payloads(ys, []) <==> !StrayCounted(xs, ys)
  {
    if StrayCounted(xs, ys) {
      var i, j :| 0 <= i < j < |xs| && Stray(xs[i], ys[i]) && xs[j].Blank?;
      StrayShows(xs, ys, 0, 0, i, j);
      VolumeIsWeight(xs, []);
      VolumeIsWeight(ys, []);
    } else {
      NoStrayNoDifference(xs, ys, []);
    }
  }

  // ---------- whole streams ----------

  /** Data to the client and not to the observer: `data` with no colon, or a first data line behind a byte order mark. */
  predicate Skipped(lines: seq<seq<byte>>, marked: bool, i: nat)
    requires i < |lines|
  {
    lines[i] == DATA || (i == 0 && marked && DATA_COLON <= lines[0])
  }

  ghost predicate SkippedCounted(lines: seq<seq<byte>>, marked: bool) {
    exists i: nat, j: nat :: i < j < |lines| && lines[j] == [] && Skipped(lines, marked, i)
  }

  /** A dispatched event of `s` holds a line that the client counts as data and the observer does not. */
  ghost predicate Misread(s: seq<byte>) {
    SkippedCounted(Lines(Decoded(s)), BOM <= s)
  }

  lemma PlainItemsMatch(lines: seq<seq<byte>>)
    ensures AllMatch(ItemsOf(lines), StandardItems(lines))
    ensures forall i :: 0 <= i < |lines| ==> Stray(ItemsOf(lines)[i], StandardItems(lines)[i]) == (lines[i] == DATA)
  {
    forall i | 0 <= i < |lines|
      ensures Matches(ItemsOf(lines)[i], StandardItems(lines)[i])
      ensures Stray(ItemsOf(lines)[i], StandardItems(lines)[i]) == (lines[i] == DATA)
    {
      ItemsDiffer(lines[i]);
    }
  }

  // Where the strays of two readings are known, so is when they are counted.
  lemma CountedIff(xs: seq<Item>, ys: seq<Item>, lines: seq<seq<byte>>, marked: bool)
    requires |xs| == |ys| == |lines|
    requires forall i: nat :: i < |xs| ==> Stray(xs[i], ys[i]) == Skipped(lines, marked, i)
    requires forall j: nat :: 0 < j < |xs| ==> xs[j].Blank? == (lines[j] == [])
    ensures StrayCounted(xs, ys) <==> SkippedCounted(lines, marked)
  {
    if StrayCounted(xs, ys) {
      var i: nat, j: nat :| 0 <= i < j < |xs| && Stray(xs[i], ys[i]) && xs[j].Blank?;
      assert lines[j] == [] && Skipped(lines, marked, i);
    }
    if SkippedCounted(lines, marked) {
      var i: nat, j: nat :| i < j < |lines| && lines[j] == [] && Skipped(lines, marked, i);
      assert Stray(xs[i], ys[i]) && xs[j].Blank?;
    }
  }

  lemma PlainStream(s: seq<byte>)
    requires !(BOM <= s)
    ensures Seen(s) == DataOf(Events(s)) <==> !Misread(s)
  {
    var lines := Lines(s);
    var xs, ys := ItemsOf(lines), StandardItems(lines);
    PlainItemsMatch(lines);
    PayloadsAreData(lines, Fresh);
    SameDataIff(xs, ys);
    CountedIff(xs, ys, lines, false);
  }

  // ---------- behind a byte order mark ----------

  lemma MarkedLines(r: seq<byte>)
    ensures Lines(BOM + r) == if Lines(r) == [] then [] else [BOM + Lines(r)[0]] + Lines(r)[1..]
  {
    var s, i := BOM + r, FirstEnd(r);
    FirstEndIs(s, |BOM| + i);
    if i < |r| {
      assert s[..|BOM| + i] == BOM + r[..i];
      MarkedAfterEnd(r, i);
    }
  }

  lemma MarkedAfterEnd(r: seq<byte>, i: nat)
    requires i < |r|
    ensures AfterEnd(BOM + r, |BOM| + i) == AfterEnd(r, i)
  {
    assert (BOM + r)[|BOM| + i + 1..] == r[i + 1..];
    if i + 1 < |r| { assert (BOM + r)[|BOM| + i + 2..] == r[i + 2..]; }
  }

  lemma MarkedFirstItem(line: seq<byte>)
    ensures ItemOf(BOM + line) == Field
  {
  }

  // A blank first line dispatches nothing, so it may as well be skipped.
  lemma BlankFirstIsNothing(items: seq<Item>)
    requires items != [] && items[0].Blank?
    ensures Payloads(items, []) == Payloads(items[0 := Field], [])
  {
    var skipped := items[0 := Field];
    assert skipped[1..] == items[1..];
    assert [] + Payloads(items[1..], []) == Payloads(items[1..], []);
  }

  lemma MarkedItems(lines: seq<seq<byte>>, xs: seq<Item>, ys: seq<Item>)
    requires lines != [] && xs == ItemsOf([BOM + lines[0]] + lines[1..])
    requires ys == if lines[0] == [] then StandardItems(lines)[0 := Field] else StandardItems(lines)
    ensures AllMatch(xs, ys)
    ensures forall i: nat :: i < |xs| ==> Stray(xs[i], ys[i]) == Skipped(lines, true, i)
    ensures forall j: nat :: 0 < j < |xs| ==> xs[j].Blank? == (lines[j] == [])
  {
    forall i: nat | i < |xs|
      ensures Matches(xs[i], ys[i]) && Stray(xs[i], ys[i]) == Skipped(lines, true, i)
      ensures 0 < i ==> xs[i].Blank? == (lines[i] == [])
    {
      ItemsDiffer(lines[i]);
      if i == 0 {
        MarkedFirstItem(lines[0]);
      } else {
        assert ([BOM + lines[0]] + lines[1..])[i] == lines[i];
      }
    }
  }

  lemma MarkedLinesIff(lines: seq<seq<byte>>)
    requires lines != []
    ensures Payloads(ItemsOf([BOM + lines[0]] + lines[1..]), []) == Payloads(StandardItems(lines), [])
            <==> !SkippedCounted(lines, true)
  {
    var xs := ItemsOf([BOM + lines[0]] + lines[1..]);
    var all := StandardItems(lines);
    var ys := if lines[0] == [] then all[0 := Field] else all;
    MarkedItems(lines, xs, ys);
    if lines[0] == [] { BlankFirstIsNothing(all); }
    SameDataIff(xs, ys);
    CountedIff(xs, ys, lines, true);
  }

  lemma MarkedStream(r: seq<byte>)
    ensures Seen(BOM + r) == DataOf(Events(BOM + r)) <==> !Misread(BOM + r)
  {
    assert Decoded(BOM + r) == r;
    MarkedLines(r);
    PayloadsAreData(Lines(r), Fresh);
    if Lines(r) != [] { MarkedLinesIff(Lines(r)); }
  }

  /** The observer's payloads are the client's, unless and only unless a line it misreads is dispatched. */
  lemma StandardExactly(s: seq<byte>)
    ensures Seen(s) == DataOf(Events(s)) <==> !Misread(s)
  {
    if BOM <= s {
      assert s == BOM + s[|BOM|..];
      MarkedStream(s[|BOM|..]);
    } else {
      PlainStream(s);
    }
  }

  /** So, on every stream that does not overflow it and has no misread line, its answers are about what the client dispatches. */
  lemma AnswersAreTheClients(parse: Parser, protocol: Option<Protocol>, s: seq<byte>)
    requires !Overflows(parse, protocol, s) && !Misread(s)
    ensures var w, client := Feed(parse, New(protocol), s), DataOf(Events(s));
            && w.chatId == FirstId(parse, client) && w.modelId == FirstModel(parse, client)
            && (w.sawTerminal || w.sawError) == (AnyTerminal(parse, protocol, client) || AnyError(parse, protocol, client))
  {
    StandardExactly(s);
    AnswersAreTheStreams(parse, protocol, s);
  }

  lemma BlankLine()
    ensures Lines([LF]) == [[]]
  {
    LinesOfOpen([]);
    LinesOfFirst([], LF, []);
    assert [] + [LF] + [] == [LF];
  }

  lemma LineThenBlank(line: seq<byte>)
    requires forall j :: 0 <= j < |line| ==> !Ends(line[j])
    ensures Lines(line + [LF, LF]) == [line, []]
  {
    var s := line + [LF] + [LF];
    assert s == line + [LF, LF];
    BlankLine();
    LinesOfFirst(line, LF, [LF]);
  }

  /** The difference is real: a lone `data` line is an empty message to the client and nothing to the observer. */
  lemma ColonlessDataDiffers()
    ensures Seen(DATA + [LF, LF]) != DataOf(Events(DATA + [LF, LF]))
  {
    var s := DATA + [LF, LF];
    LineThenBlank(DATA);
    assert Skipped(Lines(Decoded(s)), false, 0) && Lines(s)[1] == [];
    StandardExactly(s);
  }

  lemma MarkedLineDiffers(r: seq<byte>, line: seq<byte>)
    requires Lines(r) == [line, []] && DATA_COLON <= line
    ensures Seen(BOM + r) != DataOf(Events(BOM + r))
  {
    assert Decoded(BOM + r) == r;
    assert Skipped(Lines(r), true, 0) && Lines(r)[1] == [];
    MarkedStream(r);
  }

  /** And a first data line behind a byte order mark is the client's alone. */
  lemma MarkedDataDiffers(value: seq<byte>)
    requires forall j :: 0 <= j < |value| ==> !Ends(value[j])
    ensures var s := BOM + (DATA_COLON + value + [LF, LF]); Seen(s) != DataOf(Events(s))
  {
    var line := DATA_COLON + value;
    NoEndsIn(value);
    LineThenBlank(line);
    MarkedLineDiffers(line + [LF, LF], line);
  }

  lemma NoEndsIn(value: seq<byte>)
    requires forall j :: 0 <= j < |value| ==> !Ends(value[j])
    ensures forall j :: 0 <= j < |DATA_COLON + value| ==> !Ends((DATA_COLON + value)[j])
  {
  }
}
