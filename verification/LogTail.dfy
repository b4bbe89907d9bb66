/**
  Appending to a log whose last line is open, without the separator
  (src/aggregator/session_store.rs). `open` does not look for such a line, so
  this is what an append would do if nothing compacted the file in between.
 */
module LogTail {
  import opened Foundation
  import opened Session
  import opened SessionLog
  import opened PlainCodec

  /** Where the line still open at the end of the file starts. */
  function OpenAt(file: seq<byte>): (i: nat)
    ensures i <= |file| && Clean(file[..i]) && LF !in file[i..]
  {
    if Clean(file) then
      assert file[..|file|] == file;
      |file|
    else
      var rest := file[..|file| - 1];
      var i := OpenAt(rest);
      assert file[i..] == rest[i..] + [file[|file| - 1]] && file[..i] == rest[..i];
      i
  }

  lemma TextHead(c: Codec, tail: seq<byte>, records: seq<Record>)
    requires records != []
    ensures tail + Text(c, records) == tail + c.render(records[0]) + [LF] + Text(c, records[1..])
  {
    var line, rest := c.render(records[0]), Text(c, records[1..]);
    ConcatAssoc(tail, line + [LF], rest);
    ConcatAssoc(tail, line, [LF]);
  }

  /**
    For every file: the first record appended runs on from the open line, and the
    two are read as one line. No other record is touched.
   */
  lemma UnseparatedAppend(c: Codec, file: seq<byte>, records: seq<Record>)
    requires c.Lawful() && records != []
    ensures var i := OpenAt(file);
            Records(c, file + Text(c, records))
            == Records(c, file[..i]) + (Parsed(c, file[i..] + c.render(records[0])) + records[1..])
  {
    var i := OpenAt(file);
    var head, tail := file[..i], file[i..];
    assert file == head + tail;
    ConcatAssoc(head, tail, Text(c, records));
    RecordsOfAppend(c, head, tail + Text(c, records));
    TextHead(c, tail, records);
    RecordsOfLine(c, tail + c.render(records[0]), Text(c, records[1..]));
    RecordsOfText(c, records[1..]);
  }

  lemma ReadsOpenLine(c: Codec, file: seq<byte>)
    requires c.Lawful()
    ensures Records(c, file) == Records(c, file[..OpenAt(file)]) + Parsed(c, file[OpenAt(file)..])
  {
    var i := OpenAt(file);
    assert file == file[..i] + file[i..];
    RecordsOfAppend(c, file[..i], file[i..]);
    OneOpenLine(c, file[i..]);
  }

  lemma OneForOne(a: seq<Record>, joined: seq<Record>, tail: seq<Record>, records: seq<Record>)
    requires records != [] && |joined| <= 1
    ensures a + (joined + records[1..]) == (a + tail) + records <==> tail == [] && joined == [records[0]]
  {
    var left, right := a + (joined + records[1..]), (a + tail) + records;
    if left == right {
      assert |joined| == |tail| + 1;
      assert left[|a|] == joined[0] && right[|a|] == records[0];
    }
    if tail == [] && joined == [records[0]] {
      assert joined + records[1..] == records && a + tail == a;
    }
  }

  /** The append is read back exactly when the open line holds no record and does not change the record joined to it. */
  lemma UnseparatedExactly(c: Codec, file: seq<byte>, records: seq<Record>)
    requires c.Lawful() && records != []
    ensures var tail := file[OpenAt(file)..];
            Records(c, file + Text(c, records)) == Records(c, file) + records
            <==> c.parse(tail).None? && c.parse(tail + c.render(records[0])) == Some(records[0])
  {
    var i := OpenAt(file);
    UnseparatedAppend(c, file, records);
    ReadsOpenLine(c, file);
    OneForOne(Records(c, file[..i]), Parsed(c, file[i..] + c.render(records[0])), Parsed(c, file[i..]), records);
  }

  /** A torn tail that loses a record: a write stopped after one byte, then an append without the separator. */
  lemma TornTailLoses(torn: Record, record: Record)
    ensures var c := Plain();
            var file := Text(c, [torn])[..1];
            && c.Lawful()
            && Records(c, file) == []
            && Records(c, file + Text(c, [record])) == []
            && Records(c, file + [LF] + Text(c, [record])) == [record]
  {
    var c := Plain();
    PlainLawful();
    var file := Text(c, [torn])[..1];
    assert file == [BRACE];
    assert file == c.render(torn)[..1];
    OneOpenLine(c, file);
    RecordsAcrossNewline(c, file, Text(c, [record]));
    RecordsOfText(c, [record]);
    OpenBrace(file);
    UnseparatedAppend(c, file, [record]);
    NoRecordInNothing(c);
    TwoBraces(record);
  }

  lemma OpenBrace(file: seq<byte>)
    requires file == [BRACE]
    ensures OpenAt(file) == 0
  {
    assert !Clean(file) && file[..0] == [];
  }
}
