/**
  The append-only session log (src/aggregator/session_store.rs): records, the
  bytes they are written as, torn writes, and replay.
 */
module SessionLog {
  import opened Foundation
  import opened Session
  import opened Vault
  import opened Registry
  import Base64

  datatype Record = Record(
    seqNo: nat, ts: nat, kind: string, fingerprint: Option<string>, retentionUntil: Option<nat>,
    contentType: Option<string>, payload: string)

  const EVIDENCE := "evidence"
  const SESSION := "attested_session"

  /** The text encodings the log rests on: JSON lines, JSON documents and base64 payloads. */
  datatype Codec = Codec(
    render: Record -> seq<byte>,
    parse: seq<byte> -> Option<Record>,
    json: Document -> seq<byte>,
    parseDocument: seq<byte> -> Option<Document>,
    armor: seq<byte> -> string,
    unarmor: string -> Option<seq<byte>>)
  {
    /** A rendered record has no newline inside, reads back as itself, and no proper prefix of it is a record. */
    ghost predicate Lawful() {
      && (forall r :: render(r) != [] && LF !in render(r) && parse(render(r)) == Some(r))
      && (forall r, k: nat :: k < |render(r)| ==> parse(render(r)[..k]).None?)
      && (forall d :: parseDocument(json(d)) == Some(d))
      && (forall b :: unarmor(armor(b)) == Some(b))
    }
  }

  /** The log's own codec: whatever the JSON writer is, payloads are base64. */
  function CodecOf(render: Record -> seq<byte>, parse: seq<byte> -> Option<Record>,
                   json: Document -> seq<byte>, parseDocument: seq<byte> -> Option<Document>): Codec
  {
    Codec(render, parse, json, parseDocument, b => Base64.Encode(b), t => Base64.Decode(t))
  }

  lemma CodecOfLawful(render: Record -> seq<byte>, parse: seq<byte> -> Option<Record>,
                      json: Document -> seq<byte>, parseDocument: seq<byte> -> Option<Document>)
    requires forall r :: render(r) != [] && LF !in render(r) && parse(render(r)) == Some(r)
    requires forall r, k: nat :: k < |render(r)| ==> parse(render(r)[..k]).None?
    requires forall d :: parseDocument(json(d)) == Some(d)
    ensures CodecOf(render, parse, json, parseDocument).Lawful()
  {
    var c := CodecOf(render, parse, json, parseDocument);
    forall b
      ensures c.unarmor(c.armor(b)) == Some(b)
    {
      Base64.DecodeEncode(b);
    }
  }

  function EvidenceRecord(c: Codec, seqNo: nat, ts: nat, bundle: seq<byte>): Record {
    Record(seqNo, ts, EVIDENCE, None, None, None, c.armor(bundle))
  }

  function SessionRecord(c: Codec, seqNo: nat, ts: nat, fingerprint: string, retentionUntil: nat,
                         contentType: string, stripped: Document): Record
  {
    Record(seqNo, ts, SESSION, Some(fingerprint), Some(retentionUntil), Some(contentType), c.armor(c.json(stripped)))
  }

  // ---------- bytes ----------

  /** The offset of the first newline, or the length. */
  function LineEnd(file: seq<byte>): (i: nat)
    ensures i <= |file| && (i < |file| ==> file[i] == LF) && LF !in file[..i]
  {
    if file == [] || file[0] == LF then 0 else
      var i := 1 + LineEnd(file[1..]);
      assert file[..i] == [file[0]] + file[1..][..i - 1];
      i
  }

  function Parsed(c: Codec, line: seq<byte>): seq<Record> {
    match c.parse(line) case None => [] case Some(r) => [r]
  }

  /** What replay reads: one record per line that parses; the last line may lack its newline. */
  function Records(c: Codec, file: seq<byte>): seq<Record>
    decreases |file|
  {
    var i := LineEnd(file);
    if i == |file| then Parsed(c, file) else Parsed(c, file[..i]) + Records(c, file[i + 1..])
  }

  /** The text of records, one per line. */
  function Text(c: Codec, records: seq<Record>): seq<byte> {
    if records == [] then [] else c.render(records[0]) + [LF] + Text(c, records[1..])
  }

  /** No line is open at the end of the file. */
  predicate Clean(file: seq<byte>) {
    file == [] || file[|file| - 1] == LF
  }

  lemma {:induction false} LineEndOf(line: seq<byte>, rest: seq<byte>)
    requires LF !in line
    ensures LineEnd(line + [LF] + rest) == |line|
  {
    if line != [] {
      LineEndOf(line[1..], rest);
      assert (line + [LF] + rest)[1..] == line[1..] + [LF] + rest;
    }
  }

  lemma LineEndWhole(line: seq<byte>)
    requires LF !in line
    ensures LineEnd(line) == |line|
  {
  }

  lemma RecordsOfLine(c: Codec, line: seq<byte>, rest: seq<byte>)
    requires LF !in line
    ensures Records(c, line + [LF] + rest) == Parsed(c, line) + Records(c, rest)
  {
    var file := line + [LF] + rest;
    LineEndOf(line, rest);
    assert file[..|line|] == line && file[|line| + 1..] == rest;
  }

  lemma Regroup(left: seq<byte>, i: nat)
    requires i < |left| && left[i] == LF
    ensures left == left[..i] + [LF] + left[i + 1..]
  {
  }

  lemma Reassociate(line: seq<byte>, more: seq<byte>, right: seq<byte>)
    ensures line + [LF] + more + [LF] + right == line + [LF] + (more + [LF] + right)
  {
  }

  lemma RecordsAssoc(a: seq<Record>, b: seq<Record>, d: seq<Record>)
    ensures a + (b + d) == a + b + d
  {
  }

  lemma AcrossLine(c: Codec, line: seq<byte>, more: seq<byte>, right: seq<byte>)
    requires LF !in line && Records(c, more + [LF] + right) == Records(c, more) + Records(c, right)
    ensures Records(c, line + [LF] + more + [LF] + right) == Records(c, line + [LF] + more) + Records(c, right)
  {
    RecordsOfLine(c, line, more);
    RecordsOfLine(c, line, more + [LF] + right);
    Reassociate(line, more, right);
    RecordsAssoc(Parsed(c, line), Records(c, more), Records(c, right));
  }

  lemma OneOpenLine(c: Codec, line: seq<byte>)
    requires LF !in line
    ensures Records(c, line) == Parsed(c, line)
  {
    LineEndWhole(line);
  }

  /** A newline separates: whatever stands before it, even a torn line, does not reach what follows. */
  lemma {:induction false} RecordsAcrossNewline(c: Codec, left: seq<byte>, right: seq<byte>)
    ensures Records(c, left + [LF] + right) == Records(c, left) + Records(c, right)
    decreases |left|
  {
    var i := LineEnd(left);
    if i == |left| {
      assert left[..i] == left;
      RecordsOfLine(c, left, right);
      OneOpenLine(c, left);
    } else {
      Regroup(left, i);
      RecordsAcrossNewline(c, left[i + 1..], right);
      AcrossLine(c, left[..i], left[i + 1..], right);
    }
  }

  lemma NoRecordInNothing(c: Codec)
    requires c.Lawful()
    ensures Records(c, []) == [] && c.parse([]).None?
  {
    assert c.render(EvidenceRecord(c, 0, 0, []))[..0] == [];
  }

  /** Appending at the end of a clean file adds records and disturbs none. */
  lemma RecordsOfAppend(c: Codec, file: seq<byte>, more: seq<byte>)
    requires c.Lawful() && Clean(file)
    ensures Records(c, file + more) == Records(c, file) + Records(c, more)
  {
    NoRecordInNothing(c);
    if file == [] {
      assert file + more == more;
    } else {
      var body := file[..|file| - 1];
      assert file == body + [LF] + [] && file + more == body + [LF] + more;
      RecordsAcrossNewline(c, body, more);
      RecordsAcrossNewline(c, body, []);
    }
  }

  lemma {:induction false} RecordsOfText(c: Codec, records: seq<Record>)
    requires c.Lawful()
    ensures Records(c, Text(c, records)) == records && Clean(Text(c, records))
  {
    NoRecordInNothing(c);
    if records != [] {
      RecordsOfText(c, records[1..]);
      RecordsOfLine(c, c.render(records[0]), Text(c, records[1..]));
      assert records == [records[0]] + records[1..];
    }
  }

  lemma TornInFirst(c: Codec, record: Record, rest: seq<byte>, k: nat)
    requires c.Lawful() && k <= |c.render(record)|
    ensures Records(c, (c.render(record) + [LF] + rest)[..k]) <= [record]
  {
    var line := c.render(record);
    var torn := line[..k];
    assert (line + [LF] + rest)[..k] == torn;
    LineEndWhole(torn);
    assert k == |line| ==> torn == line;
  }

  lemma TornBefore(c: Codec, record: Record, rest: seq<byte>, k: nat)
    requires c.Lawful() && k < |c.render(record)|
    ensures Records(c, (c.render(record) + [LF] + rest)[..k]) == []
  {
    var line := c.render(record);
    assert (line + [LF] + rest)[..k] == line[..k];
    LineEndWhole(line[..k]);
  }

  lemma TakePast(line: seq<byte>, rest: seq<byte>, k: nat)
    requires |line| < k <= |line| + 1 + |rest|
    ensures (line + [LF] + rest)[..k] == line + [LF] + rest[..k - |line| - 1]
  {
  }

  lemma PrefixCons(record: Record, some: seq<Record>, records: seq<Record>)
    requires records != [] && records[0] == record && some <= records[1..]
    ensures [record] + some <= records && [record] <= records
  {
  }

  /** A write torn after any number of bytes leaves some first records of the text, and nothing else. */
  lemma {:induction false} RecordsOfTorn(c: Codec, records: seq<Record>, k: nat)
    requires c.Lawful() && k <= |Text(c, records)|
    ensures Records(c, Text(c, records)[..k]) <= records
  {
    if records == [] {
      NoRecordInNothing(c);
    } else {
      var line, rest := c.render(records[0]), Text(c, records[1..]);
      if k <= |line| {
        TornInFirst(c, records[0], rest, k);
        PrefixCons(records[0], [], records);
      } else {
        var k' := k - |line| - 1;
        TakePast(line, rest, k);
        RecordsOfLine(c, line, rest[..k']);
        RecordsOfTorn(c, records[1..], k');
        PrefixCons(records[0], Records(c, rest[..k']), records);
      }
    }
  }

  /** The last record needs all its bytes, if not its newline. */
  lemma {:induction false} TornShort(c: Codec, records: seq<Record>, k: nat)
    requires c.Lawful() && k + 1 < |Text(c, records)|
    ensures |Records(c, Text(c, records)[..k])| < |records|
  {
    var line, rest := c.render(records[0]), Text(c, records[1..]);
    if k < |line| {
      TornBefore(c, records[0], rest, k);
    } else if k == |line| {
      TornInFirst(c, records[0], rest, k);
    } else {
      var k' := k - |line| - 1;
      TakePast(line, rest, k);
      RecordsOfLine(c, line, rest[..k']);
      TornShort(c, records[1..], k');
    }
  }

  /** The separator an append writes after a torn line. */
  function Lead(needsSeparator: bool): seq<byte> {
    if needsSeparator then [LF] else []
  }

  lemma LeadReads(c: Codec, file: seq<byte>, needsSeparator: bool)
    requires c.Lawful() && (needsSeparator || Clean(file))
    ensures Records(c, file + Lead(needsSeparator)) == Records(c, file) && Clean(file + Lead(needsSeparator))
  {
    NoRecordInNothing(c);
    if needsSeparator {
      RecordsAcrossNewline(c, file, []);
      assert file + [LF] + [] == file + [LF];
    } else {
      assert file + [] == file;
    }
  }

  lemma TakeAcross(a: seq<byte>, b: seq<byte>, k: nat)
    requires k <= |a + b|
    ensures (a + b)[..k] == if k < |a| then a[..k] else a + b[..k - |a|]
  {
  }

  /** A completed append adds its records, whatever torn line the file ended in. */
  lemma WholeAppend(c: Codec, file: seq<byte>, needsSeparator: bool, records: seq<Record>)
    requires c.Lawful() && (needsSeparator || Clean(file))
    ensures Records(c, file + (Lead(needsSeparator) + Text(c, records))) == Records(c, file) + records
    ensures Clean(file + (Lead(needsSeparator) + Text(c, records)))
  {
    LeadReads(c, file, needsSeparator);
    RecordsOfText(c, records);
    CleanAppend(c, file + Lead(needsSeparator), Text(c, records));
    ConcatAssoc(file, Lead(needsSeparator), Text(c, records));
  }

  lemma CleanAppend(c: Codec, file: seq<byte>, more: seq<byte>)
    requires c.Lawful() && Clean(file) && Clean(more)
    ensures Records(c, file + more) == Records(c, file) + Records(c, more) && Clean(file + more)
  {
    RecordsOfAppend(c, file, more);
    if more == [] { assert file + more == file; }
  }

  /** A torn append adds some first records of what it was writing, and no other. */
  lemma TornAppend(c: Codec, file: seq<byte>, needsSeparator: bool, records: seq<Record>, k: nat)
    returns (some: seq<Record>)
    requires c.Lawful() && (needsSeparator || Clean(file))
    requires k <= |Lead(needsSeparator) + Text(c, records)|
    ensures some <= records && (k + 1 < |Lead(needsSeparator) + Text(c, records)| ==> |some| < |records|)
    ensures Records(c, file + (Lead(needsSeparator) + Text(c, records))[..k]) == Records(c, file) + some
  {
    var lead, text := Lead(needsSeparator), Text(c, records);
    TakeAcross(lead, text, k);
    if k < |lead| {
      some := [];
      assert lead[..k] == [] && file + [] == file;
    } else {
      some := TornTail(c, file + lead, records, k - |lead|);
      LeadReads(c, file, needsSeparator);
      ConcatAssoc(file, lead, text[..k - |lead|]);
    }
  }

  lemma TornTail(c: Codec, file: seq<byte>, records: seq<Record>, k: nat) returns (some: seq<Record>)
    requires c.Lawful() && Clean(file) && k <= |Text(c, records)|
    ensures some <= records && Records(c, file + Text(c, records)[..k]) == Records(c, file) + some
    ensures k + 1 < |Text(c, records)| ==> |some| < |records|
  {
    some := Records(c, Text(c, records)[..k]);
    if k + 1 < |Text(c, records)| { TornShort(c, records, k); }
    RecordsOfTorn(c, records, k);
    RecordsOfAppend(c, file, Text(c, records)[..k]);
  }

  // ---------- replay ----------

  /** The content types replay accepts: a single `data:` media type. */
  ghost predicate Replayable(contentType: string) {
    !Contains(contentType, ";base64") && ',' !in contentType
  }

  function ReplaySession(v: Vault, c: Codec, record: Record, bundles: map<string, seq<byte>>): Option<Split> {
    if record.contentType.None? then None
    else if SplitOnce(record.contentType.value, ";base64").Some? || ',' in record.contentType.value then None
    else
      var bytes := c.unarmor(record.payload);
      if bytes.None? then None
      else
        var document := c.parseDocument(bytes.value);
        if document.None? || document.value.evidence.digest.None? then None
        else if document.value.evidence.digest.value !in bundles then None
        else
          var bundle := bundles[document.value.evidence.digest.value];
          var session := v.rejoin(document.value, record.contentType.value, bundle);
          if session.None? then None else v.split(session.value)
  }

  datatype Replayed = Replayed(bundles: map<string, seq<byte>>, registry: Registry, nextSeq: nat, tokens: nat)

  function ReplayOne(v: Vault, c: Codec, now: nat, st: Replayed, record: Record): Replayed {
    if record.seqNo >= U64_MAX then st
    else
      var st' := st.(nextSeq := Max(st.nextSeq, record.seqNo + 1));
      if record.kind == EVIDENCE then
        var bytes := c.unarmor(record.payload);
        if bytes.None? then st' else st'.(bundles := st.bundles[v.digest(bytes.value) := bytes.value])
      else if record.kind == SESSION then
        if record.fingerprint.None? || record.retentionUntil.None? then st'
        else if record.retentionUntil.value <= now then st'
        else
          var p := ReplaySession(v, c, record, st.bundles);
          if p.None? then st'
          else st'.(registry := st.registry.Insert(record.fingerprint.value, p.value, record.retentionUntil.value, st.tokens),
                    tokens := st.tokens + 1)
      else st'
  }

  function ReplayAll(v: Vault, c: Codec, now: nat, records: seq<Record>): Replayed {
    if records == [] then Replayed(map[], Empty, 0, 0)
    else
      var last := |records| - 1;
      ReplayOne(v, c, now, ReplayAll(v, c, now, records[..last]), records[last])
  }

  /** What `open` loads from the file. */
  function Reopened(v: Vault, c: Codec, file: seq<byte>, now: nat): Registry {
    ReplayAll(v, c, now, Records(c, file)).registry.MarkAllPersisted()
  }

  /** The record holds the bundle named `digest`. */
  ghost predicate Holds(v: Vault, c: Codec, record: Record, digest: string) {
    && record.kind == EVIDENCE && record.seqNo < U64_MAX
    && var bytes := c.unarmor(record.payload);
       bytes.Some? && v.digest(bytes.value) == digest
  }

  /** The record is a session record that carries `p`. */
  ghost predicate Carries(c: Codec, record: Record, p: Split) {
    && record.kind == SESSION && record.seqNo < U64_MAX
    && record.fingerprint.Some? && record.retentionUntil.Some?
    && record.contentType == Some(p.contentType)
    && var bytes := c.unarmor(record.payload);
       bytes.Some? && c.parseDocument(bytes.value) == Some(p.stripped)
  }

  ghost predicate HasBundle(v: Vault, c: Codec, records: seq<Record>, digest: string) {
    exists j :: 0 <= j < |records| && Holds(v, c, records[j], digest)
  }

  ghost predicate ReplayInv(v: Vault, st: Replayed) {
    && st.registry.Sound(v)
    && (forall d :: d in st.bundles ==> v.digest(st.bundles[d]) == d)
  }

  /** For a whole session, replay returns it exactly when its content type is one replay accepts. */
  lemma ReplaySessionExact(v: Vault, c: Codec, record: Record, bundles: map<string, seq<byte>>, p: Split)
    requires v.Lawful() && v.genuine(p) && Carries(c, record, p)
    requires p.digest in bundles && bundles[p.digest] == p.bundle
    ensures ReplaySession(v, c, record, bundles) == if Replayable(p.contentType) then Some(p) else None
  {
    assert v.Whole(p);
  }

  lemma ReplayedGenuine(v: Vault, c: Codec, record: Record, bundles: map<string, seq<byte>>)
    requires v.Lawful() && ReplaySession(v, c, record, bundles).Some?
    ensures v.genuine(ReplaySession(v, c, record, bundles).value)
  {
  }

  lemma PrefixReplayable(contentType: string, part: string)
    requires Replayable(contentType) && part <= contentType
    ensures Replayable(part)
  {
    assert contentType == part + contentType[|part|..];
    forall i: nat
      ensures !OccursAt(part, ";base64", i)
    {
      if i + |";base64"| <= |part| { OccursInExtension(part, contentType[|part|..], ";base64", i); }
    }
    assert forall i :: 0 <= i < |part| ==> part[i] == contentType[i];
  }

  lemma ReplayedReplayable(v: Vault, c: Codec, record: Record, bundles: map<string, seq<byte>>)
    requires v.Lawful() && ReplaySession(v, c, record, bundles).Some?
    ensures Replayable(ReplaySession(v, c, record, bundles).value.contentType)
  {
    PrefixReplayable(record.contentType.value, ReplaySession(v, c, record, bundles).value.contentType);
  }

  /** Nothing that replay loads has a content type it would refuse. */
  lemma {:induction false} ReplayLoadsReplayable(v: Vault, c: Codec, now: nat, records: seq<Record>, id: string)
    requires v.Lawful() && id in ReplayAll(v, c, now, records).registry.entries
    ensures Replayable(ReplayAll(v, c, now, records).registry.entries[id].contentType)
  {
    var last := |records| - 1;
    var st, record := ReplayAll(v, c, now, records[..last]), records[last];
    if id in st.registry.entries {
      ReplayLoadsReplayable(v, c, now, records[..last], id);
    }
    if ReplaySession(v, c, record, st.bundles).Some? {
      ReplayedReplayable(v, c, record, st.bundles);
    }
  }

  lemma ReplayOneKeeps(v: Vault, c: Codec, now: nat, st: Replayed, record: Record)
    requires v.Lawful() && ReplayInv(v, st)
    ensures ReplayInv(v, ReplayOne(v, c, now, st, record))
  {
    var p := ReplaySession(v, c, record, st.bundles);
    if record.kind == SESSION && record.fingerprint.Some? && record.retentionUntil.Some? && p.Some? {
      ReplayedGenuine(v, c, record, st.bundles);
      InsertSound(v, st.registry, record.fingerprint.value, p.value, record.retentionUntil.value, st.tokens);
    }
  }

  lemma {:induction false} ReplayKeeps(v: Vault, c: Codec, now: nat, records: seq<Record>)
    requires v.Lawful()
    ensures ReplayInv(v, ReplayAll(v, c, now, records))
  {
    if records != [] {
      var last := |records| - 1;
      ReplayKeeps(v, c, now, records[..last]);
      ReplayOneKeeps(v, c, now, ReplayAll(v, c, now, records[..last]), records[last]);
    }
  }

  /** The next number is right after those read: above every one that has a successor, and after one of them. */
  lemma {:induction false} ReplayNumbers(v: Vault, c: Codec, now: nat, records: seq<Record>)
    ensures var next := ReplayAll(v, c, now, records).nextSeq;
            && (forall i :: 0 <= i < |records| && records[i].seqNo < U64_MAX ==> records[i].seqNo < next)
            && (next > 0 ==> exists i :: 0 <= i < |records| && records[i].seqNo + 1 == next <= U64_MAX)
  {
    if records != [] {
      var last := |records| - 1;
      ReplayNumbers(v, c, now, records[..last]);
      var next, before := ReplayAll(v, c, now, records).nextSeq, ReplayAll(v, c, now, records[..last]).nextSeq;
      if next == before && next > 0 {
        var i :| 0 <= i < last && records[..last][i].seqNo + 1 == next;
        assert records[i].seqNo + 1 == next;
      }
    }
  }

  /** A bundle whose record was read stays known under its digest. */
  lemma {:induction false} BundleKnown(v: Vault, c: Codec, now: nat, records: seq<Record>, j: nat, digest: string)
    requires v.Lawful() && j < |records| && Holds(v, c, records[j], digest)
    ensures digest in ReplayAll(v, c, now, records).bundles
  {
    var last := |records| - 1;
    if j < last {
      BundleKnown(v, c, now, records[..last], j, digest);
    }
  }

  ghost predicate Kept(st: Replayed, p: Split, retentionUntil: nat) {
    && p.id in st.registry.entries
    && st.registry.entries[p.id].Digest() in st.registry.stored
    && st.registry.SplitAt(p.id) == p
    && retentionUntil <= st.registry.entries[p.id].retentionUntil
  }

  lemma InsertKeepsOthers(v: Vault, st: Replayed, fingerprint: string, q: Split, retentionUntil: nat, p: Split,
                          floor: nat)
    requires v.Lawful() && ReplayInv(v, st) && v.genuine(q) && v.genuine(p) && Kept(st, p, floor)
    ensures Kept(st.(registry := st.registry.Insert(fingerprint, q, retentionUntil, st.tokens)), p, floor)
  {
    var r' := st.registry.Insert(fingerprint, q, retentionUntil, st.tokens);
    InsertAgrees(v, st.registry, q);
    InsertBacks(v, st.registry, fingerprint, q, retentionUntil, st.tokens);
    if p.id != q.id {
      assert st.registry.Backed(v, p.id);
      InsertSame(st.registry, fingerprint, q, retentionUntil, st.tokens, p.id);
      StillBacked(v, st.registry, r', p.id);
    }
  }

  lemma ReplayOneKeepsSession(v: Vault, c: Codec, now: nat, st: Replayed, record: Record, p: Split, floor: nat)
    requires v.Lawful() && ReplayInv(v, st) && v.genuine(p) && Kept(st, p, floor)
    ensures Kept(ReplayOne(v, c, now, st, record), p, floor)
  {
    var q := ReplaySession(v, c, record, st.bundles);
    if record.kind == SESSION && record.fingerprint.Some? && record.retentionUntil.Some? && q.Some? {
      ReplayedGenuine(v, c, record, st.bundles);
      InsertKeepsOthers(v, st, record.fingerprint.value, q.value, record.retentionUntil.value, p, floor);
    }
  }

  lemma ReplayOneLoads(v: Vault, c: Codec, now: nat, st: Replayed, record: Record, p: Split)
    requires v.Lawful() && ReplayInv(v, st) && v.genuine(p) && Replayable(p.contentType)
    requires Carries(c, record, p) && record.retentionUntil.value > now && p.digest in st.bundles
    ensures Kept(ReplayOne(v, c, now, st, record), p, record.retentionUntil.value)
  {
    assert v.Whole(p);
    assert st.bundles[p.digest] == p.bundle;
    ReplaySessionExact(v, c, record, st.bundles, p);
    InsertBacks(v, st.registry, record.fingerprint.value, p, record.retentionUntil.value, st.tokens);
  }

  /**
    Replay rebuilds every session the log carries behind its bundle, if the
    retention logged is after `now`: same id, same document, same bundle bytes,
    whatever other records (torn writes, other formats, later duplicates) the log holds.
   */
  lemma {:induction false} ReplayRebuilds(v: Vault, c: Codec, now: nat, records: seq<Record>, j: nat, i: nat, p: Split)
    requires v.Lawful() && v.genuine(p) && Replayable(p.contentType)
    requires j < i < |records| && Holds(v, c, records[j], p.digest) && Carries(c, records[i], p)
    requires records[i].retentionUntil.value > now
    ensures Kept(ReplayAll(v, c, now, records), p, records[i].retentionUntil.value)
  {
    var last := |records| - 1;
    var st := ReplayAll(v, c, now, records[..last]);
    ReplayKeeps(v, c, now, records[..last]);
    if i == last {
      BundleKnown(v, c, now, records[..last], j, p.digest);
      ReplayOneLoads(v, c, now, st, records[last], p);
    } else {
      ReplayRebuilds(v, c, now, records[..last], j, i, p);
      ReplayOneKeepsSession(v, c, now, st, records[last], p, records[i].retentionUntil.value);
    }
  }

  // ---------- what the store writes ----------

  /** The records of one append: the bundle first, unless the log has it, then the session. */
  function AppendRecords(c: Codec, nextSeq: nat, ts: nat, fingerprint: string, retentionUntil: nat, p: Split,
                         bundlePersisted: bool): seq<Record>
  {
    var bundle := if bundlePersisted then [] else [EvidenceRecord(c, nextSeq, ts, p.bundle)];
    bundle + [SessionRecord(c, nextSeq + |bundle|, ts, fingerprint, Max(retentionUntil, p.stripped.expiresAt),
                            p.contentType, p.stripped)]
  }

  ghost predicate Enumerates(keys: seq<string>, s: set<string>) {
    && (forall k :: k in keys <==> k in s)
    && (forall i, j :: 0 <= i < j < |keys| ==> keys[i] != keys[j])
  }

  lemma Place(keys: seq<string>, s: set<string>, k: string) returns (i: nat)
    requires Enumerates(keys, s) && k in s
    ensures i < |keys| && keys[i] == k
  {
    i :| 0 <= i < |keys| && keys[i] == k;
  }

  function CompactRecord(c: Codec, ts: nat, r: Registry, digests: seq<string>, ids: seq<string>, i: nat): Record
    requires i < |digests| + |ids|
    requires (forall d :: d in digests ==> d in r.stored) && (forall id :: id in ids ==> id in r.entries)
  {
    if i < |digests| then EvidenceRecord(c, i, ts, r.stored[digests[i]].bytes)
    else
      var e := r.entries[ids[i - |digests|]];
      SessionRecord(c, i, ts, e.fingerprint, e.retentionUntil, e.contentType, e.stripped)
  }

  /** The records of a compaction: every bundle, then every session. */
  function CompactRecords(c: Codec, ts: nat, r: Registry, digests: seq<string>, ids: seq<string>): seq<Record>
    requires (forall d :: d in digests ==> d in r.stored) && (forall id :: id in ids ==> id in r.entries)
  {
    seq(|digests| + |ids|, i requires 0 <= i < |digests| + |ids| => CompactRecord(c, ts, r, digests, ids, i))
  }

  ghost predicate InLog(c: Codec, records: seq<Record>, p: Split) {
    exists i :: 0 <= i < |records| && Carries(c, records[i], p)
  }

  /** The digest a session record's document names. */
  function NamedDigest(c: Codec, record: Record): Option<string> {
    if record.kind != SESSION then None
    else
      var bytes := c.unarmor(record.payload);
      if bytes.None? then None
      else
        var document := c.parseDocument(bytes.value);
        if document.None? then None else document.value.evidence.digest
  }

  /** Every session record follows the record of the bundle it names. */
  ghost predicate Ordered(v: Vault, c: Codec, records: seq<Record>) {
    forall i {:trigger NamedDigest(c, records[i])} ::
      0 <= i < |records| && NamedDigest(c, records[i]).Some?
      ==> HasBundle(v, c, records[..i], NamedDigest(c, records[i]).value)
  }

  lemma HasBundleMonotone(v: Vault, c: Codec, a: seq<Record>, b: seq<Record>, digest: string)
    requires HasBundle(v, c, a, digest)
    ensures HasBundle(v, c, a + b, digest)
  {
    var j :| 0 <= j < |a| && Holds(v, c, a[j], digest);
    assert (a + b)[j] == a[j];
  }

  lemma InLogMonotone(c: Codec, a: seq<Record>, b: seq<Record>, p: Split)
    requires InLog(c, a, p)
    ensures InLog(c, a + b, p)
  {
    var i :| 0 <= i < |a| && Carries(c, a[i], p);
    assert (a + b)[i] == a[i];
  }

  /** Any first part of an append keeps the order, and the whole of it logs the session behind its bundle. */
  lemma AppendOrdered(v: Vault, c: Codec, records: seq<Record>, nextSeq: nat, ts: nat, fingerprint: string,
                      retentionUntil: nat, p: Split, bundlePersisted: bool, some: seq<Record>)
    requires v.Lawful() && c.Lawful() && v.genuine(p) && Ordered(v, c, records)
    requires bundlePersisted ==> HasBundle(v, c, records, p.digest)
    requires var all := AppendRecords(c, nextSeq, ts, fingerprint, retentionUntil, p, bundlePersisted);
             some <= all && nextSeq + |all| <= U64_MAX
    ensures Ordered(v, c, records + some)
    ensures some == AppendRecords(c, nextSeq, ts, fingerprint, retentionUntil, p, bundlePersisted)
            ==> HasBundle(v, c, records + some, p.digest) && InLog(c, records + some, p)
  {
    var all := AppendRecords(c, nextSeq, ts, fingerprint, retentionUntil, p, bundlePersisted);
    var whole := records + some;
    assert v.Whole(p);
    var last := |all| - 1;
    SplitRecord(c, nextSeq + last, ts, fingerprint, Max(retentionUntil, p.stripped.expiresAt), p);
    BundleRecord(v, c, nextSeq, ts, p.bundle);
    forall i | 0 <= i < |whole| && NamedDigest(c, whole[i]).Some?
      ensures HasBundle(v, c, whole[..i], NamedDigest(c, whole[i]).value)
    {
      if i < |records| {
        assert whole[..i] == records[..i];
      } else {
        assert whole[i] == all[i - |records|] && i - |records| == last;
        if bundlePersisted {
          assert whole[..i] == records;
        } else {
          assert whole[..i] == records + [all[0]];
          assert (records + [all[0]])[|records|] == all[0];
        }
      }
    }
    if some == all {
      assert whole[|records| + last] == all[last];
      if bundlePersisted { HasBundleMonotone(v, c, records, some, p.digest); }
      else { assert whole[|records|] == all[0]; }
    }
  }

  /** The lists a compaction writes from: all bundles, all sessions, each once. */
  ghost predicate Listing(r: Registry, digests: seq<string>, ids: seq<string>) {
    Enumerates(digests, r.stored.Keys) && Enumerates(ids, r.entries.Keys) && |digests| + |ids| <= U64_MAX
  }

  /** The order in which a compaction lists sessions. */
  ghost predicate Chronological(r: Registry, ids: seq<string>)
    requires forall id :: id in ids ==> id in r.entries
  {
    forall i, j :: 0 <= i < j < |ids| ==> r.entries[ids[i]].stripped.establishedAt <= r.entries[ids[j]].stripped.establishedAt
  }

  lemma CompactIsBundle(c: Codec, ts: nat, r: Registry, digests: seq<string>, ids: seq<string>, k: nat)
    requires (forall d :: d in digests ==> d in r.stored) && (forall id :: id in ids ==> id in r.entries) && k < |digests|
    ensures CompactRecords(c, ts, r, digests, ids)[k] == EvidenceRecord(c, k, ts, r.stored[digests[k]].bytes)
  {
  }

  lemma CompactIsSession(c: Codec, ts: nat, r: Registry, digests: seq<string>, ids: seq<string>, k: nat)
    requires (forall d :: d in digests ==> d in r.stored) && (forall id :: id in ids ==> id in r.entries) && k < |ids|
    ensures var e := r.entries[ids[k]];
            CompactRecords(c, ts, r, digests, ids)[|digests| + k]
            == SessionRecord(c, |digests| + k, ts, e.fingerprint, e.retentionUntil, e.contentType, e.stripped)
  {
  }

  lemma CompactBundleAt(v: Vault, c: Codec, ts: nat, r: Registry, digests: seq<string>, ids: seq<string>, k: nat)
    requires v.Lawful() && c.Lawful() && r.Sound(v) && Listing(r, digests, ids) && k < |digests|
    ensures var record := CompactRecords(c, ts, r, digests, ids)[k];
            Holds(v, c, record, digests[k]) && NamedDigest(c, record).None?
  {
    CompactIsBundle(c, ts, r, digests, ids, k);
    BundleHolds(v, c, ts, r, digests[k], k);
  }

  lemma BundleHolds(v: Vault, c: Codec, ts: nat, r: Registry, digest: string, seqNo: nat)
    requires v.Lawful() && c.Lawful() && r.Sound(v) && digest in r.stored && seqNo < U64_MAX
    ensures var record := EvidenceRecord(c, seqNo, ts, r.stored[digest].bytes);
            Holds(v, c, record, digest) && NamedDigest(c, record).None?
  {
    StoredHashes(v, r, digest);
    BundleRecord(v, c, seqNo, ts, r.stored[digest].bytes);
  }

  lemma BundleRecord(v: Vault, c: Codec, seqNo: nat, ts: nat, bundle: seq<byte>)
    requires c.Lawful() && seqNo < U64_MAX
    ensures Holds(v, c, EvidenceRecord(c, seqNo, ts, bundle), v.digest(bundle))
    ensures NamedDigest(c, EvidenceRecord(c, seqNo, ts, bundle)).None?
  {
  }

  lemma SplitRecord(c: Codec, seqNo: nat, ts: nat, fingerprint: string, retentionUntil: nat, p: Split)
    requires c.Lawful() && seqNo < U64_MAX && p.stripped.evidence.digest == Some(p.digest)
    ensures var record := SessionRecord(c, seqNo, ts, fingerprint, retentionUntil, p.contentType, p.stripped);
            Carries(c, record, p) && NamedDigest(c, record) == Some(p.digest)
  {
  }

  lemma SessionCarries(v: Vault, c: Codec, ts: nat, r: Registry, id: string, seqNo: nat)
    requires v.Lawful() && c.Lawful() && r.Sound(v) && id in r.entries && seqNo < U64_MAX
    ensures var e := r.entries[id];
            var record := SessionRecord(c, seqNo, ts, e.fingerprint, e.retentionUntil, e.contentType, e.stripped);
            e.Digest() in r.stored && Carries(c, record, r.SplitAt(id)) && NamedDigest(c, record) == Some(e.Digest())
  {
    EntryWhole(v, r, id);
    var e := r.entries[id];
    SplitRecord(c, seqNo, ts, e.fingerprint, e.retentionUntil, r.SplitAt(id));
  }

  lemma CompactSessionAt(v: Vault, c: Codec, ts: nat, r: Registry, digests: seq<string>, ids: seq<string>, k: nat)
    requires v.Lawful() && c.Lawful() && r.Sound(v) && Listing(r, digests, ids) && k < |ids|
    ensures var record, e := CompactRecords(c, ts, r, digests, ids)[|digests| + k], r.entries[ids[k]];
            && e.Digest() in r.stored
            && Carries(c, record, r.SplitAt(ids[k])) && NamedDigest(c, record) == Some(e.Digest())
            && record.fingerprint == Some(e.fingerprint) && record.retentionUntil == Some(e.retentionUntil)
  {
    CompactIsSession(c, ts, r, digests, ids, k);
    SessionCarries(v, c, ts, r, ids[k], |digests| + k);
  }

  lemma CompactHasBundle(v: Vault, c: Codec, ts: nat, r: Registry, digests: seq<string>, ids: seq<string>, n: nat,
                         digest: string)
    requires v.Lawful() && c.Lawful() && r.Sound(v) && Listing(r, digests, ids) && digest in r.stored
    requires |digests| <= n <= |digests| + |ids|
    ensures HasBundle(v, c, CompactRecords(c, ts, r, digests, ids)[..n], digest)
  {
    var k := Place(digests, r.stored.Keys, digest);
    CompactBundleAt(v, c, ts, r, digests, ids, k);
    HasBundleAt(v, c, CompactRecords(c, ts, r, digests, ids), n, k, digest);
  }

  lemma HasBundleAt(v: Vault, c: Codec, records: seq<Record>, n: nat, k: nat, digest: string)
    requires k < n <= |records| && Holds(v, c, records[k], digest)
    ensures HasBundle(v, c, records[..n], digest)
  {
    assert records[..n][k] == records[k];
  }

  lemma CompactBehind(v: Vault, c: Codec, ts: nat, r: Registry, digests: seq<string>, ids: seq<string>, k: nat)
    returns (digest: string)
    requires v.Lawful() && c.Lawful() && r.Sound(v) && Listing(r, digests, ids) && k < |ids|
    ensures NamedDigest(c, CompactRecords(c, ts, r, digests, ids)[|digests| + k]) == Some(digest) && digest in r.stored
  {
    digest := r.entries[ids[k]].Digest();
    CompactSessionAt(v, c, ts, r, digests, ids, k);
  }

  /** The record at `i`, if it names a bundle, follows that bundle's record. */
  ghost predicate OrderedAt(v: Vault, c: Codec, records: seq<Record>, i: nat)
    requires i < |records|
  {
    NamedDigest(c, records[i]).Some? ==> HasBundle(v, c, records[..i], NamedDigest(c, records[i]).value)
  }

  lemma OrderedByAll(v: Vault, c: Codec, records: seq<Record>)
    requires forall i: nat :: i < |records| ==> OrderedAt(v, c, records, i)
    ensures Ordered(v, c, records)
  {
    forall i | 0 <= i < |records| && NamedDigest(c, records[i]).Some?
      ensures HasBundle(v, c, records[..i], NamedDigest(c, records[i]).value)
    {
      assert OrderedAt(v, c, records, i);
    }
  }

  lemma OrderedBy(v: Vault, c: Codec, records: seq<Record>, i: nat, digest: string)
    requires i < |records| && NamedDigest(c, records[i]) == Some(digest) && HasBundle(v, c, records[..i], digest)
    ensures OrderedAt(v, c, records, i)
  {
  }

  lemma CompactOrdered(v: Vault, c: Codec, ts: nat, r: Registry, digests: seq<string>, ids: seq<string>)
    requires v.Lawful() && c.Lawful() && r.Sound(v) && Listing(r, digests, ids)
    ensures Ordered(v, c, CompactRecords(c, ts, r, digests, ids))
  {
    var records := CompactRecords(c, ts, r, digests, ids);
    forall i: nat | i < |records|
      ensures OrderedAt(v, c, records, i)
    {
      if i < |digests| {
        CompactBundleAt(v, c, ts, r, digests, ids, i);
      } else {
        var digest := CompactBehind(v, c, ts, r, digests, ids, i - |digests|);
        CompactHasBundle(v, c, ts, r, digests, ids, i, digest);
        OrderedBy(v, c, records, i, digest);
      }
    }
    OrderedByAll(v, c, records);
  }

  /** A compaction writes every bundle and every session of the registry, each session behind its bundle. */
  lemma CompactComplete(v: Vault, c: Codec, ts: nat, r: Registry, digests: seq<string>, ids: seq<string>)
    requires v.Lawful() && c.Lawful() && r.Sound(v) && Listing(r, digests, ids)
    ensures var records := CompactRecords(c, ts, r, digests, ids);
            && Ordered(v, c, records)
            && (forall d :: d in r.stored ==> HasBundle(v, c, records, d))
            && (forall id :: id in r.entries ==> r.entries[id].Digest() in r.stored && InLog(c, records, r.SplitAt(id)))
  {
    var records := CompactRecords(c, ts, r, digests, ids);
    CompactOrdered(v, c, ts, r, digests, ids);
    forall d | d in r.stored
      ensures HasBundle(v, c, records, d)
    {
      CompactHasBundle(v, c, ts, r, digests, ids, |records|, d);
      assert records[..|records|] == records;
    }
    forall id | id in r.entries
      ensures r.entries[id].Digest() in r.stored && InLog(c, records, r.SplitAt(id))
    {
      var k := Place(ids, r.entries.Keys, id);
      CompactSessionAt(v, c, ts, r, digests, ids, k);
    }
  }
}
