/**
  Content-addressed session documents and their evidence bundles
  (src/aggregator/session.rs), and the split a store keeps
  (src/aggregator/session_store.rs).
 */
module Session {
  import opened Foundation
  import Base64

  datatype EvidenceRef = EvidenceRef(digest: Option<string>, data: Option<string>)

  /** `body` stands for every member the store never reads. */
  datatype Document = Document(body: string, establishedAt: nat, expiresAt: nat, evidence: EvidenceRef)

  datatype Session = Session(id: string, bytes: seq<byte>, document: Document)

  /**
    The libraries a session rests on: `sha` is lowercase-hex SHA-256, `jcs` the
    canonical form (which refuses some documents), `json` the plain encoding,
    `parse` the reader of either, and `canonical` the canonical form of a JSON
    text as it stands, members a document does not have included.
   */
  datatype Scheme = Scheme(
    sha: seq<byte> -> string,
    jcs: Document -> Option<seq<byte>>,
    json: Document -> seq<byte>,
    parse: seq<byte> -> Option<Document>,
    canonical: seq<byte> -> Option<seq<byte>>)
  {
    /** No two byte strings share a digest, reading undoes writing, and a canonical form is its own. */
    ghost predicate Lawful() {
      && (forall a, b :: sha(a) == sha(b) ==> a == b)
      && (forall d :: jcs(d).Some? ==> parse(jcs(d).value) == Some(d) && canonical(jcs(d).value) == jcs(d))
      && (forall d :: parse(json(d)) == Some(d))
    }

    /** The `sha256:` digest-field format. */
    function Digest(bytes: seq<byte>): string {
      "sha256:" + sha(bytes)
    }
  }

  const MARK := ";base64,"
  const PREFIX := "data:"

  function FromBytes(s: Scheme, contentType: string, bytes: seq<byte>): EvidenceRef {
    EvidenceRef(Some(s.Digest(bytes)), Some(PREFIX + contentType + MARK + Base64.Encode(bytes)))
  }

  function Decode(s: Scheme, e: EvidenceRef): Option<(string, seq<byte>)> {
    if e.digest.None? || e.data.None? then None
    else if !(PREFIX <= e.data.value) then None
    else
      match SplitOnce(e.data.value[|PREFIX|..], MARK)
      case None => None
      case Some((contentType, text)) =>
        match Base64.Decode(text)
        case None => None
        case Some(bytes) => if s.Digest(bytes) == e.digest.value then Some((contentType, bytes)) else None
  }

  // The marker starts with its only ';', so no copy of it can straddle the end
  // of a content type and the marker that follows.
  lemma MarkNeverStraddles(contentType: string, text: string, i: nat)
    requires i < |contentType|
    ensures OccursAt(contentType + MARK + text, MARK, i) <==> OccursAt(contentType, MARK, i)
  {
    var whole := contentType + MARK + text;
    assert whole == contentType + (MARK + text);
    if i + |MARK| <= |contentType| {
      OccursInExtension(contentType, MARK + text, MARK, i);
    } else {
      var k := |contentType| - i;
      assert MARK[k] != MARK[0];
      assert i + |MARK| <= |whole| ==> whole[i..i + |MARK|][k] == MARK[0];
    }
  }

  lemma SplitAtMark(contentType: string, text: string)
    ensures SplitOnce(contentType + MARK + text, MARK) == Some((contentType, text))
            <==> !Contains(contentType, MARK)
  {
    var whole := contentType + MARK + text;
    assert whole[|contentType|..|contentType| + |MARK|] == MARK;
    assert OccursAt(whole, MARK, |contentType|);
    var found := FindFrom(whole, MARK, 0);
    forall i: nat | i < |contentType|
      ensures OccursAt(whole, MARK, i) <==> OccursAt(contentType, MARK, i)
    {
      MarkNeverStraddles(contentType, text, i);
    }
    if !Contains(contentType, MARK) {
      assert found.value == |contentType|;
      assert whole[..|contentType|] == contentType && whole[|contentType| + |MARK|..] == text;
    } else {
      var i: nat :| OccursAt(contentType, MARK, i);
      assert found.value <= i < |contentType|;
    }
  }

  /** Decoding a canonical bundle gives it back exactly when its content type does not hold the marker. */
  lemma DecodeFromBytes(s: Scheme, contentType: string, bytes: seq<byte>)
    ensures Decode(s, FromBytes(s, contentType, bytes)) == Some((contentType, bytes))
            <==> !Contains(contentType, MARK)
  {
    var text := Base64.Encode(bytes);
    var uri := PREFIX + contentType + MARK + text;
    assert uri[|PREFIX|..] == contentType + MARK + text;
    assert PREFIX <= uri;
    SplitAtMark(contentType, text);
    Base64.DecodeEncode(bytes);
  }

  lemma MarkOccurs(contentType: string, text: string)
    ensures OccursAt(contentType + MARK + text, MARK, |contentType|)
  {
    assert (contentType + MARK + text)[|contentType|..|contentType| + |MARK|] == MARK;
  }

  lemma SplitIsEarly(contentType: string, text: string)
    ensures var split := SplitOnce(contentType + MARK + text, MARK); split.Some? && split.value.0 <= contentType
  {
    var whole := contentType + MARK + text;
    MarkOccurs(contentType, text);
    var at := FindFrom(whole, MARK, 0).value;
    assert at <= |contentType| && whole[..at] == contentType[..at];
  }

  /** The content type read from a canonical bundle is the one written, or its beginning. */
  lemma DecodePrefix(s: Scheme, contentType: string, bytes: seq<byte>)
    requires Decode(s, FromBytes(s, contentType, bytes)).Some?
    ensures Decode(s, FromBytes(s, contentType, bytes)).value.0 <= contentType
  {
    var text := Base64.Encode(bytes);
    PastPrefix(contentType, text);
    SplitIsEarly(contentType, text);
  }

  lemma PastPrefix(contentType: string, text: string)
    ensures (PREFIX + contentType + MARK + text)[|PREFIX|..] == contentType + MARK + text
    ensures PREFIX <= PREFIX + contentType + MARK + text
  {
  }

  /** Whatever decodes is canonical: encoding what was read gives the reference back. */
  lemma FromBytesDecode(s: Scheme, e: EvidenceRef)
    requires Decode(s, e).Some?
    ensures var (contentType, bytes) := Decode(s, e).value;
            FromBytes(s, contentType, bytes) == e && !Contains(contentType, MARK)
  {
    var uri := e.data.value;
    var tail := uri[|PREFIX|..];
    var (contentType, text) := SplitOnce(tail, MARK).value;
    SplitAtMark(contentType, text);
    Base64.EncodeDecode(text);
    assert uri == PREFIX + (contentType + MARK + text);
    ConcatAssoc(PREFIX, contentType + MARK, text);
    ConcatAssoc(PREFIX, contentType, MARK);
  }

  /** The two members of an evidence reference, as text. */
  lemma EvidenceText(s: Scheme, contentType: string, bytes: seq<byte>)
    ensures FromBytes(s, contentType, bytes).digest == Some("sha256:" + s.sha(bytes))
    ensures FromBytes(s, contentType, bytes).data == Some("data:" + contentType + ";base64," + Base64.Encode(bytes))
  {
  }

  function Seal(s: Scheme, document: Document): Option<Session> {
    match s.jcs(document)
    case None => None
    case Some(bytes) => Some(Session(s.sha(bytes), bytes, document))
  }

  /** Adopt served bytes; the id is recomputed from the canonical form of the very text. */
  function FromServed(s: Scheme, bytes: seq<byte>): Option<Session> {
    match s.parse(bytes)
    case None => None
    case Some(document) =>
      match s.canonical(bytes)
      case None => None
      case Some(text) => Some(Session(s.sha(text), bytes, document))
  }

  /** Bytes are adopted under the id of a sealed session exactly if their canonical form is what was sealed. */
  lemma ServedRoundTrip(s: Scheme, document: Document, bytes: seq<byte>)
    requires s.Lawful() && Seal(s, document).Some?
    ensures FromServed(s, Seal(s, document).value.bytes) == Seal(s, document)
    ensures FromServed(s, bytes).Some? && FromServed(s, bytes).value.id == Seal(s, document).value.id
            <==> s.parse(bytes).Some? && s.canonical(bytes) == Some(Seal(s, document).value.bytes)
  {
    var sealed := Seal(s, document).value;
    assert sealed.id == s.sha(sealed.bytes);
  }

  /** The id names one document: equal ids come from equal documents. */
  lemma SealInjective(s: Scheme, a: Document, b: Document)
    requires s.Lawful()
    requires Seal(s, a).Some? && Seal(s, b).Some?
    requires Seal(s, a).value.id == Seal(s, b).value.id
    ensures a == b
  {
    assert s.jcs(a).value == s.jcs(b).value;
  }

  /** A session split for storage. */
  datatype Split = Split(id: string, stripped: Document, digest: string, contentType: string, bundle: seq<byte>)

  function SplitOf(s: Scheme, session: Session): Option<Split> {
    match Decode(s, session.document.evidence)
    case None => None
    case Some((contentType, bundle)) =>
      var evidence := session.document.evidence;
      Some(Split(session.id, session.document.(evidence := evidence.(data := None)),
                 evidence.digest.value, contentType, bundle))
  }

  /** Put the bundle back and seal again. */
  function Rejoin(s: Scheme, stripped: Document, contentType: string, bundle: seq<byte>): Option<Session> {
    Seal(s, stripped.(evidence := FromBytes(s, contentType, bundle)))
  }

  /** A split that is what some sealed session was split into. */
  ghost predicate Genuine(s: Scheme, p: Split) {
    && p.stripped.evidence == EvidenceRef(Some(p.digest), None)
    && p.digest == s.Digest(p.bundle)
    && !Contains(p.contentType, MARK)
    && var session := Rejoin(s, p.stripped, p.contentType, p.bundle);
       session.Some? && session.value.id == p.id
  }

  /** Splitting then rejoining returns the sealed session, with the same id and the same bytes. */
  lemma SplitThenRejoin(s: Scheme, document: Document)
    requires Seal(s, document).Some? && SplitOf(s, Seal(s, document).value).Some?
    ensures var p := SplitOf(s, Seal(s, document).value).value;
            Genuine(s, p) && Rejoin(s, p.stripped, p.contentType, p.bundle) == Seal(s, document)
  {
    var p := SplitOf(s, Seal(s, document).value).value;
    FromBytesDecode(s, document.evidence);
    assert p.stripped.(evidence := FromBytes(s, p.contentType, p.bundle)) == document;
  }

  /** Rejoining then splitting is the other direction. */
  lemma RejoinThenSplit(s: Scheme, p: Split)
    requires Genuine(s, p)
    ensures SplitOf(s, Rejoin(s, p.stripped, p.contentType, p.bundle).value) == Some(p)
  {
    DecodeFromBytes(s, p.contentType, p.bundle);
  }

  /** Two genuine splits with one id are one split. */
  lemma GenuineUnique(s: Scheme, p: Split, q: Split)
    requires s.Lawful() && Genuine(s, p) && Genuine(s, q) && p.id == q.id
    ensures p == q
  {
    var a := p.stripped.(evidence := FromBytes(s, p.contentType, p.bundle));
    var b := q.stripped.(evidence := FromBytes(s, q.contentType, q.bundle));
    SealInjective(s, a, b);
    RejoinThenSplit(s, p);
    RejoinThenSplit(s, q);
  }
}
