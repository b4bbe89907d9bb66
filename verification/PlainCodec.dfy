/**
  A log format that is lawful: what the model assumes of the JSON lines of
  src/aggregator/session_store.rs can be had. Records open with a brace, as a
  JSON object does.
 */
module PlainCodec {
  import opened Foundation
  import opened Session
  import opened SessionLog

  const BRACE: byte := 123

  /** Codes that end by themselves. */
  ghost predicate SelfDelimiting<T(!new)>(code: T -> seq<byte>) {
    forall a, b, x, y :: code(a) + x == code(b) + y ==> a == b && x == y
  }

  predicate Unbroken(s: seq<byte>) {
    LF !in s
  }

  ghost predicate Lineless<T(!new)>(code: T -> seq<byte>) {
    forall a :: Unbroken(code(a))
  }

  /** A number in unary, closed by a zero. */
  function Number(n: nat): seq<byte> {
    if n == 0 then [48] else [49] + Number(n - 1)
  }

  /** Text as its characters, each announced by a one, closed by a zero. */
  function Str(s: string): seq<byte> {
    if s == "" then [48] else [49] + (Number(s[0] as int) + Str(s[1..]))
  }

  function Maybe<T>(code: T -> seq<byte>): Option<T> -> seq<byte> {
    (o: Option<T>) => if o.None? then [48] else [49] + code(o.value)
  }

  function Both<S, T>(f: S -> seq<byte>, g: T -> seq<byte>): ((S, T)) -> seq<byte> {
    (p: (S, T)) => f(p.0) + g(p.1)
  }

  lemma Tail(b: byte, s: seq<byte>, x: seq<byte>)
    ensures ([b] + s + x)[0] == b && ([b] + s + x)[1..] == s + x
  {
  }

  lemma {:induction false} NumberApart(a: nat, b: nat, x: seq<byte>, y: seq<byte>)
    requires Number(a) + x == Number(b) + y
    ensures a == b && x == y
  {
    Tail(if a == 0 then 48 else 49, if a == 0 then [] else Number(a - 1), x);
    Tail(if b == 0 then 48 else 49, if b == 0 then [] else Number(b - 1), y);
    assert [48] + [] == [48];
    if a == 0 || b == 0 {
      assert [] + x == x && [] + y == y;
    } else {
      NumberApart(a - 1, b - 1, x, y);
    }
  }

  lemma {:induction false} StrApart(a: string, b: string, x: seq<byte>, y: seq<byte>)
    requires Str(a) + x == Str(b) + y
    ensures a == b && x == y
  {
    Tail(if a == "" then 48 else 49, if a == "" then [] else Number(a[0] as int) + Str(a[1..]), x);
    Tail(if b == "" then 48 else 49, if b == "" then [] else Number(b[0] as int) + Str(b[1..]), y);
    assert [48] + [] == [48];
    if a == "" || b == "" {
      assert [] + x == x && [] + y == y;
    } else {
      ConcatAssoc(Number(a[0] as int), Str(a[1..]), x);
      ConcatAssoc(Number(b[0] as int), Str(b[1..]), y);
      NumberApart(a[0] as int, b[0] as int, Str(a[1..]) + x, Str(b[1..]) + y);
      StrApart(a[1..], b[1..], x, y);
      assert a == [a[0]] + a[1..] && b == [b[0]] + b[1..];
    }
  }

  lemma NumberDelimits()
    ensures SelfDelimiting(Number)
  {
    forall a, b, x, y | Number(a) + x == Number(b) + y
      ensures a == b && x == y
    {
      NumberApart(a, b, x, y);
    }
  }

  lemma StrDelimits()
    ensures SelfDelimiting(Str)
  {
    forall a, b, x, y | Str(a) + x == Str(b) + y
      ensures a == b && x == y
    {
      StrApart(a, b, x, y);
    }
  }

  lemma MaybeDelimits<T(!new)>(code: T -> seq<byte>)
    requires SelfDelimiting(code)
    ensures SelfDelimiting(Maybe(code))
  {
    var m := Maybe(code);
    forall a, b, x, y | m(a) + x == m(b) + y
      ensures a == b && x == y
    {
      Tail(if a.None? then 48 else 49, if a.None? then [] else code(a.value), x);
      Tail(if b.None? then 48 else 49, if b.None? then [] else code(b.value), y);
      assert [48] + [] == [48] && [] + x == x && [] + y == y;
    }
  }

  lemma BothDelimits<S(!new), T(!new)>(f: S -> seq<byte>, g: T -> seq<byte>)
    requires SelfDelimiting(f) && SelfDelimiting(g)
    ensures SelfDelimiting(Both(f, g))
  {
    var h := Both(f, g);
    forall a, b, x, y | h(a) + x == h(b) + y
      ensures a == b && x == y
    {
      ConcatAssoc(f(a.0), g(a.1), x);
      ConcatAssoc(f(b.0), g(b.1), y);
      assert f(a.0) + (g(a.1) + x) == f(b.0) + (g(b.1) + y);
      assert g(a.1) + x == g(b.1) + y;
    }
  }

  lemma UnbrokenConcat(a: seq<byte>, b: seq<byte>)
    requires Unbroken(a) && Unbroken(b)
    ensures Unbroken(a + b)
  {
  }

  lemma {:induction false} NumberLine(n: nat)
    ensures Unbroken(Number(n))
  {
    if n > 0 {
      NumberLine(n - 1);
      UnbrokenConcat([49], Number(n - 1));
    }
  }

  lemma {:induction false} StrLine(s: string)
    ensures Unbroken(Str(s))
  {
    if s != "" {
      NumberLine(s[0] as int);
      StrLine(s[1..]);
      UnbrokenConcat(Number(s[0] as int), Str(s[1..]));
      UnbrokenConcat([49], Number(s[0] as int) + Str(s[1..]));
    }
  }

  lemma MaybeLine<T(!new)>(code: T -> seq<byte>)
    requires Lineless(code)
    ensures Lineless(Maybe(code))
  {
    forall o
      ensures Unbroken(Maybe(code)(o))
    {
      if o.Some? { UnbrokenConcat([49], code(o.value)); }
    }
  }

  lemma BothLine<S(!new), T(!new)>(f: S -> seq<byte>, g: T -> seq<byte>)
    requires Lineless(f) && Lineless(g)
    ensures Lineless(Both(f, g))
  {
    forall p
      ensures Unbroken(Both(f, g)(p))
    {
      UnbrokenConcat(f(p.0), g(p.1));
    }
  }

  /** A number, a text and their options and pairs are all of this kind. */
  ghost predicate Good<T(!new)>(code: T -> seq<byte>) {
    SelfDelimiting(code) && Lineless(code)
  }

  lemma NumberGood()
    ensures Good(Number)
  {
    NumberDelimits();
    forall n
      ensures Unbroken(Number(n))
    {
      NumberLine(n);
    }
  }

  lemma StrGood()
    ensures Good(Str)
  {
    StrDelimits();
    forall s
      ensures Unbroken(Str(s))
    {
      StrLine(s);
    }
  }

  lemma MaybeGood<T(!new)>(code: T -> seq<byte>)
    requires Good(code)
    ensures Good(Maybe(code))
  {
    MaybeDelimits(code);
    MaybeLine(code);
  }

  lemma BothGood<S(!new), T(!new)>(f: S -> seq<byte>, g: T -> seq<byte>)
    requires Good(f) && Good(g)
    ensures Good(Both(f, g))
  {
    BothDelimits(f, g);
    BothLine(f, g);
  }

  // ---------- records and documents ----------

  function Names(): ((Option<string>, Option<string>)) -> seq<byte> {
    Both(Maybe(Str), Maybe(Str))
  }

  type Fields = ((nat, nat), ((string, string), ((Option<string>, Option<string>), Option<nat>)))

  function FieldsOf(r: Record): Fields {
    ((r.seqNo, r.ts), ((r.kind, r.payload), ((r.fingerprint, r.contentType), r.retentionUntil)))
  }

  function FieldsCode(): Fields -> seq<byte> {
    Both(Both(Number, Number), Both(Both(Str, Str), Both(Names(), Maybe(Number))))
  }

  type Parts = ((string, (nat, nat)), (Option<string>, Option<string>))

  function PartsOf(d: Document): Parts {
    ((d.body, (d.establishedAt, d.expiresAt)), (d.evidence.digest, d.evidence.data))
  }

  function PartsCode(): Parts -> seq<byte> {
    Both(Both(Str, Both(Number, Number)), Names())
  }

  lemma CodesGood()
    ensures Good(FieldsCode()) && Good(PartsCode())
  {
    NumberGood();
    StrGood();
    MaybeGood(Number);
    MaybeGood(Str);
    BothGood(Number, Number);
    BothGood(Str, Str);
    BothGood(Maybe(Str), Maybe(Str));
    BothGood(Names(), Maybe(Number));
    BothGood(Both(Str, Str), Both(Names(), Maybe(Number)));
    BothGood(Both(Number, Number), Both(Both(Str, Str), Both(Names(), Maybe(Number))));
    BothGood(Str, Both(Number, Number));
    BothGood(Both(Str, Both(Number, Number)), Names());
  }

  function Render(r: Record): seq<byte> {
    [BRACE] + FieldsCode()(FieldsOf(r))
  }

  ghost function Read(line: seq<byte>): Option<Record> {
    if exists r :: Render(r) == line then
      var r :| Render(r) == line;
      Some(r)
    else None
  }

  function Json(d: Document): seq<byte> {
    PartsCode()(PartsOf(d))
  }

  ghost function ReadDocument(bytes: seq<byte>): Option<Document> {
    if exists d :: Json(d) == bytes then
      var d :| Json(d) == bytes;
      Some(d)
    else None
  }

  ghost function Plain(): Codec {
    CodecOf(Render, Read, Json, ReadDocument)
  }

  // No record begins with another.
  lemma RenderApart(a: Record, b: Record, more: seq<byte>)
    requires Render(a) + more == Render(b)
    ensures a == b && more == []
  {
    CodesGood();
    var x, y := FieldsCode()(FieldsOf(a)), FieldsCode()(FieldsOf(b));
    Tail(BRACE, x, more);
    assert Render(b)[1..] == y && y == y + [];
    assert x + more == y + [];
  }

  lemma JsonApart(a: Document, b: Document)
    requires Json(a) == Json(b)
    ensures a == b
  {
    CodesGood();
    assert Json(a) + [] == Json(b) + [];
  }

  lemma RecordReads(r: Record)
    ensures Render(r) != [] && LF !in Render(r) && Read(Render(r)) == Some(r)
  {
    CodesGood();
    UnbrokenConcat([BRACE], FieldsCode()(FieldsOf(r)));
    var back := Read(Render(r)).value;
    assert Render(back) + [] == Render(r);
    RenderApart(back, r, []);
  }

  lemma Parted(s: seq<byte>, k: nat)
    requires k <= |s|
    ensures s[..k] + s[k..] == s
  {
  }

  lemma PrefixReadsNothing(r: Record, k: nat)
    requires k < |Render(r)|
    ensures Read(Render(r)[..k]).None?
  {
    if Read(Render(r)[..k]).Some? {
      var other := Read(Render(r)[..k]).value;
      Parted(Render(r), k);
      RenderApart(other, r, Render(r)[k..]);
    }
  }

  lemma PlainLawful()
    ensures Plain().Lawful()
  {
    forall r
      ensures Render(r) != [] && LF !in Render(r) && Read(Render(r)) == Some(r)
    {
      RecordReads(r);
    }
    forall r, k: nat | k < |Render(r)|
      ensures Read(Render(r)[..k]).None?
    {
      PrefixReadsNothing(r, k);
    }
    forall d
      ensures ReadDocument(Json(d)) == Some(d)
    {
      JsonApart(ReadDocument(Json(d)).value, d);
    }
    CodecOfLawful(Render, Read, Json, ReadDocument);
  }

  /** A line that opens twice is no record. */
  lemma TwoBraces(r: Record)
    ensures Read([BRACE] + Render(r)).None?
  {
    if Read([BRACE] + Render(r)).Some? {
      var other := Read([BRACE] + Render(r)).value;
      assert Render(other)[1] == BRACE;
      assert Number(other.seqNo)[0] != BRACE;
    }
  }
}
