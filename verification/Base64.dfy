/**
  The standard base64 encoding of RFC 4648, section 4, decoded strictly:
  padding is required and the unused low bits of the last symbol must be zero.
 */
module Base64 {
  import opened Foundation

  type sextet = x: int | 0 <= x < 64

  function Symbol(v: sextet): char {
    if v < 26 then (65 + v) as char
    else if v < 52 then (71 + v) as char
    else if v < 62 then (v - 4) as char
    else if v == 62 then '+'
    else '/'
  }

  function ValueOf(c: char): Option<sextet> {
    if 'A' <= c <= 'Z' then Some((c as int) - 65)
    else if 'a' <= c <= 'z' then Some((c as int) - 71)
    else if '0' <= c <= '9' then Some((c as int) + 4)
    else if c == '+' then Some(62)
    else if c == '/' then Some(63)
    else None
  }

  lemma SymbolsRoundTrip(v: sextet, c: char)
    ensures ValueOf(Symbol(v)) == Some(v) && Symbol(v) != '='
    ensures ValueOf(c).Some? ==> Symbol(ValueOf(c).value) == c
  {
  }

  // The four sextets of a three-byte group; a short group is read with zero bytes.
  function S0(a: byte): sextet { a / 4 }
  function S1(a: byte, b: byte): sextet { (a % 4) * 16 + b / 16 }
  function S2(b: byte, c: byte): sextet { (b % 16) * 4 + c / 64 }
  function S3(c: byte): sextet { c % 64 }

  // The three bytes of a four-sextet group.
  function B0(p: sextet, q: sextet): byte { p * 4 + q / 16 }
  function B1(q: sextet, r: sextet): byte { (q % 16) * 16 + r / 4 }
  function B2(r: sextet, t: sextet): byte { (r % 4) * 64 + t }

  function Encode(bytes: seq<byte>): string {
    if |bytes| == 0 then ""
    else if |bytes| == 1 then
      [Symbol(S0(bytes[0])), Symbol(S1(bytes[0], 0)), '=', '=']
    else if |bytes| == 2 then
      [Symbol(S0(bytes[0])), Symbol(S1(bytes[0], bytes[1])), Symbol(S2(bytes[1], 0)), '=']
    else
      [Symbol(S0(bytes[0])), Symbol(S1(bytes[0], bytes[1])), Symbol(S2(bytes[1], bytes[2])), Symbol(S3(bytes[2]))]
      + Encode(bytes[3..])
  }

  /** One final group of four symbols, the only place padding may stand. */
  function DecodeLast(p: char, q: char, r: char, t: char): Option<seq<byte>> {
    var vp, vq := ValueOf(p), ValueOf(q);
    if vp.None? || vq.None? then None
    else if r == '=' && t == '=' then
      if vq.value % 16 == 0 then Some([B0(vp.value, vq.value)]) else None
    else
      var vr := ValueOf(r);
      if vr.None? then None
      else if t == '=' then
        if vr.value % 4 == 0 then Some([B0(vp.value, vq.value), B1(vq.value, vr.value)]) else None
      else
        var vt := ValueOf(t);
        if vt.None? then None
        else Some([B0(vp.value, vq.value), B1(vq.value, vr.value), B2(vr.value, vt.value)])
  }

  function Decode(text: string): Option<seq<byte>> {
    if |text| == 0 then Some([])
    else if |text| < 4 then None
    else if |text| == 4 then DecodeLast(text[0], text[1], text[2], text[3])
    else
      var group := DecodeLast(text[0], text[1], text[2], text[3]);
      var rest := Decode(text[4..]);
      if group.None? || rest.None? || |group.value| != 3 then None
      else Some(group.value + rest.value)
  }

  lemma GroupThere(a: byte, b: byte, c: byte)
    ensures B0(S0(a), S1(a, b)) == a && B1(S1(a, b), S2(b, c)) == b && B2(S2(b, c), S3(c)) == c
    ensures S1(a, 0) % 16 == 0 && S2(b, 0) % 4 == 0
  {
  }

  lemma GroupBack(p: sextet, q: sextet, r: sextet, t: sextet)
    ensures S0(B0(p, q)) == p && S1(B0(p, q), B1(q, r)) == q
    ensures S2(B1(q, r), B2(r, t)) == r && S3(B2(r, t)) == t
    ensures q % 16 == 0 ==> S1(B0(p, q), 0) == q
    ensures r % 4 == 0 ==> S2(B1(q, r), 0) == r
  {
  }

  // A last group of symbols decodes to the bytes its sextets spell, with no,
  // one or two padding characters.
  lemma DecodeLastOfSymbols(p: sextet, q: sextet, r: sextet, t: sextet)
    ensures DecodeLast(Symbol(p), Symbol(q), Symbol(r), Symbol(t)) == Some([B0(p, q), B1(q, r), B2(r, t)])
    ensures r % 4 == 0 ==> DecodeLast(Symbol(p), Symbol(q), Symbol(r), '=') == Some([B0(p, q), B1(q, r)])
    ensures q % 16 == 0 ==> DecodeLast(Symbol(p), Symbol(q), '=', '=') == Some([B0(p, q)])
  {
    SymbolsRoundTrip(p, '=');
    SymbolsRoundTrip(q, '=');
    SymbolsRoundTrip(r, '=');
    SymbolsRoundTrip(t, '=');
  }

  lemma DecodeFour(w: char, x: char, y: char, z: char)
    ensures Decode([w, x, y, z]) == DecodeLast(w, x, y, z)
  {
  }

  lemma DecodeOnePadded(p: sextet, q: sextet)
    requires q % 16 == 0
    ensures Decode([Symbol(p), Symbol(q), '=', '=']) == Some([B0(p, q)])
  {
    DecodeLastOfSymbols(p, q, 0, 0);
    DecodeFour(Symbol(p), Symbol(q), '=', '=');
  }

  lemma DecodeEncodeOne(a: byte)
    ensures Decode(Encode([a])) == Some([a])
  {
    GroupThere(a, 0, 0);
    DecodeOnePadded(S0(a), S1(a, 0));
  }

  lemma DecodeEncodeTwo(a: byte, b: byte)
    ensures Decode(Encode([a, b])) == Some([a, b])
  {
    var p, q, r := S0(a), S1(a, b), S2(b, 0);
    GroupThere(a, b, 0);
    DecodeLastOfSymbols(p, q, r, 0);
    DecodeFour(Symbol(p), Symbol(q), Symbol(r), '=');
  }

  lemma DecodeGroup(p: sextet, q: sextet, r: sextet, t: sextet, rest: string)
    requires Decode(rest).Some?
    ensures Decode([Symbol(p), Symbol(q), Symbol(r), Symbol(t)] + rest)
            == Some([B0(p, q), B1(q, r), B2(r, t)] + Decode(rest).value)
  {
    var group := [Symbol(p), Symbol(q), Symbol(r), Symbol(t)];
    DecodeLastOfSymbols(p, q, r, t);
    assert (group + rest)[4..] == rest;
    if |rest| == 0 {
      assert group + rest == group;
      DecodeFour(Symbol(p), Symbol(q), Symbol(r), Symbol(t));
      assert [B0(p, q), B1(q, r), B2(r, t)] + [] == [B0(p, q), B1(q, r), B2(r, t)];
    }
  }

  /** Decoding undoes encoding, for every byte string. */
  lemma {:induction false} DecodeEncode(bytes: seq<byte>)
    ensures Decode(Encode(bytes)) == Some(bytes)
  {
    if |bytes| == 1 {
      DecodeEncodeOne(bytes[0]);
      assert bytes == [bytes[0]];
    } else if |bytes| == 2 {
      DecodeEncodeTwo(bytes[0], bytes[1]);
      assert bytes == [bytes[0], bytes[1]];
    } else if |bytes| > 2 {
      var a, b, c := bytes[0], bytes[1], bytes[2];
      DecodeEncode(bytes[3..]);
      GroupThere(a, b, c);
      DecodeGroup(S0(a), S1(a, b), S2(b, c), S3(c), Encode(bytes[3..]));
      assert bytes == [a, b, c] + bytes[3..];
    }
  }

  lemma EncodeLast(p: char, q: char, r: char, t: char)
    requires DecodeLast(p, q, r, t).Some?
    ensures Encode(DecodeLast(p, q, r, t).value) == [p, q, r, t]
  {
    SymbolsRoundTrip(0, p);
    SymbolsRoundTrip(0, q);
    var vp, vq := ValueOf(p).value, ValueOf(q).value;
    if r == '=' && t == '=' {
      GroupBack(vp, vq, 0, 0);
    } else {
      SymbolsRoundTrip(0, r);
      SymbolsRoundTrip(0, t);
      var vr := ValueOf(r).value;
      var vt := if t == '=' then 0 else ValueOf(t).value;
      GroupBack(vp, vq, vr, vt);
      EncodeGroup(B0(vp, vq), B1(vq, vr), B2(vr, vt));
    }
  }

  lemma EncodePrepend(a: byte, b: byte, c: byte, rest: seq<byte>)
    ensures Encode([a, b, c] + rest)
            == [Symbol(S0(a)), Symbol(S1(a, b)), Symbol(S2(b, c)), Symbol(S3(c))] + Encode(rest)
  {
    assert ([a, b, c] + rest)[3..] == rest;
  }

  lemma EncodeGroup(a: byte, b: byte, c: byte)
    ensures Encode([a, b, c]) == [Symbol(S0(a)), Symbol(S1(a, b)), Symbol(S2(b, c)), Symbol(S3(c))]
  {
    assert [a, b, c][3..] == [];
  }

  lemma EncodeGroupBefore(group: seq<byte>, rest: seq<byte>)
    requires |group| == 3
    ensures Encode(group + rest) == Encode(group) + Encode(rest)
  {
    assert group == [group[0], group[1], group[2]];
    EncodeGroup(group[0], group[1], group[2]);
    EncodePrepend(group[0], group[1], group[2], rest);
  }

  /** Only the canonical text decodes: whatever decodes is what encoding gives back. */
  lemma {:induction false} EncodeDecode(text: string)
    requires Decode(text).Some?
    ensures Encode(Decode(text).value) == text
  {
    if |text| >= 4 {
      var head := [text[0], text[1], text[2], text[3]];
      assert text == head + text[4..];
      EncodeLast(text[0], text[1], text[2], text[3]);
      if |text| > 4 {
        EncodeDecode(text[4..]);
        EncodeGroupBefore(DecodeLast(text[0], text[1], text[2], text[3]).value, Decode(text[4..]).value);
      }
    }
  }

  /** The test vectors of RFC 4648, section 10, and the two symbols they lack. */
  lemma TestVectors()
    ensures Encode([102]) == "Zg==" && Encode([102, 111]) == "Zm8=" && Encode([102, 111, 111]) == "Zm9v"
    ensures Encode([102, 111, 111, 98]) == "Zm9vYg==" && Encode([102, 111, 111, 98, 97]) == "Zm9vYmE="
    ensures Encode([102, 111, 111, 98, 97, 114]) == "Zm9vYmFy"
    ensures Encode([251, 239, 190]) == "++++" && Encode([255, 255, 255]) == "////"
  {
    var tail := [102, 111, 111, 98, 97, 114];
    assert tail[3..] == [98, 97, 114] && tail[..5][3..] == [98, 97] && tail[..4][3..] == [98];
  }

  /** The alphabet of RFC 4648, table 1: three runs of consecutive characters, and two more. */
  lemma Alphabet(v: sextet)
    ensures Symbol(0) == 'A' && Symbol(25) == 'Z' && Symbol(26) == 'a' && Symbol(51) == 'z'
    ensures Symbol(52) == '0' && Symbol(61) == '9' && Symbol(62) == '+' && Symbol(63) == '/'
    ensures v < 61 && v != 25 && v != 51 ==> Symbol(v + 1) as int == Symbol(v) as int + 1
  {
  }
}
