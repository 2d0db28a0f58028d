/** OTLP identifier normalisation: base64 ids become lower-case hex. The encoders are the
    reference forms of sections 4 and 8 of RFC 4648. */
module OtlpIds {
  import opened Json

  type Byte = x: nat | x < 256

  predicate IsHexChar(c: char) { '0' <= c <= '9' || 'a' <= c <= 'f' || 'A' <= c <= 'F' }

  predicate IsHex(s: string) { forall i :: 0 <= i < |s| ==> IsHexChar(s[i]) }

  /** The value of a base64 digit, or -1. */
  function Digit64(c: char): (v: int)
    ensures -1 <= v < 64
    ensures v >= 0 ==> Char64(v) == c
  {
    if 'A' <= c <= 'Z' then (c - 'A') as int
    else if 'a' <= c <= 'z' then (c - 'a') as int + 26
    else if '0' <= c <= '9' then (c - '0') as int + 52
    else if c == '+' then 62
    else if c == '/' then 63
    else -1
  }

  function Char64(v: nat): (c: char)
    requires v < 64
    ensures c != '='
  {
    if v < 26 then 'A' + v as char
    else if v < 52 then 'a' + (v - 26) as char
    else if v < 62 then '0' + (v - 52) as char
    else if v == 62 then '+' else '/'
  }

  lemma Digit64OfChar(v: nat)
    requires v < 64
    ensures Digit64(Char64(v)) == v
  {
  }

  // ---------------------------------------------------------------------------
  // Decoding
  // ---------------------------------------------------------------------------

  datatype Quad = Quad(v0: nat, v1: nat, v2: nat, v3: nat)

  predicate SixBits(v: Quad) { v.v0 < 64 && v.v1 < 64 && v.v2 < 64 && v.v3 < 64 }

  function Byte0(v: Quad): (b: nat) { v.v0 * 4 + v.v1 / 16 }

  function Byte1(v: Quad): (b: nat) { (v.v1 * 16 + v.v2 / 4) % 256 }

  function Byte2(v: Quad): (b: nat) { (v.v2 * 64 + v.v3) % 256 }

  /** The bytes of one quad: `(v0 << 2) | (v1 >> 4)`, `(v1 << 4) | (v2 >> 2)` and
      `(v2 << 6) | v3`, each cut to eight bits; `pad` of them are dropped. */
  function QuadBytes(v: Quad, pad: nat): (r: seq<Byte>)
    requires SixBits(v) && pad <= 2
    ensures |r| == 3 - pad
  {
    if pad == 0 then [Byte0(v), Byte1(v), Byte2(v)] else if pad == 1 then [Byte0(v), Byte1(v)] else [Byte0(v)]
  }

  /** The digits of a quad; `=` is accepted only as the final padding. */
  function QuadDigits(q: string, last: bool, padding: nat): (r: Option<Quad>)
    requires |q| == 4 && padding <= 2
    ensures r.Some? ==> SixBits(r.value)
  {
    if DigitOk(q[0], 0, last, padding) && DigitOk(q[1], 1, last, padding)
       && DigitOk(q[2], 2, last, padding) && DigitOk(q[3], 3, last, padding)
    then Some(Quad(DigitOr0(q[0]), DigitOr0(q[1]), DigitOr0(q[2]), DigitOr0(q[3])))
    else None
  }

  predicate DigitOk(c: char, j: nat, last: bool, padding: nat)
    requires padding <= 2
  {
    if c == '=' then last && j >= 4 - padding else Digit64(c) >= 0
  }

  function DigitOr0(c: char): (v: nat)
    ensures v < 64
  {
    if Digit64(c) < 0 then 0 else Digit64(c)
  }

  function Padding(s: string): (p: nat)
    requires |s| >= 4
    ensures p <= 2
  {
    if s[|s| - 1] == '=' then if s[|s| - 2] == '=' then 2 else 1 else 0
  }

  function Join(front: Option<seq<Byte>>, rest: Option<seq<Byte>>): (r: Option<seq<Byte>>) {
    if front.Some? && rest.Some? then Some(front.value + rest.value) else None
  }

  function DecodeQuad(q: string, last: bool, padding: nat): (r: Option<seq<Byte>>)
    requires |q| == 4 && padding <= 2
  {
    match QuadDigits(q, last, padding)
    case None => None
    case Some(v) => Some(QuadBytes(v, if last then padding else 0))
  }

  function DecodeQuads(s: string): (r: Option<seq<Byte>>)
    requires |s| >= 4
    decreases |s|
  {
    if |s| == 4 then DecodeQuad(s, true, Padding(s))
    else if |s| < 8 then None
    else Join(DecodeQuad(s[..4], false, 0), DecodeQuads(s[4..]))
  }

  function Decode(s: string): (r: Option<seq<Byte>>) {
    if |s| == 0 || |s| % 4 != 0 then None else DecodeQuads(s)
  }

  /** The four digits at `i`, or failure at the first one that is not allowed there. */
  method ReadQuad(s: string, i: nat, padding: nat) returns (ok: bool, v: Quad)
    requires i + 4 <= |s| && padding <= 2
    ensures QuadDigits(s[i..i + 4], i + 4 == |s|, padding) == if ok then Some(v) else None
  {
    ghost var q := s[i..i + 4];
    var values: seq<nat> := [];
    ok, v := false, Quad(0, 0, 0, 0);
    for j := 0 to 4
      invariant |values| == j && !ok
      invariant forall k :: 0 <= k < j ==> values[k] == DigitOr0(q[k]) && DigitOk(q[k], k, i + 4 == |s|, padding)
    {
      var c := s[i + j];
      assert c == q[j] && (j == 0 || j == 1 || j == 2 || j == 3);
      if c == '=' {
        if i + 4 != |s| || j < 4 - padding { return; }
        values := values + [0];
      } else {
        if Digit64(c) < 0 { return; }
        values := values + [Digit64(c)];
      }
    }
    ok, v := true, Quad(values[0], values[1], values[2], values[3]);
  }

  /** `OtlpBase64Decode`. */
  method Base64Decode(s: string) returns (ok: bool, out: seq<Byte>)
    ensures ok <==> Decode(s).Some?
    ensures ok ==> Some(out) == Decode(s)
  {
    ok, out := false, [];
    hide DecodeQuads, QuadDigits, QuadBytes;
    if |s| == 0 || |s| % 4 != 0 { return; }
    var padding := Padding(s);
    var i := 0;
    assert s[0..] == s;
    assert DecodeQuads(s).Some? ==> out + DecodeQuads(s).value == DecodeQuads(s).value;
    while i < |s|
      invariant i <= |s| && (|s| - i) % 4 == 0 && !ok
      invariant Pending(s, i, out) == DecodeQuads(s)
    {
      var valid, v := ReadQuad(s, i, padding);
      StepQuad(s, i, out);
      if !valid { return; }
      out := PushBytes(out, v, i + 4 == |s|, padding);
      i := i + 4;
    }
    ok := true;
  }

  /** The result the decoder is heading for after `out`, with the text from `i` unread. */
  function Pending(s: string, i: nat, out: seq<Byte>): (r: Option<seq<Byte>>)
    requires i <= |s| && (i == |s| || i + 4 <= |s|)
  {
    if i == |s| then Some(out)
    else match DecodeQuads(s[i..]) case Some(b) => Some(out + b) case None => None
  }

  method PushBytes(out: seq<Byte>, v: Quad, last: bool, padding: nat) returns (r: seq<Byte>)
    requires SixBits(v) && padding <= 2
    ensures r == out + QuadBytes(v, if last then padding else 0)
  {
    r := out + [v.v0 * 4 + v.v1 / 16];
    if !last || padding < 2 { r := r + [(v.v1 * 16 + v.v2 / 4) % 256]; }
    if !last || padding < 1 { r := r + [(v.v2 * 64 + v.v3) % 256]; }
  }

  /** One more quad read moves the pending result one quad along, or settles failure. */
  lemma StepQuad(s: string, i: nat, out: seq<Byte>)
    requires i + 4 <= |s| && (i + 4 == |s| || i + 8 <= |s|)
    ensures
      var b := DecodeQuad(s[i..i + 4], i + 4 == |s|, Padding(s));
      Pending(s, i, out) == if b.None? then None else Pending(s, i + 4, out + b.value)
  {
    RestOfQuads(s, i);
    var b := DecodeQuad(s[i..i + 4], i + 4 == |s|, Padding(s));
    if i + 4 < |s| && b.Some? && DecodeQuads(s[i + 4..]).Some? {
      Regroup(out, b.value, DecodeQuads(s[i + 4..]).value);
    }
  }

  lemma Regroup(a: seq<Byte>, b: seq<Byte>, c: seq<Byte>)
    ensures (a + b) + c == a + (b + c)
  {
  }

  /** One quad off the unread rest; in the middle of the text padding is never valid. */
  lemma RestOfQuads(s: string, i: nat)
    requires i + 4 <= |s| && (i + 4 == |s| || i + 8 <= |s|)
    ensures
      var q := s[i..i + 4];
      DecodeQuads(s[i..]) == if i + 4 == |s| then DecodeQuad(q, true, Padding(s))
                             else Join(DecodeQuad(q, false, Padding(s)), DecodeQuads(s[i + 4..]))
  {
    assert s[i..][..4] == s[i..i + 4];
    if i + 4 == |s| {
      assert s[i..] == s[i..i + 4];
    } else {
      assert s[i..][4..] == s[i + 4..];
    }
  }

  // ---------------------------------------------------------------------------
  // The reference encoders
  // ---------------------------------------------------------------------------

  /** Base64 of one to three bytes, section 4 of RFC 4648. */
  function EncodeQuad(b: seq<Byte>): (r: string)
    requires 1 <= |b| <= 3
    ensures |r| == 4
  {
    var b1 := if |b| > 1 then b[1] else 0;
    var b2 := if |b| > 2 then b[2] else 0;
    [Char64(b[0] / 4), Char64(b[0] % 4 * 16 + b1 / 16),
     if |b| > 1 then Char64(b1 % 16 * 4 + b2 / 64) else '=',
     if |b| > 2 then Char64(b2 % 64) else '=']
  }

  function Base64(b: seq<Byte>): (r: string)
    ensures |r| % 4 == 0 && 4 * |b| <= 3 * |r| <= 4 * |b| + 8
    decreases |b|
  {
    if b == [] then ""
    else if |b| <= 3 then EncodeQuad(b)
    else EncodeQuad(b[..3]) + Base64(b[3..])
  }

  function HexDigit(v: nat): (c: char)
    requires v < 16
    ensures IsHexChar(c)
  {
    if v < 10 then '0' + v as char else 'a' + (v - 10) as char
  }

  /** Lower-case base16, section 8 of RFC 4648. */
  function Hex(b: seq<Byte>): (r: string)
    ensures |r| == 2 * |b| && IsHex(r)
  {
    if b == [] then "" else Hex(b[..|b| - 1]) + [HexDigit(b[|b| - 1] / 16), HexDigit(b[|b| - 1] % 16)]
  }

  lemma SplitBytes(b0: Byte, b1: Byte, b2: Byte)
    ensures
      var v := Quad(b0 / 4, b0 % 4 * 16 + b1 / 16, b1 % 16 * 4 + b2 / 64, b2 % 64);
      SixBits(v) && Byte0(v) == b0 && Byte1(v) == b1 && Byte2(v) == b2
  {
    var v1, v2 := b0 % 4 * 16 + b1 / 16, b1 % 16 * 4 + b2 / 64;
    Parts(v1, 16, b0 % 4, b1 / 16);
    Parts(v2, 4, b1 % 16, b2 / 64);
    Parts(v1 * 16 + v2 / 4, 256, b0 % 4, b1);
    Parts(v2 * 64 + b2 % 64, 256, b1 % 16, b2);
  }

  /** Quotient and remainder are the parts a number was put together from. */
  lemma Parts(x: nat, d: nat, q: nat, r: nat)
    requires d > 0 && x == q * d + r && r < d
    ensures x / d == q && x % d == r
  {
    assert (x / d - q) * d == r - x % d;
    NoMultipleBetween(x / d - q, d);
  }

  lemma NoMultipleBetween(k: int, d: nat)
    requires -(d as int) < k * d < d
    ensures k == 0
  {
    Scaled(k - 1, d);
    Scaled(-k - 1, d);
  }

  lemma Scaled(k: int, d: nat)
    ensures k >= 0 ==> k * d >= 0
  {
  }

  /** An encoded group is accepted where it belongs and decodes to its bytes. */
  lemma QuadRoundTrip(b: seq<Byte>, last: bool)
    requires 1 <= |b| <= 3 && (last || |b| == 3)
    ensures
      var v := QuadDigits(EncodeQuad(b), last, 3 - |b|);
      v.Some? && QuadBytes(v.value, 3 - |b|) == b
  {
    var b1 := if |b| > 1 then b[1] else 0;
    var b2 := if |b| > 2 then b[2] else 0;
    SplitBytes(b[0], b1, b2);
    Digit64OfChar(b[0] / 4);
    Digit64OfChar(b[0] % 4 * 16 + b1 / 16);
    Digit64OfChar(b1 % 16 * 4 + b2 / 64);
    Digit64OfChar(b2 % 64);
  }

  /** Decoding the base64 of any non-empty byte string returns it. */
  lemma {:induction false} Base64RoundTrip(b: seq<Byte>)
    requires b != []
    ensures Decode(Base64(b)) == Some(b)
    decreases |b|
  {
    if |b| <= 3 {
      QuadRoundTrip(b, true);
    } else {
      var head, tail := EncodeQuad(b[..3]), Base64(b[3..]);
      QuadRoundTrip(b[..3], false);
      Base64RoundTrip(b[3..]);
      assert (head + tail)[..4] == head && (head + tail)[4..] == tail;
      assert b == b[..3] + b[3..];
    }
  }

  // ---------------------------------------------------------------------------
  // Which accepted texts are canonical
  // ---------------------------------------------------------------------------

  /** The bits of the last quad that padding cuts off are zero. */
  predicate TrailingBitsZero(s: string)
    requires |s| >= 4
  {
    && (Padding(s) == 2 ==> DigitOr0(s[|s| - 3]) % 16 == 0)
    && (Padding(s) == 1 ==> DigitOr0(s[|s| - 2]) % 4 == 0)
  }

  /** The decoder is not injective: it accepts texts no encoder produces. */
  lemma NonCanonicalAccepted()
    ensures Decode("QQ==") == Decode("QR==") == Some([65])
  {
    assert QuadDigits("QQ==", true, 2) == Some(Quad(16, 16, 0, 0));
    assert QuadDigits("QR==", true, 2) == Some(Quad(16, 17, 0, 0));
    assert QuadBytes(Quad(16, 16, 0, 0), 2) == QuadBytes(Quad(16, 17, 0, 0), 2) == [65];
  }

  /** An accepted text is the encoding of what it decodes to exactly when the bits that
      padding cuts off are zero. */
  lemma CanonicalIff(s: string)
    requires Decode(s).Some?
    ensures Base64(Decode(s).value) == s <==> TrailingBitsZero(s)
  {
    EncodeOfDecode(s);
  }

  /** Quad by quad: re-encoding an accepted text restores it, up to those bits. */
  lemma {:induction false} EncodeOfDecode(s: string)
    requires |s| >= 4 && DecodeQuads(s).Some?
    ensures DecodeQuads(s).value != []
    ensures Base64(DecodeQuads(s).value) == s <==> TrailingBitsZero(s)
    decreases |s|
  {
    if |s| == 4 {
      QuadEncodesBack(s, true, Padding(s), QuadDigits(s, true, Padding(s)).value);
    } else {
      var v := QuadDigits(s[..4], false, 0).value;
      var b, rest := QuadBytes(v, 0), DecodeQuads(s[4..]).value;
      EncodeOfDecode(s[4..]);
      QuadEncodesBack(s[..4], false, 0, v);
      assert (b + rest)[..3] == b && (b + rest)[3..] == rest;
      assert s == s[..4] + s[4..];
      SameTail(s[..4], Base64(rest), s[4..]);
    }
  }

  lemma SameTail(front: string, a: string, b: string)
    ensures front + a == front + b <==> a == b
  {
    if front + a == front + b {
      assert a == (front + a)[|front|..] == (front + b)[|front|..] == b;
    }
  }

  lemma QuadEncodesBack(q: string, last: bool, padding: nat, v: Quad)
    requires |q| == 4 && padding <= 2 && QuadDigits(q, last, padding) == Some(v)
    requires last ==> padding == if q[3] == '=' then if q[2] == '=' then 2 else 1 else 0
    ensures
      var pad := if last then padding else 0;
      EncodeQuad(QuadBytes(v, pad)) == q
      <==> (pad == 2 ==> DigitOr0(q[1]) % 16 == 0) && (pad == 1 ==> DigitOr0(q[2]) % 4 == 0)
  {
    var pad := if last then padding else 0;
    var b := QuadBytes(v, pad);
    var b1 := if pad < 2 then b[1] else 0;
    var b2 := if pad < 1 then b[2] else 0;
    JoinBytes(v);
    assert b[0] / 4 == v.v0;
    assert b[0] % 4 * 16 + b1 / 16 == (if pad == 2 then v.v1 / 16 * 16 else v.v1);
    assert pad < 2 ==> b1 % 16 * 4 + b2 / 64 == if pad == 1 then v.v2 / 4 * 4 else v.v2;
    assert pad < 1 ==> b2 % 64 == v.v3;
    if pad == 2 && v.v1 % 16 != 0 { CharsDiffer(v.v1 / 16 * 16, v.v1); }
    if pad == 1 && v.v2 % 4 != 0 { CharsDiffer(v.v2 / 4 * 4, v.v2); }
  }

  lemma JoinBytes(v: Quad)
    requires SixBits(v)
    ensures Byte0(v) / 4 == v.v0 && Byte0(v) % 4 == v.v1 / 16
    ensures Byte1(v) / 16 == v.v1 % 16 && Byte1(v) % 16 == v.v2 / 4
    ensures Byte2(v) / 64 == v.v2 % 4 && Byte2(v) % 64 == v.v3
  {
    Parts(Byte0(v), 4, v.v0, v.v1 / 16);
    Parts(v.v1 * 16 + v.v2 / 4, 256, v.v1 / 16, v.v1 % 16 * 16 + v.v2 / 4);
    Parts(Byte1(v), 16, v.v1 % 16, v.v2 / 4);
    Parts(v.v2 * 64 + v.v3, 256, v.v2 / 4, v.v2 % 4 * 64 + v.v3);
    Parts(Byte2(v), 64, v.v2 % 4, v.v3);
  }

  lemma CharsDiffer(x: nat, y: nat)
    requires x < 64 && y < 64 && x != y
    ensures Char64(x) != Char64(y)
  {
    Digit64OfChar(x);
    Digit64OfChar(y);
  }

  /** Test vectors of section 10 of RFC 4648, and the ends of its alphabet. */
  lemma TestVectors()
    ensures Decode("Zg==") == Some([102]) && Decode("Zm8=") == Some([102, 111]) && Decode("Zm9v") == Some([102, 111, 111])
    ensures DecodeQuad("AZaz", false, 0) == Some([1, 150, 179])
    ensures Decode("09+/") == Some([211, 223, 191])
  {
  }

  lemma HexDigits()
    ensures Hex([0x98, 0xaf]) == "98af" && FromHex("0aF9") == [0x0a, 0xf9]
  {
    assert [0x98, 0xaf][..1] == [0x98] && [0x98][..0] == [];
    assert "0aF9"[..2] == "0a" && "0a"[..0] == "";
  }

  // ---------------------------------------------------------------------------
  // Normalisation
  // ---------------------------------------------------------------------------

  /** The expected byte width of an id field, 0 for any other key. */
  function IdWidth(key: string): (w: nat)
    ensures w in {0, 8, 16}
  {
    if key == "traceId" then 16
    else if key == "spanId" || key == "parentSpanId" then 8
    else 0
  }

  /** The string branch of `OtlpNormalizeValue` for id fields. */
  function NormalizeId(key: string, s: string): (r: string) {
    var w := IdWidth(key);
    if w == 0 || (|s| == 2 * w && IsHex(s)) then s
    else
      match Decode(s)
      case Some(b) => if |b| == w then Hex(b) else s
      case None => s
  }

  /** Trace ids of sixteen bytes, span ids of eight, under the three keys of OTLP; strings under
      other keys, and of other widths, stay as they are. */
  lemma IdFields(key: string, id: seq<Byte>)
    ensures key == "traceId" && |id| == 16 ==> NormalizeId(key, Base64(id)) == Hex(id)
    ensures key in {"spanId", "parentSpanId"} && |id| == 8 ==> NormalizeId(key, Base64(id)) == Hex(id)
    ensures id != [] && !(key == "traceId" && |id| == 16) && !(key in {"spanId", "parentSpanId"} && |id| == 8) ==>
      NormalizeId(key, Base64(id)) == Base64(id)
  {
    if IdWidth(key) > 0 && |id| == IdWidth(key) { EncodingsAgree(key, id); }
    if id != [] { Base64RoundTrip(id); }
  }

  /** Both wire encodings of an id meet in its lower-case hex form. */
  lemma EncodingsAgree(key: string, id: seq<Byte>)
    requires IdWidth(key) > 0 && |id| == IdWidth(key)
    ensures NormalizeId(key, Base64(id)) == Hex(id)
    ensures NormalizeId(key, Hex(id)) == Hex(id)
  {
    Base64RoundTrip(id);
    assert |Base64(id)| != 2 * |id|;
  }

  lemma NormalizeIdempotent(key: string, s: string)
    ensures NormalizeId(key, NormalizeId(key, s)) == NormalizeId(key, s)
  {
    var r := NormalizeId(key, s);
    if r != s {
      assert |r| == 2 * IdWidth(key) && IsHex(r);
    }
  }

  lemma {:induction false} HexInjective(a: seq<Byte>, b: seq<Byte>)
    requires Hex(a) == Hex(b)
    ensures a == b
    decreases |a|
  {
    if a != [] {
      var ha, hb := Hex(a), Hex(b);
      assert |a| == |b|;
      var x, y := a[|a| - 1], b[|b| - 1];
      assert ha[|ha| - 2] == HexDigit(x / 16) && hb[|hb| - 2] == HexDigit(y / 16);
      assert ha[|ha| - 1] == HexDigit(x % 16) && hb[|hb| - 1] == HexDigit(y % 16);
      assert x == y;
      assert ha[..|ha| - 2] == Hex(a[..|a| - 1]) && hb[..|hb| - 2] == Hex(b[..|b| - 1]);
      HexInjective(a[..|a| - 1], b[..|b| - 1]);
    }
  }

  /** Different ids never normalise to the same string, in any mix of encodings. */
  lemma DistinctIdsStayDistinct(key: string, a: seq<Byte>, b: seq<Byte>, wireA: string, wireB: string)
    requires IdWidth(key) > 0 && |a| == |b| == IdWidth(key)
    requires wireA in {Base64(a), Hex(a)} && wireB in {Base64(b), Hex(b)}
    ensures NormalizeId(key, wireA) == NormalizeId(key, wireB) <==> a == b
  {
    EncodingsAgree(key, a);
    EncodingsAgree(key, b);
    if Hex(a) == Hex(b) { HexInjective(a, b); }
  }

  predicate UpperHex(c: char) { 'A' <= c <= 'F' }

  function HexValue(c: char): (v: nat)
    requires IsHexChar(c)
    ensures v < 16
  {
    if '0' <= c <= '9' then (c - '0') as nat
    else if 'a' <= c <= 'f' then 10 + (c - 'a') as nat
    else 10 + (c - 'A') as nat
  }

  /** The bytes a hex text of either case denotes. */
  function FromHex(s: string): (b: seq<Byte>)
    requires IsHex(s) && |s| % 2 == 0
    ensures |b| == |s| / 2
  {
    if s == [] then []
    else FromHex(s[..|s| - 2]) + [HexValue(s[|s| - 2]) * 16 + HexValue(s[|s| - 1])]
  }

  lemma HexDigitOfValue(c: char)
    requires IsHexChar(c)
    ensures HexDigit(HexValue(c)) == c <==> !UpperHex(c)
  {
  }

  predicate LowerCase(s: string) { forall i :: 0 <= i < |s| ==> !UpperHex(s[i]) }

  lemma LowerCaseAppend(init: string, x: char, y: char)
    ensures LowerCase(init + [x, y]) <==> LowerCase(init) && !UpperHex(x) && !UpperHex(y)
  {
    var s := init + [x, y];
    assert s[|init|] == x && s[|init| + 1] == y;
    if LowerCase(s) {
      forall i | 0 <= i < |init| ensures !UpperHex(init[i]) {
        assert s[i] == init[i];
      }
    }
  }

  lemma SameEnds(a: string, b: string, x: char, y: char, x': char, y': char)
    requires |a| == |b|
    ensures a + [x, y] == b + [x', y'] <==> a == b && x == x' && y == y'
  {
    var s, s' := a + [x, y], b + [x', y'];
    assert s[..|a|] == a && s'[..|b|] == b;
    assert s[|a|] == x && s'[|a|] == x' && s[|a| + 1] == y && s'[|a| + 1] == y';
  }

  lemma HexAppend(b: seq<Byte>, x: nat, y: nat)
    requires x < 16 && y < 16
    ensures Hex(b + [x * 16 + y]) == Hex(b) + [HexDigit(x), HexDigit(y)]
  {
    var all: seq<Byte> := b + [x * 16 + y];
    assert all[..|all| - 1] == b && all[|all| - 1] == x * 16 + y;
    assert (x * 16 + y) / 16 == x && (x * 16 + y) % 16 == y;
  }

  lemma FromHexAppend(init: string, x: char, y: char)
    requires IsHex(init) && |init| % 2 == 0 && IsHexChar(x) && IsHexChar(y)
    ensures IsHex(init + [x, y]) && |init + [x, y]| % 2 == 0
    ensures FromHex(init + [x, y]) == FromHex(init) + [HexValue(x) * 16 + HexValue(y)]
  {
    var s := init + [x, y];
    assert s[..|s| - 2] == init && s[|s| - 2] == x && s[|s| - 1] == y;
  }

  lemma HexTwoMore(init: string, x: char, y: char)
    requires IsHex(init) && |init| % 2 == 0 && IsHexChar(x) && IsHexChar(y)
    requires Hex(FromHex(init)) == init <==> LowerCase(init)
    ensures IsHex(init + [x, y]) && |init + [x, y]| % 2 == 0
    ensures Hex(FromHex(init + [x, y])) == init + [x, y] <==> LowerCase(init + [x, y])
  {
    hide Hex, FromHex, HexDigit, UpperHex, LowerCase;
    FromHexAppend(init, x, y);
    HexDigitOfValue(x);
    HexDigitOfValue(y);
    HexAppend(FromHex(init), HexValue(x), HexValue(y));
    SameEnds(Hex(FromHex(init)), init, HexDigit(HexValue(x)), HexDigit(HexValue(y)), x, y);
    LowerCaseAppend(init, x, y);
  }

  /** Writing the bytes again gives the text back exactly when it is in lower case. */
  lemma {:induction false} HexOfFromHex(s: string)
    requires IsHex(s) && |s| % 2 == 0
    ensures Hex(FromHex(s)) == s <==> LowerCase(s)
    decreases |s|
  {
    if s != [] {
      var init, x, y := s[..|s| - 2], s[|s| - 2], s[|s| - 1];
      assert s == init + [x, y];
      HexOfFromHex(init);
      HexTwoMore(init, x, y);
    }
  }

  /** Hex of the field's width passes through untouched, in either case. It meets the form
      that the base64 of the same id normalises to if and only if it has no upper-case
      digit. */
  lemma HexMeetsBase64Iff(key: string, s: string)
    requires IdWidth(key) > 0 && |s| == 2 * IdWidth(key) && IsHex(s)
    ensures |FromHex(s)| == IdWidth(key)
    ensures NormalizeId(key, s) == s
    ensures NormalizeId(key, s) == NormalizeId(key, Base64(FromHex(s))) <==> LowerCase(s)
  {
    EncodingsAgree(key, FromHex(s));
    HexOfFromHex(s);
  }

  lemma UpperCaseHexIsKept()
    ensures NormalizeId("spanId", "ABCDEFABCDEFABCD") == "ABCDEFABCDEFABCD"
  {
    HexMeetsBase64Iff("spanId", "ABCDEFABCDEFABCD");
  }
}
