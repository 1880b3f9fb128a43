/**
  `encodeURIComponent` and `decodeURIComponent` (sections 19.2.6.4 and 19.2.6.2 of ECMA-262)
  over strings of UTF-16 code units: percent-encoding, section 2.1 of RFC 3986, of UTF-8 bytes.
*/
module Percent {
  import opened Options

  type Unit = x: int | 0 <= x < 0x10000
  type Str = seq<Unit>

  /** A literal as code units. */
  function L(s: string): (r: Str)
    ensures |r| == |s|
  {
    seq(|s|, i requires 0 <= i < |s| => s[i] as int % 0x10000)
  }

  predicate Digit(c: Unit) { 48 <= c <= 57 }
  predicate Upper(c: Unit) { 65 <= c <= 90 }
  predicate Lower(c: Unit) { 97 <= c <= 122 }

  /** What is never encoded: letters, digits and - _ . ! ~ * ' ( ). */
  predicate Unreserved(c: Unit) {
    Digit(c) || Upper(c) || Lower(c) || c == 45 || c == 95 || c == 46 || c == 33 || c == 126 || c == 42 || c == 39 || c == 40 || c == 41
  }

  const PERCENT: Unit := 37

  predicate High(c: Unit) { 0xD800 <= c < 0xDC00 }
  predicate Low(c: Unit) { 0xDC00 <= c < 0xE000 }

  /** Every surrogate stands in a pair. */
  predicate WellFormed(s: Str) {
    if s == [] then true
    else if High(s[0]) then |s| >= 2 && Low(s[1]) && WellFormed(s[2..])
    else !Low(s[0]) && WellFormed(s[1..])
  }

  // ---- Bytes

  function HexDigit(n: int): Unit
    requires 0 <= n < 16
  {
    if n < 10 then 48 + n else 55 + n
  }

  function HexValue(c: Unit): Option<int> {
    if Digit(c) then Some(c - 48)
    else if 65 <= c <= 70 then Some(c - 55)
    else if 97 <= c <= 102 then Some(c - 87)
    else None
  }

  /** One byte as %XX. */
  function Hex(b: int): Str
    requires 0 <= b < 256
  {
    [PERCENT, HexDigit(b / 16), HexDigit(b % 16)]
  }

  /** The byte of a %XX at the start of `s`. */
  function ByteAt(s: Str): (r: Option<int>)
    ensures r.Some? ==> |s| >= 3 && 0 <= r.value < 256
  {
    if |s| < 3 || s[0] != PERCENT || HexValue(s[1]) == None || HexValue(s[2]) == None then None
    else Some(HexValue(s[1]).value * 16 + HexValue(s[2]).value)
  }

  lemma HexBack(b: int, rest: Str)
    requires 0 <= b < 256
    ensures ByteAt(Hex(b) + rest) == Some(b) && (Hex(b) + rest)[3..] == rest
  {
  }

  // ---- Code points

  function Utf8(cp: int): seq<int>
    requires 0 <= cp < 0x110000
  {
    if cp < 0x80 then [cp]
    else if cp < 0x800 then [0xC0 + cp / 64, 0x80 + cp % 64]
    else if cp < 0x10000 then [0xE0 + cp / 64 / 64, 0x80 + cp / 64 % 64, 0x80 + cp % 64]
    else [0xF0 + cp / 64 / 64 / 64, 0x80 + cp / 64 / 64 % 64, 0x80 + cp / 64 % 64, 0x80 + cp % 64]
  }

  lemma Utf8Bytes(cp: int)
    requires 0 <= cp < 0x110000
    ensures forall i :: 0 <= i < |Utf8(cp)| ==> 0 <= Utf8(cp)[i] < 256
  {
  }

  function HexAll(bytes: seq<int>): Str
    requires forall i :: 0 <= i < |bytes| ==> 0 <= bytes[i] < 256
  {
    if bytes == [] then [] else Hex(bytes[0]) + HexAll(bytes[1..])
  }

  function PairPoint(h: Unit, l: Unit): int { 0x10000 + (h - 0xD800) * 1024 + (l - 0xDC00) }

  /** A code point as code units. */
  function Units(cp: int): Str
    requires 0 <= cp < 0x110000
  {
    if cp < 0x10000 then [cp] else [0xD800 + (cp - 0x10000) / 1024, 0xDC00 + (cp - 0x10000) % 1024]
  }

  function EncodePoint(cp: int): Str
    requires 0 <= cp < 0x110000
  {
    Utf8Bytes(cp);
    HexAll(Utf8(cp))
  }

  /** The encoded string; None where the original throws, on a surrogate without its pair. */
  function Encode(s: Str): Option<Str> {
    if s == [] then Some([])
    else if Low(s[0]) then None
    else if High(s[0]) then
      if |s| < 2 || !Low(s[1]) then None
      else
        var rest := Encode(s[2..]);
        if rest == None then None else Some(EncodePoint(PairPoint(s[0], s[1])) + rest.value)
    else
      var rest := Encode(s[1..]);
      if rest == None then None
      else Some((if Unreserved(s[0]) then [s[0]] else EncodePoint(s[0])) + rest.value)
  }

  predicate Continues(b: Option<int>) { b.Some? && 0x80 <= b.value < 0xC0 }

  /** The code point of the %XX sequence at the start of `s`, and how many bytes it has; None where the original throws. */
  function PointAt(s: Str): (r: Option<(int, nat)>)
    ensures r.Some? ==> 0 <= r.value.0 < 0x110000 && 1 <= r.value.1 <= 4 && 3 * r.value.1 <= |s|
  {
    var b := ByteAt(s);
    if b == None then None
    else if b.value < 0x80 then Some((b.value, 1))
    else
      var c1 := ByteAt(s[3..]);
      if !Continues(c1) then None
      else if 0xC0 <= b.value < 0xE0 then
        var cp := (b.value - 0xC0) * 64 + (c1.value - 0x80);
        if cp >= 0x80 then Some((cp, 2)) else None
      else
        var c2 := ByteAt(s[6..]);
        if !Continues(c2) then None
        else if 0xE0 <= b.value < 0xF0 then
          var cp := (b.value - 0xE0) * 4096 + (c1.value - 0x80) * 64 + (c2.value - 0x80);
          if cp >= 0x800 && !(0xD800 <= cp < 0xE000) then Some((cp, 3)) else None
        else
          var c3 := ByteAt(s[9..]);
          if !Continues(c3) || !(0xF0 <= b.value < 0xF8) then None
          else
            var cp := (b.value - 0xF0) * 262144 + (c1.value - 0x80) * 4096 + (c2.value - 0x80) * 64 + (c3.value - 0x80);
            if 0x10000 <= cp < 0x110000 then Some((cp, 4)) else None
  }

  function Decode(s: Str): Option<Str>
    decreases |s|
  {
    if s == [] then Some([])
    else if s[0] != PERCENT then
      var rest := Decode(s[1..]);
      if rest == None then None else Some([s[0]] + rest.value)
    else
      var p := PointAt(s);
      if p == None then None
      else
        var rest := Decode(s[3 * p.value.1..]);
        if rest == None then None else Some(Units(p.value.0) + rest.value)
  }

  // ---- Decoding undoes encoding

  lemma Hex1(a: int, rest: Str)
    requires 0 <= a < 256
    ensures HexAll([a]) + rest == Hex(a) + rest
  {
    assert [a][1..] == [];
  }

  lemma HexMore(a: int, bytes: seq<int>, rest: Str)
    requires 0 <= a < 256 && forall i :: 0 <= i < |bytes| ==> 0 <= bytes[i] < 256
    ensures HexAll([a] + bytes) + rest == Hex(a) + (HexAll(bytes) + rest)
  {
    hide Hex;
    assert ([a] + bytes)[1..] == bytes;
    Assoc(Hex(a), HexAll(bytes), rest);
  }

  lemma Assoc(a: Str, b: Str, c: Str)
    ensures a + b + c == a + (b + c)
  {
  }

  lemma PointBack1(cp: int, rest: Str)
    requires 0 <= cp < 0x80
    ensures PointAt(EncodePoint(cp) + rest) == Some((cp, 1)) && (EncodePoint(cp) + rest)[3..] == rest
  {
    Hex1(cp, rest);
    HexBack(cp, rest);
  }

  /** The %XX sequences of bytes, one taken after the other. */
  lemma TakeHex(a: int, bytes: seq<int>, rest: Str)
    requires 0 <= a < 256 && forall i :: 0 <= i < |bytes| ==> 0 <= bytes[i] < 256
    ensures var s := HexAll([a] + bytes) + rest;
            ByteAt(s) == Some(a) && |s| >= 3 && s[3..] == HexAll(bytes) + rest
  {
    HexMore(a, bytes, rest);
    HexBack(a, HexAll(bytes) + rest);
  }

  lemma PointBack2(cp: int, rest: Str)
    requires 0x80 <= cp < 0x800
    ensures PointAt(EncodePoint(cp) + rest) == Some((cp, 2)) && (EncodePoint(cp) + rest)[6..] == rest
  {
    hide HexAll, ByteAt;
    var a, b := 0xC0 + cp / 64, 0x80 + cp % 64;
    TakeHex(a, [b], rest);
    TakeHex(b, [], rest);
    assert [a] + [b] == Utf8(cp) && [b] + [] == [b];
    HexNone(rest);
    var s := EncodePoint(cp) + rest;
    assert s[3..][3..] == s[6..];
  }

  lemma HexNone(rest: Str)
    ensures HexAll([]) + rest == rest
  {
  }

  /** The bytes at the start of a string, one %XX after the other. */
  ghost predicate BytesAt(s: Str, bytes: seq<int>)
    decreases |bytes|
  {
    bytes == [] || (|s| >= 3 && ByteAt(s) == Some(bytes[0]) && BytesAt(s[3..], bytes[1..]))
  }

  lemma {:induction false} HexBytes(bytes: seq<int>, rest: Str)
    requires forall i :: 0 <= i < |bytes| ==> 0 <= bytes[i] < 256
    ensures var s := HexAll(bytes) + rest;
            BytesAt(s, bytes) && |s| >= 3 * |bytes| && s[3 * |bytes|..] == rest
  {
    var s := HexAll(bytes) + rest;
    if bytes == [] {
      assert s == rest;
    } else {
      hide ByteAt, HexAll;
      assert bytes == [bytes[0]] + bytes[1..];
      TakeHex(bytes[0], bytes[1..], rest);
      HexBytes(bytes[1..], rest);
      assert s[3..][3 * |bytes[1..]|..] == s[3 * |bytes|..];
    }
  }

  lemma BytesStep(s: Str, a: int, bytes: seq<int>)
    requires BytesAt(s, [a] + bytes)
    ensures |s| >= 3 && ByteAt(s) == Some(a) && BytesAt(s[3..], bytes)
  {
    assert ([a] + bytes)[1..] == bytes;
  }

  lemma ThreeBytes(s: Str, a: int, b: int, c: int)
    requires BytesAt(s, [a, b, c]) && 0xE0 <= a < 0xF0 && 0x80 <= b < 0xC0 && 0x80 <= c < 0xC0
    ensures var cp := (a - 0xE0) * 4096 + (b - 0x80) * 64 + (c - 0x80);
            cp >= 0x800 && !(0xD800 <= cp < 0xE000) ==> PointAt(s) == Some((cp, 3))
  {
    hide ByteAt, BytesAt;
    assert [a] + [b, c] == [a, b, c] && [b] + [c] == [b, c] && [c] + [] == [c];
    BytesStep(s, a, [b, c]);
    BytesStep(s[3..], b, [c]);
    assert s[3..][3..] == s[6..];
    BytesStep(s[6..], c, []);
  }

  lemma FourBytes(s: Str, a: int, b: int, c: int, d: int)
    requires BytesAt(s, [a, b, c, d]) && 0xF0 <= a < 0xF8 && 0x80 <= b < 0xC0 && 0x80 <= c < 0xC0 && 0x80 <= d < 0xC0
    ensures var cp := (a - 0xF0) * 262144 + (b - 0x80) * 4096 + (c - 0x80) * 64 + (d - 0x80);
            0x10000 <= cp < 0x110000 ==> PointAt(s) == Some((cp, 4))
  {
    hide ByteAt, BytesAt;
    assert [a] + [b, c, d] == [a, b, c, d] && [b] + [c, d] == [b, c, d] && [c] + [d] == [c, d] && [d] + [] == [d];
    BytesStep(s, a, [b, c, d]);
    BytesStep(s[3..], b, [c, d]);
    assert s[3..][3..] == s[6..];
    BytesStep(s[6..], c, [d]);
    assert s[6..][3..] == s[9..];
    BytesStep(s[9..], d, []);
  }

  lemma Sixes(cp: int)
    requires 0 <= cp < 0x110000
    ensures cp == cp / 64 * 64 + cp % 64
    ensures cp / 64 == cp / 64 / 64 * 64 + cp / 64 % 64
    ensures cp / 64 / 64 == cp / 64 / 64 / 64 * 64 + cp / 64 / 64 % 64
    ensures 0 <= cp / 64 / 64 / 64 <= 4 && (cp < 0x10000 ==> 0 <= cp / 64 / 64 < 16)
  {
  }

  lemma PointBack3(cp: int, rest: Str)
    requires 0x800 <= cp < 0x10000 && !(0xD800 <= cp < 0xE000)
    ensures PointAt(EncodePoint(cp) + rest) == Some((cp, 3)) && (EncodePoint(cp) + rest)[9..] == rest
  {
    hide PointAt, BytesAt, HexAll;
    Utf8Bytes(cp);
    Sixes(cp);
    HexBytes(Utf8(cp), rest);
    ThreeBytes(EncodePoint(cp) + rest, 0xE0 + cp / 64 / 64, 0x80 + cp / 64 % 64, 0x80 + cp % 64);
  }

  lemma PointBack4(cp: int, rest: Str)
    requires 0x10000 <= cp < 0x110000
    ensures PointAt(EncodePoint(cp) + rest) == Some((cp, 4)) && (EncodePoint(cp) + rest)[12..] == rest
  {
    hide PointAt, BytesAt, HexAll;
    Utf8Bytes(cp);
    Sixes(cp);
    HexBytes(Utf8(cp), rest);
    FourBytes(EncodePoint(cp) + rest, 0xF0 + cp / 64 / 64 / 64, 0x80 + cp / 64 / 64 % 64, 0x80 + cp / 64 % 64, 0x80 + cp % 64);
  }

  /** An encoded code point is read back, and what follows is left. */
  lemma PointBack(cp: int, rest: Str)
    requires 0 <= cp < 0x110000 && !(0xD800 <= cp < 0xE000)
    ensures var n := |Utf8(cp)|; var s := EncodePoint(cp) + rest;
            s != [] && s[0] == PERCENT && PointAt(s) == Some((cp, n)) && |s| >= 3 * n && s[3 * n..] == rest
  {
    hide PointAt;
    if cp < 0x80 { PointBack1(cp, rest); }
    else if cp < 0x800 { PointBack2(cp, rest); }
    else if cp < 0x10000 { PointBack3(cp, rest); }
    else { PointBack4(cp, rest); }
    Utf8Bytes(cp);
    assert Hex(Utf8(cp)[0])[0] == PERCENT;
  }

  lemma {:induction false} DecodeEncode(s: Str)
    requires Encode(s).Some?
    ensures Decode(Encode(s).value) == Some(s)
    decreases |s|
  {
    hide EncodePoint, PointAt, Utf8;
    if s == [] {
    } else if High(s[0]) {
      DecodeEncode(s[2..]);
      var cp := PairPoint(s[0], s[1]);
      PointBack(cp, Encode(s[2..]).value);
      assert Units(cp) == s[..2];
      assert s == s[..2] + s[2..];
    } else {
      DecodeEncode(s[1..]);
      var e := Encode(s[1..]).value;
      assert s == [s[0]] + s[1..];
      if Unreserved(s[0]) {
        assert ([s[0]] + e)[1..] == e;
      } else {
        PointBack(s[0], e);
      }
    }
  }

  /** Encoding throws exactly on a string with a surrogate out of its pair. */
  lemma {:induction false} EncodesIffWellFormed(s: Str)
    ensures Encode(s).Some? <==> WellFormed(s)
    decreases |s|
  {
    hide EncodePoint;
    if s == [] {
    } else if High(s[0]) {
      if |s| >= 2 { EncodesIffWellFormed(s[2..]); }
    } else {
      EncodesIffWellFormed(s[1..]);
    }
  }

  // ---- Nothing that separates is left raw

  /** Unreserved, or part of a %XX. */
  predicate Plain(s: Str) { forall i :: 0 <= i < |s| ==> Unreserved(s[i]) || s[i] == PERCENT }

  lemma {:induction false} HexPlain(bytes: seq<int>)
    requires forall i :: 0 <= i < |bytes| ==> 0 <= bytes[i] < 256
    ensures Plain(HexAll(bytes))
  {
    if bytes != [] { HexPlain(bytes[1..]); }
  }

  lemma PointPlain(cp: int)
    requires 0 <= cp < 0x110000
    ensures Plain(EncodePoint(cp))
  {
    Utf8Bytes(cp);
    HexPlain(Utf8(cp));
  }

  lemma {:induction false} EncodedIsPlain(s: Str)
    requires Encode(s).Some?
    ensures Plain(Encode(s).value)
    decreases |s|
  {
    hide EncodePoint;
    if s == [] {
    } else if High(s[0]) {
      EncodedIsPlain(s[2..]);
      PointPlain(PairPoint(s[0], s[1]));
    } else {
      EncodedIsPlain(s[1..]);
      PointPlain(s[0]);
    }
  }

  /** Letters, digits and the like stand for themselves. */
  lemma {:induction false} AsciiWellFormed(s: Str)
    requires forall i :: 0 <= i < |s| ==> s[i] < 0xD800
    ensures WellFormed(s)
  {
    if s != [] { AsciiWellFormed(s[1..]); }
  }
}
