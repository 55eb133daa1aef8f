/** The character codecs under the JSON reader and printer: UTF-8, UTF-16 surrogate pairs and
    four-digit hexadecimal.  Shifts and masks are written as divisions and remainders. */
module Utf8 {
  import opened Bytes
  import opened Common

  /** A Unicode scalar value: what utf8_write_char accepts. */
  predicate Scalar(u: int) {
    0 <= u <= 0x10FFFF && !(0xD800 <= u <= 0xDFFF)
  }

  predicate Continuation(b: byte) { 0x80 <= b <= 0xBF }

  /** utf8_validate_cz: the length of the valid character at the start of `t`, or 0. */
  function Validate(t: bytes): nat {
    var c := At(t, 0);
    if c <= 0x7F then 1
    else if c <= 0xC1 then 0
    else if c <= 0xDF then
      if !Continuation(At(t, 1)) then 0 else 2
    else if c <= 0xEF then
      if c == 0xE0 && At(t, 1) < 0xA0 then 0
      else if c == 0xED && At(t, 1) > 0x9F then 0
      else if !Continuation(At(t, 1)) || !Continuation(At(t, 2)) then 0 else 3
    else if c <= 0xF4 then
      if c == 0xF0 && At(t, 1) < 0x90 then 0
      else if c == 0xF4 && At(t, 1) > 0x8F then 0
      else if !Continuation(At(t, 1)) || !Continuation(At(t, 2)) || !Continuation(At(t, 3)) then 0 else 4
    else 0
  }

  /** utf8_read_char: the character at the start of `t`. */
  function ReadChar(t: bytes): nat {
    var c := At(t, 0);
    if c <= 0x7F then c
    else if c <= 0xDF then c % 0x20 * 0x40 + At(t, 1) % 0x40
    else if c <= 0xEF then c % 0x10 * 0x1000 + At(t, 1) % 0x40 * 0x40 + At(t, 2) % 0x40
    else c % 8 * 0x40000 + At(t, 1) % 0x40 * 0x1000 + At(t, 2) % 0x40 * 0x40 + At(t, 3) % 0x40
  }

  /** utf8_write_char. */
  function WriteChar(u: int): bytes
    requires Scalar(u)
  {
    if u <= 0x7F then [u]
    else if u <= 0x7FF then [0xC0 + u / 0x40, 0x80 + u % 0x40]
    else if u <= 0xFFFF then [0xE0 + u / 0x1000, 0x80 + u / 0x40 % 0x40, 0x80 + u % 0x40]
    else [0xF0 + u / 0x40000, 0x80 + u / 0x1000 % 0x40, 0x80 + u / 0x40 % 0x40, 0x80 + u % 0x40]
  }

  /** Reading depends on the first four bytes only. */
  lemma ReadsPrefix(t: bytes, w: bytes)
    requires t != [] && t <= w
    ensures Validate(t) > 0 ==> Validate(w) == Validate(t) <= |t| && ReadChar(w) == ReadChar(t)
  {
    assert forall k :: 0 <= k < |t| ==> At(t, k) == At(w, k);
  }

  lemma Written2(u: int)
    requires 0x7F < u <= 0x7FF
    ensures Validate(WriteChar(u)) == 2 && ReadChar(WriteChar(u)) == u
  {
    var t := WriteChar(u);
    assert At(t, 0) == 0xC0 + u / 0x40 && At(t, 1) == 0x80 + u % 0x40;
    assert (0xC0 + u / 0x40) % 0x20 == u / 0x40;
  }

  lemma Written3(u: int)
    requires 0x7FF < u <= 0xFFFF && Scalar(u)
    ensures Validate(WriteChar(u)) == 3 && ReadChar(WriteChar(u)) == u
  {
    var t := WriteChar(u);
    var a, b, c := u / 0x1000, u / 0x40 % 0x40, u % 0x40;
    assert u == a * 0x1000 + b * 0x40 + c;
    assert At(t, 0) == 0xE0 + a && At(t, 1) == 0x80 + b && At(t, 2) == 0x80 + c;
    assert a == 13 ==> b < 0x20;
    assert (0xE0 + a) % 0x10 == a;
  }

  lemma FourBytes(a: nat, b: nat, c: nat, d: nat)
    requires a <= 4 && b < 0x40 && c < 0x40 && d < 0x40
    requires (a == 0 ==> b >= 0x10) && (a == 4 ==> b < 0x10)
    ensures var t: bytes := [0xF0 + a, 0x80 + b, 0x80 + c, 0x80 + d];
            Validate(t) == 4 && ReadChar(t) == a * 0x40000 + b * 0x1000 + c * 0x40 + d
  {
    var t: bytes := [0xF0 + a, 0x80 + b, 0x80 + c, 0x80 + d];
    assert At(t, 0) == 0xF0 + a && At(t, 1) == 0x80 + b && At(t, 2) == 0x80 + c && At(t, 3) == 0x80 + d;
  }

  lemma Written4(u: int)
    requires 0xFFFF < u <= 0x10FFFF
    ensures Validate(WriteChar(u)) == 4 && ReadChar(WriteChar(u)) == u
  {
    hide Validate, ReadChar;
    var p, q := u / 0x40, u / 0x1000;
    var a, b := u / 0x40000, q % 0x40;
    assert u == p * 0x40 + u % 0x40 && p == q * 0x40 + p % 0x40 && q == a * 0x40 + b;
    FourBytes(a, b, p % 0x40, u % 0x40);
  }

  /** Writing a scalar value and reading it back: the bytes are valid, exactly as many as were
      written, whatever follows them, and they denote the value. */
  lemma WrittenIsRead(u: int, rest: bytes)
    requires Scalar(u)
    ensures Validate(WriteChar(u) + rest) == |WriteChar(u)|
    ensures ReadChar(WriteChar(u) + rest) == u
  {
    if u <= 0x7F {
      assert At(WriteChar(u), 0) == u;
    } else if u <= 0x7FF {
      Written2(u);
    } else if u <= 0xFFFF {
      Written3(u);
    } else {
      Written4(u);
    }
    ReadsPrefix(WriteChar(u), WriteChar(u) + rest);
  }

  lemma Read2(t: bytes)
    requires Validate(t) == 2
    ensures 2 <= |t| && 0x7F < ReadChar(t) <= 0x7FF && t[..2] == WriteChar(ReadChar(t))
  {
    TwoDigits(t[0] % 0x20, t[1] % 0x40);
    assert t[0] == 0xC0 + t[0] % 0x20 && t[1] == 0x80 + t[1] % 0x40;
  }

  lemma Read3(t: bytes)
    requires Validate(t) == 3
    ensures 3 <= |t| && 0x7FF < ReadChar(t) <= 0xFFFF && Scalar(ReadChar(t))
    ensures t[..3] == WriteChar(ReadChar(t))
  {
    var a: int, b: int, c: int := t[0] % 0x10, t[1] % 0x40, t[2] % 0x40;
    ThreeDigits(a, b, c);
    assert t[0] == 0xE0 + a && t[1] == 0x80 + b && t[2] == 0x80 + c;
    assert ReadChar(t) == a * 0x1000 + b * 0x40 + c;
  }

  lemma Read4(t: bytes)
    requires Validate(t) == 4
    ensures 4 <= |t| && 0xFFFF < ReadChar(t) <= 0x10FFFF && t[..4] == WriteChar(ReadChar(t))
  {
    var a: int, b: int, c: int, d: int := t[0] % 8, t[1] % 0x40, t[2] % 0x40, t[3] % 0x40;
    FourDigits(a, b, c, d);
    assert t[0] == 0xF0 + a && t[1] == 0x80 + b && t[2] == 0x80 + c && t[3] == 0x80 + d;
    assert ReadChar(t) == a * 0x40000 + b * 0x1000 + c * 0x40 + d;
  }

  /** Valid bytes are the encoding of the scalar value that is read from them. */
  lemma ReadIsWritten(t: bytes)
    requires t != [] && Validate(t) > 0
    ensures Validate(t) <= |t| && Scalar(ReadChar(t)) && t[..Validate(t)] == WriteChar(ReadChar(t))
  {
    var n := Validate(t);
    assert n == 1 || n == 2 || n == 3 || n == 4;
    if n == 1 {
    } else if n == 2 {
      Read2(t);
    } else if n == 3 {
      Read3(t);
    } else {
      Read4(t);
    }
  }

  lemma TwoDigits(a: nat, b: nat)
    requires b < 0x40
    ensures (a * 0x40 + b) / 0x40 == a && (a * 0x40 + b) % 0x40 == b
  {
  }

  lemma ThreeDigits(a: nat, b: nat, c: nat)
    requires b < 0x40 && c < 0x40
    ensures var u := a * 0x1000 + b * 0x40 + c; u / 0x1000 == a && u / 0x40 % 0x40 == b && u % 0x40 == c
  {
    var p := a * 0x40 + b;
    var u := p * 0x40 + c;
    assert u / 0x40 == p && u / 0x1000 == p / 0x40;
  }

  lemma FourDigits(a: nat, b: nat, c: nat, d: nat)
    requires b < 0x40 && c < 0x40 && d < 0x40
    ensures var u := a * 0x40000 + b * 0x1000 + c * 0x40 + d;
            u / 0x40000 == a && u / 0x1000 % 0x40 == b && u / 0x40 % 0x40 == c && u % 0x40 == d
  {
    var p := a * 0x1000 + b * 0x40 + c;
    var u := p * 0x40 + d;
    ThreeDigits(a, b, c);
    assert u / 0x40 == p && u / 0x1000 == p / 0x40 && u / 0x40000 == p / 0x1000;
  }

  /** Exactness: the first n bytes are accepted if and only if they encode a scalar value. */
  lemma ValidateExact(t: bytes, n: nat)
    requires t != [] && n > 0
    ensures Validate(t) == n <==> exists u: int :: Scalar(u) && WriteChar(u) <= t && n == |WriteChar(u)|
  {
    if Validate(t) == n {
      ReadIsWritten(t);
      assert WriteChar(ReadChar(t)) <= t;
    }
    if u: int :| Scalar(u) && WriteChar(u) <= t && n == |WriteChar(u)| {
      assert t == WriteChar(u) + t[n..];
      WrittenIsRead(u, t[n..]);
    }
  }

  /** What follows a valid character does not matter. */
  lemma ValidateLocal(t: bytes, rest: bytes)
    requires t != [] && Validate(t) > 0
    ensures Validate(t + rest) == Validate(t)
  {
    ReadIsWritten(t);
    assert t + rest == WriteChar(ReadChar(t)) + (t[Validate(t)..] + rest);
    WrittenIsRead(ReadChar(t), t[Validate(t)..] + rest);
  }

  // ---------------------------------------------------------------- surrogate pairs

  /** from_surrogate_pair. */
  function FromSurrogatePair(uc: nat, lc: nat): Option<nat> {
    if 0xD800 <= uc <= 0xDBFF && 0xDC00 <= lc <= 0xDFFF
    then Some(0x10000 + (uc % 0x400 * 0x400 + lc % 0x400))
    else None
  }

  /** to_surrogate_pair. */
  function ToSurrogatePair(u: nat): (nat, nat)
    requires 0x10000 <= u <= 0x10FFFF
  {
    var n := u - 0x10000;
    (0xD800 + n / 0x400 % 0x400, 0xDC00 + n % 0x400)
  }

  lemma SurrogatesInvert(u: nat)
    requires 0x10000 <= u <= 0x10FFFF
    ensures FromSurrogatePair(ToSurrogatePair(u).0, ToSurrogatePair(u).1) == Some(u)
  {
    var n := u - 0x10000;
    assert n / 0x400 < 0x400;
  }

  lemma SurrogatesOnto(uc: nat, lc: nat)
    requires FromSurrogatePair(uc, lc).Some?
    ensures var u := FromSurrogatePair(uc, lc).value;
            0x10000 <= u <= 0x10FFFF && Scalar(u) && ToSurrogatePair(u) == (uc, lc)
  {
    assert uc == 0xD800 + uc % 0x400 && lc == 0xDC00 + lc % 0x400;
  }

  // ---------------------------------------------------------------- hexadecimal

  predicate IsHex(c: byte) {
    0x30 <= c <= 0x39 || 0x41 <= c <= 0x46 || 0x61 <= c <= 0x66
  }

  function HexValue(c: byte): (v: nat)
    requires IsHex(c)
    ensures v < 16
  {
    if c <= 0x39 then c - 0x30
    else if c <= 0x46 then c - 0x41 + 10
    else c - 0x61 + 10
  }

  function HexDigit(v: nat): byte
    requires v < 16
  {
    if v < 10 then 0x30 + v else 0x41 + (v - 10)
  }

  /** parse_hex16 on the first four characters. */
  function ParseHex(t: bytes): Option<nat> {
    if IsHex(At(t, 0)) && IsHex(At(t, 1)) && IsHex(At(t, 2)) && IsHex(At(t, 3))
    then Some(((HexValue(At(t, 0)) * 16 + HexValue(At(t, 1))) * 16 + HexValue(At(t, 2))) * 16 + HexValue(At(t, 3)))
    else None
  }

  /** write_hex16. */
  function WriteHex(v: nat): (t: bytes)
    requires v < 0x10000
    ensures |t| == 4
  {
    [HexDigit(v / 0x1000 % 16), HexDigit(v / 0x100 % 16), HexDigit(v / 16 % 16), HexDigit(v % 16)]
  }

  lemma DigitInverts(v: nat)
    requires v < 16
    ensures IsHex(HexDigit(v)) && HexValue(HexDigit(v)) == v
  {
  }

  lemma HexInverts(v: nat, rest: bytes)
    requires v < 0x10000
    ensures ParseHex(WriteHex(v) + rest) == Some(v)
  {
    hide IsHex, HexValue, HexDigit;
    var t := WriteHex(v) + rest;
    var a, b, c, d := v / 0x1000 % 16, v / 0x100 % 16, v / 16 % 16, v % 16;
    assert At(t, 0) == HexDigit(a) && At(t, 1) == HexDigit(b) && At(t, 2) == HexDigit(c) && At(t, 3) == HexDigit(d);
    DigitInverts(a);
    DigitInverts(b);
    DigitInverts(c);
    DigitInverts(d);
    HexSplit(v);
  }

  lemma HexSplit(v: nat)
    requires v < 0x10000
    ensures v == ((v / 0x1000 % 16 * 16 + v / 0x100 % 16) * 16 + v / 16 % 16) * 16 + v % 16
  {
    var p, q, r := v / 16, v / 0x100, v / 0x1000;
    assert p == q * 16 + p % 16;
    assert q == r * 16 + q % 16;
    assert r < 16;
  }

  function UpperHex(c: byte): byte {
    if 0x61 <= c <= 0x66 then c - 32 else c
  }

  /** Four hexadecimal digits are what is written for their value, up to the case of letters. */
  lemma HexOnto(t: bytes)
    requires ParseHex(t).Some?
    ensures |t| >= 4 && ParseHex(t).value < 0x10000
    ensures WriteHex(ParseHex(t).value) == [UpperHex(t[0]), UpperHex(t[1]), UpperHex(t[2]), UpperHex(t[3])]
  {
    HexDigits(HexValue(t[0]), HexValue(t[1]), HexValue(t[2]), HexValue(t[3]));
  }

  lemma HexDigits(a: nat, b: nat, c: nat, d: nat)
    requires a < 16 && b < 16 && c < 16 && d < 16
    ensures var v := ((a * 16 + b) * 16 + c) * 16 + d;
            v / 0x1000 % 16 == a && v / 0x100 % 16 == b && v / 16 % 16 == c && v % 16 == d
  {
  }

  // ---------------------------------------------------------------- by the standards

  predicate Tail(b: byte) { 0x80 <= b <= 0xBF }

  /** One character (RFC 3629, section 4). */
  predicate Character(t: bytes) {
    || (|t| == 1 && t[0] <= 0x7F)
    || (|t| == 2 && 0xC2 <= t[0] <= 0xDF && Tail(t[1]))
    || (|t| == 3 && t[0] == 0xE0 && 0xA0 <= t[1] <= 0xBF && Tail(t[2]))
    || (|t| == 3 && 0xE1 <= t[0] <= 0xEC && Tail(t[1]) && Tail(t[2]))
    || (|t| == 3 && t[0] == 0xED && 0x80 <= t[1] <= 0x9F && Tail(t[2]))
    || (|t| == 3 && 0xEE <= t[0] <= 0xEF && Tail(t[1]) && Tail(t[2]))
    || (|t| == 4 && t[0] == 0xF0 && 0x90 <= t[1] <= 0xBF && Tail(t[2]) && Tail(t[3]))
    || (|t| == 4 && 0xF1 <= t[0] <= 0xF3 && Tail(t[1]) && Tail(t[2]) && Tail(t[3]))
    || (|t| == 4 && t[0] == 0xF4 && 0x80 <= t[1] <= 0x8F && Tail(t[2]) && Tail(t[3]))
  }

  /** Validating finds exactly these. */
  lemma CharacterIs(t: bytes)
    ensures Character(t) <==> t != [] && Validate(t) == |t|
  {
  }

  function Off(b: byte, base: int): int { b - base }

  /** What the bytes of a character stand for (RFC 3629, section 3). */
  lemma WrittenMeans(u: int)
    requires Scalar(u)
    ensures var w := WriteChar(u);
            && (u <= 0x7F <==> |w| == 1) && (0x80 <= u <= 0x7FF <==> |w| == 2)
            && (0x800 <= u <= 0xFFFF <==> |w| == 3) && (0x10000 <= u <==> |w| == 4)
            && (|w| == 1 ==> u == w[0])
            && (|w| == 2 ==> u == Off(w[0], 0xC0) * 64 + Off(w[1], 0x80))
            && (|w| == 3 ==> u == Off(w[0], 0xE0) * 4096 + Off(w[1], 0x80) * 64 + Off(w[2], 0x80))
            && (|w| == 4 ==> u == Off(w[0], 0xF0) * 262144 + Off(w[1], 0x80) * 4096 + Off(w[2], 0x80) * 64 + Off(w[3], 0x80))
            && forall k :: 1 <= k < |w| ==> Tail(w[k])
  {
    if u <= 0x7F {
    } else if u <= 0x7FF {
      SplitOff(u);
    } else if u <= 0xFFFF {
      SplitOff(u);
      SplitOff(u / 0x40);
    } else {
      SplitOff(u);
      SplitOff(u / 0x40);
      SplitOff(u / 0x1000);
    }
  }

  lemma SplitOff(u: int)
    requires u >= 0
    ensures u == u / 0x40 * 0x40 + u % 0x40
    ensures u / 0x40 / 0x40 == u / 0x1000 && u / 0x1000 / 0x40 == u / 0x40000
  {
  }

  /** A surrogate pair stands for its character (RFC 2781, section 2.2). */
  lemma SurrogatesMean(high: nat, low: nat)
    ensures FromSurrogatePair(high, low).Some? <==> 0xD800 <= high < 0xDC00 <= low < 0xE000
    ensures FromSurrogatePair(high, low).Some? ==>
              FromSurrogatePair(high, low).value == 0x10000 + (high - 0xD800) * 1024 + (low - 0xDC00)
  {
  }

  /** The digits and their values, in either case; the printer writes capitals. */
  lemma HexDigitsMean(v: nat)
    requires v < 16
    ensures HexDigit(v) == "0123456789ABCDEF"[v] as int
    ensures IsHex(HexDigit(v)) && HexValue(HexDigit(v)) == v
    ensures v >= 10 ==> IsHex(HexDigit(v) + 32) && HexValue(HexDigit(v) + 32) == v
  {
  }

  /** Four digits, the highest first. */
  lemma HexMeans(t: bytes)
    requires |t| >= 4 && ParseHex(t).Some?
    ensures forall k :: 0 <= k < 4 ==> IsHex(t[k])
    ensures ParseHex(t).value
            == 4096 * HexValue(t[0]) + 256 * HexValue(t[1]) + 16 * HexValue(t[2]) + HexValue(t[3])
  {
  }
}
