/** The integer text of symbolize.cc: numbers written into a bounded buffer, and hexadecimal read back. */
module IntText {
  import opened Bytes
  import Utf8

  /** uintptr_t and uint64_t. */
  const WORD := 0x1_0000_0000_0000_0000

  const MINUS: byte := 45

  function Digit(d: nat): byte
    requires d < 16
  {
    if d < 10 then 48 + d else 87 + d
  }

  function DigitValue(ch: byte): (d: nat)
    ensures Utf8.IsHex(ch) ==> d < 16
  {
    if ch < 65 then (if ch < 48 then 0 else ch - 48) else ch % 16 + 9
  }

  /** What a digit is worth: 0 to 9, a to f or A to F. */
  function Worth(ch: byte): (d: nat)
    ensures d < 16
  {
    if 48 <= ch <= 57 then ch - 48
    else if 97 <= ch <= 102 then ch - 97 + 10
    else if 65 <= ch <= 70 then ch - 65 + 10
    else 0
  }

  lemma WorthIs(ch: byte)
    requires Utf8.IsHex(ch)
    ensures DigitValue(ch) == Worth(ch)
  {
  }

  lemma DigitWorth(d: nat)
    requires d < 16
    ensures Worth(Digit(d)) == d && (48 <= Digit(d) <= 57 || 97 <= Digit(d) <= 102)
  {
  }

  /** What a text of digits stands for. */
  function ValueOf(t: bytes, base: nat): nat {
    if t == [] then 0 else ValueOf(t[..|t| - 1], base) * base + Worth(t[|t| - 1])
  }

  lemma QuotientBounds(j: nat, base: nat)
    requires base >= 2
    ensures j / base <= j && (j > 0 ==> j / base < j) && (j / base == 0 <==> j < base)
  {
    var q := j / base;
    assert q * base + j % base == j;
    if q > 0 {
      assert q * base == q * 2 + q * (base - 2);
      assert q * (base - 1) >= 0;
    }
  }

  function Quotient(j: nat, base: nat): (q: nat)
    requires base >= 2
    ensures q <= j && (j > 0 ==> q < j) && (q == 0 <==> j < base)
  {
    QuotientBounds(j, base);
    j / base
  }

  function LowDigit(j: nat, base: nat): (r: nat)
    requires base >= 2
    ensures r < base && (j < base ==> r == j)
  {
    j % base
  }

  lemma Division(j: nat, base: nat)
    requires base >= 2
    ensures Quotient(j, base) * base + LowDigit(j, base) == j
  {
  }

  function Less(padding: nat): nat {
    if padding > 0 then padding - 1 else 0
  }

  /** The digits of `j`, at least `padding` of them. */
  function Numeral(j: nat, base: nat, padding: nat): (t: bytes)
    requires 2 <= base <= 16
    ensures |t| >= 1
    decreases j, padding
  {
    if j < base && padding <= 1 then [Digit(j)]
    else Numeral(Quotient(j, base), base, Less(padding)) + [Digit(LowDigit(j, base))]
  }

  /** Negative numbers are signed in base 10 only; elsewhere their machine word is written. */
  function Magnitude(i: int, base: nat): nat {
    if i < 0 && base == 10 then -i else i % WORD
  }

  function Text(i: int, base: nat, padding: nat): bytes
    requires 2 <= base <= 16
  {
    (if i < 0 && base == 10 then [MINUS] else []) + Numeral(Magnitude(i, base), base, padding)
  }

  /** How many hexadecimal digits a text starts with. */
  function HexSpan(t: bytes): (k: nat)
    ensures k <= |t| && (forall m :: 0 <= m < k ==> Utf8.IsHex(t[m])) && (k < |t| ==> !Utf8.IsHex(t[k]))
  {
    if t == [] || !Utf8.IsHex(t[0]) then 0
    else
      assert forall m :: 0 <= m < |t| - 1 ==> t[1..][m] == t[m + 1];
      HexSpan(t[1..]) + 1
  }

  // ---------------------------------------------------------------- what the text means

  lemma ValueOfOneMore(t: bytes, d: nat, base: nat)
    requires d < 16
    ensures ValueOf(t + [Digit(d)], base) == ValueOf(t, base) * base + d
  {
    DigitWorth(d);
    assert (t + [Digit(d)])[..|t|] == t;
  }

  lemma {:induction false} NumeralValue(j: nat, base: nat, padding: nat)
    requires 2 <= base <= 16
    ensures ValueOf(Numeral(j, base, padding), base) == j
    decreases j, padding
  {
    hide Quotient, LowDigit;
    if j < base && padding <= 1 {
      ValueOfOneMore([], j, base);
      assert [] + [Digit(j)] == [Digit(j)] && ValueOf([], base) == 0;
    } else {
      var q := Quotient(j, base);
      NumeralValue(q, base, Less(padding));
      ValueOfOneMore(Numeral(q, base, Less(padding)), LowDigit(j, base), base);
      Division(j, base);
    }
  }

  /** Only padding makes leading zeros, and all of it is there. */
  lemma {:induction false} NumeralLength(j: nat, base: nat, padding: nat)
    requires 2 <= base <= 16
    ensures var t := Numeral(j, base, padding);
            && |t| >= padding && (|t| > padding && |t| > 1 ==> t[0] != 48)
            && forall k :: 0 <= k < |t| ==>
                 Utf8.IsHex(t[k]) && Worth(t[k]) < base && (48 <= t[k] <= 57 || 97 <= t[k] <= 102)
    decreases j, padding
  {
    hide Quotient, LowDigit;
    if !(j < base && padding <= 1) {
      NumeralLength(Quotient(j, base), base, Less(padding));
    }
  }

  /** Reading a text of hexadecimal digits stops behind them. */
  lemma {:induction false} SpanOfDigits(t: bytes, rest: bytes)
    requires forall k :: 0 <= k < |t| ==> Utf8.IsHex(t[k])
    requires rest != [] ==> !Utf8.IsHex(rest[0])
    ensures HexSpan(t + rest) == |t|
  {
    if t == [] {
      assert t + rest == rest;
    } else {
      assert (t + rest)[1..] == t[1..] + rest;
      SpanOfDigits(t[1..], rest);
    }
  }

  /** Every word written in base 16, padded or not, is read back, up to what follows. */
  lemma HexRoundTrip(i: int, padding: nat, rest: bytes)
    requires rest != [] ==> !Utf8.IsHex(rest[0])
    ensures var t := Text(i, 16, padding);
            HexSpan(t + rest) == |t| && ValueOf((t + rest)[..|t|], 16) == i % WORD
  {
    var t := Text(i, 16, padding);
    NumeralLength(i % WORD, 16, padding);
    NumeralValue(i % WORD, 16, padding);
    SpanOfDigits(t, rest);
    assert (t + rest)[..|t|] == t == Numeral(i % WORD, 16, padding);
  }

  function SignedValue(t: bytes): int {
    if t != [] && t[0] == 45 then 0 - ValueOf(t[1..], 10) else ValueOf(t, 10)
  }

  /** A decimal text means the number, down to the most negative one. */
  lemma DecimalMeans(i: int, padding: nat)
    requires -(WORD / 2) <= i < WORD / 2
    ensures SignedValue(Text(i, 10, padding)) == i
    ensures forall k :: 0 <= k < |Text(i, 10, padding)| ==>
              48 <= Text(i, 10, padding)[k] <= 57 || (k == 0 && i < 0 && Text(i, 10, padding)[k] == 45)
  {
    hide Numeral, ValueOf;
    var j := Magnitude(i, 10);
    NumeralValue(j, 10, padding);
    NumeralLength(j, 10, padding);
    assert Text(i, 10, padding)[if i < 0 then 1 else 0..] == Numeral(j, 10, padding);
  }

  // ---------------------------------------------------------------- GetHex

  lemma ShiftIn(v: nat, d: nat)
    requires d < 16
    ensures (v * 16 + d) % WORD == v % WORD * 16 % WORD + d
  {
  }

  /** A number too long for a word keeps its low digits. */
  method GetHex(t: bytes) returns (k: nat, hex: nat)
    ensures k == HexSpan(t) && hex == ValueOf(t[..k], 16) % WORD
  {
    k, hex := 0, 0;
    while k < |t| && Utf8.IsHex(t[k])
      invariant k <= |t| && HexSpan(t) == k + HexSpan(t[k..])
      invariant hex == ValueOf(t[..k], 16) % WORD
    {
      WorthIs(t[k]);
      ShiftIn(ValueOf(t[..k], 16), DigitValue(t[k]));
      assert t[..k + 1][..k] == t[..k] && t[k..][1..] == t[k + 1..];
      hex := hex * 16 % WORD + DigitValue(t[k]);
      k := k + 1;
    }
  }

  // ---------------------------------------------------------------- itoa_r

  function Reversed(t: bytes): (r: bytes)
    ensures |r| == |t| && forall k :: 0 <= k < |t| ==> r[k] == t[|t| - 1 - k]
  {
    if t == [] then [] else [t[|t| - 1]] + Reversed(t[..|t| - 1])
  }

  /** Digits come lowest first. */
  lemma OneMoreDigit(j: nat, base: nat, padding: nat, written: bytes)
    requires 2 <= base <= 16
    ensures var q, pad := Quotient(j, base), Less(padding);
            Numeral(j, base, padding) + Reversed(written)
              == (if q > 0 || pad > 0 then Numeral(q, base, pad) else [])
                 + Reversed(written + [Digit(LowDigit(j, base))])
  {
    hide Quotient, LowDigit;
    var now := written + [Digit(LowDigit(j, base))];
    assert now[..|now| - 1] == written;
    assert Reversed(now) == [Digit(LowDigit(j, base))] + Reversed(written);
  }

  /** The text and its terminator are written if they fit; else the buffer is left empty. */
  method ItoaR(i: int, buf: array<byte>, sz: nat, base: int, padding: nat) returns (ok: bool)
    requires -(WORD / 2) <= i < WORD / 2 && sz <= buf.Length
    modifies buf
    ensures ok <==> 2 <= base <= 16 && |Text(i, base, padding)| + 1 <= sz
    ensures ok ==> var n := |Text(i, base, padding)|;
                   && buf[..n] == Text(i, base, padding) && buf[n] == 0
                   && forall k :: n < k < buf.Length ==> buf[k] == old(buf[k])
    ensures !ok && sz > 0 ==> buf[0] == 0
    ensures forall k :: sz <= k < buf.Length ==> buf[k] == old(buf[k])
  {
    hide Numeral, Reversed;
    var n := 1;
    if n > sz {
      return false;
    }
    if base < 2 || base > 16 {
      buf[0] := 0;
      return false;
    }
    var start: nat, j: nat := 0, i % WORD;
    if i < 0 && base == 10 {
      j := -(i + 1) + 1;
      n := n + 1;
      if n > sz {
        buf[0] := 0;
        return false;
      }
      buf[start] := MINUS;
      start := start + 1;
    }
    ghost var sign := buf[..start];
    assert Text(i, base, padding) == sign + Numeral(j, base, padding);
    var ptr;
    ok, ptr := WriteDigits(buf, start, sz, j, base, padding);
    if !ok {
      buf[0] := 0;
      return;
    }
    buf[ptr] := 0;
    ReverseDigits(buf, start, ptr);
    assert buf[..ptr] == buf[..start] + buf[start..ptr];
  }

  /** Puts the digits behind `start`, lowest first, while one more and the terminator fit. */
  method WriteDigits(buf: array<byte>, start: nat, sz: nat, number: nat, base: nat, padding: nat)
    returns (ok: bool, ptr: nat)
    requires 2 <= base <= 16 && start < sz <= buf.Length
    modifies buf
    ensures ok <==> start + |Numeral(number, base, padding)| + 1 <= sz
    ensures buf[..start] == old(buf[..start])
    ensures ok ==> ptr == start + |Numeral(number, base, padding)|
                   && Reversed(buf[start..ptr]) == Numeral(number, base, padding)
                   && forall k :: ptr <= k < buf.Length ==> buf[k] == old(buf[k])
    ensures forall k :: sz <= k < buf.Length ==> buf[k] == old(buf[k])
  {
    hide Quotient, LowDigit, Numeral, Reversed;
    var n, j, pad := start + 1, number, padding;
    ptr := start;
    assert Numeral(number, base, padding) + Reversed(buf[start..ptr]) == Numeral(number, base, padding);
    while true
      invariant start <= ptr < sz && n == ptr + 1
      invariant Numeral(number, base, padding) == Numeral(j, base, pad) + Reversed(buf[start..ptr])
      invariant buf[..start] == old(buf[..start])
      invariant forall k :: ptr <= k < buf.Length ==> buf[k] == old(buf[k])
      decreases j, pad
    {
      n := n + 1;
      if n > sz {
        assert |Numeral(j, base, pad)| >= 1;
        return false, ptr;
      }
      ghost var written := buf[start..ptr];
      OneMoreDigit(j, base, pad, written);
      buf[ptr] := Digit(LowDigit(j, base));
      assert buf[start..ptr + 1] == written + [Digit(LowDigit(j, base))];
      ptr := ptr + 1;
      j, pad := Quotient(j, base), Less(pad);
      if !(j > 0 || pad > 0) {
        break;
      }
    }
    ok := true;
  }

  method ReverseDigits(buf: array<byte>, first: nat, end: nat)
    requires first < end <= buf.Length
    modifies buf
    ensures buf[first..end] == Reversed(old(buf[first..end]))
    ensures forall k :: 0 <= k < first || end <= k < buf.Length ==> buf[k] == old(buf[k])
  {
    var start: nat, ptr: int := first, end - 1;
    while ptr > start
      invariant first <= start && ptr == end - 1 - (start - first) && start <= ptr + 1
      invariant forall k :: first <= k < start ==> buf[k] == old(buf[end - 1 - (k - first)])
      invariant forall k :: ptr < k < end ==> buf[k] == old(buf[end - 1 - (k - first)])
      invariant forall k :: 0 <= k < first || start <= k <= ptr || end <= k < buf.Length ==> buf[k] == old(buf[k])
    {
      var ch := buf[ptr];
      buf[ptr] := buf[start];
      buf[start] := ch;
      start := start + 1;
      ptr := ptr - 1;
    }
    assert forall k :: 0 <= k < end - first ==> buf[first..end][k] == old(buf[first..end])[end - first - 1 - k];
  }
}
