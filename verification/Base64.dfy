/** The portable Base64 codec (RFC 4648, section 4), with the sizes that callers allocate. */
module Base64 {
  import opened Bytes
  import opened Common

  const PAD: byte := 0x3D

  /** The index that stands for "not a value" in the decoding table. */
  const NO_VALUE: nat := 64

  // ---------------------------------------------------------------- the tables

  /** BASE64_ENCODE_TABLE; index 64 is the padding. */
  function EncodeChar(v: nat): byte
    requires v <= 64
  {
    if v < 26 then 0x41 + v
    else if v < 52 then 0x61 + (v - 26)
    else if v < 62 then 0x30 + (v - 52)
    else if v == 62 then 0x2B
    else if v == 63 then 0x2F
    else PAD
  }

  /** BASE64_DECODE_TABLE. */
  function DecodeChar(c: byte): (v: nat)
    ensures v <= 64
  {
    if 0x41 <= c <= 0x5A then c - 0x41
    else if 0x61 <= c <= 0x7A then c - 0x61 + 26
    else if 0x30 <= c <= 0x39 then c - 0x30 + 52
    else if c == 0x2B then 62
    else if c == 0x2F then 63
    else NO_VALUE
  }

  lemma TablesInvert(v: nat)
    requires v <= 64
    ensures DecodeChar(EncodeChar(v)) == v
  {
  }

  // ---------------------------------------------------------------- the texts

  /** The four characters for up to three bytes. */
  function Quad(s: bytes): (r: bytes)
    requires 0 < |s| <= 3
    ensures |r| == 4
  {
    var a, b, c := s[0], At(s, 1), At(s, 2);
    [EncodeChar(a / 4), EncodeChar(a % 4 * 16 + b / 16),
     EncodeChar(if |s| < 2 then 64 else b % 16 * 4 + c / 64), EncodeChar(if |s| < 3 then 64 else c % 64)]
  }

  function Encode(s: bytes): bytes {
    if s == [] then [] else if |s| <= 3 then Quad(s) else Quad(s[..3]) + Encode(s[3..])
  }

  /** The bits of two numbers below 256 put together, where they overlap in bit 2 at most. */
  function Or(x: nat, y: nat): (r: nat)
    requires x < 256 && x % 4 == 0 && y <= 4
    ensures r < 256
  {
    if y < 4 then x + y else if x / 4 % 2 == 1 then x else x + 4
  }

  /** The bytes of four characters; fewer than three end the text. */
  function Triple(c0: nat, c1: nat, c2: nat, c3: nat): (r: bytes)
    requires c0 <= 64 && c1 <= 64 && c2 <= 64 && c3 <= 64
    ensures 1 <= |r| <= 3
  {
    var first := Or(c0 * 4 % 256, c1 / 16);
    if c2 == 64 then [first]
    else
      var second := c1 % 16 * 16 + c2 / 4;
      if c3 == 64 then [first, second] else [first, second, c2 % 4 * 64 + c3]
  }

  function Group(t: bytes): (r: bytes)
    requires |t| >= 4
    ensures 1 <= |r| <= 3
  {
    Triple(DecodeChar(t[0]), DecodeChar(t[1]), DecodeChar(t[2]), DecodeChar(t[3]))
  }

  function Decode(t: bytes): bytes {
    if |t| < 4 then [] else Group(t) + if |Group(t)| < 3 then [] else Decode(t[4..])
  }

  lemma FirstByte(a: nat, b: nat)
    requires a < 256 && b < 256
    ensures Or(a / 4 * 4 % 256, (a % 4 * 16 + b / 16) / 16) == a && a % 4 * 16 + b / 16 < 64
  {
    assert a / 4 * 4 % 256 == a / 4 * 4;
    assert (a % 4 * 16 + b / 16) / 16 == a % 4;
  }

  lemma SecondByte(a: nat, b: nat, c: nat)
    requires b < 256 && c < 256
    ensures (a % 4 * 16 + b / 16) % 16 * 16 + (b % 16 * 4 + c / 64) / 4 == b && b % 16 * 4 + c / 64 < 64
  {
    assert (a % 4 * 16 + b / 16) % 16 == b / 16;
    assert (b % 16 * 4 + c / 64) / 4 == b % 16;
  }

  lemma ThirdByte(b: nat, c: nat)
    requires c < 256
    ensures (b % 16 * 4 + c / 64) % 4 * 64 + c % 64 == c
  {
    assert (b % 16 * 4 + c / 64) % 4 == c / 64;
  }

  lemma QuadInverts(s: bytes)
    requires 0 < |s| <= 3
    ensures Group(Quad(s)) == s
  {
    hide EncodeChar, DecodeChar, Or;
    var a, b, c := s[0], At(s, 1), At(s, 2);
    var c1 := a % 4 * 16 + b / 16;
    var c2 := if |s| < 2 then 64 else b % 16 * 4 + c / 64;
    var c3 := if |s| < 3 then 64 else c % 64;
    FirstByte(a, b);
    SecondByte(a, b, c);
    ThirdByte(b, c);
    TablesInvert(a / 4);
    TablesInvert(c1);
    TablesInvert(c2);
    TablesInvert(c3);
    assert Group(Quad(s)) == Triple(a / 4, c1, c2, c3);
  }

  /** Decoding what was encoded gives the bytes back, whatever they are. */
  lemma {:induction false} RoundTrip(s: bytes)
    ensures Decode(Encode(s)) == s
  {
    hide Quad;
    if s == [] {
    } else if |s| <= 3 {
      QuadInverts(s);
      assert Encode(s)[4..] == [];
    } else {
      QuadInverts(s[..3]);
      RoundTrip(s[3..]);
      var t := Encode(s);
      assert t[..4] == Quad(s[..3]) && t[4..] == Encode(s[3..]);
      assert Group(t) == Group(t[..4]);
      assert s == s[..3] + s[3..];
    }
  }

  // ---------------------------------------------------------------- the sizes

  /** b64_size_t is an unsigned int. */
  const SIZE_LIMIT: nat := 0x1_0000_0000

  /** Base64_encodeLength. */
  function EncodeLength(n: nat): nat
    requires n < SIZE_LIMIT
  {
    (4 * n % SIZE_LIMIT / 3 + 3) / 4 * 4
  }

  /** Base64_decodeLength. */
  function DecodeLength(t: bytes): int {
    var pad :=
      (if |t| > 1 && t[|t| - 2] == PAD then 1 else 0) + if |t| > 0 && t[|t| - 1] == PAD then 1 else 0;
    |t| / 4 * 3 - pad
  }

  /** How many groups of up to three bytes there are. */
  function Groups(n: nat): nat {
    if n == 0 then 0 else if n <= 3 then 1 else Groups(n - 3) + 1
  }

  /** How many bytes the last group lacks. */
  function Lacking(n: nat): nat {
    if n == 0 then 0 else if n <= 3 then 3 - n else Lacking(n - 3)
  }

  lemma {:induction false} GroupsAre(n: nat)
    ensures 3 * Groups(n) == n + Lacking(n) && Lacking(n) <= 2
  {
    if n > 3 {
      GroupsAre(n - 3);
    }
  }

  lemma {:induction false} EncodeSize(s: bytes)
    ensures |Encode(s)| == 4 * Groups(|s|)
  {
    hide Quad;
    if |s| > 3 {
      EncodeSize(s[3..]);
    }
  }

  /** The encoded length is exact for every input below a quarter of the size range; for the first one
      beyond, the multiplication has wrapped. */
  lemma EncodeLengthIs(s: bytes)
    requires |s| < 0x4000_0000
    ensures EncodeLength(|s|) == |Encode(s)|
  {
    hide Encode;
    EncodeSize(s);
    GroupsAre(|s|);
    var g := Groups(|s|);
    match Lacking(|s|)
    case 0 => assert 4 * |s| == 3 * (4 * g);
    case 1 => assert 4 * |s| == 3 * (4 * g - 2) + 2;
    case _ => assert 4 * |s| == 3 * (4 * g - 3) + 1;
  }

  lemma EncodeLengthWraps()
    ensures EncodeLength(0x4000_0000) == 0
  {
  }

  lemma PadIs(v: nat)
    requires v <= 64
    ensures EncodeChar(v) == PAD <==> v == 64
  {
  }

  lemma QuadEnd(s: bytes)
    requires 0 < |s| <= 3
    ensures (Quad(s)[3] == PAD <==> |s| != 3) && (Quad(s)[2] == PAD <==> |s| == 1)
  {
    hide EncodeChar;
    PadIs(if |s| < 2 then 64 else At(s, 1) % 16 * 4 + At(s, 2) / 64);
    PadIs(if |s| < 3 then 64 else At(s, 2) % 64);
  }

  lemma {:induction false} EncodeEnd(s: bytes)
    requires s != []
    ensures var t := Encode(s);
            && |t| >= 4
            && (t[|t| - 1] == PAD <==> Lacking(|s|) > 0) && (t[|t| - 2] == PAD <==> Lacking(|s|) == 2)
  {
    hide Quad;
    if |s| <= 3 {
      QuadEnd(s);
    } else {
      EncodeEnd(s[3..]);
      var t, u := Encode(s), Encode(s[3..]);
      assert t[|t| - 1] == u[|u| - 1] && t[|t| - 2] == u[|u| - 2];
    }
  }

  /** The decoded length of an encoded text is exact. */
  lemma DecodeLengthIs(s: bytes)
    ensures DecodeLength(Encode(s)) == |s|
  {
    hide Encode;
    EncodeSize(s);
    GroupsAre(|s|);
    var t, g := Encode(s), Groups(|s|);
    assert |t| / 4 == g;
    if s != [] {
      EncodeEnd(s);
    }
  }

  // ---------------------------------------------------------------- the loops

  lemma EncodeStep(s: bytes)
    requires s != []
    ensures var n := if |s| < 3 then |s| else 3; Encode(s) == Quad(s[..n]) + Encode(s[n..])
  {
    hide Quad;
    if |s| <= 3 {
      assert s[..|s|] == s && s[|s|..] == [] && Quad(s) + [] == Quad(s);
    }
  }

  /** One group: four characters, where four fit. */
  method PutQuad(out: array<byte>, outLen: nat, from: nat, q: bytes)
    requires outLen <= out.Length && |q| == 4 && from < outLen
    modifies out
    ensures from + 4 <= outLen ==> out[..from + 4] == old(out[..from]) + q
    ensures from + 4 > outLen ==> out[..] == old(out[..])
    ensures out[outLen..] == old(out[outLen..])
  {
    if from + 4 <= outLen {
      out[from], out[from + 1], out[from + 2], out[from + 3] := q[0], q[1], q[2], q[3];
      assert out[..from + 4] == out[..from] + q;
    }
  }

  /** The part of a text of `n` characters that fills a buffer. */
  function Fits(n: nat, outLen: nat): nat {
    if n <= outLen then n else outLen / 4 * 4
  }

  /** Base64_encode.  Four characters are written only where four fit; if the text does not fit, the
      result is the part that fills the buffer exactly, or 0 if there is none. */
  method EncodeInto(out: array<byte>, outLen: nat, input: bytes) returns (ret: nat)
    requires outLen <= out.Length
    modifies out
    ensures var t := Encode(input); var n := Fits(|t|, outLen);
            && out[..n] == t[..n] && ret == (if n == |t| || n == outLen then n else 0)
            && (|t| < outLen ==> out[|t|] == 0)
    ensures out[outLen..] == old(out[outLen..])
  {
    hide EncodeChar, Quad, Encode, Fits;
    ghost var t := Encode(input);
    EncodeSize(input);
    var count: nat := 0;
    var p: nat := 0;
    assert input[0..] == input && t[0..] == t;
    ghost var g: nat, written: nat := 0, 0;
    while p < |input| && count < outLen
      invariant 0 <= p <= |input| && written <= count <= |t| && count == 4 * g
      invariant written == if count <= outLen then count else count - 4
      invariant written <= outLen && count < outLen + 4
      invariant t[count..] == Encode(input[p..]) && out[..written] == t[..written]
      invariant out[outLen..] == old(out[outLen..])
      decreases |input| - p
    {
      var n := if |input| - p < 3 then |input| - p else 3;
      var q := Quad(input[p..p + n]);
      Split(input, p, n);
      Take(t, count, q, Encode(input[p + n..]));
      PutQuad(out, outLen, count, q);
      if count + 4 <= outLen {
        written := count + 4;
        assert t[..count + 4] == t[..count] + t[count..count + 4];
      }
      count := count + 4;
      g := g + 1;
      p := p + n;
    }
    EncodeSize(input[p..]);
    FitsIs(|t|, outLen, count, Groups(|input|), g);
    assert p == |input| ==> |t| == count;
    ret := 0;
    if count <= outLen {
      if count < outLen {
        out[count] := 0;
      }
      ret := count;
    }
  }

  /** Where the loop stops: at the end of the text, or at the first group that does not fit. */
  lemma FitsIs(size: nat, outLen: nat, count: nat, groups: nat, g: nat)
    requires size == 4 * groups && count == 4 * g && count <= size && count < outLen + 4
    requires count == size || count >= outLen
    ensures Fits(size, outLen) == if count <= outLen then count else count - 4
  {
    if count > outLen {
      assert outLen / 4 == g - 1;
    } else if count < size {
      assert outLen / 4 == g;
    }
  }

  lemma Split(input: bytes, p: nat, n: nat)
    requires p < |input| && n == if |input| - p < 3 then |input| - p else 3
    ensures Encode(input[p..]) == Quad(input[p..p + n]) + Encode(input[p + n..])
  {
    hide Quad, Encode;
    var rest := input[p..];
    EncodeStep(rest);
    assert rest[..n] == input[p..p + n] && rest[n..] == input[p + n..];
  }

  /** The bytes of one group, as far as they fit; `more` is false after padding. */
  method PutTriple(out: array<byte>, outLen: nat, from: nat, c0: nat, c1: nat, c2: nat, c3: nat)
      returns (count: nat, more: bool)
    requires outLen <= out.Length && from < outLen
    requires c0 <= 64 && c1 <= 64 && c2 <= 64 && c3 <= 64
    modifies out
    ensures var g := Triple(c0, c1, c2, c3);
            && count == Min(from + |g|, outLen) && out[..count] == old(out[..from]) + g[..count - from]
            && (count < outLen ==> (more <==> |g| == 3))
    ensures out[outLen..] == old(out[outLen..])
  {
    hide Or;
    count, more := from, true;
    out[count] := Or(c0 * 4 % 256, c1 / 16);
    count := count + 1;
    if count < outLen {
      out[count] := c1 % 16 * 16;
      if c2 < NO_VALUE {
        out[count] := out[count] + c2 / 4;
        count := count + 1;
        if count < outLen {
          out[count] := c2 % 4 * 64;
          if c3 < NO_VALUE {
            out[count] := out[count] + c3;
            count := count + 1;
          } else {
            more := false;
          }
        }
      } else {
        more := false;
      }
    }
  }

  /** Base64_decode: as many of the decoded bytes as fit, and a NUL behind them where there is room. */
  method DecodeInto(out: array<byte>, outLen: nat, input: bytes) returns (ret: nat)
    requires outLen <= out.Length
    modifies out
    ensures var d := Decode(input); var n := Min(|d|, outLen);
            ret == n && out[..n] == d[..n] && (n < outLen ==> out[n] == 0)
    ensures out[outLen..] == old(out[outLen..])
  {
    hide Decode, Group, Triple, DecodeChar;
    ghost var d := Decode(input);
    var count: nat := 0;
    var p: nat := 0;
    var left: nat := |input|;
    assert input[0..0 + left] == input && d[0..] == d;
    while left > 3 && count < outLen
      invariant 0 <= p && p + left <= |input| && count <= outLen && count <= |d|
      invariant out[..count] == d[..count]
      invariant count < outLen ==> d[count..] == Decode(input[p..p + left])
      invariant out[outLen..] == old(out[outLen..])
      decreases left
    {
      DecodeStep(input[p..p + left]);
      GroupIs(input[p..p + left]);
      var c0, c1, c2, c3 :=
        DecodeChar(input[p]), DecodeChar(input[p + 1]), DecodeChar(input[p + 2]), DecodeChar(input[p + 3]);
      ghost var g := Triple(c0, c1, c2, c3);
      ghost var from := count;
      var more;
      assert input[p..p + left][4..] == input[p + 4..p + left];
      Take(d, from, g, if |g| < 3 then [] else Decode(input[p + 4..p + left]));
      count, more := PutTriple(out, outLen, count, c0, c1, c2, c3);
      assert g[..count - from] == d[from..from + |g|][..count - from] == d[from..count];
      assert d[..count] == d[..from] + d[from..count];
      p := p + 4;
      left := left - 4;
      if count < outLen && !more {
        left := 0;
        DecodeShort(input[p..p]);
      }
    }
    if count < outLen {
      DecodeShort(input[p..p + left]);
      out[count] := 0;
    }
    ret := count;
  }

  lemma DecodeStep(t: bytes)
    requires |t| >= 4
    ensures Decode(t) == Group(t) + if |Group(t)| < 3 then [] else Decode(t[4..])
  {
  }

  lemma GroupIs(t: bytes)
    requires |t| >= 4
    ensures Group(t) == Triple(DecodeChar(t[0]), DecodeChar(t[1]), DecodeChar(t[2]), DecodeChar(t[3]))
  {
  }

  lemma DecodeShort(t: bytes)
    requires |t| < 4
    ensures Decode(t) == []
  {
  }

  lemma Take(d: bytes, from: nat, g: bytes, more: bytes)
    requires from <= |d| && d[from..] == g + more
    ensures from + |g| <= |d| && d[from..from + |g|] == g && d[from + |g|..] == more
  {
    assert d[from..][..|g|] == g && d[from..][|g|..] == more;
  }
}
