/** The recursive-descent reader of ccan_json.c.  A cursor is an index into the text; reading
    the terminator is allowed, reading past it is not, and `Peek` demands as much.  With `build`
    off nothing is built, as in json_validate. */
module JsonReader {
  import opened Bytes
  import opened Common
  import opened Utf8
  import opened JsonSpec
  import opened JsonBuffer

  function Peek(t: cstring, i: nat): byte
    requires i <= |t|
  {
    At(t, i)
  }

  method SkipSpaces(t: cstring, s: nat) returns (e: nat)
    requires s <= |t|
    ensures s <= e <= |t| && t[e..] == SkipSpace(t[s..])
  {
    e := s;
    while IsSpace(Peek(t, e))
      invariant s <= e <= |t| && SkipSpace(t[e..]) == SkipSpace(t[s..])
      decreases |t| - e
    {
      assert t[e..][1..] == t[e + 1..];
      e := e + 1;
    }
  }

  lemma Differs(word: cstring, u: bytes, i: nat)
    requires i < |word| && At(u, i) != word[i]
    ensures !(word <= u)
  {
  }

  /** expect_literal. */
  method ExpectLiteral(t: cstring, s: nat, word: cstring) returns (ok: bool, e: nat)
    requires s <= |t|
    ensures ok <==> word <= t[s..]
    ensures e == if ok then s + |word| else s
  {
    var i := 0;
    while i < |word|
      invariant 0 <= i <= |word| && s + i <= |t| && word[..i] == t[s..s + i]
    {
      if Peek(t, s + i) != word[i] {
        Differs(word, t[s..], i);
        return false, s;
      }
      i := i + 1;
    }
    return true, s + i;
  }

  /** utf8_validate_cz. */
  method ValidateChar(t: cstring, s: nat) returns (n: nat)
    requires s < |t|
    ensures n == Validate(t[s..])
  {
    var c := Peek(t, s);
    assert forall k: nat :: At(t[s..], k) == At(t, s + k);
    if c <= 0x7F {
      return 1;
    } else if c <= 0xC1 {
      return 0;
    } else if c <= 0xDF {
      if !Continuation(Peek(t, s + 1)) {
        return 0;
      }
      return 2;
    } else if c <= 0xEF {
      if c == 0xE0 && Peek(t, s + 1) < 0xA0 {
        return 0;
      }
      if c == 0xED && Peek(t, s + 1) > 0x9F {
        return 0;
      }
      if !Continuation(Peek(t, s + 1)) || !Continuation(Peek(t, s + 2)) {
        return 0;
      }
      return 3;
    } else if c <= 0xF4 {
      if c == 0xF0 && Peek(t, s + 1) < 0x90 {
        return 0;
      }
      if c == 0xF4 && Peek(t, s + 1) > 0x8F {
        return 0;
      }
      if !Continuation(Peek(t, s + 1)) || !Continuation(Peek(t, s + 2)) || !Continuation(Peek(t, s + 3)) {
        return 0;
      }
      return 4;
    } else {
      return 0;
    }
  }

  /** utf8_validate. */
  method ValidateText(t: cstring) returns (ok: bool)
    ensures ok == IsUtf8(t)
  {
    var s := 0;
    while s < |t|
      invariant 0 <= s <= |t| && IsUtf8(t[s..]) == IsUtf8(t)
    {
      var n := ValidateChar(t, s);
      if n == 0 {
        return false;
      }
      ReadIsWritten(t[s..]);
      assert t[s..][n..] == t[s + n..];
      s := s + n;
    }
    assert t[s..] == [];
    return true;
  }

  /** parse_hex16. */
  method ParseHex16(t: cstring, s: nat) returns (ok: bool, e: nat, value: nat)
    requires s <= |t|
    ensures ok == ParseHex(t[s..]).Some?
    ensures ok ==> e == s + 4 <= |t| && value == ParseHex(t[s..]).value < 0x10000
    ensures !ok ==> e == s
  {
    hide HexValue;
    ghost var u := t[s..];
    assert At(u, 0) == At(t, s) && At(u, 1) == At(t, s + 1) && At(u, 2) == At(t, s + 2) && At(u, 3) == At(t, s + 3);
    value := 0;
    var i := 0;
    while i < 4
      invariant 0 <= i <= 4 && s + i <= |t|
      invariant (i > 0 ==> IsHex(At(t, s))) && (i > 1 ==> IsHex(At(t, s + 1)))
      invariant (i > 2 ==> IsHex(At(t, s + 2))) && (i > 3 ==> IsHex(At(t, s + 3)))
      invariant i == 0 ==> value == 0
      invariant i == 1 ==> value == HexValue(At(t, s)) < 16
      invariant i == 2 ==> value == HexValue(At(t, s)) * 16 + HexValue(At(t, s + 1)) < 0x100
      invariant i == 3 ==>
          value == (HexValue(At(t, s)) * 16 + HexValue(At(t, s + 1))) * 16 + HexValue(At(t, s + 2)) < 0x1000
      invariant i == 4 ==> ParseHex(t[s..]) == Some(value) && value < 0x10000
    {
      var c := Peek(t, s + i);
      if !IsHex(c) {
        return false, s, 0;
      }
      value := value * 16 + HexValue(c);
      i := i + 1;
    }
    return true, s + 4, value;
  }

  /** utf8_write_char: at most four bytes at `b`. */
  method WriteUtf8(u: nat, buf: array<byte>, b: nat) returns (e: nat)
    requires Scalar(u) && b + 4 <= buf.Length
    modifies buf
    ensures e == b + |WriteChar(u)| <= b + 4
    ensures buf[..e] == old(buf[..b]) + WriteChar(u)
  {
    if u <= 0x7F {
      buf[b] := u;
      e := b + 1;
    } else if u <= 0x7FF {
      buf[b] := 0xC0 + u / 0x40;
      buf[b + 1] := 0x80 + u % 0x40;
      e := b + 2;
    } else if u <= 0xFFFF {
      buf[b] := 0xE0 + u / 0x1000;
      buf[b + 1] := 0x80 + u / 0x40 % 0x40;
      buf[b + 2] := 0x80 + u % 0x40;
      e := b + 3;
    } else {
      buf[b] := 0xF0 + u / 0x40000;
      buf[b + 1] := 0x80 + u / 0x1000 % 0x40;
      buf[b + 2] := 0x80 + u / 0x40 % 0x40;
      buf[b + 3] := 0x80 + u % 0x40;
      e := b + 4;
    }
  }

  /** The case 'u' of parse_string, after the letter. */
  method ParseUnicode(t: cstring, s: nat, buf: array<byte>, b: nat) returns (ok: bool, e: nat, b': nat)
    requires s <= |t| && b + 4 <= buf.Length
    modifies buf
    ensures ok == ReadHexEscape(t[s..]).Read?
    ensures ok ==>
              var r := ReadHexEscape(t[s..]);
              && s <= e <= |t| && t[e..] == r.rest
              && b' == b + |r.value| <= b + 4 && buf[..b'] == old(buf[..b]) + r.value
  {
    hide ParseHex, WriteChar, FromSurrogatePair;
    e, b' := s, b;
    var uc, lc;
    ok, e, uc := ParseHex16(t, s);
    if !ok {
      return;
    }
    var unicode;
    assert forall k: nat :: At(t[s..], k) == At(t, s + k);
    if IsSurrogate(uc) {
      if Peek(t, e) != BACKSLASH || Peek(t, e + 1) != LETTER_U {
        ok := false;
        return;
      }
      assert Drop(t[s..], 6) == t[e + 2..];
      ok, e, lc := ParseHex16(t, e + 2);
      if !ok {
        return;
      }
      var pair := FromSurrogatePair(uc, lc);
      if pair == None {
        ok := false;
        return;
      }
      SurrogatesOnto(uc, lc);
      unicode := pair.value;
      assert Drop(t[s..], 10) == t[e..];
    } else if uc == 0 {
      ok := false;
      return;
    } else {
      unicode := uc;
      assert Drop(t[s..], 4) == t[e..];
    }
    b' := WriteUtf8(unicode, buf, b);
  }

  /** Echoing a valid character. */
  method Echo(t: cstring, s: nat, n: nat, buf: array<byte>, b: nat)
    requires s + n <= |t| && b + n <= buf.Length
    modifies buf
    ensures buf[..b + n] == old(buf[..b]) + t[s..s + n]
  {
    for i := 0 to n
      invariant buf[..b + i] == old(buf[..b]) + t[s..s + i]
    {
      buf[b + i] := Peek(t, s + i);
    }
  }

  /** One turn of the loop of parse_string: at most four bytes go to `b`. */
  method ParseChar(t: cstring, s: nat, buf: array<byte>, b: nat) returns (ok: bool, e: nat, b': nat)
    requires s <= |t| && b + 4 <= buf.Length
    modifies buf
    ensures ok == ReadPiece(t[s..]).Read?
    ensures ok ==>
              var r := ReadPiece(t[s..]);
              && s < e <= |t| && t[e..] == r.rest
              && b' == b + |r.value| <= b + 4 && buf[..b'] == old(buf[..b]) + r.value
  {
    hide ReadHexEscape;
    e, b' := s, b;
    var c := Peek(t, s);
    assert forall k: nat :: At(t[s..], k) == At(t, s + k);
    if c == BACKSLASH {
      c := Peek(t, s + 1);
      var short := ShortEscape(c);
      if short.Some? {
        assert c != 0;
        buf[b] := short.value;
        assert Drop(t[s..], 2) == t[s + 2..];
        return true, s + 2, b + 1;
      } else if c == LETTER_U {
        assert Drop(t[s..], 2) == t[s + 2..];
        ok, e, b' := ParseUnicode(t, s + 2, buf, b);
      } else {
        return false, s, b;
      }
    } else if c <= 0x1F {
      return false, s, b;
    } else {
      var n := ValidateChar(t, s);
      if n == 0 {
        return false, s, b;
      }
      ReadIsWritten(t[s..]);
      assert n <= 4;
      Echo(t, s, n, buf, b);
      assert t[s..][..n] == t[s..s + n];
      return true, s + n, b + n;
    }
  }

  /** A result put behind what was read before it. */
  function Behind<T>(before: seq<T>, r: Reading<seq<T>>): Reading<seq<T>> {
    match r
    case Fail => Fail
    case Read(more, rest) => Read(before + more, rest)
  }

  function BehindText(before: cstring, r: Reading<cstring>): Reading<cstring> {
    match r
    case Fail => Fail
    case Read(more, rest) => Read(before + more, rest)
  }

  lemma PiecesStep(seen: cstring, u: bytes)
    ensures At(u, 0) == QUOTE ==> BehindText(seen, ReadPieces(u)) == Read(seen, u[1..])
    ensures At(u, 0) != QUOTE ==>
              BehindText(seen, ReadPieces(u)) ==
              match ReadPiece(u)
              case Fail => Fail
              case Read(d, rest) => BehindText(seen + d, ReadPieces(rest))
  {
    hide ReadPiece;
    if At(u, 0) == QUOTE {
      assert seen + [] == seen;
    } else if ReadPiece(u).Read? {
      var d := ReadPiece(u).value;
      var more := ReadPieces(ReadPiece(u).rest);
      assert more.Read? ==> seen + (d + more.value) == (seen + d) + more.value;
    }
  }

  /** parse_string. */
  method ParseString(t: cstring, s: nat, build: bool) returns (ok: bool, e: nat, text: cstring)
    requires s <= |t|
    ensures ok == ReadString(t[s..]).Read?
    ensures ok ==>
              var r := ReadString(t[s..]);
              s < e <= |t| && t[e..] == r.rest && (build ==> text == r.value)
  {
    hide ReadPiece, ReadPieces;
    e, text := s, [];
    if Peek(t, e) != QUOTE {
      return false, s, [];
    }
    e := e + 1;
    var sb := new Buffer();
    var throwaway := new byte[4](_ => 0);
    var buf, b := throwaway, 0;
    if build {
      sb.Need(4);
      buf, b := sb.start, sb.cur;
    }
    assert t[s..][1..] == t[e..];
    ghost var goal := ReadPieces(t[e..]);
    ghost var seen: cstring := [];
    assert goal == BehindText(seen, goal) by {
      assert goal.Read? ==> seen + goal.value == goal.value;
    }
    while Peek(t, e) != QUOTE
      invariant s < e <= |t|
      invariant sb.Valid() && fresh(sb) && fresh(sb.start) && fresh(throwaway)
      invariant throwaway != sb.start && throwaway.Length == 4
      invariant if build then buf == sb.start && b == sb.cur else buf == throwaway && b == 0
      invariant b + 4 <= buf.Length && (build ==> sb.end - sb.cur >= 4)
      invariant build ==> sb.Contents() == seen
      invariant goal == BehindText(seen, ReadPieces(t[e..]))
      decreases |t| - e
    {
      PiecesStep(seen, t[e..]);
      var e', b';
      ok, e', b' := ParseChar(t, e, buf, b);
      if !ok {
        return false, s, [];
      }
      seen := seen + ReadPiece(t[e..]).value;
      e := e';
      if build {
        sb.cur := b';
        assert sb.Contents() == seen;
        sb.Need(4);
        buf, b := sb.start, sb.cur;
      } else {
        buf, b := throwaway, 0;
      }
    }
    PiecesStep(seen, t[e..]);
    assert t[e..][1..] == t[e + 1..];
    if build {
      sb.Finish();
      text := sb.start[..sb.cur];
    }
    return true, e + 1, text;
  }

  /** One or more digits at `e`; `s` is where the number started. */
  method TakeDigits(t: cstring, s: nat, e: nat) returns (ok: bool, e': nat)
    requires s <= e <= |t|
    ensures ok == (Digits1(t[s..], e - s) > 0)
    ensures ok ==> e < e' <= |t| && e' - s == Digits1(t[s..], e - s)
  {
    ghost var u := t[s..];
    assert At(u, e - s) == At(t, e);
    if !IsDigit(Peek(t, e)) {
      return false, e;
    }
    e' := e + 1;
    assert DigitsEnd(u, e' - s) == DigitsEnd(u, e - s);
    while IsDigit(Peek(t, e'))
      invariant e < e' <= |t|
      invariant DigitsEnd(u, e' - s) == DigitsEnd(u, e - s)
      decreases |t| - e'
    {
      assert u[e' - s] == t[e'];
      e' := e' + 1;
    }
    assert At(u, e' - s) == At(t, e');
    return true, e';
  }

  /** ('.' [0-9]+)? */
  method TakeFraction(t: cstring, s: nat, e: nat) returns (ok: bool, e': nat)
    requires s < e <= |t|
    ensures ok == (FractionEnd(t[s..], e - s) > 0)
    ensures ok ==> e <= e' <= |t| && e' - s == FractionEnd(t[s..], e - s)
  {
    hide Digits1;
    ghost var u := t[s..];
    assert At(u, e - s) == At(t, e);
    if Peek(t, e) != 0x2E {
      return true, e;
    }
    ok, e' := TakeDigits(t, s, e + 1);
  }

  /** ([Ee] [+-]? [0-9]+)? */
  method TakeExponent(t: cstring, s: nat, e: nat) returns (ok: bool, e': nat)
    requires s < e <= |t|
    ensures ok == (ExponentEnd(t[s..], e - s) > 0)
    ensures ok ==> e <= e' <= |t| && e' - s == ExponentEnd(t[s..], e - s)
  {
    hide Digits1;
    ghost var u := t[s..];
    assert At(u, e - s) == At(t, e);
    if Peek(t, e) != 0x45 && Peek(t, e) != 0x65 {
      return true, e;
    }
    e' := e + 1;
    assert At(u, e' - s) == At(t, e');
    if Peek(t, e') == 0x2B || Peek(t, e') == 0x2D {
      e' := e' + 1;
    }
    ok, e' := TakeDigits(t, s, e');
  }

  /** parse_number. */
  method ParseNumber(t: cstring, s: nat, build: bool) returns (ok: bool, e: nat, lexeme: cstring)
    requires s <= |t|
    ensures ok == (NumberLength(t[s..]) > 0)
    ensures ok ==> e == s + NumberLength(t[s..]) <= |t| && (build ==> lexeme == t[s..e])
  {
    hide Digits1, FractionEnd, ExponentEnd;
    ghost var u := t[s..];
    e, lexeme := s, [];
    assert At(u, 0) == At(t, e);
    if Peek(t, e) == 0x2D {
      e := e + 1;
    }
    assert At(u, e - s) == At(t, e);
    if Peek(t, e) == 0x30 {
      e := e + 1;
      ok := true;
    } else {
      ok, e := TakeDigits(t, s, e);
    }
    assert ok == (IntegerEnd(u) > 0) && (ok ==> e - s == IntegerEnd(u));
    NumberFails(u);
    if ok {
      ok, e := TakeFraction(t, s, e);
      if ok {
        ok, e := TakeExponent(t, s, e);
      }
    }
    if ok && build {
      lexeme := t[s..e];
    }
  }

  lemma NumberFails(u: bytes)
    ensures IntegerEnd(u) == 0 ==> NumberLength(u) == 0
    ensures FractionEnd(u, IntegerEnd(u)) == 0 ==> NumberLength(u) == 0
  {
  }

  // ---------------------------------------------------------------- values

  /** What a reading method promises: the cursor stops where the reader's remainder begins. */
  ghost predicate Stopped<T>(t: cstring, s: nat, r: Reading<T>, ok: bool, e: nat) {
    ok == r.Read? && (ok ==> s < e <= |t| && t[e..] == r.rest)
  }

  method ParseWord(t: cstring, s: nat, word: cstring, ghost value: Json) returns (ok: bool, e: nat)
    requires s <= |t| && word != []
    ensures Stopped(t, s, ReadWord(t[s..], word, value), ok, e)
  {
    ok, e := ExpectLiteral(t, s, word);
    assert ok ==> t[s..][|word|..] == t[e..];
  }

  /** parse_value. */
  method ParseValue(t: cstring, s: nat, build: bool) returns (ok: bool, e: nat, v: Json)
    requires s <= |t|
    ensures Stopped(t, s, ReadValue(t[s..]), ok, e)
    ensures ok && build ==> v == ReadValue(t[s..]).value
    decreases |t| - s, 1
  {
    hide ReadElements, ReadMembers, ReadString, NumberLength, ReadWord, SkipSpace;
    ok, e, v := false, s, Null;
    var c := Peek(t, s);
    assert At(t[s..], 0) == c;
    if c == 0x6E {
      ok, e := ParseWord(t, s, NULL_WORD, Null);
      v := Null;
      WordValue(t[s..], NULL_WORD, v);
    } else if c == 0x66 {
      ok, e := ParseWord(t, s, FALSE_WORD, Bool(false));
      v := Bool(false);
      WordValue(t[s..], FALSE_WORD, v);
    } else if c == 0x74 {
      ok, e := ParseWord(t, s, TRUE_WORD, Bool(true));
      v := Bool(true);
      WordValue(t[s..], TRUE_WORD, v);
    } else if c == QUOTE {
      var text;
      ok, e, text := ParseString(t, s, build);
      v := Str(text);
    } else if c == LBRACKET {
      ok, e, v := ParseArray(t, s, build);
    } else if c == LBRACE {
      ok, e, v := ParseObject(t, s, build);
    } else {
      var lexeme;
      ok, e, lexeme := ParseNumber(t, s, build);
      v := Num(lexeme);
      NumberShape(t[s..]);
      assert ok ==> t[s..][..e - s] == t[s..e] && t[s..][e - s..] == t[e..];
    }
  }

  lemma WordValue(u: bytes, word: cstring, value: Json)
    ensures ReadWord(u, word, value).Read? ==> ReadWord(u, word, value).value == value
  {
  }

  lemma ElementsStep(seen: seq<Json>, u: bytes)
    ensures Behind(seen, ReadElements(u)) ==
            match ReadValue(u)
            case Fail => Fail
            case Read(v, rest) =>
              var w := SkipSpace(rest);
              if At(w, 0) == RBRACKET then Read(seen + [v], w[1..])
              else if At(w, 0) != COMMA then Fail
              else Behind(seen + [v], ReadElements(SkipSpace(w[1..])))
  {
    hide ReadValue, SkipSpace;
    if ReadElements(u).Read? {
      var v := ReadValue(u).value;
      var w := SkipSpace(ReadValue(u).rest);
      if At(w, 0) != RBRACKET {
        var more := ReadElements(SkipSpace(w[1..])).value;
        assert seen + ([v] + more) == seen + [v] + more;
      }
    }
  }

  /** parse_array. */
  method ParseArray(t: cstring, s: nat, build: bool) returns (ok: bool, e: nat, v: Json)
    requires s < |t| && t[s] == LBRACKET
    ensures Stopped(t, s, ReadValue(t[s..]), ok, e)
    ensures ok && build ==> v == ReadValue(t[s..]).value
    decreases |t| - s, 0
  {
    hide ReadElements, ReadMembers, SkipSpace;
    v := Null;
    assert t[s..][1..] == t[s + 1..];
    e := SkipSpaces(t, s + 1);
    assert At(t[e..], 0) == At(t, e);
    if Peek(t, e) == RBRACKET {
      assert t[e..][1..] == t[e + 1..];
      return true, e + 1, Arr([]);
    }
    hide ReadValue;
    ghost var goal := ReadElements(t[e..]);
    ghost var seen: seq<Json> := [];
    var elements: seq<Json> := [];
    assert goal == Behind(seen, goal) by {
      assert goal.Read? ==> seen + goal.value == goal.value;
    }
    ArrayValue(t[s..], t[e..]);
    while true
      invariant s < e <= |t|
      invariant goal == Behind(seen, ReadElements(t[e..]))
      invariant build ==> elements == seen
      decreases |t| - e
    {
      ElementsStep(seen, t[e..]);
      var element;
      ghost var r := ReadValue(t[e..]);
      ok, e, element := ParseValue(t, e, build);
      if !ok {
        return false, s, Null;
      }
      seen := seen + [r.value];
      e := SkipSpaces(t, e);
      if build {
        elements := elements + [element];
      }
      assert At(t[e..], 0) == At(t, e);
      if Peek(t, e) == RBRACKET {
        assert t[e..][1..] == t[e + 1..];
        return true, e + 1, Arr(elements);
      }
      if Peek(t, e) != COMMA {
        return false, s, Null;
      }
      assert t[e..][1..] == t[e + 1..];
      e := SkipSpaces(t, e + 1);
    }
  }

  lemma ArrayValue(t: bytes, u: bytes)
    requires At(t, 0) == LBRACKET && u == SkipSpace(t[1..]) && At(u, 0) != RBRACKET
    ensures ReadValue(t) ==
            match ReadElements(u)
            case Fail => Fail
            case Read(es, rest) => Read(Arr(es), rest)
  {
    hide ReadElements, SkipSpace;
  }

  lemma MembersStep(seen: seq<Member>, u: bytes)
    ensures Behind(seen, ReadMembers(u)) ==
            match ReadMember(u)
            case Fail => Fail
            case Read(m, rest) =>
              var w := SkipSpace(rest);
              if At(w, 0) == RBRACE then Read(seen + [m], w[1..])
              else if At(w, 0) != COMMA then Fail
              else Behind(seen + [m], ReadMembers(SkipSpace(w[1..])))
  {
    hide ReadMember, SkipSpace;
    if ReadMembers(u).Read? {
      var m := ReadMember(u).value;
      var w := SkipSpace(ReadMember(u).rest);
      if At(w, 0) != RBRACE {
        var more := ReadMembers(SkipSpace(w[1..])).value;
        assert seen + ([m] + more) == seen + [m] + more;
      }
    }
  }

  lemma ObjectValue(t: bytes, u: bytes)
    requires At(t, 0) == LBRACE && u == SkipSpace(t[1..]) && At(u, 0) != RBRACE
    ensures ReadValue(t) ==
            match ReadMembers(u)
            case Fail => Fail
            case Read(ms, rest) => Read(Obj(ms), rest)
  {
    hide ReadMembers, SkipSpace;
  }

  /** A key, its colon and its value. */
  method ParseMember(t: cstring, s: nat, build: bool) returns (ok: bool, e: nat, m: Member)
    requires s <= |t|
    ensures Stopped(t, s, ReadMember(t[s..]), ok, e)
    ensures ok && build ==> m == ReadMember(t[s..]).value
    decreases |t| - s, 1
  {
    hide ReadString, ReadValue, SkipSpace;
    m := Member([], Null);
    var key, value;
    ok, e, key := ParseString(t, s, build);
    if !ok {
      return;
    }
    e := SkipSpaces(t, e);
    assert At(t[e..], 0) == At(t, e);
    if Peek(t, e) != COLON {
      return false, s, m;
    }
    assert t[e..][1..] == t[e + 1..];
    e := SkipSpaces(t, e + 1);
    ok, e, value := ParseValue(t, e, build);
    m := Member(key, value);
  }

  /** parse_object. */
  method ParseObject(t: cstring, s: nat, build: bool) returns (ok: bool, e: nat, v: Json)
    requires s < |t| && t[s] == LBRACE
    ensures Stopped(t, s, ReadValue(t[s..]), ok, e)
    ensures ok && build ==> v == ReadValue(t[s..]).value
    decreases |t| - s, 0
  {
    hide ReadElements, ReadMembers, SkipSpace;
    v := Null;
    assert t[s..][1..] == t[s + 1..];
    e := SkipSpaces(t, s + 1);
    assert At(t[e..], 0) == At(t, e);
    if Peek(t, e) == RBRACE {
      assert t[e..][1..] == t[e + 1..];
      return true, e + 1, Obj([]);
    }
    hide ReadValue, ReadMember;
    ghost var goal := ReadMembers(t[e..]);
    ghost var seen: seq<Member> := [];
    var members: seq<Member> := [];
    assert goal == Behind(seen, goal) by {
      assert goal.Read? ==> seen + goal.value == goal.value;
    }
    ObjectValue(t[s..], t[e..]);
    while true
      invariant s < e <= |t|
      invariant goal == Behind(seen, ReadMembers(t[e..]))
      invariant build ==> members == seen
      decreases |t| - e
    {
      MembersStep(seen, t[e..]);
      var member;
      ghost var r := ReadMember(t[e..]);
      ok, e, member := ParseMember(t, e, build);
      if !ok {
        return false, s, Null;
      }
      seen := seen + [r.value];
      e := SkipSpaces(t, e);
      if build {
        members := members + [member];
      }
      assert At(t[e..], 0) == At(t, e);
      if Peek(t, e) == RBRACE {
        assert t[e..][1..] == t[e + 1..];
        return true, e + 1, Obj(members);
      }
      if Peek(t, e) != COMMA {
        return false, s, Null;
      }
      assert t[e..][1..] == t[e + 1..];
      e := SkipSpaces(t, e + 1);
    }
  }

  /** json_decode. */
  method JsonDecode(t: cstring) returns (r: Option<Json>)
    ensures r == Decode(t)
  {
    hide ReadValue, SkipSpace;
    assert t[0..] == t;
    var s := SkipSpaces(t, 0);
    var ok, e, v := ParseValue(t, s, true);
    if !ok {
      return None;
    }
    e := SkipSpaces(t, e);
    assert At(t[e..], 0) == At(t, e);
    return if Peek(t, e) != 0 then None else Some(v);
  }

  /** json_validate: the same without building anything. */
  method JsonValidate(t: cstring) returns (ok: bool)
    ensures ok <==> Decode(t).Some?
  {
    hide ReadValue, SkipSpace;
    assert t[0..] == t;
    var e, v;
    var s := SkipSpaces(t, 0);
    ok, e, v := ParseValue(t, s, false);
    if !ok {
      return false;
    }
    e := SkipSpaces(t, e);
    assert At(t[e..], 0) == At(t, e);
    return Peek(t, e) == 0;
  }
}
