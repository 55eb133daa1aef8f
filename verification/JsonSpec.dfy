/** JSON values, and what the reader and the two printers of ccan_json.c compute, as functions on
    byte strings.  A reader takes the text that is left and gives back what it leaves. */
module JsonSpec {
  import opened Bytes
  import opened Common
  import opened Utf8

  /** A tree.  A number is kept as the text printed for it ("%.16g") or read for it. */
  datatype Json =
    | Null
    | Bool(bit: bool)
    | Str(text: cstring)
    | Num(lexeme: cstring)
    | Arr(elements: seq<Json>)
    | Obj(members: seq<Member>)

  datatype Member = Member(key: cstring, value: Json)

  const QUOTE: byte := 0x22
  const COMMA: byte := 0x2C
  const COLON: byte := 0x3A
  const BACKSLASH: byte := 0x5C
  const LETTER_U: byte := 0x75
  const LBRACKET: byte := 0x5B
  const RBRACKET: byte := 0x5D
  const LBRACE: byte := 0x7B
  const RBRACE: byte := 0x7D
  const NEWLINE: byte := 0x0A
  const SPACE: byte := 0x20

  const NULL_WORD: cstring := [0x6E, 0x75, 0x6C, 0x6C]
  const TRUE_WORD: cstring := [0x74, 0x72, 0x75, 0x65]
  const FALSE_WORD: cstring := [0x66, 0x61, 0x6C, 0x73, 0x65]

  predicate IsSpace(c: byte) { c == 9 || c == 10 || c == 13 || c == 32 }
  predicate IsDigit(c: byte) { 0x30 <= c <= 0x39 }

  // ---------------------------------------------------------------- reading

  datatype Reading<+T> = Fail | Read(value: T, rest: bytes)

  /** skip_space. */
  function SkipSpace(t: bytes): (r: bytes)
    ensures |r| <= |t|
  {
    if t != [] && IsSpace(t[0]) then SkipSpace(t[1..]) else t
  }

  /** expect_literal. */
  function ReadWord<T>(t: bytes, word: cstring, value: T): (r: Reading<T>) {
    if word <= t then Read(value, t[|word|..]) else Fail
  }

  /** The end of the digits that start at `i`. */
  function DigitsEnd(t: bytes, i: nat): (e: nat)
    ensures i <= e && (i <= |t| ==> e <= |t|)
    decreases if i < |t| then |t| - i else 0
  {
    if i < |t| && IsDigit(t[i]) then DigitsEnd(t, i + 1) else i
  }

  /** One or more digits; 0 stands for none. */
  function Digits1(t: bytes, i: nat): (e: nat)
    ensures e == 0 || i < e <= |t|
  {
    if IsDigit(At(t, i)) then DigitsEnd(t, i) else 0
  }

  function IntegerEnd(t: bytes): nat {
    var a := if At(t, 0) == 0x2D then 1 else 0;
    if At(t, a) == 0x30 then a + 1 else Digits1(t, a)
  }

  function FractionEnd(t: bytes, i: nat): nat {
    if i == 0 then 0 else if At(t, i) == 0x2E then Digits1(t, i + 1) else i
  }

  function ExponentEnd(t: bytes, i: nat): nat {
    if i == 0 then 0
    else if At(t, i) == 0x45 || At(t, i) == 0x65 then
      Digits1(t, if At(t, i + 1) == 0x2B || At(t, i + 1) == 0x2D then i + 2 else i + 1)
    else i
  }

  /** parse_number: the length of the number at the start of the text, 0 if there is none. */
  function NumberLength(t: bytes): nat {
    ExponentEnd(t, FractionEnd(t, IntegerEnd(t)))
  }

  /** number_is_valid: the whole text is one number. */
  predicate IsNumber(t: bytes) {
    t != [] && NumberLength(t) == |t|
  }

  predicate InNumber(c: byte) {
    IsDigit(c) || c == 0x2B || c == 0x2D || c == 0x2E || c == 0x45 || c == 0x65
  }

  lemma DigitsEndShape(t: bytes, i: nat)
    ensures forall k :: i <= k < DigitsEnd(t, i) ==> IsDigit(At(t, k))
    decreases if i < |t| then |t| - i else 0
  {
    if i < |t| && IsDigit(t[i]) {
      DigitsEndShape(t, i + 1);
    }
  }

  lemma NumberShape(t: bytes)
    ensures NumberLength(t) <= |t|
    ensures forall k :: 0 <= k < NumberLength(t) ==> InNumber(At(t, k))
    ensures 0 !in t[..NumberLength(t)]
  {
    var a := if At(t, 0) == 0x2D then 1 else 0;
    var b := IntegerEnd(t);
    var c := FractionEnd(t, b);
    DigitsEndShape(t, a);
    assert b <= |t| && forall k :: 0 <= k < b ==> InNumber(At(t, k));
    DigitsEndShape(t, b + 1);
    assert c <= |t| && forall k :: 0 <= k < c ==> InNumber(At(t, k));
    DigitsEndShape(t, c + 1);
    DigitsEndShape(t, c + 2);
    assert forall k :: 0 <= k < NumberLength(t) ==> InNumber(At(t, k)) && t[k] == At(t, k);
  }

  function ReadNumber(t: bytes): (r: Reading<Json>)
    ensures r.Read? ==> |r.rest| < |t|
  {
    var n := NumberLength(t);
    NumberShape(t);
    if n == 0 then Fail else Read(Num(t[..n]), t[n..])
  }

  /** The character that a one-letter escape stands for. */
  function ShortEscape(c: byte): Option<byte> {
    if c == QUOTE || c == BACKSLASH || c == 0x2F then Some(c)
    else if c == 0x62 then Some(8)
    else if c == 0x66 then Some(12)
    else if c == 0x6E then Some(10)
    else if c == 0x72 then Some(13)
    else if c == 0x74 then Some(9)
    else None
  }

  predicate IsSurrogate(u: nat) { 0xD800 <= u <= 0xDFFF }

  /** What follows `\u`. */
  function ReadHexEscape(t: bytes): (r: Reading<cstring>)
    ensures r.Read? ==> |r.rest| <= |t|
  {
    match ParseHex(t)
    case None => Fail
    case Some(u) =>
      HexOnto(t);
      if IsSurrogate(u) then
        if At(t, 4) != BACKSLASH || At(t, 5) != LETTER_U then Fail else
        match ParseHex(Drop(t, 6))
        case None => Fail
        case Some(v) =>
          match FromSurrogatePair(u, v)
          case None => Fail
          case Some(w) => SurrogatesOnto(u, v); Read(WriteChar(w), Drop(t, 10))
      else if u == 0 then Fail
      else Read(WriteChar(u), Drop(t, 4))
  }

  /** One character of a string literal. */
  function ReadPiece(t: bytes): (r: Reading<cstring>)
    ensures r.Read? ==> |r.rest| < |t|
  {
    var c := At(t, 0);
    if c == BACKSLASH then
      match ShortEscape(At(t, 1))
      case Some(d) => Read([d], Drop(t, 2))
      case None => if At(t, 1) == LETTER_U then ReadHexEscape(Drop(t, 2)) else Fail
    else if c <= 0x1F then Fail
    else
      var n := Validate(t);
      if n == 0 then Fail else ReadIsWritten(t); Read(t[..n], t[n..])
  }

  /** The rest of a string literal, after its opening quote. */
  function ReadPieces(t: bytes): (r: Reading<cstring>)
    ensures r.Read? ==> |r.rest| < |t|
    decreases |t|
  {
    if At(t, 0) == QUOTE then Read([], t[1..])
    else
      match ReadPiece(t)
      case Fail => Fail
      case Read(d, rest) =>
        match ReadPieces(rest)
        case Fail => Fail
        case Read(ds, rest') => Read(d + ds, rest')
  }

  /** parse_string. */
  function ReadString(t: bytes): (r: Reading<cstring>)
    ensures r.Read? ==> |r.rest| < |t|
  {
    if At(t, 0) != QUOTE then Fail else ReadPieces(t[1..])
  }

  /** parse_value. */
  function ReadValue(t: bytes): (r: Reading<Json>)
    ensures r.Read? ==> |r.rest| < |t|
    decreases |t|, 1
  {
    var c := At(t, 0);
    if c == 0x6E then ReadWord(t, NULL_WORD, Null)
    else if c == 0x66 then ReadWord(t, FALSE_WORD, Bool(false))
    else if c == 0x74 then ReadWord(t, TRUE_WORD, Bool(true))
    else if c == QUOTE then
      match ReadString(t)
      case Fail => Fail
      case Read(s, rest) => Read(Str(s), rest)
    else if c == LBRACKET then
      var u := SkipSpace(t[1..]);
      if At(u, 0) == RBRACKET then Read(Arr([]), u[1..]) else
      match ReadElements(u)
      case Fail => Fail
      case Read(es, rest) => Read(Arr(es), rest)
    else if c == LBRACE then
      var u := SkipSpace(t[1..]);
      if At(u, 0) == RBRACE then Read(Obj([]), u[1..]) else
      match ReadMembers(u)
      case Fail => Fail
      case Read(ms, rest) => Read(Obj(ms), rest)
    else ReadNumber(t)
  }

  /** The loop of parse_array. */
  function ReadElements(t: bytes): (r: Reading<seq<Json>>)
    ensures r.Read? ==> |r.rest| < |t|
    decreases |t|, 2
  {
    match ReadValue(t)
    case Fail => Fail
    case Read(v, rest) =>
      var u := SkipSpace(rest);
      if At(u, 0) == RBRACKET then Read([v], u[1..])
      else if At(u, 0) != COMMA then Fail
      else
        match ReadElements(SkipSpace(u[1..]))
        case Fail => Fail
        case Read(es, rest') => Read([v] + es, rest')
  }

  /** A key, its colon and its value: one turn of the loop of parse_object. */
  function ReadMember(t: bytes): (r: Reading<Member>)
    ensures r.Read? ==> |r.rest| < |t|
    decreases |t|, 2
  {
    match ReadString(t)
    case Fail => Fail
    case Read(key, rest) =>
      var u := SkipSpace(rest);
      if At(u, 0) != COLON then Fail else
      match ReadValue(SkipSpace(u[1..]))
      case Fail => Fail
      case Read(v, rest') => Read(Member(key, v), rest')
  }

  /** The loop of parse_object. */
  function ReadMembers(t: bytes): (r: Reading<seq<Member>>)
    ensures r.Read? ==> |r.rest| < |t|
    decreases |t|, 3
  {
    match ReadMember(t)
    case Fail => Fail
    case Read(m, rest) =>
      var u := SkipSpace(rest);
      if At(u, 0) == RBRACE then Read([m], u[1..])
      else if At(u, 0) != COMMA then Fail
      else
        match ReadMembers(SkipSpace(u[1..]))
        case Fail => Fail
        case Read(ms, rest') => Read([m] + ms, rest')
  }

  /** json_decode. */
  function Decode(t: cstring): Option<Json> {
    match ReadValue(SkipSpace(t))
    case Fail => None
    case Read(v, rest) => if At(SkipSpace(rest), 0) == 0 then Some(v) else None
  }

  // ---------------------------------------------------------------- printing

  /** json_encode prints compactly; json_stringify with an indent string prints on lines. */
  datatype Style = Compact | Indented(space: cstring)

  /** The letter of the one-letter escape that the printer uses for a character. */
  function ShortFor(c: byte): Option<byte> {
    if c == QUOTE || c == BACKSLASH then Some(c)
    else if c == 8 then Some(0x62)
    else if c == 12 then Some(0x66)
    else if c == 10 then Some(0x6E)
    else if c == 13 then Some(0x72)
    else if c == 9 then Some(0x74)
    else None
  }

  function HexEscape(u: nat): bytes
    requires u < 0x10000
  {
    [BACKSLASH, LETTER_U] + WriteHex(u)
  }

  /** How many bytes of the string one turn of emit_string takes. */
  function CharLength(s: bytes): (n: nat)
    requires s != [] && 0 !in s
    ensures 0 < n <= |s|
  {
    if ShortFor(s[0]).Some? || Validate(s) == 0 then 1
    else ReadIsWritten(s); Validate(s)
  }

  /** What it writes for them.  `escape` is the local constant escape_unicode, false as shipped. */
  function EmitChar(s: bytes, escape: bool): bytes
    requires s != [] && 0 !in s
  {
    match ShortFor(s[0])
    case Some(l) => [BACKSLASH, l]
    case None =>
      if Validate(s) == 0 then
        if escape then HexEscape(0xFFFD) else [0xEF, 0xBF, 0xBD]
      else
        ReadIsWritten(s);
        if s[0] < 0x1F || (s[0] >= 0x80 && escape) then
          var u := ReadChar(s);
          if u <= 0xFFFF then HexEscape(u)
          else HexEscape(ToSurrogatePair(u).0) + HexEscape(ToSurrogatePair(u).1)
        else s[..Validate(s)]
  }

  function EmitChars(s: bytes, escape: bool): bytes
    requires 0 !in s
  {
    if s == [] then [] else EmitChar(s, escape) + EmitChars(s[CharLength(s)..], escape)
  }

  /** emit_string. */
  function EmitString(s: cstring, escape: bool): bytes {
    [QUOTE] + EmitChars(s, escape) + [QUOTE]
  }

  function Repeat(space: cstring, n: nat): bytes {
    if n == 0 then [] else space + Repeat(space, n - 1)
  }

  /** A line break and the indent of a level, where the style has them. */
  function Line(style: Style, level: nat): bytes {
    match style
    case Compact => []
    case Indented(space) => [NEWLINE] + Repeat(space, level)
  }

  function AfterColon(style: Style): bytes {
    if style.Compact? then [] else [SPACE]
  }

  /** emit_value and emit_value_indented. */
  function Emit(v: Json, style: Style, level: nat): bytes
    decreases v
  {
    match v
    case Null => NULL_WORD
    case Bool(b) => if b then TRUE_WORD else FALSE_WORD
    case Str(s) => EmitString(s, false)
    case Num(l) => if IsNumber(l) then l else NULL_WORD
    case Arr(es) =>
      if es == [] then [LBRACKET, RBRACKET]
      else [LBRACKET] + Line(style, level + 1) + EmitElements(es, style, level)
    case Obj(ms) =>
      if ms == [] then [LBRACE, RBRACE]
      else [LBRACE] + Line(style, level + 1) + EmitMembers(ms, style, level)
  }

  function EmitElements(es: seq<Json>, style: Style, level: nat): bytes
    requires es != []
    decreases es
  {
    Emit(es[0], style, level + 1) +
    if |es| == 1 then Line(style, level) + [RBRACKET]
    else [COMMA] + Line(style, level + 1) + EmitElements(es[1..], style, level)
  }

  function EmitMembers(ms: seq<Member>, style: Style, level: nat): bytes
    requires ms != []
    decreases ms
  {
    EmitString(ms[0].key, false) + [COLON] + AfterColon(style) + Emit(ms[0].value, style, level + 1) +
    if |ms| == 1 then Line(style, level) + [RBRACE]
    else [COMMA] + Line(style, level + 1) + EmitMembers(ms[1..], style, level)
  }

  /** json_encode and json_stringify. */
  function Encode(v: Json, style: Style): bytes {
    Emit(v, style, 0)
  }

  // ---------------------------------------------------------------- what survives a round trip

  /** The string with every stray byte replaced by U+FFFD. */
  function Repaired(s: bytes): bytes
    requires 0 !in s
  {
    if s == [] then []
    else if Validate(s) == 0 then [0xEF, 0xBF, 0xBD] + Repaired(s[1..])
    else ReadIsWritten(s); s[..Validate(s)] + Repaired(s[Validate(s)..])
  }

  /** utf8_validate. */
  predicate IsUtf8(s: bytes)
    requires 0 !in s
  {
    s == [] || (Validate(s) > 0 && (ReadIsWritten(s); IsUtf8(s[Validate(s)..])))
  }

  /** The one control character that the printer leaves as it is. */
  const UNIT_SEPARATOR: byte := 0x1F
}
