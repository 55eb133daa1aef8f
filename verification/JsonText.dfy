/** The grammar of JSON texts, independent of the reader and of the printers: a spelling is a
    concrete syntax tree that records every choice a writer has (white space, escapes), the text
    it flattens to and the value it means.  Its characters are those of RFC 8259, sections 2, 3 and 7,
    by their codes. */
module JsonText {
  import opened Bytes
  import opened Common
  import opened Utf8
  import opened JsonSpec

  /** One spelled character of a string literal (RFC 8259, section 7). */
  datatype Piece =
    | Plain(ch: bytes)
    | Short(letter: byte)
    | Hex(digits: bytes)
    | Pair(hi: bytes, lo: bytes)

  datatype Node =
    | NNull
    | NBool(bit: bool)
    | NStr(pieces: seq<Piece>)
    | NNum(lexeme: cstring)
    | NArr(gap: bytes, items: seq<Item>)
    | NObj(gap: bytes, fields: seq<Field>)

  /** An element, the white space after it and the white space after the comma that follows. */
  datatype Item = Item(node: Node, after: bytes, next: bytes)

  datatype Field = Field(key: seq<Piece>, afterKey: bytes, afterColon: bytes, item: Item)

  /** White space: space, tab, line feed, carriage return. */
  predicate Blank(w: bytes) {
    forall k :: 0 <= k < |w| ==> w[k] == 0x20 || w[k] == 0x09 || w[k] == 0x0A || w[k] == 0x0D
  }

  /** What may follow a backslash: a quotation mark, a backslash, a slash, and b, f, n, r and t for backspace,
      form feed, line feed, carriage return and tab. */
  function EscapeMeans(l: byte): Option<byte> {
    match l
    case 0x22 => Some(0x22)
    case 0x5C => Some(0x5C)
    case 0x2F => Some(0x2F)
    case 0x62 => Some(0x08)
    case 0x66 => Some(0x0C)
    case 0x6E => Some(0x0A)
    case 0x72 => Some(0x0D)
    case 0x74 => Some(0x09)
    case _ => None
  }

  predicate PieceOk(p: Piece) {
    match p
    case Plain(ch) => ch != [] && Validate(ch) == |ch| && ch[0] >= 0x1F && ch[0] != 0x22 && ch[0] != 0x5C
    case Short(l) => EscapeMeans(l).Some?
    case Hex(h) =>
      |h| == 4 && ParseHex(h).Some? && ParseHex(h).value != 0 && !IsSurrogate(ParseHex(h).value)
    case Pair(h, l) =>
      && |h| == 4 && |l| == 4 && ParseHex(h).Some? && ParseHex(l).Some?
      && FromSurrogatePair(ParseHex(h).value, ParseHex(l).value).Some?
  }

  function Spell(p: Piece): bytes {
    match p
    case Plain(ch) => ch
    case Short(l) => [0x5C, l]
    case Hex(h) => [0x5C, 0x75] + h
    case Pair(h, l) => [0x5C, 0x75] + h + [0x5C, 0x75] + l
  }

  function Denote(p: Piece): bytes
    requires PieceOk(p)
  {
    match p
    case Plain(ch) => ch
    case Short(l) => [EscapeMeans(l).value]
    case Hex(h) => HexOnto(h); WriteChar(ParseHex(h).value)
    case Pair(h, l) =>
      SurrogatesOnto(ParseHex(h).value, ParseHex(l).value);
      WriteChar(FromSurrogatePair(ParseHex(h).value, ParseHex(l).value).value)
  }

  predicate PiecesOk(ps: seq<Piece>) {
    ps == [] || (PieceOk(ps[0]) && PiecesOk(ps[1..]))
  }

  function SpellAll(ps: seq<Piece>): bytes {
    if ps == [] then [] else Spell(ps[0]) + SpellAll(ps[1..])
  }

  function DenoteAll(ps: seq<Piece>): bytes
    requires PiecesOk(ps)
  {
    if ps == [] then [] else Denote(ps[0]) + DenoteAll(ps[1..])
  }

  /** Between quotation marks. */
  function Literal(ps: seq<Piece>): bytes {
    [0x22] + SpellAll(ps) + [0x22]
  }

  predicate NodeOk(n: Node)
    decreases n
  {
    match n
    case NNull => true
    case NBool(_) => true
    case NStr(ps) => PiecesOk(ps)
    case NNum(l) => IsNumber(l)
    case NArr(gap, items) => Blank(gap) && ItemsOk(items)
    case NObj(gap, fields) => Blank(gap) && FieldsOk(fields)
  }

  predicate ItemsOk(items: seq<Item>)
    decreases items
  {
    items == [] || (NodeOk(items[0].node) && Blank(items[0].after) && Blank(items[0].next) && ItemsOk(items[1..]))
  }

  predicate FieldsOk(fields: seq<Field>)
    decreases fields
  {
    fields == [] ||
    (PiecesOk(fields[0].key) && GapsBlank(fields[0]) && NodeOk(fields[0].item.node) && FieldsOk(fields[1..]))
  }

  predicate GapsBlank(f: Field) {
    Blank(f.afterKey) && Blank(f.afterColon) && Blank(f.item.after) && Blank(f.item.next)
  }

  /** The text of a spelling: the words null, true and false; brackets, braces, colons and commas. */
  function Flat(n: Node): bytes
    decreases n
  {
    match n
    case NNull => [0x6E, 0x75, 0x6C, 0x6C]
    case NBool(b) => if b then [0x74, 0x72, 0x75, 0x65] else [0x66, 0x61, 0x6C, 0x73, 0x65]
    case NStr(ps) => Literal(ps)
    case NNum(l) => l
    case NArr(gap, items) =>
      [0x5B] + gap + (if items == [] then [0x5D] else FlatItems(items))
    case NObj(gap, fields) =>
      [0x7B] + gap + (if fields == [] then [0x7D] else FlatFields(fields))
  }

  function FlatItems(items: seq<Item>): bytes
    requires items != []
    decreases items
  {
    Flat(items[0].node) + items[0].after +
    if |items| == 1 then [0x5D] else [0x2C] + items[0].next + FlatItems(items[1..])
  }

  function FlatField(f: Field): bytes
    decreases f
  {
    Literal(f.key) + f.afterKey + [0x3A] + f.afterColon + Flat(f.item.node)
  }

  function FlatFields(fields: seq<Field>): bytes
    requires fields != []
    decreases fields
  {
    FlatField(fields[0]) + fields[0].item.after +
    if |fields| == 1 then [0x7D] else [0x2C] + fields[0].item.next + FlatFields(fields[1..])
  }

  /** The value of a spelling. */
  function Meaning(n: Node): Json
    requires NodeOk(n)
    decreases n
  {
    match n
    case NNull => Null
    case NBool(b) => Bool(b)
    case NStr(ps) => Str(Text(ps))
    case NNum(l) => Num(l)
    case NArr(_, items) => Arr(Values(items))
    case NObj(_, fields) => Obj(Members(fields))
  }

  function Text(ps: seq<Piece>): cstring
    requires PiecesOk(ps)
  {
    DenotesNoNul(ps);
    DenoteAll(ps)
  }

  function Values(items: seq<Item>): seq<Json>
    requires ItemsOk(items)
    decreases items
  {
    if items == [] then [] else [Meaning(items[0].node)] + Values(items[1..])
  }

  function MemberOf(f: Field): Member
    requires PiecesOk(f.key) && NodeOk(f.item.node)
    decreases f
  {
    Member(Text(f.key), Meaning(f.item.node))
  }

  function Members(fields: seq<Field>): seq<Member>
    requires FieldsOk(fields)
    decreases fields
  {
    if fields == [] then [] else [MemberOf(fields[0])] + Members(fields[1..])
  }

  /** A text spells a value: white space, a spelling of it, white space; and no byte 0x1F. */
  ghost predicate Spells(t: bytes, v: Json) {
    exists before, n, after ::
      && Blank(before) && NodeOk(n) && Blank(after)
      && t == before + Flat(n) + after && Meaning(n) == v
      && 0x1F !in t
  }

  // ---------------------------------------------------------------- characters

  lemma PieceNoNul(p: Piece)
    requires PieceOk(p)
    ensures 0 !in Denote(p)
  {
    match p
    case Plain(ch) => ReadIsWritten(ch);
    case Short(l) =>
    case Hex(h) => HexOnto(h);
    case Pair(h, l) => SurrogatesOnto(ParseHex(h).value, ParseHex(l).value);
  }

  lemma DenotesNoNul(ps: seq<Piece>)
    requires PiecesOk(ps)
    ensures 0 !in DenoteAll(ps)
  {
    if ps != [] {
      PieceNoNul(ps[0]);
      DenotesNoNul(ps[1..]);
    }
  }

  /** Four hexadecimal digits read the same whatever follows. */
  lemma HexLocal(h: bytes, rest: bytes)
    requires |h| == 4
    ensures ParseHex(h + rest) == ParseHex(h)
    ensures Drop(h + rest, 4) == rest
  {
    assert forall k :: 0 <= k < 4 ==> At(h + rest, k) == At(h, k);
  }

  lemma DropSum(a: bytes, b: bytes)
    ensures Drop(a + b, |a|) == b
  {
  }

  lemma HexReads(h: bytes, rest: bytes)
    requires PieceOk(Hex(h))
    ensures ReadHexEscape(h + rest) == Read(Denote(Hex(h)), rest)
  {
    hide ParseHex, WriteChar;
    HexLocal(h, rest);
    HexOnto(h);
  }

  lemma PairReads(h: bytes, l: bytes, rest: bytes)
    requires PieceOk(Pair(h, l))
    ensures ReadHexEscape(h + [BACKSLASH, LETTER_U] + l + rest) == Read(Denote(Pair(h, l)), rest)
  {
    hide ParseHex, WriteChar;
    var t := h + [BACKSLASH, LETTER_U] + l + rest;
    assert t == h + ([BACKSLASH, LETTER_U] + l + rest);
    HexLocal(h, [BACKSLASH, LETTER_U] + l + rest);
    HexOnto(h);
    DropSum(h + [BACKSLASH, LETTER_U], l + rest);
    assert t == h + [BACKSLASH, LETTER_U] + (l + rest);
    HexLocal(l, rest);
    DropSum(h + [BACKSLASH, LETTER_U] + l, rest);
    SurrogatesOnto(ParseHex(h).value, ParseHex(l).value);
  }

  lemma PieceReads(p: Piece, rest: bytes)
    requires PieceOk(p) && UNIT_SEPARATOR !in Spell(p)
    ensures ReadPiece(Spell(p) + rest) == Read(Denote(p), rest)
    ensures At(Spell(p) + rest, 0) != QUOTE
  {
    hide ParseHex, WriteChar, ReadHexEscape, Validate;
    var t := Spell(p) + rest;
    match p
    case Plain(ch) =>
      ValidateLocal(ch, rest);
      assert t[..|ch|] == ch && t[|ch|..] == rest;
    case Short(l) =>
      DropSum(Spell(p), rest);
    case Hex(h) =>
      assert t == [BACKSLASH, LETTER_U] + (h + rest);
      DropSum([BACKSLASH, LETTER_U], h + rest);
      HexReads(h, rest);
    case Pair(h, l) =>
      assert t == [BACKSLASH, LETTER_U] + (h + [BACKSLASH, LETTER_U] + l + rest);
      DropSum([BACKSLASH, LETTER_U], h + [BACKSLASH, LETTER_U] + l + rest);
      PairReads(h, l, rest);
  }

  /** The converse: what the reader takes for one character is a spelling of what it returns. */
  lemma PieceFound(t: bytes) returns (p: Piece)
    requires ReadPiece(t).Read? && At(t, 0) != QUOTE
    ensures PieceOk(p) && UNIT_SEPARATOR !in Spell(p)
    ensures t == Spell(p) + ReadPiece(t).rest && ReadPiece(t).value == Denote(p)
  {
    hide ParseHex, WriteChar, ReadHexEscape, Validate;
    if At(t, 0) == BACKSLASH {
      if ShortEscape(At(t, 1)).Some? {
        p := Short(t[1]);
        assert Denote(p) == [ShortEscape(t[1]).value];
      } else {
        p := HexFound(t[2..]);
        assert t == [BACKSLASH, LETTER_U] + t[2..];
      }
    } else {
      var n := Validate(t);
      ReadIsWritten(t);
      p := Plain(t[..n]);
      WrittenIsRead(ReadChar(t), []);
      assert WriteChar(ReadChar(t)) + [] == t[..n];
      PlainClean(t[..n]);
      assert Denote(p) == t[..n];
    }
  }

  lemma PlainClean(ch: bytes)
    requires ch != [] && Validate(ch) == |ch| && ch[0] > 0x1F
    ensures UNIT_SEPARATOR !in ch
  {
  }

  lemma HexClean(h: bytes)
    requires |h| == 4 && ParseHex(h).Some?
    ensures UNIT_SEPARATOR !in h && 0 !in h
  {
  }

  lemma HexFound(t: bytes) returns (p: Piece)
    requires ReadHexEscape(t).Read?
    ensures PieceOk(p) && UNIT_SEPARATOR !in Spell(p)
    ensures [BACKSLASH, LETTER_U] + t == Spell(p) + ReadHexEscape(t).rest
    ensures ReadHexEscape(t).value == Denote(p)
  {
    hide ParseHex, WriteChar;
    HexOnto(t);
    var h := t[..4];
    assert t == h + t[4..];
    HexLocal(h, t[4..]);
    HexClean(h);
    if IsSurrogate(ParseHex(t).value) {
      HexOnto(Drop(t, 6));
      var l := t[6..10];
      assert Drop(t, 6) == l + t[10..];
      HexLocal(l, t[10..]);
      HexClean(l);
      p := Pair(h, l);
      PairParts(t, h, l);
    } else {
      p := Hex(h);
      assert Spell(p) == [BACKSLASH, LETTER_U] + h;
    }
  }

  lemma PairParts(t: bytes, h: bytes, l: bytes)
    requires |t| >= 10 && h == t[..4] && l == t[6..10] && t[4] == BACKSLASH && t[5] == LETTER_U
    requires UNIT_SEPARATOR !in h && UNIT_SEPARATOR !in l
    ensures [BACKSLASH, LETTER_U] + t == Spell(Pair(h, l)) + Drop(t, 10)
    ensures UNIT_SEPARATOR !in Spell(Pair(h, l))
  {
    assert t == h + [BACKSLASH, LETTER_U] + l + t[10..];
  }

  // ---------------------------------------------------------------- string literals

  lemma {:induction false} PiecesRead(ps: seq<Piece>, rest: bytes)
    requires PiecesOk(ps) && UNIT_SEPARATOR !in SpellAll(ps)
    ensures ReadPieces(SpellAll(ps) + [QUOTE] + rest) == Read(DenoteAll(ps), rest)
  {
    hide ReadPiece, Spell, Denote, PieceOk;
    var t := SpellAll(ps) + [QUOTE] + rest;
    if ps == [] {
      assert t == [QUOTE] + rest;
    } else {
      var rest' := SpellAll(ps[1..]) + [QUOTE] + rest;
      assert t == Spell(ps[0]) + rest';
      PieceReads(ps[0], rest');
      PiecesRead(ps[1..], rest);
    }
  }

  lemma LiteralReads(ps: seq<Piece>, rest: bytes)
    requires PiecesOk(ps) && UNIT_SEPARATOR !in Literal(ps)
    ensures ReadString(Literal(ps) + rest) == Read(Text(ps), rest)
  {
    hide SpellAll, DenoteAll, PiecesOk, ReadPieces;
    var t := Literal(ps) + rest;
    assert t[1..] == SpellAll(ps) + [QUOTE] + rest;
    AbsentFromParts(UNIT_SEPARATOR, [QUOTE] + SpellAll(ps), [QUOTE]);
    AbsentFromParts(UNIT_SEPARATOR, [QUOTE], SpellAll(ps));
    PiecesRead(ps, rest);
  }

  lemma {:induction false} PiecesFound(t: bytes) returns (ps: seq<Piece>)
    requires ReadPieces(t).Read?
    ensures PiecesOk(ps) && UNIT_SEPARATOR !in SpellAll(ps)
    ensures t == SpellAll(ps) + [QUOTE] + ReadPieces(t).rest && ReadPieces(t).value == DenoteAll(ps)
    decreases |t|
  {
    hide ReadPiece, Spell, Denote, PieceOk;
    if At(t, 0) == QUOTE {
      ps := [];
      assert t == [QUOTE] + t[1..];
    } else {
      var p := PieceFound(t);
      var ps' := PiecesFound(ReadPiece(t).rest);
      ps := [p] + ps';
      assert ps[1..] == ps';
    }
  }

  lemma LiteralFound(t: bytes) returns (ps: seq<Piece>)
    requires ReadString(t).Read?
    ensures PiecesOk(ps) && UNIT_SEPARATOR !in Literal(ps)
    ensures t == Literal(ps) + ReadString(t).rest && ReadString(t).value == Text(ps)
  {
    hide ReadPieces, SpellAll, DenoteAll, PiecesOk;
    ps := PiecesFound(t[1..]);
    assert t == [QUOTE] + t[1..];
    assert t == Literal(ps) + ReadString(t).rest;
  }

  // ---------------------------------------------------------------- white space and numbers

  lemma SkipBlank(w: bytes, rest: bytes)
    requires Blank(w) && !IsSpace(At(rest, 0))
    ensures SkipSpace(w + rest) == rest
  {
    if w == [] {
      assert w + rest == rest;
    } else {
      assert (w + rest)[1..] == w[1..] + rest;
      SkipBlank(w[1..], rest);
    }
  }

  lemma SkipFound(t: bytes) returns (w: bytes)
    ensures Blank(w) && UNIT_SEPARATOR !in w
    ensures t == w + SkipSpace(t) && !IsSpace(At(SkipSpace(t), 0))
  {
    if t != [] && IsSpace(t[0]) {
      var w' := SkipFound(t[1..]);
      w := [t[0]] + w';
    } else {
      w := [];
    }
  }

  lemma DigitsReads(l: bytes, rest: bytes, i: nat)
    requires i <= |l| && !InNumber(At(rest, 0))
    ensures DigitsEnd(l + rest, i) == DigitsEnd(l, i)
    decreases |l| - i
  {
    if i < |l| && IsDigit(l[i]) {
      DigitsReads(l, rest, i + 1);
    }
  }

  lemma Digits1Reads(l: bytes, rest: bytes, i: nat)
    requires i <= |l| && !InNumber(At(rest, 0))
    ensures Digits1(l + rest, i) == Digits1(l, i) <= |l|
  {
    DigitsReads(l, rest, i);
  }

  /** A number ends where the text can no longer continue it. */
  lemma NumberReads(l: bytes, rest: bytes)
    requires IsNumber(l) && !InNumber(At(rest, 0))
    ensures NumberLength(l + rest) == |l|
  {
    hide DigitsEnd, Digits1;
    var t := l + rest;
    assert forall k: nat :: k < |l| ==> At(t, k) == At(l, k);
    assert At(t, |l|) == At(rest, 0);
    var a := if At(l, 0) == 0x2D then 1 else 0;
    Digits1Reads(l, rest, a);
    var b := IntegerEnd(l);
    assert IntegerEnd(t) == b;
    NumberPhases(l);
    if b < |l| {
      Digits1Reads(l, rest, b + 1);
    }
    var c := FractionEnd(l, b);
    assert FractionEnd(t, b) == c;
    if c < |l| {
      Digits1Reads(l, rest, c + 1);
      if c + 1 < |l| {
        Digits1Reads(l, rest, c + 2);
      }
    }
  }

  lemma NumberPhases(l: bytes)
    requires IsNumber(l)
    ensures 0 < IntegerEnd(l) <= FractionEnd(l, IntegerEnd(l)) <= |l|
    ensures !IsSpace(l[0]) && InNumber(l[0])
    ensures var c := FractionEnd(l, IntegerEnd(l)); c < |l| ==> c + 1 < |l|
  {
  }

  // ---------------------------------------------------------------- values

  lemma FlatHead(n: Node)
    requires NodeOk(n)
    ensures Flat(n) != [] && !IsSpace(Flat(n)[0]) && Flat(n)[0] != RBRACKET
  {
    match n
    case NNum(l) => NumberPhases(l);
    case _ =>
  }

  lemma {:induction false} ValueReads(n: Node, rest: bytes)
    requires NodeOk(n) && UNIT_SEPARATOR !in Flat(n) && !InNumber(At(rest, 0))
    ensures ReadValue(Flat(n) + rest) == Read(Meaning(n), rest)
    decreases n
  {
    hide ReadElements, ReadMembers, FlatItems, FlatFields, Values, Members, ItemsOk, FieldsOk;
    hide IsNumber, NumberLength, ReadString, Text, PiecesOk, SkipSpace, Blank;
    match n
    case NNull =>
    case NBool(b) =>
    case NStr(ps) =>
      LiteralReads(ps, rest);
    case NNum(l) =>
      NumberValueReads(l, rest);
    case NArr(gap, items) =>
      if items != [] {
        ItemsRead(items, rest);
      }
      ArrayReads(gap, items, rest);
    case NObj(gap, fields) =>
      if fields != [] {
        FieldsRead(fields, rest);
      }
      ObjectReads(gap, fields, rest);
  }

  lemma NumberValueReads(l: cstring, rest: bytes)
    requires IsNumber(l) && !InNumber(At(rest, 0))
    ensures ReadValue(l + rest) == Read(Num(l), rest)
  {
    hide NumberLength;
    NumberReads(l, rest);
    NumberPhases(l);
  }

  lemma ArrayReads(gap: bytes, items: seq<Item>, rest: bytes)
    requires Blank(gap) && ItemsOk(items)
    requires items != [] ==> ReadElements(FlatItems(items) + rest) == Read(Values(items), rest)
    ensures ReadValue(Flat(NArr(gap, items)) + rest) == Read(Arr(Values(items)), rest)
  {
    hide ReadElements, SkipSpace, FlatItems;
    var t := Flat(NArr(gap, items)) + rest;
    if items == [] {
      assert t[1..] == gap + ([RBRACKET] + rest);
      SkipBlank(gap, [RBRACKET] + rest);
    } else {
      assert t[1..] == gap + (FlatItems(items) + rest);
      FlatItemsHead(items);
      SkipBlank(gap, FlatItems(items) + rest);
    }
  }

  lemma FlatItemsHead(items: seq<Item>)
    requires items != [] && ItemsOk(items)
    ensures FlatItems(items) != [] && !IsSpace(FlatItems(items)[0]) && FlatItems(items)[0] != RBRACKET
  {
    FlatHead(items[0].node);
  }

  lemma ObjectReads(gap: bytes, fields: seq<Field>, rest: bytes)
    requires Blank(gap) && FieldsOk(fields)
    requires fields != [] ==> ReadMembers(FlatFields(fields) + rest) == Read(Members(fields), rest)
    ensures ReadValue(Flat(NObj(gap, fields)) + rest) == Read(Obj(Members(fields)), rest)
  {
    hide ReadMembers, SkipSpace, FlatFields;
    var t := Flat(NObj(gap, fields)) + rest;
    if fields == [] {
      assert t[1..] == gap + ([RBRACE] + rest);
      SkipBlank(gap, [RBRACE] + rest);
    } else {
      assert t[1..] == gap + (FlatFields(fields) + rest);
      FlatFieldsHead(fields);
      SkipBlank(gap, FlatFields(fields) + rest);
    }
  }

  /** White space and then something that is not part of a number is not part of a number. */
  lemma BlankStops(w: bytes, rest: bytes)
    requires Blank(w) && !InNumber(At(rest, 0))
    ensures !InNumber(At(w + rest, 0))
  {
    assert w != [] ==> (w + rest)[0] == w[0];
    assert w == [] ==> w + rest == rest;
  }

  lemma CommaStops()
    ensures !InNumber(COMMA) && !IsSpace(COMMA) && !InNumber(RBRACKET) && !IsSpace(RBRACKET)
    ensures !InNumber(RBRACE) && !IsSpace(RBRACE) && !IsSpace(QUOTE)
  {
  }

  lemma ElementsStep(t: bytes, v: Json, r: bytes)
    requires ReadValue(t) == Read(v, r)
    ensures var u := SkipSpace(r);
            && (At(u, 0) == RBRACKET ==> ReadElements(t) == Read([v], u[1..]))
            && (At(u, 0) == COMMA && ReadElements(SkipSpace(u[1..])).Read? ==>
                  var more := ReadElements(SkipSpace(u[1..]));
                  ReadElements(t) == Read([v] + more.value, more.rest))
  {
  }

  lemma MembersStep(t: bytes, m: Member, r: bytes)
    requires ReadMember(t) == Read(m, r)
    ensures var u := SkipSpace(r);
            && (At(u, 0) == RBRACE ==> ReadMembers(t) == Read([m], u[1..]))
            && (At(u, 0) == COMMA && ReadMembers(SkipSpace(u[1..])).Read? ==>
                  var more := ReadMembers(SkipSpace(u[1..]));
                  ReadMembers(t) == Read([m] + more.value, more.rest))
  {
  }

  /** The text of elements, taken apart after the first one. */
  lemma ItemsSplit(items: seq<Item>, rest: bytes) returns (u: bytes)
    requires items != [] && UNIT_SEPARATOR !in FlatItems(items)
    ensures FlatItems(items) + rest == Flat(items[0].node) + (items[0].after + u)
    ensures UNIT_SEPARATOR !in Flat(items[0].node)
    ensures |items| == 1 ==> At(u, 0) == RBRACKET && u[1..] == rest
    ensures |items| > 1 ==>
              && At(u, 0) == COMMA && u[1..] == items[0].next + (FlatItems(items[1..]) + rest)
              && UNIT_SEPARATOR !in FlatItems(items[1..])
  {
    hide Flat;
    var i := items[0];
    var tail := if |items| == 1 then [RBRACKET] else [COMMA] + i.next + FlatItems(items[1..]);
    u := tail + rest;
    Regroup(Flat(i.node), i.after, tail, rest);
    AbsentFromParts(UNIT_SEPARATOR, Flat(i.node) + i.after, tail);
    AbsentFromParts(UNIT_SEPARATOR, Flat(i.node), i.after);
    if |items| > 1 {
      Regroup([COMMA], i.next, FlatItems(items[1..]), rest);
      AbsentFromParts(UNIT_SEPARATOR, [COMMA] + i.next, FlatItems(items[1..]));
    }
  }

  lemma {:induction false} ItemsRead(items: seq<Item>, rest: bytes)
    requires items != [] && ItemsOk(items) && UNIT_SEPARATOR !in FlatItems(items)
    ensures ReadElements(FlatItems(items) + rest) == Read(Values(items), rest)
    decreases items
  {
    hide ReadValue, ReadElements, SkipSpace, Blank, Flat, FlatItems, Meaning, NodeOk, InNumber, IsSpace;
    CommaStops();
    var i := items[0];
    var u := ItemsSplit(items, rest);
    BlankStops(i.after, u);
    ValueReads(i.node, i.after + u);
    ElementsStep(FlatItems(items) + rest, Meaning(i.node), i.after + u);
    SkipBlank(i.after, u);
    if |items| == 1 {
      assert items[1..] == [] && Values(items) == [Meaning(i.node)];
    } else {
      FlatItemsHead(items[1..]);
      SkipBlank(i.next, FlatItems(items[1..]) + rest);
      ItemsRead(items[1..], rest);
    }
  }

  lemma {:induction false} FieldReads(f: Field, rest: bytes)
    requires PiecesOk(f.key) && GapsBlank(f) && NodeOk(f.item.node) && UNIT_SEPARATOR !in FlatField(f)
    requires !InNumber(At(rest, 0))
    ensures ReadMember(FlatField(f) + rest) == Read(MemberOf(f), rest)
    decreases f
  {
    hide ReadValue, ReadString, SkipSpace, Blank, Flat, Meaning, NodeOk, PiecesOk, Literal, Text;
    var t := FlatField(f) + rest;
    var value := Flat(f.item.node) + rest;
    var u := [COLON] + f.afterColon + value;
    assert t == Literal(f.key) + (f.afterKey + u);
    LiteralReads(f.key, f.afterKey + u);
    SkipBlank(f.afterKey, u);
    assert u[1..] == f.afterColon + value;
    FlatHead(f.item.node);
    SkipBlank(f.afterColon, value);
    ValueReads(f.item.node, rest);
  }

  lemma FieldsSplit(fields: seq<Field>, rest: bytes) returns (u: bytes)
    requires fields != [] && UNIT_SEPARATOR !in FlatFields(fields)
    ensures FlatFields(fields) + rest == FlatField(fields[0]) + (fields[0].item.after + u)
    ensures UNIT_SEPARATOR !in FlatField(fields[0])
    ensures |fields| == 1 ==> At(u, 0) == RBRACE && u[1..] == rest
    ensures |fields| > 1 ==>
              && At(u, 0) == COMMA && u[1..] == fields[0].item.next + (FlatFields(fields[1..]) + rest)
              && UNIT_SEPARATOR !in FlatFields(fields[1..])
  {
    hide FlatField;
    var f := fields[0];
    var tail := if |fields| == 1 then [RBRACE] else [COMMA] + f.item.next + FlatFields(fields[1..]);
    u := tail + rest;
    Regroup(FlatField(f), f.item.after, tail, rest);
    AbsentFromParts(UNIT_SEPARATOR, FlatField(f) + f.item.after, tail);
    AbsentFromParts(UNIT_SEPARATOR, FlatField(f), f.item.after);
    if |fields| > 1 {
      Regroup([COMMA], f.item.next, FlatFields(fields[1..]), rest);
      AbsentFromParts(UNIT_SEPARATOR, [COMMA] + f.item.next, FlatFields(fields[1..]));
    }
  }

  lemma FlatFieldsHead(fields: seq<Field>)
    requires fields != []
    ensures FlatFields(fields) != [] && FlatFields(fields)[0] == QUOTE
  {
  }

  lemma {:induction false} FieldsRead(fields: seq<Field>, rest: bytes)
    requires fields != [] && FieldsOk(fields) && UNIT_SEPARATOR !in FlatFields(fields)
    ensures ReadMembers(FlatFields(fields) + rest) == Read(Members(fields), rest)
    decreases fields
  {
    hide ReadMember, ReadMembers, SkipSpace, Blank, FlatField, FlatFields, MemberOf, NodeOk, PiecesOk;
    hide InNumber, IsSpace;
    CommaStops();
    var f := fields[0];
    var u := FieldsSplit(fields, rest);
    BlankStops(f.item.after, u);
    FieldReads(f, f.item.after + u);
    MembersStep(FlatFields(fields) + rest, MemberOf(f), f.item.after + u);
    SkipBlank(f.item.after, u);
    if |fields| == 1 {
      assert fields[1..] == [] && Members(fields) == [MemberOf(f)];
    } else {
      FlatFieldsHead(fields[1..]);
      SkipBlank(f.item.next, FlatFields(fields[1..]) + rest);
      FieldsRead(fields[1..], rest);
    }
  }

  // ---------------------------------------------------------------- what the reader accepts is spelled

  lemma NumberFound(t: bytes)
    requires NumberLength(t) > 0
    ensures NumberLength(t) <= |t| && IsNumber(t[..NumberLength(t)])
    ensures UNIT_SEPARATOR !in t[..NumberLength(t)] && 0 !in t[..NumberLength(t)]
  {
    hide DigitsEnd, Digits1;
    NumberShape(t);
    var n := NumberLength(t);
    var l := t[..n];
    forall k | 0 <= k < n
      ensures l[k] != UNIT_SEPARATOR
    {
      assert l[k] == At(t, k) && InNumber(At(t, k));
    }
    var a := if At(t, 0) == 0x2D then 1 else 0;
    var b := IntegerEnd(t);
    var c := FractionEnd(t, b);
    NumberOrder(t);
    assert forall k: nat :: k < n ==> At(l, k) == At(t, k);
    Digits1Cut(t, n, a);
    assert IntegerEnd(l) == b;
    Digits1Cut(t, n, b + 1);
    assert FractionEnd(l, b) == c;
    Digits1Cut(t, n, c + 1);
    Digits1Cut(t, n, c + 2);
  }

  lemma NumberOrder(t: bytes)
    requires NumberLength(t) > 0
    ensures 0 < IntegerEnd(t) <= FractionEnd(t, IntegerEnd(t)) <= NumberLength(t) <= |t|
    ensures var c := FractionEnd(t, IntegerEnd(t)); c < NumberLength(t) ==> c + 1 < NumberLength(t)
  {
    NumberShape(t);
  }

  /** Cutting the text off behind its digits changes nothing. */
  lemma Digits1Cut(t: bytes, n: nat, i: nat)
    requires n <= |t|
    ensures i < n && Digits1(t, i) <= n ==> Digits1(t[..n], i) == Digits1(t, i)
    ensures i >= n ==> Digits1(t[..n], i) == 0
  {
    if i < n && DigitsEnd(t, i) <= n {
      DigitsCut(t, n, i);
    }
  }

  lemma DigitsCut(t: bytes, n: nat, i: nat)
    requires i <= n <= |t| && DigitsEnd(t, i) <= n
    ensures DigitsEnd(t[..n], i) == DigitsEnd(t, i)
    decreases n - i
  {
    if i < n && IsDigit(t[i]) {
      DigitsCut(t, n, i + 1);
    }
  }

  /** The reader has read a spelling `n` of its result from `t` and left `r.rest`. */
  ghost predicate FoundValue(t: bytes, r: Reading<Json>, n: Node) {
    r.Read? && NodeOk(n) && UNIT_SEPARATOR !in Flat(n) && t == Flat(n) + r.rest && Meaning(n) == r.value
  }

  ghost predicate FoundItems(t: bytes, r: Reading<seq<Json>>, items: seq<Item>) {
    && r.Read? && items != [] && ItemsOk(items) && UNIT_SEPARATOR !in FlatItems(items)
    && t == FlatItems(items) + r.rest && Values(items) == r.value
  }

  ghost predicate FoundField(t: bytes, r: Reading<Member>, f: Field) {
    && r.Read? && PiecesOk(f.key) && GapsBlank(f) && NodeOk(f.item.node) && UNIT_SEPARATOR !in FlatField(f)
    && f.item.after == [] && f.item.next == []
    && t == FlatField(f) + r.rest && MemberOf(f) == r.value
  }

  ghost predicate FoundFields(t: bytes, r: Reading<seq<Member>>, fields: seq<Field>) {
    && r.Read? && fields != [] && FieldsOk(fields) && UNIT_SEPARATOR !in FlatFields(fields)
    && t == FlatFields(fields) + r.rest && Members(fields) == r.value
  }

  lemma {:induction false} ValueFound(t: bytes) returns (n: Node)
    requires ReadValue(t).Read?
    ensures FoundValue(t, ReadValue(t), n)
    decreases |t|, 1
  {
    hide ReadElements, ReadMembers, FlatItems, FlatFields, Values, Members, ItemsOk, FieldsOk, FoundItems, FoundFields;
    hide ReadString, Literal, Text, PiecesOk, SkipSpace, Blank, IsNumber;
    var c := At(t, 0);
    if c == 0x6E {
      n := NNull;
    } else if c == 0x66 || c == 0x74 {
      n := NBool(c == 0x74);
    } else if c == QUOTE {
      var ps := LiteralFound(t);
      n := NStr(ps);
    } else if c == LBRACKET {
      var items := [];
      var u := SkipSpace(t[1..]);
      if At(u, 0) != RBRACKET {
        items := ElementsFound(u);
      }
      n := ArrayFound(t, items);
    } else if c == LBRACE {
      var fields := [];
      var u := SkipSpace(t[1..]);
      if At(u, 0) != RBRACE {
        fields := MembersFound(u);
      }
      n := ObjectFound(t, fields);
    } else {
      NumberFound(t);
      n := NNum(t[..NumberLength(t)]);
      assert t == t[..NumberLength(t)] + t[NumberLength(t)..];
    }
  }

  lemma ArrayFound(t: bytes, items: seq<Item>) returns (n: Node)
    requires ReadValue(t).Read? && At(t, 0) == LBRACKET
    requires var u := SkipSpace(t[1..]);
             if At(u, 0) == RBRACKET then items == [] else FoundItems(u, ReadElements(u), items)
    ensures FoundValue(t, ReadValue(t), n)
  {
    hide ReadElements, FlatItems, SkipSpace, Blank;
    var gap := SkipFound(t[1..]);
    n := NArr(gap, items);
    var body := if items == [] then [RBRACKET] else FlatItems(items);
    var r := ReadValue(t);
    Regroup([LBRACKET], gap, body, r.rest);
    assert t == [LBRACKET] + t[1..];
    assert SkipSpace(t[1..]) == body + r.rest;
    assert items == [] ==> Values(items) == [];
    assert ItemsOk(items);
  }

  lemma ObjectFound(t: bytes, fields: seq<Field>) returns (n: Node)
    requires ReadValue(t).Read? && At(t, 0) == LBRACE
    requires var u := SkipSpace(t[1..]);
             if At(u, 0) == RBRACE then fields == [] else FoundFields(u, ReadMembers(u), fields)
    ensures FoundValue(t, ReadValue(t), n)
  {
    hide ReadMembers, FlatFields, SkipSpace, Blank;
    var gap := SkipFound(t[1..]);
    n := NObj(gap, fields);
    var body := if fields == [] then [RBRACE] else FlatFields(fields);
    var r := ReadValue(t);
    Regroup([LBRACE], gap, body, r.rest);
    assert t == [LBRACE] + t[1..];
    assert SkipSpace(t[1..]) == body + r.rest;
    assert fields == [] ==> Members(fields) == [];
    assert FieldsOk(fields);
  }

  lemma {:induction false} ElementsFound(t: bytes) returns (items: seq<Item>)
    requires ReadElements(t).Read?
    ensures items != [] && FoundItems(t, ReadElements(t), items)
    decreases |t|, 2
  {
    hide FoundItems, ReadValue, SkipSpace;
    assert Blank([]);
    var n := ValueFound(t);
    var after := SkipFound(ReadValue(t).rest);
    var u := SkipSpace(ReadValue(t).rest);
    if At(u, 0) == RBRACKET {
      items := [Item(n, after, [])] + [];
      ItemsJoin(t, n, after, [], []);
    } else {
      var next := SkipFound(u[1..]);
      var more := ElementsFound(SkipSpace(u[1..]));
      items := [Item(n, after, next)] + more;
      ItemsJoin(t, n, after, next, more);
    }
  }

  /** What follows the first element of an array and the blanks behind it. */
  function Tail(next: bytes, more: seq<Item>): bytes {
    if more == [] then [RBRACKET] else [COMMA] + next + FlatItems(more)
  }

  lemma FlatJoin(n: Node, after: bytes, next: bytes, more: seq<Item>)
    ensures FlatItems([Item(n, after, next)] + more) == Flat(n) + after + Tail(next, more)
  {
    hide Flat;
    assert ([Item(n, after, next)] + more)[1..] == more;
  }

  lemma ValuesJoin(n: Node, after: bytes, next: bytes, more: seq<Item>)
    requires NodeOk(n) && Blank(after) && Blank(next) && ItemsOk(more)
    ensures ItemsOk([Item(n, after, next)] + more)
    ensures Values([Item(n, after, next)] + more) == [Meaning(n)] + Values(more)
  {
    hide Meaning, NodeOk, Blank;
    assert ([Item(n, after, next)] + more)[1..] == more;
  }

  lemma TailFound(u: bytes, next: bytes, more: seq<Item>, rest: bytes)
    requires UNIT_SEPARATOR !in next
    requires more == [] ==> At(u, 0) == RBRACKET && rest == u[1..]
    requires more != [] ==>
               && At(u, 0) == COMMA && u[1..] == next + (FlatItems(more) + rest) && UNIT_SEPARATOR !in FlatItems(more)
    ensures u == Tail(next, more) + rest && UNIT_SEPARATOR !in Tail(next, more)
  {
    hide FlatItems;
    if more == [] {
      assert u == [RBRACKET] + u[1..];
    } else {
      assert u == [COMMA] + u[1..];
      Regroup([COMMA], next, FlatItems(more), rest);
      AbsentFromSum(UNIT_SEPARATOR, next, FlatItems(more));
    }
  }

  lemma ItemsJoin(t: bytes, n: Node, after: bytes, next: bytes, more: seq<Item>)
    requires ReadElements(t).Read? && FoundValue(t, ReadValue(t), n)
    requires Blank(after) && UNIT_SEPARATOR !in after && ReadValue(t).rest == after + SkipSpace(ReadValue(t).rest)
    requires Blank(next) && UNIT_SEPARATOR !in next
    requires var u := SkipSpace(ReadValue(t).rest);
             && (more == [] ==> At(u, 0) == RBRACKET && next == [])
             && (more != [] ==>
                   && At(u, 0) == COMMA && u[1..] == next + SkipSpace(u[1..])
                   && FoundItems(SkipSpace(u[1..]), ReadElements(SkipSpace(u[1..])), more))
    ensures FoundItems(t, ReadElements(t), [Item(n, after, next)] + more)
  {
    hide Blank, SkipSpace, Flat, Meaning, NodeOk, ReadValue, FlatItems, ItemsOk, Values, Tail, ReadElements;
    var r := ReadElements(t);
    var u := SkipSpace(ReadValue(t).rest);
    EmptyItems(more);
    ElementsStep(t, Meaning(n), ReadValue(t).rest);
    ValuesJoin(n, after, next, more);
    FlatJoin(n, after, next, more);
    TailFound(u, next, more, r.rest);
    var tail := Tail(next, more);
    AbsentFromSum(UNIT_SEPARATOR, Flat(n), after);
    AbsentFromSum(UNIT_SEPARATOR, Flat(n) + after, tail);
    Regroup(Flat(n), after, tail, r.rest);
  }

  lemma EmptyItems(more: seq<Item>)
    ensures more == [] ==> ItemsOk(more) && Values(more) == []
  {
  }

  lemma MemberFound(t: bytes) returns (f: Field)
    requires ReadMember(t).Read?
    ensures FoundField(t, ReadMember(t), f)
    decreases |t|, 2
  {
    hide ReadValue, ReadString, SkipSpace, Flat, Meaning, NodeOk, PiecesOk, Literal, Text;
    var ps := LiteralFound(t);
    var rest := ReadString(t).rest;
    var afterKey := SkipFound(rest);
    var u := SkipSpace(rest);
    var afterColon := SkipFound(u[1..]);
    var value := SkipSpace(u[1..]);
    var n := ValueFound(value);
    f := Field(ps, afterKey, afterColon, Item(n, [], []));
    assert Blank([]);
    assert u == [COLON] + u[1..];
    var r := ReadMember(t).rest;
    Regroup([COLON], afterColon, Flat(n), r);
    assert t == Literal(ps) + (afterKey + ([COLON] + (afterColon + (Flat(n) + r))));
    assert FlatField(f) + r == Literal(ps) + (afterKey + ([COLON] + (afterColon + (Flat(n) + r))));
  }

  lemma {:induction false} MembersFound(t: bytes) returns (fields: seq<Field>)
    requires ReadMembers(t).Read?
    ensures fields != [] && FoundFields(t, ReadMembers(t), fields)
    decreases |t|, 3
  {
    hide FoundField, FoundFields, ReadMember, SkipSpace;
    assert Blank([]);
    var f := MemberFound(t);
    var after := SkipFound(ReadMember(t).rest);
    var u := SkipSpace(ReadMember(t).rest);
    if At(u, 0) == RBRACE {
      fields := [f.(item := Item(f.item.node, after, []))] + [];
      FieldsJoin(t, f, after, [], []);
    } else {
      var next := SkipFound(u[1..]);
      var more := MembersFound(SkipSpace(u[1..]));
      fields := [f.(item := Item(f.item.node, after, next))] + more;
      FieldsJoin(t, f, after, next, more);
    }
  }

  lemma FieldsJoin(t: bytes, f: Field, after: bytes, next: bytes, more: seq<Field>)
    requires ReadMembers(t).Read? && FoundField(t, ReadMember(t), f)
    requires Blank(after) && UNIT_SEPARATOR !in after && ReadMember(t).rest == after + SkipSpace(ReadMember(t).rest)
    requires Blank(next) && UNIT_SEPARATOR !in next
    requires var u := SkipSpace(ReadMember(t).rest);
             && (more == [] ==> At(u, 0) == RBRACE && next == [])
             && (more != [] ==>
                   && At(u, 0) == COMMA && u[1..] == next + SkipSpace(u[1..])
                   && FoundFields(SkipSpace(u[1..]), ReadMembers(SkipSpace(u[1..])), more))
    ensures FoundFields(t, ReadMembers(t), [f.(item := Item(f.item.node, after, next))] + more)
  {
    hide Blank, SkipSpace, NodeOk, ReadMember, PiecesOk;
    var g := f.(item := Item(f.item.node, after, next));
    assert FlatField(g) == FlatField(f);
    assert MemberOf(g) == MemberOf(f);
    var fields := [g] + more;
    var r := ReadMembers(t);
    MembersStep(t, MemberOf(f), ReadMember(t).rest);
    assert fields[1..] == more;
    var u := SkipSpace(ReadMember(t).rest);
    var tail := if more == [] then [RBRACE] else [COMMA] + next + FlatFields(more);
    assert FieldsOk(more) && Members(fields) == [MemberOf(g)] + Members(more);
    assert u == tail + r.rest by {
      if more == [] {
        assert u == [RBRACE] + u[1..];
      } else {
        assert u == [COMMA] + u[1..];
        Regroup([COMMA], next, FlatFields(more), r.rest);
      }
    }
    assert FlatFields(fields) == FlatField(g) + after + tail;
    AbsentFromSum(UNIT_SEPARATOR, FlatField(g), after);
    assert UNIT_SEPARATOR !in tail;
    AbsentFromSum(UNIT_SEPARATOR, FlatField(g) + after, tail);
    Regroup(FlatField(g), after, tail, r.rest);
  }

  // ---------------------------------------------------------------- the language of json_decode

  /** json_decode accepts exactly the texts of the grammar, and returns what they spell. */
  lemma DecodeExact(t: cstring, v: Json)
    ensures Decode(t) == Some(v) <==> Spells(t, v)
  {
    hide Flat, ReadValue, SkipSpace, Meaning, NodeOk;
    if Decode(t) == Some(v) {
      var before := SkipFound(t);
      var u := SkipSpace(t);
      var n := ValueFound(u);
      var after := SkipFound(ReadValue(u).rest);
      var left := SkipSpace(ReadValue(u).rest);
      assert t == (before + Flat(n) + after) + left;
      AbsentFromParts(0, before + Flat(n) + after, left);
      assert t == before + Flat(n) + after;
    }
    if Spells(t, v) {
      var before, n, after :|
        && Blank(before) && NodeOk(n) && Blank(after)
        && t == before + Flat(n) + after && Meaning(n) == v
        && UNIT_SEPARATOR !in t;
      assert t == before + (Flat(n) + after);
      FlatHead(n);
      SkipBlank(before, Flat(n) + after);
      AbsentFromParts(UNIT_SEPARATOR, before + Flat(n), after);
      AbsentFromParts(UNIT_SEPARATOR, before, Flat(n));
      assert !InNumber(At(after, 0));
      ValueReads(n, after);
      SkipBlank(after, []);
      assert after + [] == after;
    }
  }

  /** The grammar is unambiguous. */
  lemma SpellsOnce(t: cstring, v: Json, w: Json)
    requires Spells(t, v) && Spells(t, w)
    ensures v == w
  {
    DecodeExact(t, v);
    DecodeExact(t, w);
  }
}
