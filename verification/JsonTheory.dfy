/** Printing and reading: every tree is read back from its compact text and from its indented
    text, in the normal form that the printer gives it, unless a string holds the byte 0x1F. */
module JsonTheory {
  import opened Bytes
  import opened Common
  import opened Utf8
  import opened JsonSpec
  import opened JsonText

  /** The indent is white space. */
  predicate BlankStyle(style: Style) {
    match style
    case Compact => true
    case Indented(space) => Blank(space)
  }

  /** What the printer makes of a tree: stray bytes become U+FFFD, impossible numbers null. */
  function Normal(v: Json): Json
    decreases v
  {
    match v
    case Null => Null
    case Bool(_) => v
    case Str(s) => Str(RepairedText(s))
    case Num(l) => if IsNumber(l) then v else Null
    case Arr(es) => Arr(NormalElements(es))
    case Obj(ms) => Obj(NormalMembers(ms))
  }

  function NormalElements(es: seq<Json>): seq<Json>
    decreases es
  {
    if es == [] then [] else [Normal(es[0])] + NormalElements(es[1..])
  }

  function NormalMembers(ms: seq<Member>): seq<Member>
    decreases ms
  {
    if ms == [] then [] else [Member(RepairedText(ms[0].key), Normal(ms[0].value))] + NormalMembers(ms[1..])
  }

  function RepairedText(s: cstring): cstring {
    RepairedNoNul(s);
    Repaired(s)
  }

  lemma RepairedNoNul(s: bytes)
    requires 0 !in s
    ensures 0 !in Repaired(s)
  {
    if s != [] {
      if Validate(s) == 0 {
        RepairedNoNul(s[1..]);
      } else {
        ReadIsWritten(s);
        RepairedNoNul(s[Validate(s)..]);
      }
    }
  }

  /** No string and no key holds the byte 0x1F. */
  predicate Clean(v: Json)
    decreases v
  {
    match v
    case Str(s) => UNIT_SEPARATOR !in s
    case Arr(es) => CleanElements(es)
    case Obj(ms) => CleanMembers(ms)
    case _ => true
  }

  predicate CleanElements(es: seq<Json>)
    decreases es
  {
    es == [] || (Clean(es[0]) && CleanElements(es[1..]))
  }

  predicate CleanMembers(ms: seq<Member>)
    decreases ms
  {
    ms == [] || (UNIT_SEPARATOR !in ms[0].key && Clean(ms[0].value) && CleanMembers(ms[1..]))
  }

  /** Strings are valid UTF-8 and numbers are JSON numbers. */
  predicate WellFormed(v: Json)
    decreases v
  {
    match v
    case Str(s) => IsUtf8(s)
    case Num(l) => IsNumber(l)
    case Arr(es) => WellFormedElements(es)
    case Obj(ms) => WellFormedMembers(ms)
    case _ => true
  }

  predicate WellFormedElements(es: seq<Json>)
    decreases es
  {
    es == [] || (WellFormed(es[0]) && WellFormedElements(es[1..]))
  }

  predicate WellFormedMembers(ms: seq<Member>)
    decreases ms
  {
    ms == [] || (IsUtf8(ms[0].key) && WellFormed(ms[0].value) && WellFormedMembers(ms[1..]))
  }

  // ---------------------------------------------------------------- the printer writes a spelling

  /** The spelling that one turn of emit_string chooses. */
  function PieceFor(s: bytes, escape: bool): Piece
    requires s != [] && 0 !in s
  {
    match ShortFor(s[0])
    case Some(l) => Short(l)
    case None =>
      if Validate(s) == 0 then
        if escape then Hex(WriteHex(0xFFFD)) else Plain([0xEF, 0xBF, 0xBD])
      else
        ReadIsWritten(s);
        if s[0] < 0x1F || (s[0] >= 0x80 && escape) then
          var u := ReadChar(s);
          if u <= 0xFFFF then Hex(WriteHex(u))
          else Pair(WriteHex(ToSurrogatePair(u).0), WriteHex(ToSurrogatePair(u).1))
        else Plain(s[..Validate(s)])
  }

  /** The character it stands for. */
  function CharAt(s: bytes): bytes
    requires s != [] && 0 !in s
  {
    if Validate(s) == 0 then [0xEF, 0xBF, 0xBD] else ReadIsWritten(s); s[..Validate(s)]
  }

  function PiecesFor(s: bytes, escape: bool): seq<Piece>
    requires 0 !in s
  {
    if s == [] then [] else [PieceFor(s, escape)] + PiecesFor(s[CharLength(s)..], escape)
  }

  lemma HexFor(u: nat)
    requires 0 < u < 0x10000 && Scalar(u)
    ensures PieceOk(Hex(WriteHex(u))) && Denote(Hex(WriteHex(u))) == WriteChar(u)
    ensures Spell(Hex(WriteHex(u))) == HexEscape(u) && UNIT_SEPARATOR !in HexEscape(u)
  {
    hide ParseHex, WriteChar, WriteHex;
    HexInverts(u, []);
    assert WriteHex(u) + [] == WriteHex(u);
    HexClean(WriteHex(u));
  }

  lemma PairFor(u: nat)
    requires 0x10000 <= u <= 0x10FFFF
    ensures var p := ToSurrogatePair(u);
            && p.0 < 0x10000 && p.1 < 0x10000
            && PieceOk(Pair(WriteHex(p.0), WriteHex(p.1)))
            && Denote(Pair(WriteHex(p.0), WriteHex(p.1))) == WriteChar(u)
            && Spell(Pair(WriteHex(p.0), WriteHex(p.1))) == HexEscape(p.0) + HexEscape(p.1)
            && UNIT_SEPARATOR !in HexEscape(p.0) + HexEscape(p.1)
  {
    hide ParseHex, WriteChar, WriteHex, FromSurrogatePair;
    var p := ToSurrogatePair(u);
    assert p.0 < 0x10000 && p.1 < 0x10000;
    SurrogatesInvert(u);
    HexInverts(p.0, []);
    HexInverts(p.1, []);
    assert WriteHex(p.0) + [] == WriteHex(p.0) && WriteHex(p.1) + [] == WriteHex(p.1);
    HexClean(WriteHex(p.0));
    HexClean(WriteHex(p.1));
  }

  lemma PlainFor(ch: bytes)
    requires ch != [] && Validate(ch) == |ch| && ch[0] >= 0x1F && ShortFor(ch[0]) == None
    ensures PieceOk(Plain(ch)) && (UNIT_SEPARATOR in ch <==> ch[0] == UNIT_SEPARATOR)
  {
  }

  /** A prefix that is one character is one character on its own. */
  lemma FirstChar(s: bytes)
    requires s != [] && Validate(s) > 0
    ensures Validate(s) <= |s| && Validate(s[..Validate(s)]) == Validate(s)
    ensures Scalar(ReadChar(s)) && s[..Validate(s)] == WriteChar(ReadChar(s))
    ensures UNIT_SEPARATOR in s[..Validate(s)] <==> s[0] == UNIT_SEPARATOR
  {
    hide WriteChar, ReadChar;
    ReadIsWritten(s);
    WrittenIsRead(ReadChar(s), []);
    assert WriteChar(ReadChar(s)) + [] == s[..Validate(s)];
    assert forall k :: 0 < k < Validate(s) ==> s[k] >= 0x80 by {
      assert forall k :: 0 < k < Validate(s) ==> Continuation(At(s, k));
    }
  }

  lemma PieceForOk(s: bytes, escape: bool)
    requires s != [] && 0 !in s
    ensures var p := PieceFor(s, escape);
            && PieceOk(p) && Spell(p) == EmitChar(s, escape) && Denote(p) == CharAt(s)
            && (UNIT_SEPARATOR in Spell(p) <==> s[0] == UNIT_SEPARATOR)
  {
    hide WriteHex, ParseHex, HexEscape, ToSurrogatePair;
    if ShortFor(s[0]).Some? {
    } else if Validate(s) == 0 {
      HexFor(0xFFFD);
      assert WriteChar(0xFFFD) == [0xEF, 0xBF, 0xBD];
      assert s[0] != UNIT_SEPARATOR;
      WrittenIsRead(0xFFFD, []);
      PlainFor([0xEF, 0xBF, 0xBD]);
    } else {
      FirstChar(s);
      var u := ReadChar(s);
      if s[0] < 0x1F || (s[0] >= 0x80 && escape) {
        assert u > 0;
        if u <= 0xFFFF {
          HexFor(u);
        } else {
          PairFor(u);
        }
      } else {
        PlainFor(s[..Validate(s)]);
      }
    }
  }

  /** One turn repairs one character. */
  lemma RepairedStep(s: bytes)
    requires s != [] && 0 !in s
    ensures Repaired(s) == CharAt(s) + Repaired(s[CharLength(s)..])
    ensures Validate(s) > 0 ==> CharLength(s) == Validate(s)
    ensures UNIT_SEPARATOR in s[..CharLength(s)] <==> s[0] == UNIT_SEPARATOR
  {
    hide Validate, ReadChar, WriteChar;
    if Validate(s) > 0 {
      FirstChar(s);
      if ShortFor(s[0]).Some? {
        ShortIsOneByte(s);
      }
      assert CharLength(s) == Validate(s);
    } else {
      assert CharLength(s) == 1 && s[..1] == [s[0]];
    }
    hide CharLength;
  }

  lemma ShortIsOneByte(s: bytes)
    requires s != [] && ShortFor(s[0]).Some?
    ensures Validate(s) == 1
  {
  }

  lemma {:induction false} PiecesForOk(s: bytes, escape: bool)
    requires 0 !in s
    ensures var ps := PiecesFor(s, escape);
            && PiecesOk(ps) && SpellAll(ps) == EmitChars(s, escape) && DenoteAll(ps) == Repaired(s)
            && (UNIT_SEPARATOR in SpellAll(ps) <==> UNIT_SEPARATOR in s)
  {
    hide PieceFor, PieceOk, Spell, Denote, EmitChar, CharAt, CharLength, Validate, ShortFor;
    if s == [] {
    } else {
      PieceForOk(s, escape);
      var n := CharLength(s);
      RepairedStep(s);
      PiecesForOk(s[n..], escape);
      var ps := PiecesFor(s, escape);
      assert ps[1..] == PiecesFor(s[n..], escape);
      assert s == s[..n] + s[n..];
      Split(UNIT_SEPARATOR, s[..n], s[n..]);
      Split(UNIT_SEPARATOR, Spell(ps[0]), SpellAll(ps[1..]));
    }
  }

  lemma Split(x: byte, a: bytes, b: bytes)
    ensures x in a + b <==> x in a || x in b
  {
    if x !in a + b {
      AbsentFromParts(x, a, b);
    } else if x !in a && x !in b {
      AbsentFromSum(x, a, b);
    }
  }

  function LiteralFor(s: cstring): seq<Piece> {
    PiecesFor(s, false)
  }

  lemma LiteralForOk(s: cstring, escape: bool)
    ensures var ps := PiecesFor(s, escape);
            && PiecesOk(ps) && Literal(ps) == EmitString(s, escape) && Text(ps) == RepairedText(s)
            && (UNIT_SEPARATOR in Literal(ps) <==> UNIT_SEPARATOR in s)
  {
    hide PiecesFor, SpellAll, EmitChars, PiecesOk, DenoteAll, Repaired;
    PiecesForOk(s, escape);
    var ps := PiecesFor(s, escape);
    Split(UNIT_SEPARATOR, [QUOTE] + SpellAll(ps), [QUOTE]);
    Split(UNIT_SEPARATOR, [QUOTE], SpellAll(ps));
  }

  lemma UnitFails(s: bytes, escape: bool, rest: bytes)
    requires s != [] && 0 !in s && s[0] == UNIT_SEPARATOR
    ensures ReadPieces(EmitChar(s, escape) + rest) == Fail
  {
    hide HexEscape, ReadChar;
    assert Validate(s) == 1;
    assert EmitChar(s, escape) == [UNIT_SEPARATOR];
    hide Validate;
    var t := [UNIT_SEPARATOR] + rest;
    assert At(t, 0) == UNIT_SEPARATOR;
    assert ReadPiece(t) == Fail;
  }

  /** The reader stops at the first 0x1F. */
  lemma {:induction false} PiecesFail(s: bytes, escape: bool, rest: bytes)
    requires 0 !in s && UNIT_SEPARATOR in s
    ensures ReadPieces(EmitChars(s, escape) + rest) == Fail
  {
    hide PieceFor, PieceOk, Spell, Denote, EmitChar, CharAt, CharLength, Repaired, ReadPiece;
    var n := CharLength(s);
    var t := EmitChars(s, escape) + rest;
    var t' := EmitChars(s[n..], escape) + rest;
    assert t == EmitChar(s, escape) + t';
    if s[0] == UNIT_SEPARATOR {
      UnitFails(s, escape, t');
    } else {
      RepairedStep(s);
      assert s == s[..n] + s[n..];
      Split(UNIT_SEPARATOR, s[..n], s[n..]);
      PieceForOk(s, escape);
      PieceReads(PieceFor(s, escape), t');
      assert ReadPieces(t') == Fail ==> ReadPieces(t) == Fail;
      PiecesFail(s[n..], escape, rest);
    }
  }

  /** json_encode_string and parse_string: every C string comes back with its stray bytes
      replaced, with or without escape_unicode; but none that holds 0x1F does. */
  lemma StringRoundTrip(s: cstring, escape: bool, rest: bytes)
    ensures ReadString(EmitString(s, escape) + rest) ==
            if UNIT_SEPARATOR in s then Fail else Read(RepairedText(s), rest)
  {
    hide PiecesFor, PiecesOk, ReadPieces, Text, Literal, RepairedText, EmitChars;
    var t := EmitString(s, escape) + rest;
    if UNIT_SEPARATOR in s {
      assert t[1..] == EmitChars(s, escape) + ([QUOTE] + rest);
      PiecesFail(s, escape, [QUOTE] + rest);
    } else {
      LiteralForOk(s, escape);
      LiteralReads(PiecesFor(s, escape), rest);
    }
  }

  // ---------------------------------------------------------------- trees

  function NodeFor(v: Json, style: Style, level: nat): Node
    decreases v
  {
    match v
    case Null => NNull
    case Bool(b) => NBool(b)
    case Str(s) => NStr(LiteralFor(s))
    case Num(l) => if IsNumber(l) then NNum(l) else NNull
    case Arr(es) =>
      NArr(if es == [] then [] else Line(style, level + 1), ItemsFor(es, style, level))
    case Obj(ms) =>
      NObj(if ms == [] then [] else Line(style, level + 1), FieldsFor(ms, style, level))
  }

  function ItemFor(n: Node, last: bool, style: Style, level: nat): Item {
    if last then Item(n, Line(style, level), []) else Item(n, [], Line(style, level + 1))
  }

  function ItemsFor(es: seq<Json>, style: Style, level: nat): (items: seq<Item>)
    ensures |items| == |es|
    decreases es
  {
    if es == [] then []
    else [ItemFor(NodeFor(es[0], style, level + 1), |es| == 1, style, level)] + ItemsFor(es[1..], style, level)
  }

  function FieldFor(key: cstring, n: Node, last: bool, style: Style, level: nat): Field {
    Field(LiteralFor(key), [], AfterColon(style), ItemFor(n, last, style, level))
  }

  function FieldsFor(ms: seq<Member>, style: Style, level: nat): (fields: seq<Field>)
    ensures |fields| == |ms|
    decreases ms
  {
    if ms == [] then []
    else
      [FieldFor(ms[0].key, NodeFor(ms[0].value, style, level + 1), |ms| == 1, style, level)]
      + FieldsFor(ms[1..], style, level)
  }

  lemma LineBlank(style: Style, level: nat)
    requires BlankStyle(style)
    ensures Blank(Line(style, level)) && UNIT_SEPARATOR !in Line(style, level)
    ensures Blank(AfterColon(style)) && UNIT_SEPARATOR !in AfterColon(style) && Blank([])
  {
    if style.Indented? {
      RepeatBlank(style.space, level);
    }
  }

  lemma RepeatBlank(space: cstring, n: nat)
    requires Blank(space)
    ensures Blank(Repeat(space, n)) && UNIT_SEPARATOR !in Repeat(space, n)
  {
    if n > 0 {
      RepeatBlank(space, n - 1);
    }
  }

  /** The spelling `n` of `v` that the printer writes as `text`. */
  ghost predicate Printed(v: Json, text: bytes, n: Node) {
    NodeOk(n) && Flat(n) == text && Meaning(n) == Normal(v) && (UNIT_SEPARATOR in text <==> !Clean(v))
  }

  ghost predicate PrintedItems(es: seq<Json>, text: bytes, items: seq<Item>) {
    && items != [] && ItemsOk(items) && FlatItems(items) == text && Values(items) == NormalElements(es)
    && (UNIT_SEPARATOR in text <==> !CleanElements(es))
  }

  ghost predicate PrintedFields(ms: seq<Member>, text: bytes, fields: seq<Field>) {
    && fields != [] && FieldsOk(fields) && FlatFields(fields) == text && Members(fields) == NormalMembers(ms)
    && (UNIT_SEPARATOR in text <==> !CleanMembers(ms))
  }

  lemma {:induction false} EmitSpells(v: Json, style: Style, level: nat)
    requires BlankStyle(style)
    ensures Printed(v, Emit(v, style, level), NodeFor(v, style, level))
    decreases v
  {
    hide IsNumber, Literal, Text, PiecesOk, EmitString, RepairedText, BlankStyle, PiecesFor, Line, Blank;
    hide EmitElements, EmitMembers, ItemsFor, FieldsFor, ItemsOk, FieldsOk, FlatItems, FlatFields, Values, Members;
    hide NormalElements, NormalMembers, CleanElements, CleanMembers;
    match v
    case Null =>
    case Bool(_) =>
    case Str(s) =>
      LiteralForOk(s, false);
    case Num(l) =>
      NumberClean(l);
    case Arr(es) =>
      if es != [] {
        EmitElementsSpells(es, style, level);
      }
      ArraySpells(es, style, level);
    case Obj(ms) =>
      if ms != [] {
        EmitMembersSpells(ms, style, level);
      }
      ObjectSpells(ms, style, level);
  }

  lemma NumberClean(l: cstring)
    ensures IsNumber(l) ==> UNIT_SEPARATOR !in l
  {
    if IsNumber(l) {
      NumberFound(l);
      assert l[..NumberLength(l)] == l;
    }
  }

  lemma ArraySpells(es: seq<Json>, style: Style, level: nat)
    requires BlankStyle(style)
    requires es != [] ==> PrintedItems(es, EmitElements(es, style, level), ItemsFor(es, style, level))
    ensures Printed(Arr(es), Emit(Arr(es), style, level), NodeFor(Arr(es), style, level))
  {
    hide BlankStyle, Line, Blank, EmitElements, FlatItems;
    LineBlank(style, level + 1);
    if es != [] {
      var open := [LBRACKET] + Line(style, level + 1);
      Split(UNIT_SEPARATOR, open, EmitElements(es, style, level));
      Split(UNIT_SEPARATOR, [LBRACKET], Line(style, level + 1));
    }
  }

  lemma ObjectSpells(ms: seq<Member>, style: Style, level: nat)
    requires BlankStyle(style)
    requires ms != [] ==> PrintedFields(ms, EmitMembers(ms, style, level), FieldsFor(ms, style, level))
    ensures Printed(Obj(ms), Emit(Obj(ms), style, level), NodeFor(Obj(ms), style, level))
  {
    hide BlankStyle, Line, Blank, EmitMembers, FlatFields;
    LineBlank(style, level + 1);
    if ms != [] {
      var open := [LBRACE] + Line(style, level + 1);
      Split(UNIT_SEPARATOR, open, EmitMembers(ms, style, level));
      Split(UNIT_SEPARATOR, [LBRACE], Line(style, level + 1));
    }
  }

  lemma OneElement(v: Json)
    ensures NormalElements([v]) == [Normal(v)] && CleanElements([v]) == Clean(v)
  {
    hide Normal, Clean;
    assert [v][1..] == [] && CleanElements([v][1..]);
    assert CleanElements([v]) == (Clean([v][0]) && CleanElements([v][1..]));
  }

  lemma OneMember(m: Member)
    ensures NormalMembers([m]) == [Member(RepairedText(m.key), Normal(m.value))]
    ensures CleanMembers([m]) == (UNIT_SEPARATOR !in m.key && Clean(m.value))
  {
    hide Normal, Clean, RepairedText;
    assert [m][1..] == [] && CleanMembers([m][1..]);
    assert CleanMembers([m]) == (UNIT_SEPARATOR !in [m][0].key && Clean([m][0].value) && CleanMembers([m][1..]));
  }

  lemma {:induction false} EmitElementsSpells(es: seq<Json>, style: Style, level: nat)
    requires es != [] && BlankStyle(style)
    ensures PrintedItems(es, EmitElements(es, style, level), ItemsFor(es, style, level))
    decreases es
  {
    hide BlankStyle, Line, Blank, Emit, Flat, NodeFor, Meaning, Normal, Clean, NodeOk;
    EmitSpells(es[0], style, level + 1);
    LineBlank(style, level);
    LineBlank(style, level + 1);
    var items := ItemsFor(es, style, level);
    var more := ItemsFor(es[1..], style, level);
    var head := Emit(es[0], style, level + 1);
    assert items[1..] == more;
    var tail := if |es| == 1 then Line(style, level) + [RBRACKET]
                else [COMMA] + Line(style, level + 1) + EmitElements(es[1..], style, level);
    Split(UNIT_SEPARATOR, head, tail);
    if |es| == 1 {
      Split(UNIT_SEPARATOR, Line(style, level), [RBRACKET]);
      assert es[1..] == [] && more == [];
      assert FlatItems(items) == head + Line(style, level) + [RBRACKET] == head + tail;
      assert Values(items) == [Meaning(items[0].node)] + Values([]);
      OneElement(es[0]);
      assert es == [es[0]] && ItemsOk(items);
    } else {
      EmitElementsSpells(es[1..], style, level);
      Split(UNIT_SEPARATOR, [COMMA] + Line(style, level + 1), EmitElements(es[1..], style, level));
      Split(UNIT_SEPARATOR, [COMMA], Line(style, level + 1));
      assert head + [] == head;
    }
  }

  lemma {:induction false} EmitMembersSpells(ms: seq<Member>, style: Style, level: nat)
    requires ms != [] && BlankStyle(style)
    ensures PrintedFields(ms, EmitMembers(ms, style, level), FieldsFor(ms, style, level))
    decreases ms
  {
    hide BlankStyle, Line, Blank, Emit, Flat, NodeFor, Meaning, Normal, Clean, NodeOk;
    hide EmitString, Literal, Text, PiecesOk, RepairedText, PiecesFor, AfterColon;
    var m := ms[0];
    EmitSpells(m.value, style, level + 1);
    LiteralForOk(m.key, false);
    LineBlank(style, level);
    LineBlank(style, level + 1);
    var fields := FieldsFor(ms, style, level);
    var more := FieldsFor(ms[1..], style, level);
    assert fields[1..] == more;
    var key := EmitString(m.key, false);
    var value := Emit(m.value, style, level + 1);
    var head := key + [COLON] + AfterColon(style) + value;
    assert key + [] + [COLON] + AfterColon(style) + value == head;
    Split(UNIT_SEPARATOR, key + [COLON] + AfterColon(style), value);
    Split(UNIT_SEPARATOR, key + [COLON], AfterColon(style));
    Split(UNIT_SEPARATOR, key, [COLON]);
    var tail := if |ms| == 1 then Line(style, level) + [RBRACE]
                else [COMMA] + Line(style, level + 1) + EmitMembers(ms[1..], style, level);
    Split(UNIT_SEPARATOR, head, tail);
    if |ms| == 1 {
      Split(UNIT_SEPARATOR, Line(style, level), [RBRACE]);
      assert ms[1..] == [] && more == [];
      assert FlatFields(fields) == head + Line(style, level) + [RBRACE] == head + tail;
      assert Members(fields) == [MemberOf(fields[0])] + Members([]);
      OneMember(m);
      assert ms == [m] && FieldsOk(fields);
    } else {
      EmitMembersSpells(ms[1..], style, level);
      Split(UNIT_SEPARATOR, [COMMA] + Line(style, level + 1), EmitMembers(ms[1..], style, level));
      Split(UNIT_SEPARATOR, [COMMA], Line(style, level + 1));
      assert head + [] == head;
      assert FieldsOk(fields) && FlatFields(fields) == head + tail;
      assert Members(fields) == NormalMembers(ms);
      assert CleanMembers(ms) == (UNIT_SEPARATOR !in m.key && Clean(m.value) && CleanMembers(ms[1..]));
    }
  }

  // ---------------------------------------------------------------- the round trip

  /** A spelling holds no NUL. */
  lemma {:induction false} FlatNoNul(n: Node)
    requires NodeOk(n)
    ensures 0 !in Flat(n)
    decreases n
  {
    hide IsNumber, SpellAll, PiecesOk, Blank, FlatItems, FlatFields, ItemsOk, FieldsOk;
    match n
    case NStr(ps) => SpellNoNul(ps);
    case NArr(gap, items) =>
      BlankNoNul(gap);
      if items != [] {
        ItemsNoNul(items);
      }
    case NObj(gap, fields) =>
      BlankNoNul(gap);
      if fields != [] {
        FieldsNoNul(fields);
      }
    case _ =>
  }

  lemma BlankNoNul(w: bytes)
    requires Blank(w)
    ensures 0 !in w
  {
  }

  lemma {:induction false} SpellNoNul(ps: seq<Piece>)
    requires PiecesOk(ps)
    ensures 0 !in SpellAll(ps)
  {
    hide Spell, PieceOk;
    if ps != [] {
      SpelledNoNul(ps[0]);
      SpellNoNul(ps[1..]);
    }
  }

  lemma SpelledNoNul(p: Piece)
    requires PieceOk(p)
    ensures 0 !in Spell(p)
  {
    hide ParseHex, Validate;
    match p
    case Plain(ch) => PieceNoNul(p);
    case Short(l) =>
    case Hex(h) => HexClean(h);
    case Pair(h, l) =>
      HexClean(h);
      HexClean(l);
  }

  lemma {:induction false} ItemsNoNul(items: seq<Item>)
    requires items != [] && ItemsOk(items)
    ensures 0 !in FlatItems(items)
    decreases items
  {
    hide NodeOk, Flat, Blank;
    FlatNoNul(items[0].node);
    BlankNoNul(items[0].after);
    BlankNoNul(items[0].next);
    if |items| > 1 {
      ItemsNoNul(items[1..]);
    }
  }

  lemma {:induction false} FieldsNoNul(fields: seq<Field>)
    requires fields != [] && FieldsOk(fields)
    ensures 0 !in FlatFields(fields)
    decreases fields
  {
    hide NodeOk, Flat, Blank, PiecesOk, SpellAll;
    var f := fields[0];
    SpellNoNul(f.key);
    BlankNoNul(f.afterKey);
    BlankNoNul(f.afterColon);
    FlatNoNul(f.item.node);
    BlankNoNul(f.item.after);
    BlankNoNul(f.item.next);
    if |fields| > 1 {
      FieldsNoNul(fields[1..]);
    }
  }

  /** The text of json_encode, or of json_stringify with white space as the indent. */
  function Encoded(v: Json, style: Style): cstring
    requires BlankStyle(style)
  {
    EmitSpells(v, style, 0);
    FlatNoNul(NodeFor(v, style, 0));
    Encode(v, style)
  }

  /** What was printed is read back in its normal form; it is read back at all exactly if no
      string holds 0x1F. */
  lemma RoundTrip(v: Json, style: Style)
    requires BlankStyle(style)
    ensures Decode(Encoded(v, style)) == if Clean(v) then Some(Normal(v)) else None
  {
    hide BlankStyle, Emit, NodeFor, NodeOk, Flat, Meaning, Decode, Normal, Clean;
    var t := Encoded(v, style);
    var n := NodeFor(v, style, 0);
    EmitSpells(v, style, 0);
    if Clean(v) {
      assert t == [] + Flat(n) + [];
      assert Blank([]);
      assert Spells(t, Normal(v));
      DecodeExact(t, Normal(v));
    } else if Decode(t).Some? {
      DecodeExact(t, Decode(t).value);
    }
  }

  // ---------------------------------------------------------------- normal forms

  /** A repaired string is valid UTF-8; a valid string needs no repair. */
  lemma {:induction false} RepairedFixed(s: cstring)
    ensures IsUtf8(RepairedText(s))
    ensures RepairedText(s) == s <==> IsUtf8(s)
    decreases |s|
  {
    hide Validate, ReadChar;
    if s != [] {
      if Validate(s) == 0 {
        var t: bytes := [0xEF, 0xBF, 0xBD];
        RepairedFixed(s[1..]);
        WrittenIsRead(0xFFFD, Repaired(s[1..]));
        assert WriteChar(0xFFFD) == t;
        assert Repaired(s)[3..] == Repaired(s[1..]);
        assert Validate(Repaired(s)) == 3;
      } else {
        FirstChar(s);
        var n := Validate(s);
        RepairedFixed(s[n..]);
        ValidateLocal(s[..n], Repaired(s[n..]));
        assert Repaired(s)[n..] == Repaired(s[n..]);
        assert s == s[..n] + s[n..];
      }
    }
  }

  /** The normal form is well-formed, and a well-formed tree is its own normal form. */
  lemma {:induction false} NormalFixed(v: Json)
    ensures WellFormed(Normal(v))
    ensures Normal(v) == v <==> WellFormed(v)
    decreases v
  {
    hide IsUtf8, RepairedText, IsNumber;
    match v
    case Str(s) => RepairedFixed(s);
    case Arr(es) => NormalElementsFixed(es);
    case Obj(ms) => NormalMembersFixed(ms);
    case _ =>
  }

  lemma {:induction false} NormalElementsFixed(es: seq<Json>)
    ensures WellFormedElements(NormalElements(es))
    ensures NormalElements(es) == es <==> WellFormedElements(es)
    decreases es
  {
    hide Normal, WellFormed;
    if es != [] {
      NormalFixed(es[0]);
      NormalElementsFixed(es[1..]);
      var ns := NormalElements(es);
      assert ns[0] == Normal(es[0]) && ns[1..] == NormalElements(es[1..]);
      assert es == [es[0]] + es[1..];
    }
  }

  lemma {:induction false} NormalMembersFixed(ms: seq<Member>)
    ensures WellFormedMembers(NormalMembers(ms))
    ensures NormalMembers(ms) == ms <==> WellFormedMembers(ms)
    decreases ms
  {
    hide Normal, WellFormed, IsUtf8, RepairedText;
    if ms != [] {
      var m := ms[0];
      RepairedFixed(m.key);
      NormalFixed(m.value);
      NormalMembersFixed(ms[1..]);
      var ns := NormalMembers(ms);
      assert ns[0] == Member(RepairedText(m.key), Normal(m.value)) && ns[1..] == NormalMembers(ms[1..]);
      assert ms == [m] + ms[1..];
    }
  }

  lemma {:induction false} TextUtf8(ps: seq<Piece>)
    requires PiecesOk(ps)
    ensures IsUtf8(Text(ps))
  {
    hide PieceOk, Denote, Validate;
    if ps != [] {
      DenotesNoNul(ps[1..]);
      PieceNoNul(ps[0]);
      DenoteOneChar(ps[0]);
      TextUtf8(ps[1..]);
      ValidateLocal(Denote(ps[0]), DenoteAll(ps[1..]));
      assert DenoteAll(ps)[|Denote(ps[0])|..] == DenoteAll(ps[1..]);
    }
  }

  lemma DenoteOneChar(p: Piece)
    requires PieceOk(p)
    ensures Denote(p) != [] && Validate(Denote(p)) == |Denote(p)|
  {
    hide ParseHex, FromSurrogatePair;
    match p
    case Plain(ch) =>
    case Short(l) => assert Validate(Denote(p)) == 1;
    case Hex(h) =>
      HexOnto(h);
      WrittenIsRead(ParseHex(h).value, []);
      assert Denote(p) + [] == Denote(p) != [];
    case Pair(h, l) =>
      SurrogatesOnto(ParseHex(h).value, ParseHex(l).value);
      WrittenIsRead(FromSurrogatePair(ParseHex(h).value, ParseHex(l).value).value, []);
      assert Denote(p) + [] == Denote(p) != [];
  }

  /** Printing and reading gives the same tree back exactly if its strings and keys are valid UTF-8
      without U+001F and its numbers are numbers. */
  lemma SameTreeIff(v: Json, style: Style)
    requires BlankStyle(style)
    ensures Decode(Encoded(v, style)) == Some(v) <==> WellFormed(v) && Clean(v)
  {
    hide *;
    RoundTrip(v, style);
    NormalFixed(v);
  }

  /** Whatever is read is well-formed. */
  lemma {:induction false} MeaningWellFormed(n: Node)
    requires NodeOk(n)
    ensures WellFormed(Meaning(n))
    decreases n
  {
    hide IsUtf8, Text, PiecesOk, IsNumber, Blank;
    match n
    case NStr(ps) => TextUtf8(ps);
    case NArr(_, items) => ValuesWellFormed(items);
    case NObj(_, fields) => MembersWellFormed(fields);
    case _ =>
  }

  lemma {:induction false} ValuesWellFormed(items: seq<Item>)
    requires ItemsOk(items)
    ensures WellFormedElements(Values(items))
    decreases items
  {
    hide NodeOk, Meaning, WellFormed, Blank;
    if items != [] {
      MeaningWellFormed(items[0].node);
      ValuesWellFormed(items[1..]);
      assert Values(items)[1..] == Values(items[1..]);
    }
  }

  lemma {:induction false} MembersWellFormed(fields: seq<Field>)
    requires FieldsOk(fields)
    ensures WellFormedMembers(Members(fields))
    decreases fields
  {
    hide NodeOk, Meaning, WellFormed, Blank, IsUtf8, Text, PiecesOk;
    if fields != [] {
      TextUtf8(fields[0].key);
      MeaningWellFormed(fields[0].item.node);
      MembersWellFormed(fields[1..]);
      assert Members(fields)[1..] == Members(fields[1..]);
    }
  }

  /** Reading, printing in either style and reading again gives the same tree, unless the text
      spelled a 0x1F (as an escape: that is the only way to). */
  lemma ReadPrintRead(t: cstring, v: Json, style: Style)
    requires Decode(t) == Some(v) && BlankStyle(style)
    ensures Decode(Encoded(v, style)) == if Clean(v) then Some(v) else None
  {
    hide Decode, BlankStyle, Normal, Clean, Encoded, Meaning, NodeOk, Flat, WellFormed, Blank;
    DecodeExact(t, v);
    var before, n, after :|
      && Blank(before) && NodeOk(n) && Blank(after)
      && t == before + Flat(n) + after && Meaning(n) == v
      && UNIT_SEPARATOR !in t;
    MeaningWellFormed(n);
    NormalFixed(v);
    RoundTrip(v, style);
  }

  /** The smallest text that is lost: the string literal `"\u001F"`. */
  lemma UnitSeparatorLost()
    ensures var t: cstring := [QUOTE, BACKSLASH, LETTER_U, 0x30, 0x30, 0x31, 0x46, QUOTE];
            Decode(t) == Some(Str([UNIT_SEPARATOR])) && Decode(Encoded(Str([UNIT_SEPARATOR]), Compact)) == None
  {
    var t: cstring := [QUOTE, BACKSLASH, LETTER_U, 0x30, 0x30, 0x31, 0x46, QUOTE];
    var h: bytes := [0x30, 0x30, 0x31, 0x46];
    var ps := [Hex(h)];
    assert ps[1..] == [];
    assert ParseHex(h) == Some(0x1F);
    assert PieceOk(ps[0]) && Denote(ps[0]) == [UNIT_SEPARATOR];
    assert PiecesOk(ps[1..]) && PiecesOk(ps);
    assert DenoteAll(ps) == Denote(ps[0]) + DenoteAll(ps[1..]) && SpellAll(ps) == Spell(ps[0]) + SpellAll(ps[1..]);
    assert Flat(NStr(ps)) == t;
    assert Meaning(NStr(ps)) == Str([UNIT_SEPARATOR]);
    assert t == [] + Flat(NStr(ps)) + [];
    assert Blank([]) && Spells(t, Str([UNIT_SEPARATOR]));
    DecodeExact(t, Str([UNIT_SEPARATOR]));
    RoundTrip(Str([UNIT_SEPARATOR]), Compact);
  }
}
