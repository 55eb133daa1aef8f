/** The two printers of ccan_json.c, writing into the growing buffer. */
module JsonPrinter {
  import opened Bytes
  import opened Common
  import opened Utf8
  import opened JsonSpec
  import opened JsonBuffer
  import JsonReader

  /** write_hex16. */
  method WriteHex16(buf: array<byte>, b: nat, value: nat) returns (e: nat)
    requires value < 0x10000 && b + 4 <= buf.Length
    modifies buf
    ensures e == b + 4 && buf[..e] == old(buf[..b]) + WriteHex(value)
  {
    buf[b] := HexDigit(value / 0x1000 % 16);
    buf[b + 1] := HexDigit(value / 0x100 % 16);
    buf[b + 2] := HexDigit(value / 16 % 16);
    buf[b + 3] := HexDigit(value % 16);
    e := b + 4;
  }

  method WriteEscape(buf: array<byte>, b: nat, value: nat) returns (e: nat)
    requires value < 0x10000 && b + 6 <= buf.Length
    modifies buf
    ensures e == b + 6 && buf[..e] == old(buf[..b]) + HexEscape(value)
  {
    hide WriteHex;
    buf[b] := BACKSLASH;
    buf[b + 1] := LETTER_U;
    e := WriteHex16(buf, b + 2, value);
  }

  /** One turn of the loop of emit_string: at most twelve bytes go to `b`. */
  method EmitOne(str: cstring, s: nat, escape: bool, buf: array<byte>, b: nat) returns (s': nat, b': nat)
    requires s < |str| && b + 12 <= buf.Length
    modifies buf
    ensures s' == s + CharLength(str[s..]) <= |str|
    ensures b < b' <= b + 12 && buf[..b'] == old(buf[..b]) + EmitChar(str[s..], escape)
  {
    hide ReadChar, WriteChar, WriteHex, HexEscape;
    ghost var u := str[s..];
    var c := str[s];
    var short := ShortFor(c);
    if short.Some? {
      buf[b] := BACKSLASH;
      buf[b + 1] := short.value;
      return s + 1, b + 2;
    }
    var len := JsonReader.ValidateChar(str, s);
    if len == 0 {
      if escape {
        b' := WriteEscape(buf, b, 0xFFFD);
      } else {
        buf[b] := 0xEF;
        buf[b + 1] := 0xBF;
        buf[b + 2] := 0xBD;
        b' := b + 3;
      }
      return s + 1, b';
    }
    ReadIsWritten(u);
    assert len <= 4;
    s' := s + len;
    if c < 0x1F || (c >= 0x80 && escape) {
      var unicode := ReadChar(str[s..]);
      if unicode <= 0xFFFF {
        b' := WriteEscape(buf, b, unicode);
      } else {
        var pair := ToSurrogatePair(unicode);
        assert pair.0 < 0x10000 && pair.1 < 0x10000;
        b' := WriteEscape(buf, b, pair.0);
        b' := WriteEscape(buf, b', pair.1);
      }
    } else {
      JsonReader.Echo(str, s, len, buf, b);
      assert u[..len] == str[s..s + len];
      b' := b + len;
    }
  }

  /** `*b++ = c` where there is known to be room. */
  method PutFree(sb: Buffer, c: byte)
    requires sb.Valid() && sb.cur < sb.end
    modifies sb`cur, sb.start
    ensures sb.Valid() && sb.cur == old(sb.cur) + 1 && sb.Contents() == old(sb.Contents()) + [c]
  {
    sb.start[sb.cur] := c;
    sb.cur := sb.cur + 1;
  }

  /** emit_string: fourteen free bytes are always enough for one character and the last quote. */
  method EmitText(sb: Buffer, str: cstring, escape: bool)
    requires sb.Valid()
    modifies sb, sb.start
    ensures sb.Valid() && (sb.start == old(sb.start) || fresh(sb.start))
    ensures sb.Contents() == old(sb.Contents()) + EmitString(str, escape)
  {
    hide EmitChar, CharLength;
    sb.Need(14);
    PutFree(sb, QUOTE);
    var s := 0;
    ghost var before := old(sb.Contents()) + [QUOTE];
    ghost var goal := before + EmitChars(str, escape);
    assert str[s..] == str && sb.Contents() == before;
    while s < |str|
      invariant 0 <= s <= |str| && sb.Valid() && (sb.start == old(sb.start) || fresh(sb.start))
      invariant sb.cur + 13 <= sb.end
      invariant goal == sb.Contents() + EmitChars(str[s..], escape)
      decreases |str| - s
    {
      s := EmitStep(sb, str, s, escape);
    }
    assert EmitChars(str[s..], escape) == [];
    assert sb.Contents() == goal;
    PutFree(sb, QUOTE);
    Quoted(old(sb.Contents()), EmitChars(str, escape));
  }

  lemma Quoted(before: bytes, chars: bytes)
    ensures before + [QUOTE] + chars + [QUOTE] == before + ([QUOTE] + chars + [QUOTE])
  {
  }

  /** One turn of that loop. */
  method EmitStep(sb: Buffer, str: cstring, s: nat, escape: bool) returns (s': nat)
    requires sb.Valid() && s < |str| && sb.cur + 13 <= sb.end
    modifies sb, sb.start
    ensures sb.Valid() && (sb.start == old(sb.start) || fresh(sb.start)) && sb.cur + 13 <= sb.end
    ensures s < s' <= |str|
    ensures sb.Contents() + EmitChars(str[s'..], escape) == old(sb.Contents()) + EmitChars(str[s..], escape)
  {
    hide EmitChar, CharLength, EmitChars;
    EmitCharsStep(sb.Contents(), str, s, escape);
    var b;
    s', b := EmitOne(str, s, escape, sb.start, sb.cur);
    sb.cur := b;
    assert sb.Contents() == old(sb.Contents()) + EmitChar(str[s..], escape);
    sb.Need(14);
  }

  lemma EmitCharsStep(done: bytes, str: cstring, s: nat, escape: bool)
    requires s < |str|
    ensures var n := CharLength(str[s..]);
            done + EmitChars(str[s..], escape) ==
            (done + EmitChar(str[s..], escape)) + EmitChars(str[s + n..], escape)
  {
    hide EmitChar, CharLength;
    var n := CharLength(str[s..]);
    assert str[s..][n..] == str[s + n..];
  }

  /** emit_number: the lexeme, or null if it is not JSON (nan, inf). */
  method EmitNumber(sb: Buffer, lexeme: cstring)
    requires sb.Valid()
    modifies sb, sb.start
    ensures sb.Valid() && (sb.start == old(sb.start) || fresh(sb.start))
    ensures sb.Contents() == old(sb.Contents()) + if IsNumber(lexeme) then lexeme else NULL_WORD
  {
    hide NumberLength;
    assert lexeme[0..] == lexeme;
    NumberShape(lexeme);
    var ok, e, _ := JsonReader.ParseNumber(lexeme, 0, false);
    if ok && JsonReader.Peek(lexeme, e) == 0 {
      sb.Put(lexeme);
    } else {
      sb.Put(NULL_WORD);
    }
  }

  /** emit_value. */
  method EmitValue(sb: Buffer, v: Json)
    requires sb.Valid()
    modifies sb, sb.start
    ensures sb.Valid() && (sb.start == old(sb.start) || fresh(sb.start))
    ensures sb.Contents() == old(sb.Contents()) + Emit(v, Compact, 0)
    decreases v, 1
  {
    hide EmitString, IsNumber, EmitElements, EmitMembers;
    match v
    case Null => sb.Put(NULL_WORD);
    case Bool(bit) => sb.Put(if bit then TRUE_WORD else FALSE_WORD);
    case Str(text) => EmitText(sb, text, false);
    case Num(lexeme) => EmitNumber(sb, lexeme);
    case Arr(_) => EmitArray(sb, v);
    case Obj(_) => EmitObject(sb, v);
  }

  /** A compact text does not depend on the level. */
  lemma {:induction false} CompactLevel(v: Json, level: nat)
    ensures Emit(v, Compact, level) == Emit(v, Compact, 0)
    decreases v
  {
    hide EmitElements, EmitMembers;
    match v
    case Arr(es) =>
      if es != [] {
        CompactElementsLevel(es, level);
      }
    case Obj(ms) =>
      if ms != [] {
        CompactMembersLevel(ms, level);
      }
    case _ =>
  }

  lemma {:induction false} CompactElementsLevel(es: seq<Json>, level: nat)
    requires es != []
    ensures EmitElements(es, Compact, level) == EmitElements(es, Compact, 0)
    decreases es
  {
    hide Emit;
    CompactLevel(es[0], level + 1);
    CompactLevel(es[0], 1);
    if |es| > 1 {
      CompactElementsLevel(es[1..], level);
    }
  }

  lemma {:induction false} CompactMembersLevel(ms: seq<Member>, level: nat)
    requires ms != []
    ensures EmitMembers(ms, Compact, level) == EmitMembers(ms, Compact, 0)
    decreases ms
  {
    hide Emit, EmitString;
    CompactLevel(ms[0].value, level + 1);
    CompactLevel(ms[0].value, 1);
    if |ms| > 1 {
      CompactMembersLevel(ms[1..], level);
    }
  }

  /** What is still to be written for the elements from `i` on, and the closing bracket. */
  function ElementsLeft(es: seq<Json>, i: nat, style: Style, level: nat): bytes
    requires i <= |es|
  {
    if i == |es| then Line(style, level) + [RBRACKET]
    else EmitElements(es[i..], style, level)
  }

  lemma ElementsLeftStep(es: seq<Json>, i: nat, style: Style, level: nat)
    requires i < |es|
    ensures ElementsLeft(es, i, style, level) ==
            Emit(es[i], style, level + 1)
            + (if i + 1 == |es| then [] else [COMMA] + Line(style, level + 1))
            + ElementsLeft(es, i + 1, style, level)
  {
    hide Emit, Line;
    var head := Emit(es[i], style, level + 1);
    assert head + [] == head;
    assert es[i..][1..] == es[i + 1..] && es[i..][0] == es[i];
  }

  /** The text of a member. */
  function MemberText(m: Member, style: Style, level: nat): bytes {
    EmitString(m.key, false) + [COLON] + AfterColon(style) + Emit(m.value, style, level)
  }

  function MembersLeft(ms: seq<Member>, i: nat, style: Style, level: nat): bytes
    requires i <= |ms|
  {
    if i == |ms| then Line(style, level) + [RBRACE]
    else EmitMembers(ms[i..], style, level)
  }

  lemma MembersLeftStep(ms: seq<Member>, i: nat, style: Style, level: nat)
    requires i < |ms|
    ensures MembersLeft(ms, i, style, level) ==
            MemberText(ms[i], style, level + 1)
            + (if i + 1 == |ms| then [] else [COMMA] + Line(style, level + 1))
            + MembersLeft(ms, i + 1, style, level)
  {
    hide Emit, Line, EmitString, AfterColon;
    var head := MemberText(ms[i], style, level + 1);
    assert head + [] == head;
    assert ms[i..][1..] == ms[i + 1..] && ms[i..][0] == ms[i];
  }

  lemma CompactArray(es: seq<Json>)
    ensures Emit(Arr(es), Compact, 0) == [LBRACKET] + ElementsLeft(es, 0, Compact, 0)
    ensures ElementsLeft(es, |es|, Compact, 0) == [RBRACKET]
  {
    hide EmitElements;
    assert es != [] ==> es[0..] == es;
    assert [LBRACKET] + [] == [LBRACKET] && [] + [RBRACKET] == [RBRACKET];
  }

  lemma CompactObject(ms: seq<Member>)
    ensures Emit(Obj(ms), Compact, 0) == [LBRACE] + MembersLeft(ms, 0, Compact, 0)
    ensures MembersLeft(ms, |ms|, Compact, 0) == [RBRACE]
  {
    hide EmitMembers;
    assert ms != [] ==> ms[0..] == ms;
    assert [LBRACE] + [] == [LBRACE] && [] + [RBRACE] == [RBRACE];
  }

  lemma CompactElementsStep(es: seq<Json>, i: nat)
    requires i < |es|
    ensures ElementsLeft(es, i, Compact, 0) ==
            Emit(es[i], Compact, 0) + (if i + 1 == |es| then [] else [COMMA]) + ElementsLeft(es, i + 1, Compact, 0)
  {
    hide Emit, ElementsLeft;
    ElementsLeftStep(es, i, Compact, 0);
    CompactLevel(es[i], 1);
    assert [COMMA] + [] == [COMMA];
  }

  lemma CompactMembersStep(ms: seq<Member>, i: nat)
    requires i < |ms|
    ensures MembersLeft(ms, i, Compact, 0) ==
            MemberText(ms[i], Compact, 0) + (if i + 1 == |ms| then [] else [COMMA]) + MembersLeft(ms, i + 1, Compact, 0)
  {
    hide Emit, MembersLeft, EmitString;
    MembersLeftStep(ms, i, Compact, 0);
    CompactLevel(ms[i].value, 1);
    assert [COMMA] + [] == [COMMA];
  }

  method EndEntry(sb: Buffer, last: bool)
    requires sb.Valid()
    modifies sb, sb.start
    ensures sb.Valid() && (sb.start == old(sb.start) || fresh(sb.start))
    ensures sb.Contents() == old(sb.Contents()) + if last then [] else [COMMA]
  {
    if !last {
      sb.PutByte(COMMA);
    }
    assert old(sb.Contents()) + [] == old(sb.Contents());
  }

  /** emit_array. */
  method EmitArray(sb: Buffer, v: Json)
    requires sb.Valid() && v.Arr?
    modifies sb, sb.start
    ensures sb.Valid() && (sb.start == old(sb.start) || fresh(sb.start))
    ensures sb.Contents() == old(sb.Contents()) + Emit(v, Compact, 0)
    decreases v, 0
  {
    hide Emit, ElementsLeft;
    var es := v.elements;
    ghost var goal := old(sb.Contents()) + Emit(v, Compact, 0);
    CompactArray(es);
    sb.PutByte(LBRACKET);
    assert goal == sb.Contents() + ElementsLeft(es, 0, Compact, 0);
    for i := 0 to |es|
      invariant sb.Valid() && (sb.start == old(sb.start) || fresh(sb.start))
      invariant goal == sb.Contents() + ElementsLeft(es, i, Compact, 0)
    {
      ghost var done := sb.Contents();
      CompactElementsStep(es, i);
      EmitValue(sb, es[i]);
      EndEntry(sb, i + 1 == |es|);
      Carry(done, Emit(es[i], Compact, 0), if i + 1 == |es| then [] else [COMMA], ElementsLeft(es, i + 1, Compact, 0));
    }
    sb.PutByte(RBRACKET);
  }

  /** Moving what was written from the plan to the contents. */
  lemma Carry(done: bytes, a: bytes, b: bytes, left: bytes)
    ensures done + (a + b + left) == (done + a + b) + left
  {
  }

  /** A key, its colon and its value. */
  method EmitMember(sb: Buffer, m: Member)
    requires sb.Valid()
    modifies sb, sb.start
    ensures sb.Valid() && (sb.start == old(sb.start) || fresh(sb.start))
    ensures sb.Contents() == old(sb.Contents()) + MemberText(m, Compact, 0)
    decreases m
  {
    hide Emit, EmitString;
    EmitText(sb, m.key, false);
    sb.PutByte(COLON);
    EmitValue(sb, m.value);
    ColonCompact(old(sb.Contents()), EmitString(m.key, false), Emit(m.value, Compact, 0));
  }

  lemma ColonCompact(a: bytes, key: bytes, value: bytes)
    ensures a + key + [COLON] + value == a + (key + [COLON] + [] + value)
  {
  }

  /** emit_object. */
  method EmitObject(sb: Buffer, v: Json)
    requires sb.Valid() && v.Obj?
    modifies sb, sb.start
    ensures sb.Valid() && (sb.start == old(sb.start) || fresh(sb.start))
    ensures sb.Contents() == old(sb.Contents()) + Emit(v, Compact, 0)
    decreases v, 0
  {
    hide Emit, MembersLeft, MemberText;
    var ms := v.members;
    ghost var goal := old(sb.Contents()) + Emit(v, Compact, 0);
    CompactObject(ms);
    sb.PutByte(LBRACE);
    assert goal == sb.Contents() + MembersLeft(ms, 0, Compact, 0);
    for i := 0 to |ms|
      invariant sb.Valid() && (sb.start == old(sb.start) || fresh(sb.start))
      invariant goal == sb.Contents() + MembersLeft(ms, i, Compact, 0)
    {
      ghost var done := sb.Contents();
      CompactMembersStep(ms, i);
      ghost var member := MemberText(ms[i], Compact, 0);
      EmitMember(sb, ms[i]);
      EndEntry(sb, i + 1 == |ms|);
      Carry(done, member, if i + 1 == |ms| then [] else [COMMA], MembersLeft(ms, i + 1, Compact, 0));
    }
    sb.PutByte(RBRACE);
  }

  /** The indent: `space`, `n` times. */
  method Indent(sb: Buffer, space: cstring, n: nat)
    requires sb.Valid()
    modifies sb, sb.start
    ensures sb.Valid() && (sb.start == old(sb.start) || fresh(sb.start))
    ensures sb.Contents() == old(sb.Contents()) + Repeat(space, n)
  {
    ghost var goal := old(sb.Contents()) + Repeat(space, n);
    for i := 0 to n
      invariant sb.Valid() && (sb.start == old(sb.start) || fresh(sb.start))
      invariant goal == sb.Contents() + Repeat(space, n - i)
    {
      assert sb.Contents() + (space + Repeat(space, n - i - 1)) == sb.Contents() + space + Repeat(space, n - i - 1);
      sb.Put(space);
    }
  }

  /** emit_value_indented. */
  method EmitValueIndented(sb: Buffer, v: Json, space: cstring, level: nat)
    requires sb.Valid()
    modifies sb, sb.start
    ensures sb.Valid() && (sb.start == old(sb.start) || fresh(sb.start))
    ensures sb.Contents() == old(sb.Contents()) + Emit(v, Indented(space), level)
    decreases v, 1
  {
    hide EmitString, IsNumber, EmitElements, EmitMembers;
    match v
    case Null => sb.Put(NULL_WORD);
    case Bool(bit) => sb.Put(if bit then TRUE_WORD else FALSE_WORD);
    case Str(text) => EmitText(sb, text, false);
    case Num(lexeme) => EmitNumber(sb, lexeme);
    case Arr(_) => EmitArrayIndented(sb, v, space, level);
    case Obj(_) => EmitObjectIndented(sb, v, space, level);
  }

  /** One line of an indented container: the indent, the entry, the separator. */
  function LineText(entry: bytes, last: bool, space: cstring, level: nat): bytes {
    Repeat(space, level + 1) + entry + if last then [NEWLINE] else [COMMA, NEWLINE]
  }

  /** What is left to write once the lines before are written. */
  function LinesLeft(left: bytes, done: bool, space: cstring, level: nat, close: byte): bytes {
    if done then Repeat(space, level) + [close] else Repeat(space, level + 1) + left
  }

  /** The line break between two entries belongs to the line that it ends. */
  lemma LineStep(before: bytes, entry: bytes, last: bool, space: cstring, level: nat, close: byte, left: bytes)
    requires last ==> left == Line(Indented(space), level) + [close]
    ensures var mid := if last then [] else [COMMA] + Line(Indented(space), level + 1);
            before + LinesLeft(entry + mid + left, false, space, level, close) ==
            (before + LineText(entry, last, space, level)) + LinesLeft(left, last, space, level, close)
  {
    hide Repeat;
    var pad := Repeat(space, level + 1);
    if last {
      assert left == [NEWLINE] + (Repeat(space, level) + [close]);
      assert entry + [] == entry;
      Regroup4(before, pad, entry, [NEWLINE], Repeat(space, level) + [close]);
    } else {
      Regroup4(before, pad, entry, [COMMA, NEWLINE], pad + left);
      assert entry + ([COMMA] + ([NEWLINE] + pad)) + left == entry + ([COMMA, NEWLINE] + (pad + left));
    }
  }

  lemma Regroup4(a: bytes, b: bytes, c: bytes, d: bytes, e: bytes)
    ensures a + (b + (c + (d + e))) == (a + (b + c + d)) + e
  {
    assert b + (c + (d + e)) == (b + c + d) + e;
  }

  method EndLine(sb: Buffer, last: bool)
    requires sb.Valid()
    modifies sb, sb.start
    ensures sb.Valid() && (sb.start == old(sb.start) || fresh(sb.start))
    ensures sb.Contents() == old(sb.Contents()) + if last then [NEWLINE] else [COMMA, NEWLINE]
  {
    sb.Put(if last then [NEWLINE] else [COMMA, NEWLINE]);
  }

  /** One turn of the loop of emit_array_indented. */
  method EmitElementLine(sb: Buffer, v: Json, last: bool, space: cstring, level: nat)
    requires sb.Valid()
    modifies sb, sb.start
    ensures sb.Valid() && (sb.start == old(sb.start) || fresh(sb.start))
    ensures sb.Contents() ==
            old(sb.Contents()) + LineText(Emit(v, Indented(space), level + 1), last, space, level)
    decreases v, 2
  {
    hide Emit, Repeat;
    Indent(sb, space, level + 1);
    EmitValueIndented(sb, v, space, level + 1);
    EndLine(sb, last);
  }

  /** One turn of the loop of emit_object_indented. */
  method EmitMemberLine(sb: Buffer, m: Member, last: bool, space: cstring, level: nat)
    requires sb.Valid()
    modifies sb, sb.start
    ensures sb.Valid() && (sb.start == old(sb.start) || fresh(sb.start))
    ensures sb.Contents() ==
            old(sb.Contents()) + LineText(MemberText(m, Indented(space), level + 1), last, space, level)
    decreases m, 1
  {
    hide Emit, EmitString, Repeat, MemberText;
    Indent(sb, space, level + 1);
    EmitMemberIndented(sb, m, space, level + 1);
    EndLine(sb, last);
  }

  /** A key, its colon and its value. */
  method EmitMemberIndented(sb: Buffer, m: Member, space: cstring, level: nat)
    requires sb.Valid()
    modifies sb, sb.start
    ensures sb.Valid() && (sb.start == old(sb.start) || fresh(sb.start))
    ensures sb.Contents() == old(sb.Contents()) + MemberText(m, Indented(space), level)
    decreases m, 0
  {
    hide Emit, EmitString;
    EmitText(sb, m.key, false);
    sb.Put([COLON, SPACE]);
    EmitValueIndented(sb, m.value, space, level);
    Colon(old(sb.Contents()), EmitString(m.key, false), Emit(m.value, Indented(space), level));
  }

  lemma Colon(a: bytes, key: bytes, value: bytes)
    ensures a + key + [COLON, SPACE] + value == a + (key + [COLON] + [SPACE] + value)
  {
  }

  lemma IndentedArray(es: seq<Json>, space: cstring, level: nat)
    requires es != []
    ensures Emit(Arr(es), Indented(space), level) ==
            [LBRACKET, NEWLINE] + LinesLeft(ElementsLeft(es, 0, Indented(space), level), false, space, level, RBRACKET)
    ensures ElementsLeft(es, |es|, Indented(space), level) == Line(Indented(space), level) + [RBRACKET]
  {
    hide EmitElements, Repeat;
    assert es[0..] == es;
  }

  lemma IndentedObject(ms: seq<Member>, space: cstring, level: nat)
    requires ms != []
    ensures Emit(Obj(ms), Indented(space), level) ==
            [LBRACE, NEWLINE] + LinesLeft(MembersLeft(ms, 0, Indented(space), level), false, space, level, RBRACE)
    ensures MembersLeft(ms, |ms|, Indented(space), level) == Line(Indented(space), level) + [RBRACE]
  {
    hide EmitMembers, Repeat;
    assert ms[0..] == ms;
  }

  /** emit_array_indented. */
  method EmitArrayIndented(sb: Buffer, v: Json, space: cstring, level: nat)
    requires sb.Valid() && v.Arr?
    modifies sb, sb.start
    ensures sb.Valid() && (sb.start == old(sb.start) || fresh(sb.start))
    ensures sb.Contents() == old(sb.Contents()) + Emit(v, Indented(space), level)
    decreases v, 0
  {
    hide EmitElements, Repeat, Line, ElementsLeft;
    var es := v.elements;
    ghost var style := Indented(space);
    if es == [] {
      sb.Put([LBRACKET, RBRACKET]);
      return;
    }
    hide Emit, LineText;
    ghost var goal := old(sb.Contents()) + Emit(v, style, level);
    IndentedArray(es, space, level);
    sb.Put([LBRACKET, NEWLINE]);
    assert goal == sb.Contents() + LinesLeft(ElementsLeft(es, 0, style, level), false, space, level, RBRACKET);
    var i := 0;
    while i < |es|
      invariant 0 <= i <= |es| && sb.Valid() && (sb.start == old(sb.start) || fresh(sb.start))
      invariant goal ==
                sb.Contents() + LinesLeft(ElementsLeft(es, i, style, level), i == |es|, space, level, RBRACKET)
    {
      hide LinesLeft;
      ElementsLeftStep(es, i, style, level);
      LineStep(sb.Contents(), Emit(es[i], style, level + 1), i + 1 == |es|, space, level, RBRACKET,
               ElementsLeft(es, i + 1, style, level));
      EmitElementLine(sb, es[i], i + 1 == |es|, space, level);
      i := i + 1;
    }
    Indent(sb, space, level);
    sb.PutByte(RBRACKET);
  }

  /** emit_object_indented. */
  method EmitObjectIndented(sb: Buffer, v: Json, space: cstring, level: nat)
    requires sb.Valid() && v.Obj?
    modifies sb, sb.start
    ensures sb.Valid() && (sb.start == old(sb.start) || fresh(sb.start))
    ensures sb.Contents() == old(sb.Contents()) + Emit(v, Indented(space), level)
    decreases v, 0
  {
    hide EmitMembers, Repeat, Line, MembersLeft, MemberText;
    var ms := v.members;
    ghost var style := Indented(space);
    if ms == [] {
      sb.Put([LBRACE, RBRACE]);
      return;
    }
    hide Emit, LineText;
    ghost var goal := old(sb.Contents()) + Emit(v, style, level);
    IndentedObject(ms, space, level);
    sb.Put([LBRACE, NEWLINE]);
    assert goal == sb.Contents() + LinesLeft(MembersLeft(ms, 0, style, level), false, space, level, RBRACE);
    var i := 0;
    while i < |ms|
      invariant 0 <= i <= |ms| && sb.Valid() && (sb.start == old(sb.start) || fresh(sb.start))
      invariant goal ==
                sb.Contents() + LinesLeft(MembersLeft(ms, i, style, level), i == |ms|, space, level, RBRACE)
    {
      hide LinesLeft;
      MembersLeftStep(ms, i, style, level);
      LineStep(sb.Contents(), MemberText(ms[i], style, level + 1), i + 1 == |ms|, space, level, RBRACE,
               MembersLeft(ms, i + 1, style, level));
      EmitMemberLine(sb, ms[i], i + 1 == |ms|, space, level);
      i := i + 1;
    }
    Indent(sb, space, level);
    sb.PutByte(RBRACE);
  }

  /** json_stringify, and json_encode without an indent string. */
  method JsonStringify(v: Json, space: Option<cstring>) returns (sb: Buffer)
    ensures fresh(sb) && fresh(sb.start) && sb.Valid()
    ensures sb.start[..sb.cur + 1] ==
            Encode(v, match space case None => Compact case Some(indent) => Indented(indent)) + [0]
  {
    hide Emit;
    sb := new Buffer();
    match space {
      case None => EmitValue(sb, v);
      case Some(indent) => EmitValueIndented(sb, v, indent, 0);
    }
    sb.Finish();
  }
}
