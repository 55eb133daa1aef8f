/** What the printers write, character by character: which of the spellings of a tree they choose, and the
    grammar of the numbers that they let through. */
module JsonLayout {
  import opened Bytes
  import opened Common
  import opened Utf8
  import opened JsonSpec
  import opened JsonText
  import opened JsonTheory

  // ---------------------------------------------------------------- numbers

  predicate Digits(d: bytes) {
    forall k :: 0 <= k < |d| ==> 0x30 <= d[k] <= 0x39
  }

  /** 0, or digits of which the first is not 0. */
  predicate Integer(d: bytes) {
    d == [0x30] || (d != [] && 0x31 <= d[0] <= 0x39 && Digits(d))
  }

  /** Nothing, or a point and at least one digit. */
  predicate Fraction(d: bytes) {
    d == [] || (d[0] == 0x2E && |d| > 1 && Digits(d[1..]))
  }

  /** Nothing, or e or E, an optional sign and at least one digit. */
  predicate Exponent(d: bytes) {
    d == [] || ((d[0] == 0x65 || d[0] == 0x45) && (ManyDigits(d[1..]) || Signed(d[1..])))
  }

  predicate ManyDigits(d: bytes) {
    d != [] && Digits(d)
  }

  predicate Signed(d: bytes) {
    d != [] && (d[0] == 0x2B || d[0] == 0x2D) && ManyDigits(d[1..])
  }

  /** A number (RFC 8259, section 6): an optional minus, an integer, a fraction, an exponent. */
  ghost predicate Numeral(l: bytes) {
    exists m, i, f, e :: NumeralParts(l, m, i, f, e)
  }

  predicate NumeralParts(l: bytes, m: bytes, i: bytes, f: bytes, e: bytes) {
    l == m + i + f + e && (m == [] || m == [0x2D]) && Integer(i) && Fraction(f) && Exponent(e)
  }

  lemma {:induction false} DigitsEndIs(t: bytes, i: nat, j: nat)
    requires i <= j <= |t| && Digits(t[i..j]) && (j == |t| || !IsDigit(t[j]))
    ensures DigitsEnd(t, i) == j
    decreases j - i
  {
    if i < j {
      assert t[i..j][0] == t[i] && t[i..j][1..] == t[i + 1..j];
      DigitsEndIs(t, i + 1, j);
    }
  }

  lemma DigitsOf(t: bytes, i: nat)
    requires i <= |t|
    ensures var e := DigitsEnd(t, i); i <= e <= |t| && Digits(t[i..e]) && (e == |t| || !IsDigit(t[e]))
    decreases |t| - i
  {
    if i < |t| && IsDigit(t[i]) {
      DigitsOf(t, i + 1);
      var e := DigitsEnd(t, i);
      assert t[i..e] == [t[i]] + t[i + 1..e];
    }
  }

  /** The number check accepts exactly these. */
  lemma NumeralIs(l: bytes)
    ensures Numeral(l) <==> IsNumber(l)
  {
    if IsNumber(l) {
      NumeralOf(l);
    }
    if Numeral(l) {
      var m, i, f, e :| NumeralParts(l, m, i, f, e);
      NumeralAccepted(l, m, i, f, e);
    }
  }

  lemma NumeralAccepted(l: bytes, m: bytes, i: bytes, f: bytes, e: bytes)
    requires NumeralParts(l, m, i, f, e)
    ensures IsNumber(l)
  {
    var a, b, c := |m|, |m| + |i|, |m| + |i| + |f|;
    IntegerAt(l, m, i, f + e);
    assert l == m + i + (f + e) && l == (m + i) + f + e;
    assert IntegerEnd(l) == b;
    FractionAt(l, m + i, f, e);
    assert FractionEnd(l, b) == c;
    ExponentAt(l, m + i + f, e);
  }

  /** Neither a fraction nor an exponent starts with a digit, nor an exponent with a point. */
  lemma IntegerAt(l: bytes, m: bytes, i: bytes, rest: bytes)
    requires l == m + i + rest && (m == [] || m == [0x2D]) && Integer(i) && (rest == [] || !IsDigit(rest[0]))
    ensures IntegerEnd(l) == |m| + |i|
  {
    assert l[|m|] == i[0];
    if i != [0x30] {
      assert l[|m|..|m| + |i|] == i;
      DigitsEndIs(l, |m|, |m| + |i|);
    }
  }

  lemma FractionAt(l: bytes, h: bytes, f: bytes, rest: bytes)
    requires l == h + f + rest && h != [] && Fraction(f) && (rest == [] || (!IsDigit(rest[0]) && rest[0] != 0x2E))
    ensures FractionEnd(l, |h|) == |h| + |f|
  {
    if f != [] {
      assert l[|h|] == f[0] && l[|h| + 1] == f[1];
      assert l[|h| + 1..|h| + |f|] == f[1..];
      assert f[1..][0] == f[1];
      DigitsEndIs(l, |h| + 1, |h| + |f|);
    }
  }

  lemma ExponentAt(l: bytes, h: bytes, e: bytes)
    requires l == h + e && h != [] && Exponent(e)
    ensures ExponentEnd(l, |h|) == |l|
  {
    if e != [] {
      var n := |h|;
      assert l[n] == e[0] && l[n + 1..] == e[1..] && l[n + 1] == e[1];
      if ManyDigits(e[1..]) {
        assert e[1..][0] == e[1];
        assert l[n + 1..|l|] == e[1..];
        DigitsEndIs(l, n + 1, |l|);
      } else {
        assert e[1..][0] == e[1] && e[1..][1..] == e[2..] && e[2..][0] == e[2] && l[n + 2] == e[2];
        assert l[n + 2..|l|] == e[2..];
        DigitsEndIs(l, n + 2, |l|);
      }
    }
  }

  lemma NumeralOf(l: bytes)
    requires IsNumber(l)
    ensures Numeral(l)
  {
    hide IntegerEnd, FractionEnd, ExponentEnd, Integer, Fraction, Exponent;
    var a := if At(l, 0) == 0x2D then 1 else 0;
    var b := IntegerEnd(l);
    var c := FractionEnd(l, b);
    EndsApart(l);
    IntegerOf(l, a);
    FractionOf(l, b);
    ExponentOf(l, c);
    var m, i, f, e := l[..a], l[a..b], l[b..c], l[c..];
    assert l == m + i + f + e;
    assert a == 1 ==> m == [0x2D];
    NumeralFrom(l, m, i, f, e);
  }

  lemma NumeralFrom(l: bytes, m: bytes, i: bytes, f: bytes, e: bytes)
    requires NumeralParts(l, m, i, f, e)
    ensures Numeral(l)
  {
  }

  /** A part that is missing leaves nothing of the number. */
  lemma EndsApart(l: bytes)
    requires IsNumber(l)
    ensures IntegerEnd(l) > 0 && FractionEnd(l, IntegerEnd(l)) > 0
    ensures IntegerEnd(l) <= |l| && FractionEnd(l, IntegerEnd(l)) <= |l|
    ensures ExponentEnd(l, FractionEnd(l, IntegerEnd(l))) == |l|
  {
  }

  lemma IntegerOf(l: bytes, a: nat)
    requires IntegerEnd(l) > 0 && IntegerEnd(l) <= |l| && a == if At(l, 0) == 0x2D then 1 else 0
    ensures a < IntegerEnd(l) && Integer(l[a..IntegerEnd(l)])
  {
    DigitsOf(l, a);
    var i := l[a..IntegerEnd(l)];
    assert i[0] == l[a];
  }

  lemma FractionOf(l: bytes, b: nat)
    requires 0 < b <= |l| && FractionEnd(l, b) > 0
    ensures b <= FractionEnd(l, b) <= |l| && Fraction(l[b..FractionEnd(l, b)])
  {
    if At(l, b) == 0x2E {
      DigitsOf(l, b + 1);
      var c := FractionEnd(l, b);
      assert l[b..c][1..] == l[b + 1..c];
    }
  }

  lemma ExponentOf(l: bytes, c: nat)
    requires 0 < c <= |l| && ExponentEnd(l, c) == |l|
    ensures Exponent(l[c..])
  {
    if At(l, c) == 0x45 || At(l, c) == 0x65 {
      var e := l[c..];
      assert e[0] == l[c] && e[1..] == l[c + 1..];
      if At(l, c + 1) == 0x2B || At(l, c + 1) == 0x2D {
        DigitsOf(l, c + 2);
        assert e[1..][1..] == l[c + 2..|l|] && e[1..][0] == l[c + 1];
        assert ManyDigits(e[1..][1..]);
      } else {
        DigitsOf(l, c + 1);
        assert l[c + 1..|l|] == e[1..];
      }
    }
  }

  // ---------------------------------------------------------------- strings

  /** How the printer spells a character of a string: with a short escape if there is one, though never the slash;
      other control characters below U+001F as \u00 and two digits; everything else as it is. */
  predicate Chosen(p: Piece) {
    match p
    case Plain(ch) => ch != [] && ch[0] != 0x22 && ch[0] != 0x5C && ch[0] >= 0x1F
    case Short(l) => l in [0x22, 0x5C, 0x62, 0x66, 0x6E, 0x72, 0x74]
    case Hex(h) =>
      |h| == 4 && h[..2] == [0x30, 0x30] && 0x30 <= h[2] <= 0x31 && (0x30 <= h[3] <= 0x39 || 0x41 <= h[3] <= 0x46)
    case Pair(_, _) => false
  }

  predicate AllChosen(ps: seq<Piece>) {
    forall k :: 0 <= k < |ps| ==> Chosen(ps[k])
  }

  lemma {:induction false} PiecesChosen(s: bytes)
    requires 0 !in s
    ensures AllChosen(PiecesFor(s, false))
  {
    hide Chosen;
    if s != [] {
      PieceChosen(s);
      PiecesChosen(s[CharLength(s)..]);
    }
  }

  lemma PieceChosen(s: bytes)
    requires s != [] && 0 !in s
    ensures Chosen(PieceFor(s, false))
  {
    hide WriteChar, ToSurrogatePair;
    if ShortFor(s[0]) == None && Validate(s) > 0 {
      FirstChar(s);
      if s[0] < 0x1F {
        assert ReadChar(s) == s[0];
        LowHex(s[0]);
      }
    }
  }

  lemma LowHex(u: nat)
    requires u < 0x20
    ensures WriteHex(u)[..2] == [0x30, 0x30] && 0x30 <= WriteHex(u)[2] <= 0x31
    ensures 0x30 <= WriteHex(u)[3] <= 0x39 || 0x41 <= WriteHex(u)[3] <= 0x46
  {
  }

  // ---------------------------------------------------------------- compact texts

  /** No white space outside of strings. */
  predicate Tight(n: Node)
    decreases n
  {
    match n
    case NStr(ps) => AllChosen(ps)
    case NArr(gap, items) => gap == [] && TightItems(items)
    case NObj(gap, fields) => gap == [] && TightFields(fields)
    case _ => true
  }

  predicate TightItems(items: seq<Item>)
    decreases items
  {
    items == [] || (Tight(items[0].node) && items[0].after == [] && items[0].next == [] && TightItems(items[1..]))
  }

  predicate TightFields(fields: seq<Field>)
    decreases fields
  {
    fields == [] ||
    (AllChosen(fields[0].key) && Tight(fields[0].item.node) && NoGaps(fields[0]) && TightFields(fields[1..]))
  }

  predicate NoGaps(f: Field) {
    f.afterKey == [] && f.afterColon == [] && f.item.after == [] && f.item.next == []
  }

  lemma {:induction false} TightFor(v: Json, level: nat)
    ensures Tight(NodeFor(v, Compact, level))
    decreases v
  {
    hide AllChosen, IsNumber, PiecesFor, TightItems, TightFields, ItemsFor, FieldsFor;
    match v
    case Str(s) => PiecesChosen(s);
    case Arr(es) => TightElements(es, level);
    case Obj(ms) => TightMembers(ms, level);
    case _ =>
  }

  lemma {:induction false} TightElements(es: seq<Json>, level: nat)
    ensures TightItems(ItemsFor(es, Compact, level))
    decreases es
  {
    hide Tight, NodeFor;
    if es != [] {
      TightFor(es[0], level + 1);
      TightElements(es[1..], level);
      assert ItemsFor(es, Compact, level)[1..] == ItemsFor(es[1..], Compact, level);
    }
  }

  lemma {:induction false} TightMembers(ms: seq<Member>, level: nat)
    ensures TightFields(FieldsFor(ms, Compact, level))
    decreases ms
  {
    hide Tight, NodeFor, AllChosen, PiecesFor;
    if ms != [] {
      PiecesChosen(ms[0].key);
      TightFor(ms[0].value, level + 1);
      TightMembers(ms[1..], level);
      assert FieldsFor(ms, Compact, level)[1..] == FieldsFor(ms[1..], Compact, level);
    }
  }

  /** json_encode writes the spelling of the tree that has no white space outside of strings. */
  lemma CompactIsTight(v: Json)
    ensures exists n :: NodeOk(n) && Flat(n) == Encode(v, Compact) && Meaning(n) == Normal(v) && Tight(n)
  {
    hide Tight, NodeFor, Normal, Meaning, Flat, NodeOk, Clean;
    EmitSpells(v, Compact, 0);
    TightFor(v, 0);
  }

  // ---------------------------------------------------------------- indented texts

  /** The indent `n` times. */
  function Times(space: bytes, n: nat): bytes {
    if n == 0 then [] else space + Times(space, n - 1)
  }

  /** A line feed and the indent of the level. */
  function NewLine(space: bytes, level: nat): bytes {
    [0x0A] + Times(space, level)
  }

  /** Each element and each member on a line of its own, one level further in than the brackets around it,
      the closing bracket on a line of its own, one space behind a colon, no other white space; and nothing
      between the brackets of an empty array or object. */
  predicate OnLines(n: Node, space: bytes, level: nat)
    decreases n
  {
    match n
    case NStr(ps) => AllChosen(ps)
    case NArr(gap, items) =>
      gap == (if items == [] then [] else NewLine(space, level + 1)) && ItemsOnLines(items, space, level)
    case NObj(gap, fields) =>
      gap == (if fields == [] then [] else NewLine(space, level + 1)) && FieldsOnLines(fields, space, level)
    case _ => true
  }

  predicate ItemsOnLines(items: seq<Item>, space: bytes, level: nat)
    decreases items
  {
    items == [] ||
    (OnLines(items[0].node, space, level + 1) && Broken(items[0], |items| == 1, space, level)
     && ItemsOnLines(items[1..], space, level))
  }

  predicate Broken(i: Item, last: bool, space: bytes, level: nat) {
    if last then i.after == NewLine(space, level) && i.next == []
    else i.after == [] && i.next == NewLine(space, level + 1)
  }

  predicate FieldsOnLines(fields: seq<Field>, space: bytes, level: nat)
    decreases fields
  {
    fields == [] ||
    (AllChosen(fields[0].key) && fields[0].afterKey == [] && fields[0].afterColon == [0x20]
     && OnLines(fields[0].item.node, space, level + 1) && Broken(fields[0].item, |fields| == 1, space, level)
     && FieldsOnLines(fields[1..], space, level))
  }

  lemma {:induction false} LineIs(space: cstring, level: nat)
    ensures Line(Indented(space), level) == NewLine(space, level)
  {
    RepeatIs(space, level);
  }

  lemma {:induction false} RepeatIs(space: cstring, n: nat)
    ensures Repeat(space, n) == Times(space, n)
  {
    if n > 0 {
      RepeatIs(space, n - 1);
    }
  }

  lemma {:induction false} LinesFor(v: Json, space: cstring, level: nat)
    ensures OnLines(NodeFor(v, Indented(space), level), space, level)
    decreases v
  {
    hide AllChosen, IsNumber, PiecesFor, ItemsOnLines, FieldsOnLines, ItemsFor, FieldsFor, Line, NewLine;
    LineIs(space, level + 1);
    match v
    case Str(s) => PiecesChosen(s);
    case Arr(es) => LinesForElements(es, space, level);
    case Obj(ms) => LinesForMembers(ms, space, level);
    case _ =>
  }

  lemma {:induction false} LinesForElements(es: seq<Json>, space: cstring, level: nat)
    ensures ItemsOnLines(ItemsFor(es, Indented(space), level), space, level)
    decreases es
  {
    hide OnLines, NodeFor, Line, NewLine;
    if es != [] {
      LineIs(space, level);
      LineIs(space, level + 1);
      LinesFor(es[0], space, level + 1);
      LinesForElements(es[1..], space, level);
      assert ItemsFor(es, Indented(space), level)[1..] == ItemsFor(es[1..], Indented(space), level);
    }
  }

  lemma {:induction false} LinesForMembers(ms: seq<Member>, space: cstring, level: nat)
    ensures FieldsOnLines(FieldsFor(ms, Indented(space), level), space, level)
    decreases ms
  {
    hide OnLines, NodeFor, Line, NewLine, AllChosen, PiecesFor;
    if ms != [] {
      LineIs(space, level);
      LineIs(space, level + 1);
      PiecesChosen(ms[0].key);
      LinesFor(ms[0].value, space, level + 1);
      LinesForMembers(ms[1..], space, level);
      assert FieldsFor(ms, Indented(space), level)[1..] == FieldsFor(ms[1..], Indented(space), level);
    }
  }

  /** json_stringify with an indent of white space writes the spelling of the tree that is laid out like that. */
  lemma IndentedIsOnLines(v: Json, space: cstring)
    requires Blank(space)
    ensures exists n ::
              && NodeOk(n) && Flat(n) == Encode(v, Indented(space)) && Meaning(n) == Normal(v) && OnLines(n, space, 0)
  {
    hide OnLines, NodeFor, Normal, Meaning, Flat, NodeOk, Clean, Blank;
    EmitSpells(v, Indented(space), 0);
    LinesFor(v, space, 0);
  }
}
