/** What mangled names print, stated from the texts of the Itanium C++ ABI: neither the tables nor the
    grammar of the parser occur in the statements. */
module DemangleNames {
  import opened Common
  import opened DemangleSpec
  import opened DemangleTheory
  import opened DemangleShipped

  // ---------------------------------------------------------------- codes and texts

  /** A code of the mangling and the text it stands for. */
  datatype Entry = Entry(code: string, text: string)

  /** Section 5.1.3 of the Itanium C++ ABI, and what each operator is called. */
  function Operators(): seq<Entry> {
    Arithmetic() + Assignments() + Others()
  }

  function Arithmetic(): seq<Entry> {
    [Entry("nw", "operator new"), Entry("na", "operator new[]"), Entry("dl", "operator delete"),
     Entry("da", "operator delete[]"), Entry("ps", "operator+"), Entry("ng", "operator-"),
     Entry("ad", "operator&"), Entry("de", "operator*"), Entry("co", "operator~"), Entry("pl", "operator+"),
     Entry("mi", "operator-"), Entry("ml", "operator*"), Entry("dv", "operator/"), Entry("rm", "operator%"),
     Entry("an", "operator&"), Entry("or", "operator|"), Entry("eo", "operator^")]
  }

  function Assignments(): seq<Entry> {
    [Entry("aS", "operator="), Entry("pL", "operator+="), Entry("mI", "operator-="), Entry("mL", "operator*="),
     Entry("dV", "operator/="), Entry("rM", "operator%="), Entry("aN", "operator&="), Entry("oR", "operator|="),
     Entry("eO", "operator^="), Entry("ls", "operator<<"), Entry("rs", "operator>>"),
     Entry("lS", "operator<<="), Entry("rS", "operator>>=")]
  }

  function Others(): seq<Entry> {
    [Entry("eq", "operator=="), Entry("ne", "operator!="), Entry("lt", "operator<"), Entry("gt", "operator>"),
     Entry("le", "operator<="), Entry("ge", "operator>="), Entry("nt", "operator!"), Entry("aa", "operator&&"),
     Entry("oo", "operator||"), Entry("pp", "operator++"), Entry("mm", "operator--"), Entry("cm", "operator,"),
     Entry("pm", "operator->*"), Entry("pt", "operator->"), Entry("cl", "operator()"),
     Entry("ix", "operator[]"), Entry("qu", "operator?"), Entry("st", "operator sizeof"),
     Entry("sz", "operator sizeof")]
  }

  /** Section 5.1.5: the builtin types. */
  function Builtins(): seq<Entry> {
    [Entry("v", "void"), Entry("w", "wchar_t"), Entry("b", "bool"), Entry("c", "char"),
     Entry("a", "signed char"), Entry("h", "unsigned char"), Entry("s", "short"), Entry("t", "unsigned short"),
     Entry("i", "int"), Entry("j", "unsigned int"), Entry("l", "long"), Entry("m", "unsigned long"),
     Entry("x", "long long"), Entry("y", "unsigned long long"), Entry("n", "__int128"),
     Entry("o", "unsigned __int128"), Entry("f", "float"), Entry("d", "double"), Entry("e", "long double"),
     Entry("g", "__float128"), Entry("z", "ellipsis")]
  }

  /** Section 5.1.8: the abbreviated substitutions. */
  function Substitutions(): seq<Entry> {
    [Entry("St", "std"), Entry("Sa", "std::allocator"), Entry("Sb", "std::basic_string"),
     Entry("Ss", "std::string"), Entry("Si", "std::istream"), Entry("So", "std::ostream"),
     Entry("Sd", "std::iostream")]
  }

  /** An identifier of C++, with a length that a 32-bit number can hold. */
  predicate Identifier(id: string) {
    && 0 < |id| < 0x8000_0000
    && !IsDigit(id[0])
    && forall i :: 0 <= i < |id| ==> IsAlpha(id[i]) || IsDigit(id[i]) || id[i] == '_'
  }

  /** What compilers call an anonymous namespace. */
  predicate Anonymous(id: string) {
    |id| > 11 && id[..11] == "_GLOBAL__N_"
  }

  function Digit(d: nat): char
    requires d < 10
  {
    "0123456789"[d]
  }

  function InDecimal(n: nat): (r: string)
    ensures 0 < |r|
  {
    (if n < 10 then "" else InDecimal(n / 10)) + [Digit(n % 10)]
  }

  /** A part of a nested name. */
  datatype Part =
    | Id(name: string)                 // a source name
    | Std(k: nat)                      // an abbreviated substitution
    | Param                            // a template parameter
    | Seen                             // a substitution of something met before
    | Ctor(d: char) | Dtor(d: char)    // a constructor or destructor of the class before it
    | Op(k: nat)                       // an operator
    | Cast(k: nat)                     // a conversion to a builtin type
    | Args(k: nat)                     // template arguments: one builtin type

  function IdCode(id: string): string {
    InDecimal(|id|) + id
  }

  function Code(p: Part): string
    requires InRange(p)
  {
    match p
    case Id(name) => IdCode(name)
    case Std(k) => Substitutions()[k].code
    case Param => "T_"
    case Seen => "S_"
    case Ctor(d) => ['C', d]
    case Dtor(d) => ['D', d]
    case Op(k) => Operators()[k].code
    case Cast(k) => "cv" + Builtins()[k].code
    case Args(k) => "I" + Builtins()[k].code + "E"
  }

  predicate InRange(p: Part) {
    match p
    case Id(name) => Identifier(name)
    case Std(k) => k < |Substitutions()|
    case Ctor(d) => d in "123"
    case Dtor(d) => d in "012"
    case Op(k) => k < |Operators()|
    case Cast(k) => k < |Builtins()|
    case Args(k) => k < |Builtins()|
    case _ => true
  }

  function Shown(id: string): string {
    if Anonymous(id) then "(anonymous namespace)" else id
  }

  function Class(id: string): string {
    if Anonymous(id) then "" else id
  }

  /** What a part is printed as, behind a class called `last`. */
  function Word(p: Part, last: string): string
    requires InRange(p)
  {
    match p
    case Id(name) => Shown(name)
    case Std(k) => Substitutions()[k].text
    case Param => "?"
    case Seen => "?"
    case Ctor(_) => last
    case Dtor(_) => "~" + last
    case Op(k) => Operators()[k].text
    case Cast(k) => "operator " + Builtins()[k].text
    case Args(_) => "<>"
  }

  /** The classes that the substitutions abbreviate, without their namespace. */
  function Classes(): seq<string> {
    ["std", "allocator", "basic_string", "string", "istream", "ostream", "iostream"]
  }

  /** The class that a constructor behind this part would be one of; "" if there is none. */
  function After(p: Part, last: string): string
    requires InRange(p)
  {
    match p
    case Id(name) => Class(name)
    case Std(k) => Classes()[k]
    case Ctor(_) => last
    case Dtor(_) => last
    case Args(_) => last
    case _ => ""
  }

  /** Parts that may follow each other: a constructor follows a class, template arguments follow a name. */
  predicate Fitting(parts: seq<Part>, last: string, named: bool) {
    parts == [] ||
    (&& InRange(parts[0])
     && (parts[0].Ctor? || parts[0].Dtor? ==> last != "")
     && (parts[0].Args? ==> named)
     && Fitting(parts[1..], After(parts[0], last), !parts[0].Args?))
  }

  /** The parts of a nested name: first a scope. */
  predicate Nested(parts: seq<Part>) {
    && 0 < |parts| <= 0x7fff
    && (parts[0].Id? || parts[0].Std? || parts[0].Param? || parts[0].Seen?)
    && Fitting(parts, "", false)
  }

  function Codes(parts: seq<Part>): string
    requires forall p :: p in parts ==> InRange(p)
  {
    if parts == [] then "" else Code(parts[0]) + Codes(parts[1..])
  }

  /** Two texts one behind the other, with a space between two '<'. */
  function Joined(t: string, u: string): string {
    if u != "" && u[0] == '<' && t != "" && t[|t| - 1] == '<' then t + " " + u else t + u
  }

  /** The parts printed behind `t`, with "::" between them but not before template arguments. */
  function Printed(parts: seq<Part>, t: string, last: string): (r: string)
    requires forall p :: p in parts ==> InRange(p)
    ensures |r| >= |t|
  {
    if parts == [] then t
    else
      var p := parts[0];
      var t1 := if p.Args? then Joined(t, "<>") else (if t == "" then "" else t + "::") + Word(p, last);
      Printed(parts[1..], t1, After(p, last))
  }

  lemma {:induction false} FittingInRange(parts: seq<Part>, last: string, named: bool)
    requires Fitting(parts, last, named)
    ensures forall p :: p in parts ==> InRange(p)
  {
    if parts != [] { FittingInRange(parts[1..], After(parts[0], last), !parts[0].Args?); }
  }

  // ---------------------------------------------------------------- the tables

  predicate Agree(e: Entry, a: AbbrevPair) {
    SameCode(e, a) && SameText(e, a)
  }

  predicate SameCode(e: Entry, a: AbbrevPair) {
    && |e.code| == 2 && e.code == a.abbrev
    && IsLower(e.code[0]) && IsAlpha(e.code[1]) && e.code != "cv" && e.code[0] != 'v'
  }

  predicate SameText(e: Entry, a: AbbrevPair) {
    && a.realName != ""
    && e.text == "operator" + (if IsLower(a.realName[0]) then " " else "") + a.realName
  }

  lemma ArithmeticCodes(k: nat)
    requires k < |Arithmetic()|
    ensures |Arithmetic()| == |ArithmeticOperators()| == 17 && SameCode(Arithmetic()[k], ArithmeticOperators()[k])
  {
  }

  lemma ArithmeticTexts(k: nat)
    requires k < |Arithmetic()|
    ensures |Arithmetic()| == |ArithmeticOperators()| == 17 && SameText(Arithmetic()[k], ArithmeticOperators()[k])
  {
  }

  lemma AssignmentsCodes(k: nat)
    requires k < |Assignments()|
    ensures |Assignments()| == |AssignmentOperators()| == 13 && SameCode(Assignments()[k], AssignmentOperators()[k])
  {
  }

  lemma AssignmentsTexts(k: nat)
    requires k < |Assignments()|
    ensures |Assignments()| == |AssignmentOperators()| == 13 && SameText(Assignments()[k], AssignmentOperators()[k])
  {
  }

  lemma OthersCodes(k: nat)
    requires k < |Others()|
    ensures |Others()| == |OtherOperators()| == 19 && SameCode(Others()[k], OtherOperators()[k])
  {
  }

  lemma OthersTexts(k: nat)
    requires k < |Others()|
    ensures |Others()| == |OtherOperators()| == 19 && SameText(Others()[k], OtherOperators()[k])
  {
  }

  /** The parser's table of operators holds these codes, in this order, and says these texts. */
  lemma OperatorsAgree(k: nat)
    requires k < |Operators()|
    ensures |Operators()| == |OperatorList()|
    ensures Agree(Operators()[k], OperatorList()[k])
  {
    hide Arithmetic, Assignments, Others, ArithmeticOperators, AssignmentOperators, OtherOperators,
         SameCode, SameText;
    assert |Arithmetic()| == |ArithmeticOperators()| == 17 by { AllThere(); }
    assert |Assignments()| == |AssignmentOperators()| == 13 by { AllThere(); }
    assert |Others()| == |OtherOperators()| == 19 by { AllThere(); }
    if k < 17 {
      ArithmeticCodes(k);
      ArithmeticTexts(k);
    } else if k < 30 {
      AssignmentsCodes(k - 17);
      AssignmentsTexts(k - 17);
    } else {
      OthersCodes(k - 30);
      OthersTexts(k - 30);
    }
  }

  lemma AllThere()
    ensures |Arithmetic()| == |ArithmeticOperators()| == 17
    ensures |Assignments()| == |AssignmentOperators()| == 13
    ensures |Others()| == |OtherOperators()| == 19
  {
  }

  lemma TypesAgree(k: nat)
    requires k < |Builtins()|
    ensures |Builtins()| == |BuiltinTypeList()| == 21
    ensures Builtins()[k].code == BuiltinTypeList()[k].abbrev && Builtins()[k].text == BuiltinTypeList()[k].realName
    ensures |Builtins()[k].code| == 1 && IsLower(Builtins()[k].code[0]) && Builtins()[k].code[0] != 'r'
    ensures Builtins()[k].text != "" && (IsAlpha(Builtins()[k].text[0]) || Builtins()[k].text[0] == '_')
  {
  }

  lemma SubstitutionsAgree(k: nat)
    requires k < |Substitutions()|
    ensures |Substitutions()| == |SubstitutionList()| == |Classes()| == 7
    ensures |Substitutions()[k].code| == 2 && Substitutions()[k].code == SubstitutionList()[k].abbrev
    ensures Substitutions()[k].code[0] == 'S' && IsLower(Substitutions()[k].code[1])
    ensures if SubstitutionList()[k].realName == "" then Substitutions()[k].text == "std" == Classes()[k]
            else
              && Substitutions()[k].text == "std" + "::" + SubstitutionList()[k].realName
              && Classes()[k] == SubstitutionList()[k].realName
              && IsLower(SubstitutionList()[k].realName[0])
  {
  }

  /** The two entries start with the same two characters. */
  predicate Same(e: Entry, f: Entry) {
    At(e.code, 0) == At(f.code, 0) && At(e.code, 1) == At(f.code, 1)
  }

  lemma ArithmeticDiffer(j: nat, k: nat)
    requires j < k < |Arithmetic()|
    ensures !Same(Arithmetic()[j], Arithmetic()[k])
  {
  }

  lemma AssignmentsDiffer(j: nat, k: nat)
    requires j < k < |Assignments()|
    ensures !Same(Assignments()[j], Assignments()[k])
  {
  }

  lemma OthersDiffer(j: nat, k: nat)
    requires j < k < |Others()|
    ensures !Same(Others()[j], Others()[k])
  {
  }

  lemma AssignmentsApart(j: nat, k: nat)
    requires j < |Arithmetic()| && k < |Assignments()|
    ensures !Same(Arithmetic()[j], Assignments()[k])
  {
  }

  lemma OthersApart(j: nat, k: nat)
    requires j < |Arithmetic()| && k < |Others()|
    ensures !Same(Arithmetic()[j], Others()[k])
  {
  }

  lemma AssignmentsAndOthers(j: nat, k: nat)
    requires j < |Assignments()| && k < |Others()|
    ensures !Same(Assignments()[j], Others()[k])
  {
  }

  lemma OperatorsDiffer(j: nat, k: nat)
    requires j < k < |Operators()|
    ensures !Same(Operators()[j], Operators()[k])
  {
    AllThere();
    hide Arithmetic, Assignments, Others, ArithmeticOperators, AssignmentOperators, OtherOperators, Same;
    if k < 17 {
      ArithmeticDiffer(j, k);
    } else if j < 17 && k < 30 {
      AssignmentsApart(j, k - 17);
    } else if j < 17 {
      OthersApart(j, k - 30);
    } else if k < 30 {
      AssignmentsDiffer(j - 17, k - 17);
    } else if j < 30 {
      AssignmentsAndOthers(j - 17, k - 30);
    } else {
      OthersDiffer(j - 30, k - 30);
    }
  }

  lemma TypesDiffer(j: nat, k: nat)
    requires j < k < |Builtins()|
    ensures !Same(Builtins()[j], Builtins()[k])
  {
  }

  lemma SubstitutionsDiffer(j: nat, k: nat)
    requires j < k < |Substitutions()|
    ensures !Same(Substitutions()[j], Substitutions()[k])
  {
  }

  lemma AtPrefix(s: string, i: nat, u: string, j: nat)
    requires StrPrefix(s, i, u) && j < |u|
    ensures At(s, i + j) == u[j]
  {
    assert s[i..i + |u|][j] == u[j];
  }

  lemma PrefixParts(s: string, i: nat, u: string, v: string)
    requires StrPrefix(s, i, u + v)
    ensures StrPrefix(s, i, u) && StrPrefix(s, i + |u|, v)
  {
    assert s[i..i + |u + v|][..|u|] == u;
    assert s[i..i + |u + v|][|u|..] == v;
  }

  lemma FindsOperator(s: string, i: nat, k: nat)
    requires k < |Operators()| && StrPrefix(s, i, Operators()[k].code)
    ensures FirstSpelled(OperatorList(), 0, 2, s, i, 0) == k
  {
    hide OperatorList, Operators;
    OperatorsAgree(k);
    var code := Operators()[k].code;
    AtPrefix(s, i, code, 0);
    AtPrefix(s, i, code, 1);
    var r := FirstSpelled(OperatorList(), 0, 2, s, i, 0);
    assert Spelled(OperatorList()[k], 0, 2, s, i);
    if r < k {
      OperatorsAgree(r);
      OperatorsDiffer(r, k);
    }
  }

  lemma FindsType(s: string, i: nat, k: nat)
    requires k < |Builtins()| && StrPrefix(s, i, Builtins()[k].code)
    ensures FirstSpelled(BuiltinTypeList(), 0, 1, s, i, 0) == k
  {
    hide BuiltinTypeList, Builtins;
    TypesAgree(k);
    AtPrefix(s, i, Builtins()[k].code, 0);
    var r := FirstSpelled(BuiltinTypeList(), 0, 1, s, i, 0);
    assert Spelled(BuiltinTypeList()[k], 0, 1, s, i);
    if r < k {
      TypesAgree(r);
      TypesDiffer(r, k);
    }
  }

  lemma FindsSubstitution(s: string, i: nat, k: nat)
    requires k < |Substitutions()| && StrPrefix(s, i, Substitutions()[k].code)
    ensures FirstSpelled(SubstitutionList(), 1, 1, s, i + 1, 0) == k
  {
    hide SubstitutionList, Substitutions;
    SubstitutionsAgree(k);
    AtPrefix(s, i, Substitutions()[k].code, 1);
    var r := FirstSpelled(SubstitutionList(), 1, 1, s, i + 1, 0);
    assert Spelled(SubstitutionList()[k], 1, 1, s, i + 1);
    if r < k {
      SubstitutionsAgree(r);
      SubstitutionsDiffer(r, k);
    }
  }

  // ---------------------------------------------------------------- lengths

  lemma DigitIs(d: nat)
    requires d < 10
    ensures IsDigit(Digit(d)) && Digit(d) as int - '0' as int == d
  {
  }

  lemma {:induction false} InDecimalDigits(n: nat)
    ensures forall i :: 0 <= i < |InDecimal(n)| ==> IsDigit(InDecimal(n)[i])
  {
    hide Digit;
    DigitIs(n % 10);
    if n >= 10 { InDecimalDigits(n / 10); }
  }

  lemma Shifted(n: nat)
    requires n < 0x8000_0000
    ensures Wrap32(n / 10 * 10 + n % 10) == n
  {
  }

  lemma OneMore(s: string, m: nat, acc: int, d: nat)
    requires m < |s| && d < 10 && s[m] == Digit(d)
    ensures DigitsValue(s, m, acc) == DigitsValue(s, m + 1, Wrap32(acc * 10 + d))
  {
    hide Digit, Wrap32;
    DigitIs(d);
  }

  lemma {:induction false} DecimalRead(s: string, i: nat, m: nat, n: nat)
    requires i < m <= |s| && s[i..m] == InDecimal(n) && n < 0x8000_0000
    ensures DigitsValue(s, i, 0) == DigitsValue(s, m, n)
    decreases n
  {
    hide Digit, Wrap32, DigitsValue;
    assert s[m - 1] == s[i..m][m - i - 1] == Digit(n % 10);
    OneMore(s, m - 1, n / 10, n % 10);
    Shifted(n);
    if n < 10 {
      assert |s[i..m]| == 1;
    } else {
      assert s[i..m - 1] == s[i..m][..m - i - 1] == InDecimal(n / 10);
      DecimalRead(s, i, m - 1, n / 10);
    }
  }

  lemma ScanIs(s: string, k: Digits, i: nat, e: nat)
    requires i <= e && (forall j :: i <= j < e ==> InClass(k, At(s, j))) && !InClass(k, At(s, e))
    ensures ScanEnd(s, k, i) == e
  {
  }

  lemma DigitsEnd(s: string, m: nat, acc: int)
    requires !IsDigit(At(s, m))
    ensures DigitsValue(s, m, acc) == acc
  {
  }

  lemma LengthRead(s: string, i: nat, n: nat)
    requires StrPrefix(s, i, InDecimal(n)) && n < 0x8000_0000 && !IsDigit(At(s, i + |InDecimal(n)|))
    ensures NumberAt(s, i) == Some(Number(n, i + |InDecimal(n)|))
  {
    hide InDecimal, Digit, DigitsValue, StrPrefix;
    var u := InDecimal(n);
    InDecimalDigits(n);
    forall j | i <= j < i + |u| ensures IsDigit(At(s, j)) { AtPrefix(s, i, u, j - i); }
    assert IsDigit(At(s, i));
    ScanIs(s, Decimal, i, i + |u|);
    assert i + |u| <= |s| && s[i..i + |u|] == u by { Unfolded(s, i, u); }
    DecimalRead(s, i, i + |u|, n);
    DigitsEnd(s, i + |u|, n);
  }

  lemma Unfolded(s: string, i: nat, u: string)
    requires StrPrefix(s, i, u)
    ensures i + |u| <= |s| && s[i..i + |u|] == u
  {
  }

  lemma NoNumber(s: string, i: nat)
    requires !IsDigit(At(s, i)) && At(s, i) != 'n'
    ensures NumberAt(s, i) == None
  {
    hide DigitsValue;
    ScanIs(s, Decimal, i, i);
  }

  // ---------------------------------------------------------------- output

  /** The text `t` stands in the buffer and nothing was cut off. */
  predicate Stands(c: Ctx, st: St, t: string) {
    && !st.overflowed
    && st.outCur == |t| < c.cap <= |st.buf|
    && st.buf[..|t|] == t
  }

  predicate Shows(c: Ctx, st: St, t: string) {
    Stands(c, st, t) && st.append && (t != "" ==> st.buf[|t|] == '\0')
  }

  /** The remembered identifier is `last`, unless that is "". */
  predicate Remembers(st: St, t: string, last: string) {
    last == "" ||
    (st.prevLen == |last| && st.prevName + |last| <= |t| && t[st.prevName..st.prevName + |last|] == last)
  }

  /** The state at position i with `t` printed. */
  ghost predicate Is(c: Ctx, st: St, i: nat, t: string, last: string, n: int) {
    Shows(c, st, t) && Remembers(st, t, last) && st.cur == i && st.nest == n
  }

  /** The source holds `u`, as long as `t` stands in the buffer. */
  predicate Gives(src: Source, t: string, u: string) {
    match src
    case Lit(v) => v == u
    case Mem(p) => p + |u| <= |t| && t[p..p + |u|] == u
  }

  lemma GivesAt(src: Source, buf: string, t: string, u: string, i: nat)
    requires Gives(src, t, u) && |t| <= |buf| && buf[..|t|] == t && i < |u|
    ensures SourceAt(src, buf, i) == u[i]
  {
    if src.Mem? { assert buf[src.p + i] == buf[..|t|][src.p + i] == t[src.p..src.p + |u|][i]; }
  }

  lemma GivesStill(src: Source, t: string, u: string, v: string)
    requires Gives(src, t, u)
    ensures Gives(src, t + v, u)
  {
    if src.Mem? { assert (t + v)[src.p..src.p + |u|] == t[src.p..src.p + |u|]; }
  }

  lemma {:induction false} WritesStand(c: Ctx, st: St, src: Source, t: string, u: string, i: nat)
    requires i <= |u| && Stands(c, st, t + u[..i]) && Gives(src, t, u) && |t| + |u| < c.cap
    ensures var st2 := Writes(c, st, src, i, |u|);
            Stands(c, st2, t + u) && st2 == st.(outCur := |t + u|, buf := st2.buf)
    decreases |u| - i
  {
    if i < |u| {
      GivesStill(src, t, u, u[..i]);
      GivesAt(src, st.buf, t + u[..i], u, i);
      var st1 := st.(buf := Put(st.buf, st.outCur, SourceAt(src, st.buf, i)), outCur := st.outCur + 1);
      assert t + u[..i + 1] == (t + u[..i]) + [u[i]];
      assert st1.buf[..|t| + i + 1] == st.buf[..|t| + i] + [u[i]];
      WritesStand(c, st1, src, t, u, i + 1);
    } else {
      assert u[..i] == u;
    }
  }

  lemma AppendedShows(c: Ctx, st: St, src: Source, t: string, u: string)
    requires Shows(c, st, t) && Gives(src, t, u) && u != "" && |t| + |u| < c.cap
    ensures var st2 := Appended(c, st, src, |u|);
            Shows(c, st2, t + u) && st2 == st.(outCur := |t + u|, buf := st2.buf)
  {
    hide Gives, Writes;
    assert t + u[..0] == t;
    WritesStand(c, st, src, t, u, 0);
    var st1 := Writes(c, st, src, 0, |u|);
    assert Put(st1.buf, |t + u|, '\0')[..|t + u|] == st1.buf[..|t + u|];
  }

  predicate StartsWord(u: string) {
    u != "" && (IsAlpha(u[0]) || u[0] == '_')
  }

  lemma SaidShows(c: Ctx, st: St, src: Source, t: string, u: string)
    requires Shows(c, st, t) && Gives(src, t, u) && u != "" && |Joined(t, u)| < c.cap
    ensures var st2 := Said(c, st, src, |u|);
            && Shows(c, st2, Joined(t, u)) && st2.cur == st.cur && st2.nest == st.nest
            && (StartsWord(u) ==> st2.prevName == |Joined(t, u)| - |u| && st2.prevLen == |u|)
            && (!StartsWord(u) ==> st2.prevName == st.prevName && st2.prevLen == st.prevLen)
  {
    hide Gives, Appended;
    GivesAt(src, st.buf, t, u, 0);
    assert t != "" ==> At(st.buf, st.outCur - 1) == st.buf[..|t|][|t| - 1] == t[|t| - 1];
    var apart := u[0] == '<' && t != "" && t[|t| - 1] == '<';
    var st1 := if apart then Appended(c, st, Lit(" "), 1) else st;
    var t1 := if apart then t + " " else t;
    if apart {
      SpaceGiven(t);
      AppendedShows(c, st, Lit(" "), t, " ");
      GivesStill(src, t, u, " ");
    }
    GivesAt(src, st1.buf, t1, u, 0);
    var st2 := if StartsWord(u) then st1.(prevName := st1.outCur, prevLen := |u|) else st1;
    AppendedShows(c, st2, src, t1, u);
  }

  lemma SpaceGiven(t: string)
    ensures Gives(Lit(" "), t, " ")
  {
  }

  lemma LitGiven(t: string, u: string)
    ensures Gives(Lit(u), t, u)
  {
  }

  function Latest(u: string, last: string): string {
    if StartsWord(u) then u else last
  }

  /** Saying a text. */
  lemma Tells(c: Ctx, st: St, i: nat, t: string, last: string, n: int, u: string)
    requires Is(c, st, i, t, last, n) && u != "" && |Joined(t, u)| < c.cap
    ensures Is(c, SaidText(c, st, u), i, Joined(t, u), Latest(u, last), n)
  {
    hide Said, Shows, Gives;
    LitGiven(t, u);
    SaidShows(c, st, Lit(u), t, u);
    RemembersStill(st, SaidText(c, st, u), t, u, last);
  }

  lemma RemembersStill(st: St, st2: St, t: string, u: string, last: string)
    requires Remembers(st, t, last)
    requires StartsWord(u) ==> st2.prevName == |Joined(t, u)| - |u| && st2.prevLen == |u|
    requires !StartsWord(u) ==> st2.prevName == st.prevName && st2.prevLen == st.prevLen
    ensures Remembers(st2, Joined(t, u), Latest(u, last))
  {
    var j := Joined(t, u);
    if StartsWord(u) {
      assert j[|j| - |u|..] == u;
    } else if last != "" {
      assert j[st.prevName..st.prevName + |last|] == t[st.prevName..st.prevName + |last|];
    }
  }

  /** Saying the remembered identifier again. */
  lemma TellsAgain(c: Ctx, st: St, i: nat, t: string, last: string, n: int)
    requires Is(c, st, i, t, last, n) && last != "" && |Joined(t, last)| < c.cap
    ensures Is(c, Said(c, st, Mem(st.prevName), st.prevLen), i, Joined(t, last), last, n)
  {
    hide Said, Shows, Joined;
    SaidShows(c, st, Mem(st.prevName), t, last);
    var st2 := Said(c, st, Mem(st.prevName), st.prevLen);
    RemembersStill(st, st2, t, last, last);
  }

  /** A separator that turns out not to be needed. */
  lemma SeparatorCancelled(c: Ctx, st: St, i: nat, t: string, last: string, n: int)
    requires Is(c, st, i, t, last, n) && n >= 1 && t != "" && |t| + 2 < c.cap
    ensures Is(c, Cancelled(Separated(c, st)), i, t, last, n)
  {
    hide Said, Gives, Remembers;
    LitGiven(t, "::");
    SaidShows(c, st, Lit("::"), t, "::");
    var st1 := Separated(c, st);
    var st2 := Cancelled(st1);
    assert st2.buf[..|t|] == st1.buf[..|t| + 2][..|t|] == t;
    SameMemory(st, st2, t, last);
  }

  lemma SameMemory(st: St, st2: St, t: string, last: string)
    requires Remembers(st, t, last) && st2.prevName == st.prevName && st2.prevLen == st.prevLen
    ensures Remembers(st2, t, last)
  {
  }

  // ---------------------------------------------------------------- where nothing starts

  lemma NoIdent(c: Ctx, st: St)
    requires !IsDigit(At(c.s, st.cur)) && At(c.s, st.cur) != 'n'
    ensures Ran(c, N(SourceName), st, false, st)
  {
    NoNumber(c.s, st.cur);
    SourceNameShape();
    Basic(c, Ident, st);
    hide Ran, Alts, NumberAt;
    Only(c, SourceName, st, false, st);
  }

  lemma MissFirst(c: Ctx, es: seq<Peg>, st: St)
    requires es != [] && Ran(c, es[0], st, false, st)
    ensures Ran(c, Seq(es), st, false, st)
  {
    hide *;
    SeqCons(c, es, st, false, st, false, st);
    RewindSelf(st);
  }

  lemma MoreNameShape()
    ensures Alts(UnqualifiedName)[3] == Seq([N(LocalSourceName), Opt(N(AbiTags))])
    ensures Alts(LocalSourceName) == [Seq([C('L'), N(SourceName), Opt(N(Discriminator))])]
    ensures Alts(UnscopedName)[1] == Seq([CC('S', 't'), Say("std::"), N(UnqualifiedName)])
    ensures Alts(UnscopedTemplateName) == [N(UnscopedName), N(Substitution)]
    ensures Alts(Name) == [N(NestedName), N(LocalName), Seq([N(UnscopedTemplateName), N(TemplateArgs)]),
                           N(UnscopedName)]
    ensures Alts(LocalName)[0].Seq? && Alts(LocalName)[0].es != [] && Alts(LocalName)[0].es[0] == C('Z')
    ensures Alts(LocalName)[1].Seq? && Alts(LocalName)[1].es != [] && Alts(LocalName)[1].es[0] == C('Z')
    ensures |Alts(LocalName)| == 2
  {
  }

  lemma NoLocalSource(c: Ctx, st: St)
    requires At(c.s, st.cur) != 'L'
    ensures Ran(c, N(LocalSourceName), st, false, st)
  {
    hide *;
    MoreNameShape();
    NoToken(c, 'L', Alts(LocalSourceName)[0].es, st);
    NoneFits(c, LocalSourceName, st);
  }

  /** No name, type or argument starts with such a character. */
  predicate Dull(ch: char) {
    ch == 'E' || ch == 'I' || ch == '\0' || ch == '.' || ch == '@'
  }

  lemma NoUnqualified(c: Ctx, st: St)
    requires Dull(At(c.s, st.cur))
    ensures Ran(c, N(UnqualifiedName), st, false, st)
  {
    hide Ran, Alts, Step, FirstSpelled;
    NameShape();
    MoreNameShape();
    NoOperator(c, st);
    NoCtorDtor(c, st);
    NoIdent(c, st);
    NoLocalSource(c, st);
    MissFirst(c, [N(SourceName), Opt(N(AbiTags))], st);
    MissFirst(c, [N(LocalSourceName), Opt(N(AbiTags))], st);
    NoneFits(c, UnqualifiedName, st);
  }

  lemma NoUnscoped(c: Ctx, st: St)
    requires Dull(At(c.s, st.cur))
    ensures Ran(c, N(UnscopedName), st, false, st)
  {
    hide Ran, Alts, Step;
    NameShape();
    MoreNameShape();
    NoUnqualified(c, st);
    NoTwoTokens(c, 'S', 't', Alts(UnscopedName)[1].es, st);
    NoneFits(c, UnscopedName, st);
  }

  lemma NoComponent(c: Ctx, st: St)
    requires Dull(At(c.s, st.cur))
    ensures Ran(c, Component(), st, false, st)
  {
    hide Ran, Alts, Step, Component;
    NoParameter(c, st);
    NoSubstitution(c, st);
    NoUnscoped(c, st);
    ComponentRun(c, st, false, st, false, st, false, st);
  }

  lemma NoName(c: Ctx, st: St)
    requires Dull(At(c.s, st.cur))
    ensures Ran(c, N(Name), st, false, st)
  {
    hide Ran, Alts, Step;
    MoreNameShape();
    NoNested(c, st);
    NoLocal(c, st);
    NoUnscoped(c, st);
    NoSubstitution(c, st);
    NoneFits(c, UnscopedTemplateName, st);
    MissFirst(c, [N(UnscopedTemplateName), N(TemplateArgs)], st);
    NoneFits(c, Name, st);
  }

  lemma NoNested(c: Ctx, st: St)
    requires At(c.s, st.cur) != 'N'
    ensures Ran(c, N(NestedName), st, false, st)
  {
    hide *;
    NestedStart();
    NoToken(c, 'N', Alts(NestedName)[0].es, st);
    NoneFits(c, NestedName, st);
  }

  lemma NoLocal(c: Ctx, st: St)
    requires At(c.s, st.cur) != 'Z'
    ensures Ran(c, N(LocalName), st, false, st)
  {
    hide *;
    MoreNameShape();
    NoToken(c, 'Z', Alts(LocalName)[0].es, st);
    NoToken(c, 'Z', Alts(LocalName)[1].es, st);
    NoneFits(c, LocalName, st);
  }

  lemma NoArguments(c: Ctx, st: St)
    requires At(c.s, st.cur) != 'I'
    ensures Ran(c, N(TemplateArgs), st, false, st)
  {
    hide Ran, Alts, Step;
    TemplateArgsShape();
    var quiet := st.(append := false);
    var es := [C('I'), N(TemplateArg), Star(N(TemplateArg)), C('E')];
    NoToken(c, 'I', es, quiet);
    QuietRun(c, Seq(es), st, false, quiet);
    MissFirst(c, [Quiet(Seq(es)), Say("<>")], st);
    NoneFits(c, TemplateArgs, st);
  }

  lemma NoQualifier(c: Ctx, st: St)
    requires At(c.s, st.cur) !in "rVK"
    ensures Ran(c, N(CVQualifiers), st, false, st)
  {
    hide Ran, Alts, Step;
    TokenRun(c, 'r', st);
    TokenRun(c, 'V', st);
    TokenRun(c, 'K', st);
    CVQualifiersRun(c, st, false, st, false, st, false, st);
  }

  lemma TypeStarts()
    ensures |Alts(Type)| == 13
    ensures Alts(Type)[0] == Seq([N(CVQualifiers), N(Type)]) && Alts(Type)[1] == Seq([OneOf("OPRCG"), N(Type)])
    ensures Alts(Type)[2] == Seq([CC('D', 'p'), N(Type)])
    ensures Alts(Type)[3] == Seq([C('D'), OneOf("tT"), N(Expression), C('E')])
    ensures Alts(Type)[4] == Seq([C('U'), N(SourceName), N(Type)])
    ensures Alts(Type)[11] == Seq([N(TemplateTemplateParam), N(TemplateArgs)])
  {
  }

  lemma OtherTypeStarts()
    ensures Alts(BuiltinType) == [Builtin, Seq([C('u'), N(SourceName)])]
    ensures Alts(FunctionType) == [Seq([C('F'), Opt(C('Y')), N(BareFunctionType), C('E')])]
    ensures Alts(ClassEnumType) == [N(Name)]
    ensures Alts(ArrayType) == [Seq([C('A'), Num, C('_'), N(Type)]), Seq([C('A'), Opt(N(Expression)), C('_'), N(Type)])]
    ensures Alts(PointerToMemberType) == [Seq([C('M'), N(Type), N(Type)])]
    ensures Alts(TemplateTemplateParam) == [N(TemplateParam), N(Substitution)]
  {
  }

  lemma AllTypesThere()
    ensures |Builtins()| == |BuiltinTypeList()| == 21
  {
  }

  lemma NoBuiltin(c: Ctx, st: St)
    requires Dull(At(c.s, st.cur))
    ensures Ran(c, N(BuiltinType), st, false, st)
  {
    hide Ran, Alts, Step, BuiltinTypeList, Builtins;
    OtherTypeStarts();
    var k := FirstSpelled(BuiltinTypeList(), 0, 1, c.s, st.cur, 0);
    AllTypesThere();
    if k < |BuiltinTypeList()| { TypesAgree(k); }
    BuiltinRun(c, st, k);
    NoToken(c, 'u', Alts(BuiltinType)[1].es, st);
    NoneFits(c, BuiltinType, st);
  }

  /** What may come before a builtin type is not there. */
  lemma NoModifier(c: Ctx, st: St)
    requires At(c.s, st.cur) !in "rVKOPRCGDU"
    ensures forall k :: 0 <= k < 5 ==> Ran(c, Alts(Type)[k], st, false, st)
  {
    hide Ran, Alts, Step;
    TypeStarts();
    NoQualifier(c, st);
    MissFirst(c, [N(CVQualifiers), N(Type)], st);
    EitherTokenRun(c, "OPRCG", st);
    MissFirst(c, [OneOf("OPRCG"), N(Type)], st);
    NoTwoTokens(c, 'D', 'p', Alts(Type)[2].es, st);
    NoToken(c, 'D', Alts(Type)[3].es, st);
    NoToken(c, 'U', Alts(Type)[4].es, st);
  }

  lemma NoCompoundType(c: Ctx, st: St)
    requires Dull(At(c.s, st.cur))
    ensures Ran(c, N(FunctionType), st, false, st) && Ran(c, N(ClassEnumType), st, false, st)
    ensures Ran(c, N(ArrayType), st, false, st) && Ran(c, N(PointerToMemberType), st, false, st)
    ensures Ran(c, N(TemplateTemplateParam), st, false, st)
  {
    hide Ran, Alts, Step;
    OtherTypeStarts();
    NoToken(c, 'F', Alts(FunctionType)[0].es, st);
    NoneFits(c, FunctionType, st);
    NoName(c, st);
    NoneFits(c, ClassEnumType, st);
    NoToken(c, 'A', Alts(ArrayType)[0].es, st);
    NoToken(c, 'A', Alts(ArrayType)[1].es, st);
    NoneFits(c, ArrayType, st);
    NoToken(c, 'M', Alts(PointerToMemberType)[0].es, st);
    NoneFits(c, PointerToMemberType, st);
    NoParameter(c, st);
    NoSubstitution(c, st);
    NoneFits(c, TemplateTemplateParam, st);
  }

  lemma NoType(c: Ctx, st: St)
    requires Dull(At(c.s, st.cur))
    ensures Ran(c, N(Type), st, false, st)
  {
    hide Ran, Alts, Step;
    TypeStarts();
    TypeShape();
    NoModifier(c, st);
    NoBuiltin(c, st);
    NoCompoundType(c, st);
    NoParameter(c, st);
    NoSubstitution(c, st);
    MissFirst(c, [N(TemplateTemplateParam), N(TemplateArgs)], st);
    NoneFits(c, Type, st);
  }

  lemma ArgumentStarts()
    ensures Alts(TemplateArg) == [Seq([OneOf("IJ"), Star(N(TemplateArg)), C('E')]), N(Type), N(ExprPrimary),
                                  Seq([C('X'), N(Expression), C('E')])]
    ensures |Alts(ExprPrimary)| == 4
    ensures forall k :: 0 <= k < 3 ==>
              Alts(ExprPrimary)[k].Seq? && Alts(ExprPrimary)[k].es != [] && Alts(ExprPrimary)[k].es[0] == C('L')
    ensures Alts(ExprPrimary)[3] == Seq([CC('L', 'Z'), N(Encoding), C('E')])
  {
  }

  lemma NoArgument(c: Ctx, st: St)
    requires At(c.s, st.cur) == 'E'
    ensures Ran(c, N(TemplateArg), st, false, st)
  {
    hide Ran, Alts, Step;
    ArgumentStarts();
    EitherTokenRun(c, "IJ", st);
    MissFirst(c, [OneOf("IJ"), Star(N(TemplateArg)), C('E')], st);
    NoType(c, st);
    NoToken(c, 'L', Alts(ExprPrimary)[0].es, st);
    NoToken(c, 'L', Alts(ExprPrimary)[1].es, st);
    NoToken(c, 'L', Alts(ExprPrimary)[2].es, st);
    NoTwoTokens(c, 'L', 'Z', Alts(ExprPrimary)[3].es, st);
    NoneFits(c, ExprPrimary, st);
    NoToken(c, 'X', Alts(TemplateArg)[3].es, st);
    NoneFits(c, TemplateArg, st);
  }

  // ---------------------------------------------------------------- parts that are there

  lemma IdentifierStart(c: Ctx, i: nat, id: string)
    requires Identifier(id) && StrPrefix(c.s, i, InDecimal(|id|) + id)
    ensures IsDigit(At(c.s, i))
    ensures NumberAt(c.s, i) == Some(Number(|id|, i + |InDecimal(|id|)|))
    ensures StrPrefix(c.s, i + |InDecimal(|id|)|, id)
  {
    hide InDecimal, Digit, NumberAt, IsDigit;
    var u := InDecimal(|id|);
    PrefixParts(c.s, i, u, id);
    AtPrefix(c.s, i, u, 0);
    InDecimalDigits(|id|);
    AtPrefix(c.s, i + |u|, id, 0);
    LengthRead(c.s, i, |id|);
  }

  lemma Identifies(c: Ctx, st: St, e: nat, t: string, last: string, n: int, id: string)
    requires Is(c, st, e, t, last, n) && Identifier(id) && StrPrefix(c.s, e, id) && |t + Shown(id)| < c.cap
    ensures Is(c, Identified(c, st, e, |id|), e, t + Shown(id), Class(id), n)
  {
    hide Is, Said, StrPrefix;
    SameStart(c.s, e, id);
    Unfolded(c.s, e, id);
    if Anonymous(id) {
      hide Anonymous;
      Forgets(c, st, e, t, last, n);
      TellsOn(c, st, e, t, n, "(anonymous namespace)");
    } else {
      hide Anonymous;
      Tells(c, st, e, t, last, n, id);
    }
  }

  lemma Forgets(c: Ctx, st: St, i: nat, t: string, last: string, n: int)
    requires Is(c, st, i, t, last, n)
    ensures Is(c, st, i, t, "", n)
  {
  }

  lemma SameStart(s: string, e: nat, id: string)
    requires StrPrefix(s, e, id)
    ensures |id| > |AnonPrefix| && StrPrefix(s, e, AnonPrefix) <==> Anonymous(id)
  {
    if |id| > 11 {
      var whole := s[e..e + |id|];
      assert s[e..e + 11] == whole[..11];
    }
  }

  lemma NameRead(c: Ctx, st: St, i: nat, t: string, last: string, n: int, id: string) returns (st2: St)
    requires Is(c, st, i, t, last, n) && Identifier(id) && StrPrefix(c.s, i, IdCode(id))
    requires |t + Shown(id)| < c.cap && i + |IdCode(id)| < |c.s|
    ensures Ran(c, N(SourceName), st, true, st2)
    ensures Is(c, st2, i + |IdCode(id)|, t + Shown(id), Class(id), n)
  {
    hide InDecimal, Identified, Ran, Alts, NumberAt, Shown, Class;
    IdentifierStart(c, i, id);
    var e := i + |InDecimal(|id|)|;
    var st1 := st.(cur := e);
    Moved(c, st, i, t, last, n, e);
    Identifies(c, st1, e, t, last, n, id);
    st2 := Identified(c, st1, e, |id|).(cur := e + |id|);
    Moved(c, Identified(c, st1, e, |id|), e, t + Shown(id), Class(id), n, e + |id|);
    SourceNameShape();
    IdentThere(c, st, |id|, e);
    Only(c, SourceName, st, true, st2);
  }

  lemma Moved(c: Ctx, st: St, i: nat, t: string, last: string, n: int, j: nat)
    requires Is(c, st, i, t, last, n)
    ensures Is(c, st.(cur := j), j, t, last, n)
  {
  }

  lemma IdentThere(c: Ctx, st: St, n: nat, e: nat)
    requires NumberAt(c.s, st.cur) == Some(Number(n, e)) && e + n < |c.s|
    ensures Ran(c, Ident, st, true, Identified(c, st.(cur := e), e, n).(cur := e + n))
  {
    hide Ran, Alts, Identified, NumberAt;
    Basic(c, Ident, st);
  }

  /** The entries of a component, in the form in which they are used. */
  lemma UnscopedRun(c: Ctx, st: St, st2: St)
    requires At(c.s, st.cur) != 'T' && At(c.s, st.cur) != 'S'
    requires Ran(c, N(UnqualifiedName), st, true, st2)
    ensures Ran(c, N(UnscopedName), st, true, st2) && Ran(c, Component(), st, true, st2)
  {
    hide *;
    NameShape();
    NoneTried(c, UnscopedName, st);
    Hit(c, UnscopedName, 0, st, st, st2);
    NoParameter(c, st);
    NoSubstitution(c, st);
    ComponentRun(c, st, false, st, false, st, true, st2);
  }

  lemma OperatorRun(c: Ctx, st: St, st2: St)
    requires Ran(c, N(OperatorName), st, true, st2)
    ensures Ran(c, N(UnqualifiedName), st, true, st2)
  {
    hide *;
    NameShape();
    NoneTried(c, UnqualifiedName, st);
    Hit(c, UnqualifiedName, 0, st, st, st2);
  }

  lemma SpecialRun(c: Ctx, st: St, st2: St)
    requires Ran(c, N(OperatorName), st, false, st) && Ran(c, N(CtorDtorName), st, true, st2)
    ensures Ran(c, N(UnqualifiedName), st, true, st2)
  {
    hide *;
    NameShape();
    NoneTried(c, UnqualifiedName, st);
    Miss(c, UnqualifiedName, 0, st, st, st);
    Hit(c, UnqualifiedName, 1, st, st, st2);
  }

  lemma IdRead(c: Ctx, st: St, i: nat, t: string, last: string, n: int, id: string) returns (st2: St)
    requires Is(c, st, i, t, last, n) && Identifier(id) && StrPrefix(c.s, i, IdCode(id))
    requires |t + Shown(id)| < c.cap && i + |IdCode(id)| < |c.s| && At(c.s, i + |IdCode(id)|) != 'B'
    ensures Ran(c, N(UnqualifiedName), st, true, st2) && At(c.s, i) != 'T' && At(c.s, i) != 'S'
    ensures Is(c, st2, i + |IdCode(id)|, t + Shown(id), Class(id), n)
  {
    hide InDecimal, Ran, Alts, NumberAt, Shown, Class, Shows, Remembers, Identifier, StrPrefix;
    IdentifierStart(c, i, id);
    st2 := NameRead(c, st, i, t, last, n, id);
    NameShape();
    NoOperator(c, st);
    NoCtorDtor(c, st);
    NoTags(c, st2);
    OptRun(c, N(AbiTags), st2, false, st2);
    Seq2(c, [N(SourceName), Opt(N(AbiTags))], st, true, st2, true, st2);
    NoneTried(c, UnqualifiedName, st);
    Miss(c, UnqualifiedName, 0, st, st, st);
    Miss(c, UnqualifiedName, 1, st, st, st);
    Hit(c, UnqualifiedName, 2, st, st, st2);
  }

  lemma TwoTokenHit(c: Ctx, c0: char, c1: char, st: St)
    requires At(c.s, st.cur) == c0 && At(c.s, st.cur + 1) == c1
    ensures Ran(c, CC(c0, c1), st, true, st.(cur := st.cur + 2))
  {
    hide Ran, Alts;
    Basic(c, CC(c0, c1), st);
  }

  /** Saying a text whose first character needs no space before it, when the class is of no interest. */
  lemma TellsOn(c: Ctx, st: St, i: nat, t: string, n: int, u: string)
    requires Is(c, st, i, t, "", n) && u != "" && |t + u| < c.cap
    requires u[0] == '<' ==> t == "" || t[|t| - 1] != '<'
    ensures Is(c, SaidText(c, st, u), i, t + u, "", n)
  {
    hide Is, SaidText, StartsWord;
    Tells(c, st, i, t, "", n, u);
    Forgets(c, SaidText(c, st, u), i, t + u, Latest(u, ""), n);
  }

  lemma OperTells(c: Ctx, st: St, i: nat, t: string, n: int, name: string)
    requires Is(c, st, i, t, "", n) && name != ""
    requires |t| + |"operator"| + (if IsLower(name[0]) then 1 else 0) + |name| < c.cap
    ensures Is(c, SaidOper(c, st, name), i, t + "operator" + (if IsLower(name[0]) then " " else "") + name, "", n)
  {
    hide Is, SaidText, IsLower;
    TellsOn(c, st, i, t, n, "operator");
    var st1 := SaidText(c, st, "operator");
    var t1 := t + "operator";
    assert t1[|t1| - 1] == 'r';
    if IsLower(name[0]) {
      TellsOn(c, st1, i, t1, n, " ");
      var t2 := t1 + " ";
      assert t2[|t2| - 1] == ' ';
      TellsOn(c, SaidText(c, st1, " "), i, t2, n, name);
    } else {
      assert t1 + "" == t1;
      TellsOn(c, st1, i, t1, n, name);
    }
  }

  lemma Regroup(t: string, u: string, v: string, w: string)
    ensures t + u + v + w == t + (u + v + w)
  {
  }

  lemma OpTells(c: Ctx, st: St, i: nat, t: string, last: string, n: int, e: Entry, a: AbbrevPair)
    requires Is(c, st, i, t, last, n) && Agree(e, a) && |t + e.text| < c.cap
    ensures Is(c, SaidOper(c, st, a.realName), i, t + e.text, "", n)
  {
    hide Is, SaidOper, IsAlpha, IsLower;
    Forgets(c, st, i, t, last, n);
    Regroup(t, "operator", if IsLower(a.realName[0]) then " " else "", a.realName);
    OperTells(c, st, i, t, n, a.realName);
  }

  lemma OpRead(c: Ctx, st: St, i: nat, t: string, last: string, n: int, k: nat) returns (st2: St)
    requires Is(c, st, i, t, last, n) && k < |Operators()| && StrPrefix(c.s, i, Operators()[k].code)
    requires |t + Operators()[k].text| < c.cap
    ensures Ran(c, N(OperatorName), st, true, st2)
    ensures Ran(c, N(UnqualifiedName), st, true, st2) && At(c.s, i) != 'T' && At(c.s, i) != 'S'
    ensures Is(c, st2, i + |Operators()[k].code|, t + Operators()[k].text, "", n)
  {
    hide Ran, Alts, Shows, Remembers, StrPrefix, Operators, OperatorList, SaidOper, FirstSpelled;
    OperatorsAgree(k);
    var code := Operators()[k].code;
    AtPrefix(c.s, i, code, 0);
    AtPrefix(c.s, i, code, 1);
    FindsOperator(c.s, i, k);
    OperRun(c, st, k);
    OpTells(c, st, i, t, last, n, Operators()[k], OperatorList()[k]);
    var st1 := SaidOper(c, st, OperatorList()[k].realName);
    st2 := st1.(cur := i + 2);
    Moved(c, st1, i, t + Operators()[k].text, "", n, i + 2);
    NotACast(c, st);
    Hit(c, OperatorName, 2, st, st, st2);
    OperatorRun(c, st, st2);
  }

  /** Neither a cast nor a vendor's operator. */
  lemma NotACast(c: Ctx, st: St)
    requires At(c.s, st.cur) != 'v' && !(At(c.s, st.cur) == 'c' && At(c.s, st.cur + 1) == 'v')
    ensures Tried(c, OperatorName, 2, st, st) && Alts(OperatorName)[2] == Oper && |Alts(OperatorName)| == 3
  {
    hide *;
    OperatorShape();
    TwoTokenMiss(c, 'c', 'v', st);
    MissFirst(c, [CC('c', 'v'), Say("operator "), Nest(N(Type))], st);
    NoToken(c, 'v', Alts(OperatorName)[1].es, st);
    NoneTried(c, OperatorName, st);
    Miss(c, OperatorName, 0, st, st, st);
    Miss(c, OperatorName, 1, st, st, st);
  }

  lemma Renested(c: Ctx, st: St, i: nat, t: string, last: string, n: int, m: int)
    requires Is(c, st, i, t, last, n)
    ensures Is(c, st.(nest := m), i, t, last, m)
  {
  }

  lemma BuiltinThere(c: Ctx, st: St, k: nat)
    requires k < |Builtins()| && StrPrefix(c.s, st.cur, Builtins()[k].code)
    ensures IsLower(At(c.s, st.cur)) && At(c.s, st.cur) != 'r'
    ensures Ran(c, N(BuiltinType), st, true, SaidText(c, st, Builtins()[k].text).(cur := st.cur + 1))
  {
    hide Ran, Alts, Step, BuiltinTypeList, Builtins, SaidText, FirstSpelled, StrPrefix;
    TypesAgree(k);
    AtPrefix(c.s, st.cur, Builtins()[k].code, 0);
    FindsType(c.s, st.cur, k);
    BuiltinRun(c, st, k);
    OtherTypeStarts();
    NoneTried(c, BuiltinType, st);
    Hit(c, BuiltinType, 0, st, st, SaidText(c, st, Builtins()[k].text).(cur := st.cur + 1));
  }

  lemma {:induction false} AllTried(c: Ctx, nt: NT, m: nat, st: St)
    requires m <= |Alts(nt)| && forall k :: 0 <= k < m ==> Ran(c, Alts(nt)[k], st, false, st)
    ensures Tried(c, nt, m, st, st)
  {
    hide *;
    if m == 0 {
      NoneTried(c, nt, st);
    } else {
      AllTried(c, nt, m - 1, st);
      Miss(c, nt, m - 1, st, st, st);
    }
  }

  lemma ModifiersTried(c: Ctx, st: St)
    requires At(c.s, st.cur) !in "rVKOPRCGDU"
    ensures Tried(c, Type, 5, st, st)
  {
    hide *;
    NoModifier(c, st);
    TypeShape();
    AllTried(c, Type, 5, st);
  }

  /** A builtin type, with output on or off. */
  lemma TypeThere(c: Ctx, st: St, k: nat)
    requires k < |Builtins()| && StrPrefix(c.s, st.cur, Builtins()[k].code)
    ensures |Builtins()[k].code| == 1
    ensures Ran(c, N(Type), st, true, SaidText(c, st, Builtins()[k].text).(cur := st.cur + 1))
  {
    hide Ran, Alts, Tried, Step, BuiltinTypeList, Builtins, SaidText, FirstSpelled, StrPrefix;
    TypesAgree(k);
    BuiltinThere(c, st, k);
    ModifiersTried(c, st);
    TypeShape();
    Hit(c, Type, 5, st, st, SaidText(c, st, Builtins()[k].text).(cur := st.cur + 1));
  }

  lemma TypeTells(c: Ctx, st: St, i: nat, t: string, n: int, k: nat)
    requires Is(c, st, i, t, "", n) && k < |Builtins()| && |t + Builtins()[k].text| < c.cap
    ensures Is(c, SaidText(c, st, Builtins()[k].text), i, t + Builtins()[k].text, "", n)
  {
    hide Builtins, SaidText, Is;
    TypesAgree(k);
    TellsOn(c, st, i, t, n, Builtins()[k].text);
  }

  lemma CastRead(c: Ctx, st: St, i: nat, t: string, last: string, n: int, k: nat) returns (st2: St)
    requires Is(c, st, i, t, last, n) && k < |Builtins()| && StrPrefix(c.s, i, "cv" + Builtins()[k].code)
    requires |t| + |"operator "| + |Builtins()[k].text| < c.cap
    ensures |Builtins()[k].code| == 1
    ensures Ran(c, N(UnqualifiedName), st, true, st2) && At(c.s, i) == 'c'
    ensures Is(c, st2, i + 3, t + "operator " + Builtins()[k].text, "", n)
  {
    hide Ran, Alts, Step, Builtins, SaidText, StrPrefix, Shows, Remembers;
    PrefixParts(c.s, i, "cv", Builtins()[k].code);
    AtPrefix(c.s, i, "cv", 0);
    AtPrefix(c.s, i, "cv", 1);
    TwoTokenHit(c, 'c', 'v', st);
    var st1 := st.(cur := i + 2);
    Forgets(c, st, i, t, last, n);
    Moved(c, st, i, t, "", n, i + 2);
    var t2 := t + "operator ";
    TellsOn(c, st1, i + 2, t, n, "operator ");
    SayRun(c, st1, "operator ");
    var s2 := SaidText(c, st1, "operator ");
    Renested(c, s2, i + 2, t2, "", n, 0);
    var inner := s2.(nest := 0);
    TypeThere(c, inner, k);
    TypeTells(c, inner, i + 2, t2, 0, k);
    var text := Builtins()[k].text;
    var s3 := SaidText(c, inner, text);
    Moved(c, s3, i + 2, t2 + text, "", 0, i + 3);
    var s4 := s3.(cur := i + 3);
    NestRun(c, N(Type), s2, true, s4);
    Renested(c, s4, i + 3, t2 + text, "", 0, n);
    st2 := s4.(nest := n);
    Seq3(c, [CC('c', 'v'), Say("operator "), Nest(N(Type))], st, true, st1, true, s2, true, st2);
    OperatorShape();
    NoneTried(c, OperatorName, st);
    Hit(c, OperatorName, 0, st, st, st2);
    OperatorRun(c, st, st2);
  }

  lemma CtorRead(c: Ctx, st: St, i: nat, t: string, last: string, n: int, d: char) returns (st2: St)
    requires Is(c, st, i, t, last, n) && d in "123" && last != "" && last[0] != '<' && StrPrefix(c.s, i, ['C', d])
    requires |t + last| < c.cap
    ensures Ran(c, N(UnqualifiedName), st, true, st2) && At(c.s, i) == 'C'
    ensures Is(c, st2, i + 2, t + last, last, n)
  {
    hide Ran, Alts, Step, Said, StrPrefix, Shows, Remembers;
    AtPrefix(c.s, i, ['C', d], 0);
    AtPrefix(c.s, i, ['C', d], 1);
    TokenRun(c, 'C', st);
    var st1 := st.(cur := i + 1);
    EitherTokenRun(c, "123", st1);
    var s2 := st1.(cur := i + 2);
    Moved(c, st, i, t, last, n, i + 2);
    TellsAgain(c, s2, i + 2, t, last, n);
    PrevRun(c, s2);
    st2 := Said(c, s2, Mem(s2.prevName), s2.prevLen);
    Seq3(c, [C('C'), OneOf("123"), Prev], st, true, st1, true, s2, true, st2);
    CtorDtorShape();
    NoneTried(c, CtorDtorName, st);
    Hit(c, CtorDtorName, 0, st, st, st2);
    NoOperator(c, st);
    SpecialRun(c, st, st2);
  }

  lemma DtorRead(c: Ctx, st: St, i: nat, t: string, last: string, n: int, d: char) returns (st2: St)
    requires Is(c, st, i, t, last, n) && d in "012" && last != "" && last[0] != '<' && StrPrefix(c.s, i, ['D', d])
    requires |t| + 1 + |last| < c.cap
    ensures Ran(c, N(UnqualifiedName), st, true, st2) && At(c.s, i) == 'D'
    ensures Is(c, st2, i + 2, t + "~" + last, last, n)
  {
    hide Ran, Alts, Step, Said, StrPrefix, Shows, Remembers;
    AtPrefix(c.s, i, ['D', d], 0);
    AtPrefix(c.s, i, ['D', d], 1);
    TokenRun(c, 'D', st);
    var st1 := st.(cur := i + 1);
    EitherTokenRun(c, "012", st1);
    var s2 := st1.(cur := i + 2);
    Moved(c, st, i, t, last, n, i + 2);
    Tells(c, s2, i + 2, t, last, n, "~");
    SayRun(c, s2, "~");
    var s3 := SaidText(c, s2, "~");
    TellsAgain(c, s3, i + 2, t + "~", last, n);
    PrevRun(c, s3);
    st2 := Said(c, s3, Mem(s3.prevName), s3.prevLen);
    CtorDtorShape();
    Seq4(c, [C('D'), OneOf("012"), Say("~"), Prev], st, true, st1, true, s2, true, s3, true, st2);
    NoneTried(c, CtorDtorName, st);
    NoToken(c, 'C', [C('C'), OneOf("123"), Prev], st);
    Miss(c, CtorDtorName, 0, st, st, st);
    Hit(c, CtorDtorName, 1, st, st, st2);
    NoOperator(c, st);
    SpecialRun(c, st, st2);
  }

  lemma AbbrevTells(c: Ctx, st: St, i: nat, t: string, last: string, n: int, name: string)
    requires Is(c, st, i, t, last, n) && |t| + (if name == "" then 3 else 5 + |name|) < c.cap
    requires name != "" ==> IsLower(name[0])
    ensures Is(c, SaidAbbrev(c, st, name), i, if name == "" then t + "std" else t + "std" + "::" + name,
               if name == "" then "std" else name, n)
  {
    hide Is, Said;
    Tells(c, st, i, t, last, n, "std");
    if name != "" {
      Tells(c, SaidText(c, st, "std"), i, t + "std", "std", n, "::");
      var t2 := t + "std" + "::";
      assert t2[|t2| - 1] == ':';
      Tells(c, SaidText(c, SaidText(c, st, "std"), "::"), i, t2, "std", n, name);
    }
  }

  lemma StdTells(c: Ctx, st: St, i: nat, t: string, last: string, n: int, k: nat)
    requires Is(c, st, i, t, last, n) && k < |Substitutions()| && |t + Substitutions()[k].text| < c.cap
    ensures k < |SubstitutionList()| && k < |Classes()|
    ensures Is(c, SaidAbbrev(c, st, SubstitutionList()[k].realName), i, t + Substitutions()[k].text, Classes()[k], n)
  {
    hide Is, SaidAbbrev, SubstitutionList, Substitutions, Classes, IsLower;
    SubstitutionsAgree(k);
    var name := SubstitutionList()[k].realName;
    AbbrevTells(c, st, i, t, last, n, name);
    Regroup(t, "std", "::", name);
  }

  /** A substitution read as a component. */
  lemma SubstitutionRun(c: Ctx, st: St, st2: St)
    requires At(c.s, st.cur) == 'S' && Ran(c, N(Substitution), st, true, st2)
    ensures Ran(c, Component(), st, true, st2)
  {
    hide *;
    NoParameter(c, st);
    ComponentRun(c, st, false, st, true, st2, true, st2);
  }

  lemma NoSeqId(c: Ctx, st: St)
    requires IsLower(At(c.s, st.cur))
    ensures Ran(c, SeqId, st, false, st)
  {
    hide Ran, Alts;
    ScanIs(c.s, Base36, st.cur, st.cur);
    SeqIdRun(c, st);
  }

  lemma NotSeen(c: Ctx, st: St)
    requires At(c.s, st.cur) == 'S' && IsLower(At(c.s, st.cur + 1))
    ensures Tried(c, Substitution, 2, st, st)
  {
    hide Ran, Tried, Alts, Step;
    SubstitutionStart();
    TwoTokenMiss(c, 'S', '_', st);
    MissFirst(c, [CC('S', '_'), Say("?")], st);
    TokenRun(c, 'S', st);
    var st1 := st.(cur := st.cur + 1);
    NoSeqId(c, st1);
    Seq4(c, [C('S'), SeqId, C('_'), Say("?")], st, true, st1, false, st1, false, st1, false, st1);
    assert Rewind(st, st1) == st;
    AllTried(c, Substitution, 2, st);
  }

  lemma StdRead(c: Ctx, st: St, i: nat, t: string, last: string, n: int, k: nat) returns (st2: St)
    requires Is(c, st, i, t, last, n) && k < |Substitutions()| && StrPrefix(c.s, i, Substitutions()[k].code)
    requires |t + Substitutions()[k].text| < c.cap
    ensures |Substitutions()[k].code| == 2 && k < |Classes()|
    ensures Ran(c, Component(), st, true, st2)
    ensures Is(c, st2, i + 2, t + Substitutions()[k].text, Classes()[k], n)
  {
    hide Ran, Tried, Alts, Step, SaidAbbrev, StrPrefix, Shows, Remembers, SubstitutionList, Substitutions, Classes,
         FirstSpelled, IsLower;
    SubstitutionsAgree(k);
    var code := Substitutions()[k].code;
    AtPrefix(c.s, i, code, 0);
    AtPrefix(c.s, i, code, 1);
    TokenRun(c, 'S', st);
    var st1 := st.(cur := i + 1);
    FindsSubstitution(c.s, i, k);
    AbbrevRun(c, st1, k);
    Moved(c, st, i, t, last, n, i + 1);
    StdTells(c, st1, i + 1, t, last, n, k);
    var s2 := SaidAbbrev(c, st1, SubstitutionList()[k].realName);
    st2 := s2.(cur := i + 2);
    Moved(c, s2, i + 1, t + Substitutions()[k].text, Classes()[k], n, i + 2);
    Seq2(c, [C('S'), Abbrev], st, true, st1, true, st2);
    NotSeen(c, st);
    SubstitutionStart();
    Hit(c, Substitution, 2, st, st, st2);
    SubstitutionRun(c, st, st2);
  }

  lemma SeenRead(c: Ctx, st: St, i: nat, t: string, last: string, n: int) returns (st2: St)
    requires Is(c, st, i, t, last, n) && StrPrefix(c.s, i, "S_") && |t + "?"| < c.cap
    ensures Ran(c, Component(), st, true, st2) && Is(c, st2, i + 2, t + "?", "", n)
  {
    hide Ran, Alts, Step, SaidText, StrPrefix, Shows, Remembers;
    AtPrefix(c.s, i, "S_", 0);
    AtPrefix(c.s, i, "S_", 1);
    SubstitutionStart();
    TwoTokenHit(c, 'S', '_', st);
    Forgets(c, st, i, t, last, n);
    Moved(c, st, i, t, "", n, i + 2);
    var st1 := st.(cur := i + 2);
    TellsOn(c, st1, i + 2, t, n, "?");
    SayRun(c, st1, "?");
    st2 := SaidText(c, st1, "?");
    Seq2(c, [CC('S', '_'), Say("?")], st, true, st1, true, st2);
    NoneTried(c, Substitution, st);
    Hit(c, Substitution, 0, st, st, st2);
    SubstitutionRun(c, st, st2);
  }

  lemma ParamRead(c: Ctx, st: St, i: nat, t: string, last: string, n: int) returns (st2: St)
    requires Is(c, st, i, t, last, n) && StrPrefix(c.s, i, "T_") && |t + "?"| < c.cap
    ensures Ran(c, Component(), st, true, st2) && Is(c, st2, i + 2, t + "?", "", n)
  {
    hide Ran, Alts, Step, SaidText, StrPrefix, Shows, Remembers, Component;
    AtPrefix(c.s, i, "T_", 0);
    AtPrefix(c.s, i, "T_", 1);
    TemplateParamStart();
    TwoTokenHit(c, 'T', '_', st);
    Forgets(c, st, i, t, last, n);
    Moved(c, st, i, t, "", n, i + 2);
    var st1 := st.(cur := i + 2);
    TellsOn(c, st1, i + 2, t, n, "?");
    SayRun(c, st1, "?");
    st2 := SaidText(c, st1, "?");
    Seq2(c, [CC('T', '_'), Say("?")], st, true, st1, true, st2);
    NoneTried(c, TemplateParam, st);
    Hit(c, TemplateParam, 0, st, st, st2);
    ComponentRun(c, st, true, st2, true, st2, true, st2);
  }

  /** Any part but template arguments is read as one component. */
  lemma PartRead(c: Ctx, st: St, i: nat, t: string, last: string, n: int, p: Part) returns (st2: St)
    requires Is(c, st, i, t, last, n) && InRange(p) && !p.Args? && (p.Ctor? || p.Dtor? ==> last != "" && last[0] != '<')
    requires StrPrefix(c.s, i, Code(p)) && i + |Code(p)| < |c.s| && At(c.s, i + |Code(p)|) != 'B'
    requires |t + Word(p, last)| < c.cap
    ensures Ran(c, Component(), st, true, st2)
    ensures Is(c, st2, i + |Code(p)|, t + Word(p, last), After(p, last), n)
  {
    hide Is, Ran, Alts, StrPrefix, Component, Operators, Builtins, Substitutions, Classes, Shown, Class,
         IdCode, Identifier;
    Cursor(c, st, i, t, last, n);
    match p
    case Id(name) =>
      st2 := IdRead(c, st, i, t, last, n, name);
      UnscopedRun(c, st, st2);
    case Std(k) => st2 := StdRead(c, st, i, t, last, n, k);
    case Param => st2 := ParamRead(c, st, i, t, last, n);
    case Seen => st2 := SeenRead(c, st, i, t, last, n);
    case Ctor(d) =>
      st2 := CtorRead(c, st, i, t, last, n, d);
      UnscopedRun(c, st, st2);
    case Dtor(d) =>
      assert t + "~" + last == t + ("~" + last);
      st2 := DtorRead(c, st, i, t, last, n, d);
      UnscopedRun(c, st, st2);
    case Op(k) =>
      st2 := OpRead(c, st, i, t, last, n, k);
      UnscopedRun(c, st, st2);
    case Cast(k) =>
      assert t + "operator " + Builtins()[k].text == t + ("operator " + Builtins()[k].text);
      st2 := CastRead(c, st, i, t, last, n, k);
      UnscopedRun(c, st, st2);
  }

  lemma Cursor(c: Ctx, st: St, i: nat, t: string, last: string, n: int)
    requires Is(c, st, i, t, last, n)
    ensures st.cur == i && st.nest == n
  {
  }

  // ---------------------------------------------------------------- nested names

  lemma SilentText(c: Ctx, st: St, t: string)
    requires !st.append
    ensures SaidText(c, st, t) == st
  {
  }

  /** Types are passed over without output. */
  lemma SilentType(c: Ctx, st: St, k: nat)
    requires !st.append && k < |Builtins()| && StrPrefix(c.s, st.cur, Builtins()[k].code)
    ensures Ran(c, N(Type), st, true, st.(cur := st.cur + 1)) && IsLower(At(c.s, st.cur))
  {
    hide Ran, Alts, Step, Builtins, SaidText, FirstSpelled, StrPrefix, BuiltinTypeList;
    TypeThere(c, st, k);
    BuiltinThere(c, st, k);
    SilentText(c, st, Builtins()[k].text);
  }

  lemma ArgumentThere(c: Ctx, st: St, k: nat)
    requires !st.append && k < |Builtins()| && StrPrefix(c.s, st.cur, Builtins()[k].code)
    ensures Ran(c, N(TemplateArg), st, true, st.(cur := st.cur + 1))
  {
    hide Ran, Tried, Alts, Step, Builtins, StrPrefix;
    SilentType(c, st, k);
    ArgumentStarts();
    EitherTokenRun(c, "IJ", st);
    MissFirst(c, [OneOf("IJ"), Star(N(TemplateArg)), C('E')], st);
    NoneTried(c, TemplateArg, st);
    Miss(c, TemplateArg, 0, st, st, st);
    Hit(c, TemplateArg, 1, st, st, st.(cur := st.cur + 1));
  }

  lemma ArgsCode(s: string, i: nat, u: string)
    requires |u| == 1 && StrPrefix(s, i, "I" + u + "E")
    ensures At(s, i) == 'I' && StrPrefix(s, i + 1, u) && At(s, i + 2) == 'E'
  {
    AtPrefix(s, i, "I" + u + "E", 0);
    AtPrefix(s, i, "I" + u + "E", 2);
    assert "I" + u + "E" == "I" + (u + "E");
    PrefixParts(s, i, "I", u + "E");
    PrefixParts(s, i + 1, u, "E");
  }

  lemma QuietArgs(c: Ctx, st: St, k: nat)
    requires k < |Builtins()| && StrPrefix(c.s, st.cur + 1, Builtins()[k].code)
    requires At(c.s, st.cur) == 'I' && At(c.s, st.cur + 2) == 'E'
    ensures Ran(c, Quiet(Seq([C('I'), N(TemplateArg), Star(N(TemplateArg)), C('E')])), st, true, st.(cur := st.cur + 3))
  {
    hide *;
    var q := st.(append := false);
    var q1, q2, q3 := q.(cur := st.cur + 1), q.(cur := st.cur + 2), q.(cur := st.cur + 3);
    TokenRun(c, 'I', q);
    ArgumentThere(c, q1, k);
    NoArgument(c, q2);
    StarEnd(c, N(TemplateArg), q2, q2);
    TokenRun(c, 'E', q2);
    var es := [C('I'), N(TemplateArg), Star(N(TemplateArg)), C('E')];
    Seq4(c, es, q, true, q1, true, q2, true, q2, true, q3);
    QuietRun(c, Seq(es), st, true, q3);
  }

  lemma ArgsRead(c: Ctx, st: St, i: nat, t: string, last: string, n: int, k: nat) returns (st2: St)
    requires Is(c, st, i, t, last, n) && k < |Builtins()| && StrPrefix(c.s, i, Code(Args(k)))
    requires |Joined(t, "<>")| < c.cap
    ensures At(c.s, i) == 'I' && |Code(Args(k))| == 3
    ensures Ran(c, N(TemplateArgs), st, true, st2) && Is(c, st2, i + 3, Joined(t, "<>"), last, n)
  {
    hide Ran, Alts, Step, Builtins, SaidText, StrPrefix, Shows, Remembers, Joined, BuiltinTypeList, IsAlpha, IsLower;
    TypesAgree(k);
    ArgsCode(c.s, i, Builtins()[k].code);
    QuietArgs(c, st, k);
    var st1 := st.(cur := i + 3);
    Moved(c, st, i, t, last, n, i + 3);
    SayRun(c, st1, "<>");
    st2 := SaidText(c, st1, "<>");
    Tells(c, st1, i + 3, t, last, n, "<>");
    assert Latest("<>", last) == last by { NotAWord(last); }
    ArgsThenSay(c, st, st1, st2);
  }

  lemma ArgsThenSay(c: Ctx, st: St, st1: St, st2: St)
    requires Ran(c, Quiet(Seq([C('I'), N(TemplateArg), Star(N(TemplateArg)), C('E')])), st, true, st1)
    requires Ran(c, Say("<>"), st1, true, st2)
    ensures Ran(c, N(TemplateArgs), st, true, st2)
  {
    hide *;
    TemplateArgsShape();
    Seq2(c, Alts(TemplateArgs)[0].es, st, true, st1, true, st2);
    Only(c, TemplateArgs, st, true, st2);
  }

  lemma NotAWord(last: string)
    ensures Latest("<>", last) == last
  {
  }

  predicate Sane(last: string) {
    last == "" || last[0] != '<'
  }

  lemma PartSane(p: Part, last: string)
    requires InRange(p) && Sane(last) && (p.Ctor? || p.Dtor? ==> last != "")
    ensures Code(p) != "" && Code(p)[0] != 'B' && Word(p, last) != "" && Sane(After(p, last))
    ensures p.Id? || p.Std? || p.Param? || p.Seen? ==> Code(p)[0] !in "rVK"
  {
    match p
    case Id(name) => InDecimalDigits(|name|);
    case Std(k) => SubstitutionsAgree(k);
    case Op(k) => OperatorSane(k);
    case Cast(k) => TypesAgree(k);
    case Args(k) => TypesAgree(k);
    case _ =>
  }

  lemma OperatorSane(k: nat)
    requires k < |Operators()|
    ensures Operators()[k].code != "" && Operators()[k].code[0] != 'B' && Operators()[k].text != ""
  {
    hide Operators, OperatorList;
    OperatorsAgree(k);
  }

  /** A separator, needed or not. */
  lemma SeparatorSaid(c: Ctx, st: St, i: nat, t: string, last: string, n: int)
    requires Is(c, st, i, t, last, n) && |t| + 2 < c.cap && (n >= 1 <==> t != "")
    ensures Is(c, Separated(c, st), i, if t == "" then "" else t + "::", last, n)
  {
    hide SaidText, Shows, Remembers;
    if n >= 1 { Tells(c, st, i, t, last, n, "::"); }
  }

  lemma Bumps(c: Ctx, st: St, i: nat, t: string, last: string, n: int)
    requires Is(c, st, i, t, last, n) && 0 <= n < 0x7fff
    ensures Is(c, Bumped(st), i, t, last, n + 1)
  {
  }

  lemma NotB(s: string, i: nat, parts: seq<Part>, last: string, named: bool)
    requires Fitting(parts, last, named) && Sane(last) && (forall p :: p in parts ==> InRange(p))
    requires StrPrefix(s, i, Codes(parts) + "E")
    ensures At(s, i) != 'B'
  {
    hide Code, InRange, Word, After, StrPrefix;
    AtPrefix(s, i, Codes(parts) + "E", 0);
    if parts != [] { PartSane(parts[0], last); }
  }

  /** No further part: the separator is taken back. */
  lemma NoMoreParts(c: Ctx, st: St, i: nat, t: string, last: string, n: int, named: bool) returns (st2: St)
    requires Is(c, st, i, t, last, n) && n >= 1 && t != "" && |t| + 2 < c.cap && At(c.s, i) == 'E'
    ensures Ran(c, N(if named then PrefixMore else Prefix), st, true, st2) && Is(c, st2, i, t, last, n)
  {
    hide Ran, Alts, Step, Component, Separated, Cancelled, Remembers;
    SepRun(c, st);
    var st1 := Separated(c, st);
    SeparatorSaid(c, st, i, t, last, n);
    NoComponent(c, st1);
    CancelRun(c, st1);
    st2 := Cancelled(st1);
    SeparatorCancelled(c, st, i, t, last, n);
    if named { NoArguments(c, st2); }
    PrefixEnds(c, named, st, st1, st1, st2, false, st2, st2);
  }

  /** Template arguments, and then another prefix. */
  lemma ArgsThenPrefix(c: Ctx, st: St, i: nat, t: string, last: string, n: int, k: nat) returns (st2: St)
    requires Is(c, st, i, t, last, n) && n >= 1 && t != "" && |t| + 2 < c.cap
    requires k < |Builtins()| && StrPrefix(c.s, i, Code(Args(k))) && |Joined(t, "<>")| < c.cap
    ensures |Code(Args(k))| == 3 && Is(c, st2, i + 3, Joined(t, "<>"), last, n)
    ensures forall st3 :: Ran(c, N(Prefix), st2, true, st3) ==> Ran(c, N(PrefixMore), st, true, st3)
  {
    hide Ran, Alts, Step, Component, Separated, Cancelled, Remembers, Code, Builtins, Joined, StrPrefix;
    SepRun(c, st);
    var st1 := Separated(c, st);
    SeparatorSaid(c, st, i, t, last, n);
    CancelRun(c, st1);
    var s2 := Cancelled(st1);
    SeparatorCancelled(c, st, i, t, last, n);
    st2 := ArgsRead(c, s2, i, t, last, n, k);
    NoComponent(c, st1);
    forall st3 | Ran(c, N(Prefix), st2, true, st3) ensures Ran(c, N(PrefixMore), st, true, st3) {
      PrefixEnds(c, true, st, st1, st1, s2, true, st2, st3);
    }
  }

  /** The parts of a nested name, up to its 'E'. */
  lemma {:induction false} PartsRead(c: Ctx, st: St, i: nat, t: string, last: string, n: int, parts: seq<Part>,
                                     named: bool)
    returns (st2: St, last2: string, n2: int)
    requires Is(c, st, i, t, last, n) && Sane(last) && Fitting(parts, last, named)
    requires 0 <= n <= n + |parts| <= 0x7fff && (n == 0 <==> t == "") && (n == 0 ==> parts != [] && !parts[0].Args?)
    requires forall p :: p in parts ==> InRange(p)
    requires StrPrefix(c.s, i, Codes(parts) + "E") && |Printed(parts, t, last)| + 2 < c.cap
    ensures Ran(c, N(if named then PrefixMore else Prefix), st, true, st2)
    ensures Is(c, st2, i + |Codes(parts)|, Printed(parts, t, last), last2, n2)
    decreases |parts|
  {
    hide Ran, Alts, Step, Component, Separated, Bumped, Shows, Remembers, Code, InRange, Word, After, StrPrefix, Joined;
    if parts == [] {
      AtPrefix(c.s, i, Codes(parts) + "E", 0);
      st2 := NoMoreParts(c, st, i, t, last, n, named);
      last2, n2 := last, n;
      return;
    }
    var p, rest := parts[0], parts[1..];
    assert Codes(parts) + "E" == Code(p) + (Codes(rest) + "E");
    PrefixParts(c.s, i, Code(p), Codes(rest) + "E");
    PartSane(p, last);
    if p.Args? {
      RangeOf(p);
      var s1 := ArgsThenPrefix(c, st, i, t, last, n, p.k);
      assert After(p, last) == last by { ArgsAfter(p, last); }
      assert Joined(t, "<>") != "" by { JoinedThere(t); }
      st2, last2, n2 := PartsRead(c, s1, i + 3, Joined(t, "<>"), last, n, rest, false);
    } else {
      NotB(c.s, i + |Code(p)|, rest, After(p, last), true);
      RestThere(c.s, i + |Code(p)|, rest);
      SepRun(c, st);
      var s1 := Separated(c, st);
      SeparatorSaid(c, st, i, t, last, n);
      var t1 := if t == "" then "" else t + "::";
      var s2 := PartRead(c, s1, i, t1, last, n, p);
      BumpRun(c, s2);
      var s3 := Bumped(s2);
      Bumps(c, s2, i + |Code(p)|, t1 + Word(p, last), After(p, last), n);
      st2, last2, n2 := PartsRead(c, s3, i + |Code(p)|, t1 + Word(p, last), After(p, last), n + 1, rest, true);
      PrefixGoesOn(c, named, st, s1, s2, s3, st2);
    }
  }

  lemma RangeOf(p: Part)
    requires p.Args? && InRange(p)
    ensures p.k < |Builtins()|
  {
  }

  lemma ArgsAfter(p: Part, last: string)
    requires p.Args? && InRange(p)
    ensures After(p, last) == last
  {
  }

  lemma JoinedThere(t: string)
    ensures Joined(t, "<>") != ""
  {
  }

  lemma RestThere(s: string, i: nat, parts: seq<Part>)
    requires (forall p :: p in parts ==> InRange(p)) && StrPrefix(s, i, Codes(parts) + "E")
    ensures i < |s|
  {
  }

  // ---------------------------------------------------------------- whole names

  /** The qualifier of a member function. */
  function Qualifier(isConst: bool): string {
    if isConst then "K" else ""
  }

  lemma QualifierRead(c: Ctx, st: St, isConst: bool, parts: seq<Part>)
    requires Nested(parts) && forall p :: p in parts ==> InRange(p)
    requires StrPrefix(c.s, st.cur, Qualifier(isConst) + (Codes(parts) + "E"))
    ensures Ran(c, Opt(N(CVQualifiers)), st, true, st.(cur := st.cur + |Qualifier(isConst)|))
    ensures StrPrefix(c.s, st.cur + |Qualifier(isConst)|, Codes(parts) + "E")
  {
    hide Ran, Alts, Step, Code, InRange, StrPrefix, Fitting;
    PrefixParts(c.s, st.cur, Qualifier(isConst), Codes(parts) + "E");
    if isConst {
      AtPrefix(c.s, st.cur, "K", 0);
      TokenRun(c, 'r', st);
      TokenRun(c, 'V', st);
      TokenRun(c, 'K', st);
      CVQualifiersRun(c, st, false, st, false, st, true, st.(cur := st.cur + 1));
      OptRun(c, N(CVQualifiers), st, true, st.(cur := st.cur + 1));
    } else {
      AtPrefix(c.s, st.cur, Codes(parts) + "E", 0);
      PartSane(parts[0], "");
      NoQualifier(c, st);
      OptRun(c, N(CVQualifiers), st, false, st);
      assert st.(cur := st.cur + 0) == st;
    }
  }

  /** What a nested name is written as, and what it prints. */
  function NestedCode(isConst: bool, parts: seq<Part>): string
    requires forall p :: p in parts ==> InRange(p)
  {
    "N" + (Qualifier(isConst) + (Codes(parts) + "E"))
  }

  function Text(parts: seq<Part>): string
    requires forall p :: p in parts ==> InRange(p)
  {
    Printed(parts, "", "")
  }

  lemma NestedRead(c: Ctx, st: St, i: nat, last: string, n: int, isConst: bool, parts: seq<Part>)
    returns (st2: St, last2: string)
    requires Is(c, st, i, "", last, n) && Nested(parts) && forall p :: p in parts ==> InRange(p)
    requires StrPrefix(c.s, i, NestedCode(isConst, parts)) && |Text(parts)| + 2 < c.cap
    ensures Ran(c, N(Name), st, true, st2)
    ensures Is(c, st2, i + |NestedCode(isConst, parts)|, Text(parts), last2, n)
  {
    hide Ran, Alts, Step, Shows, Remembers, Code, Codes, InRange, Printed, StrPrefix, Qualifier, Fitting;
    var code := Qualifier(isConst) + (Codes(parts) + "E");
    PrefixParts(c.s, i, "N", code);
    AtPrefix(c.s, i, "N", 0);
    TokenRun(c, 'N', st);
    var s1 := st.(cur := i + 1);
    var q := |Qualifier(isConst)|;
    var s2 := s1.(nest := 0);
    QualifierRead(c, s2, isConst, parts);
    var s3 := s2.(cur := i + 1 + q);
    Forgets(c, st, i, "", last, n);
    Moved(c, st, i, "", "", n, i + 1 + q);
    Renested(c, st.(cur := i + 1 + q), i + 1 + q, "", "", n, 0);
    var s4, last4, n4 := PartsRead(c, s3, i + 1 + q, "", "", 0, parts, false);
    var body := Seq([Opt(N(CVQualifiers)), N(Prefix)]);
    Seq2(c, [Opt(N(CVQualifiers)), N(Prefix)], s2, true, s3, true, s4);
    NestRun(c, body, s1, true, s4);
    var e := i + 1 + q + |Codes(parts)|;
    PrefixParts(c.s, i + 1 + q, Codes(parts), "E");
    AtPrefix(c.s, e, "E", 0);
    Renested(c, s4, e, Text(parts), last4, n4, n);
    var s5 := s4.(nest := n);
    TokenRun(c, 'E', s5);
    st2, last2 := s5.(cur := e + 1), last4;
    Moved(c, s5, e, Text(parts), last4, n, e + 1);
    NestedStart();
    Seq3(c, [C('N'), Nest(body), C('E')], st, true, s1, true, s5, true, st2);
    Only(c, NestedName, st, true, st2);
    NoneTried(c, Name, st);
    Hit(c, Name, 0, st, st, st2);
  }

  predicate InTypes(types: seq<nat>) {
    forall i :: 0 <= i < |types| ==> types[i] < |Builtins()|
  }

  function TypeCodes(types: seq<nat>): string
    requires InTypes(types)
  {
    if types == [] then "" else Builtins()[types[0]].code + TypeCodes(types[1..])
  }

  lemma {:induction false} TypesRead(c: Ctx, st: St, types: seq<nat>, tail: string)
    requires tail != "" && Dull(tail[0])
    requires InTypes(types) && !st.append && StrPrefix(c.s, st.cur, TypeCodes(types) + tail)
    ensures Ran(c, Star(N(Type)), st, true, st.(cur := st.cur + |TypeCodes(types)|))
    decreases |types|
  {
    hide Ran, Alts, Step, StrPrefix, Builtins, BuiltinTypeList, IsAlpha, IsLower;
    if types == [] {
      AtPrefix(c.s, st.cur, TypeCodes(types) + tail, 0);
      NoType(c, st);
      StarEnd(c, N(Type), st, st);
    } else {
      TypesAgree(types[0]);
      var code, rest := Builtins()[types[0]].code, TypeCodes(types[1..]) + tail;
      assert TypeCodes(types) + tail == code + rest;
      PrefixParts(c.s, st.cur, code, rest);
      SilentType(c, st, types[0]);
      var st1 := st.(cur := st.cur + 1);
      TypesRead(c, st1, types[1..], tail);
      StarStep(c, N(Type), st, st1, st.(cur := st.cur + |TypeCodes(types)|));
    }
  }

  lemma TypeThenTypes(c: Ctx, st: St, types: seq<nat>, tail: string)
    requires types != [] && InTypes(types) && tail != "" && Dull(tail[0]) && !st.append
    requires StrPrefix(c.s, st.cur, TypeCodes(types) + tail)
    ensures Ran(c, Seq([N(Type), Star(N(Type))]), st, true, st.(cur := st.cur + |TypeCodes(types)|))
  {
    hide Ran, Alts, Step, StrPrefix, Builtins, BuiltinTypeList, IsAlpha, IsLower;
    TypesAgree(types[0]);
    var code, rest := Builtins()[types[0]].code, TypeCodes(types[1..]) + tail;
    assert TypeCodes(types) + tail == code + rest;
    PrefixParts(c.s, st.cur, code, rest);
    SilentType(c, st, types[0]);
    var st1 := st.(cur := st.cur + 1);
    TypesRead(c, st1, types[1..], tail);
    BothRun(c, N(Type), Star(N(Type)), st, st1, st1.(cur := st1.cur + |TypeCodes(types[1..])|));
  }

  lemma BothRun(c: Ctx, e1: Peg, e2: Peg, st: St, st1: St, st2: St)
    requires Ran(c, e1, st, true, st1) && Ran(c, e2, st1, true, st2)
    ensures Ran(c, Seq([e1, e2]), st, true, st2)
  {
    hide *;
    Seq2(c, [e1, e2], st, true, st1, true, st2);
  }

  lemma TypesSkipped(c: Ctx, st: St, types: seq<nat>, tail: string)
    requires types != [] && InTypes(types) && tail != "" && Dull(tail[0])
    requires StrPrefix(c.s, st.cur, TypeCodes(types) + tail)
    ensures Ran(c, Quiet(Seq([N(Type), Star(N(Type))])), st, true, st.(cur := st.cur + |TypeCodes(types)|))
  {
    hide *;
    var q := st.(append := false);
    TypeThenTypes(c, q, types, tail);
    var q2 := q.(cur := st.cur + |TypeCodes(types)|);
    QuietRun(c, Seq([N(Type), Star(N(Type))]), st, true, q2);
    assert q2.(append := st.append) == st.(cur := st.cur + |TypeCodes(types)|);
  }

  /** Parameter types print "()". */
  lemma ParametersRead(c: Ctx, st: St, i: nat, t: string, last: string, n: int, types: seq<nat>, tail: string)
    returns (st2: St)
    requires Is(c, st, i, t, last, n) && types != [] && InTypes(types) && tail != "" && Dull(tail[0])
    requires StrPrefix(c.s, i, TypeCodes(types) + tail) && |t| + 2 < c.cap
    ensures Ran(c, N(BareFunctionType), st, true, st2)
    ensures Is(c, st2, i + |TypeCodes(types)|, t + "()", last, n)
  {
    hide Ran, Alts, Step, StrPrefix, Builtins, TypeCodes, SaidText, Shows, Remembers;
    TypesSkipped(c, st, types, tail);
    var e := i + |TypeCodes(types)|;
    var s1 := st.(cur := e);
    Moved(c, st, i, t, last, n, e);
    Tells(c, s1, e, t, last, n, "()");
    SayRun(c, s1, "()");
    st2 := SaidText(c, s1, "()");
    ParametersSaid(c, st, s1, st2);
  }

  lemma ParametersSaid(c: Ctx, st: St, st1: St, st2: St)
    requires Ran(c, Quiet(Seq([N(Type), Star(N(Type))])), st, true, st1) && Ran(c, Say("()"), st1, true, st2)
    ensures Ran(c, N(BareFunctionType), st, true, st2)
  {
    hide *;
    FunctionShape();
    Seq2(c, Alts(BareFunctionType)[0].es, st, true, st1, true, st2);
    Only(c, BareFunctionType, st, true, st2);
  }

  lemma NoParameters(c: Ctx, st: St)
    requires Dull(At(c.s, st.cur))
    ensures Ran(c, N(BareFunctionType), st, false, st)
  {
    hide Ran, Alts, Step;
    FunctionShape();
    var q := st.(append := false);
    NoType(c, q);
    MissFirst(c, [N(Type), Star(N(Type))], q);
    QuietRun(c, Seq([N(Type), Star(N(Type))]), st, false, q);
    assert Rewind(st, q) == st;
    MissFirst(c, [Quiet(Seq([N(Type), Star(N(Type))])), Say("()")], st);
    NoneFits(c, BareFunctionType, st);
  }

  /** The text stands in the output, with its terminator. */
  predicate Reads(out: string, t: string) {
    |t| < |out| && out[..|t|] == t && out[|t|] == '\0'
  }

  /** What compilers put behind a name: nothing, marks of cloned functions, or the version of a library. */
  datatype Suffix = Clones(pieces: seq<Piece>) | Version(text: string)

  datatype Piece = Piece(letters: string, digits: string)

  predicate InSuffix(x: Suffix) {
    match x
    case Clones(pieces) => InPieces(pieces)
    case Version(text) => '\0' !in text
  }

  predicate InPieces(pieces: seq<Piece>) {
    forall k :: 0 <= k < |pieces| ==> IsPiece(pieces[k])
  }

  predicate IsPiece(p: Piece) {
    && p.letters != "" && (forall i :: 0 <= i < |p.letters| ==> IsAlpha(p.letters[i]))
    && p.digits != "" && forall i :: 0 <= i < |p.digits| ==> IsDigit(p.digits[i])
  }

  function PiecesCode(pieces: seq<Piece>): string {
    if pieces == [] then "" else "." + pieces[0].letters + "." + pieces[0].digits + PiecesCode(pieces[1..])
  }

  function Tail(x: Suffix): (r: string)
    ensures r != "" && Dull(r[0]) && r[|r| - 1] == '\0'
  {
    match x
    case Clones(pieces) => PiecesCode(pieces) + ['\0']
    case Version(text) => "@" + text + ['\0']
  }

  /** Marks of clones are dropped, versions are printed. */
  function Suffixed(x: Suffix): string {
    match x
    case Clones(_) => ""
    case Version(text) => "@" + text
  }

  lemma PieceParts(s: string, i: nat, p: Piece, rest: string)
    requires StrPrefix(s, i, "." + p.letters + "." + p.digits + rest)
    ensures var j := i + 1 + |p.letters|;
            && At(s, i) == '.' && StrPrefix(s, i + 1, p.letters) && At(s, j) == '.'
            && StrPrefix(s, j + 1, p.digits) && StrPrefix(s, j + 1 + |p.digits|, rest)
  {
    var u := "." + p.letters + "." + p.digits;
    hide StrPrefix;
    PrefixParts(s, i, u, rest);
    PrefixParts(s, i, "." + p.letters + ".", p.digits);
    PrefixParts(s, i, "." + p.letters, ".");
    PrefixParts(s, i, ".", p.letters);
    AtPrefix(s, i, ".", 0);
    AtPrefix(s, i + 1 + |p.letters|, ".", 0);
  }

  lemma AlphaIs(s: string, i: nat, e: nat)
    requires i <= e && (forall j :: i <= j < e ==> IsAlpha(At(s, j))) && !IsAlpha(At(s, e))
    ensures AlphaEnd(s, i) == e
  {
  }

  /** Such marks are what the code takes for a clone suffix. */
  lemma {:induction false} ClonesRead(s: string, i: nat, pieces: seq<Piece>)
    requires InPieces(pieces) && StrPrefix(s, i, PiecesCode(pieces) + ['\0'])
    ensures CloneSuffix(s, i)
    decreases |pieces|
  {
    hide StrPrefix, AlphaEnd, ScanEnd;
    if pieces == [] {
      AtPrefix(s, i, PiecesCode(pieces) + ['\0'], 0);
    } else {
      var p, rest := pieces[0], PiecesCode(pieces[1..]) + ['\0'];
      assert PiecesCode(pieces) + ['\0'] == "." + p.letters + "." + p.digits + rest;
      PieceParts(s, i, p, rest);
      var j := i + 1 + |p.letters|;
      var e := j + 1 + |p.digits|;
      forall k | i + 1 <= k < j ensures IsAlpha(At(s, k)) { AtPrefix(s, i + 1, p.letters, k - i - 1); }
      forall k | j + 1 <= k < e ensures IsDigit(At(s, k)) { AtPrefix(s, j + 1, p.digits, k - j - 1); }
      AtPrefix(s, e, rest, 0);
      assert rest[0] == '.' || rest[0] == '\0';
      assert IsAlpha(At(s, i + 1)) && IsDigit(At(s, j + 1));
      AlphaIs(s, i + 1, j);
      ScanIs(s, Decimal, j + 1, e);
      ClonesRead(s, e, pieces[1..]);
      UnfoldClone(s, i, j, e);
    }
  }

  lemma UnfoldClone(s: string, i: nat, j: nat, e: nat)
    requires At(s, i) == '.' && IsAlpha(At(s, i + 1)) && j == AlphaEnd(s, i + 1)
    requires At(s, j) == '.' && IsDigit(At(s, j + 1)) && e == ScanEnd(s, Decimal, j + 1) && CloneSuffix(s, e)
    ensures CloneSuffix(s, i)
  {
  }

  lemma PieceFound(s: string, i: nat) returns (p: Piece, e: nat)
    requires CloneSuffix(s, i) && i <= |s| && At(s, i) != '\0'
    ensures IsPiece(p) && i < e <= |s| && s[i..e] == "." + p.letters + "." + p.digits && CloneSuffix(s, e)
  {
    hide AlphaEnd, ScanEnd;
    var j := AlphaEnd(s, i + 1);
    e := ScanEnd(s, Decimal, j + 1);
    p := Piece(s[i + 1..j], s[j + 1..e]);
    forall k | 0 <= k < |p.letters| ensures IsAlpha(p.letters[k]) { assert p.letters[k] == At(s, i + 1 + k); }
    forall k | 0 <= k < |p.digits| ensures IsDigit(p.digits[k]) { assert p.digits[k] == At(s, j + 1 + k); }
    assert s[i] == '.' && s[j] == '.';
    Cut(s, i, j, e);
  }

  lemma Cut(s: string, i: nat, j: nat, e: nat)
    requires i < j < e <= |s| && s[i] == '.' && s[j] == '.'
    ensures s[i..e] == "." + s[i + 1..j] + "." + s[j + 1..e]
  {
  }

  /** And nothing else is. */
  lemma {:induction false} ClonesFound(s: string, i: nat) returns (pieces: seq<Piece>)
    requires CloneSuffix(s, i) && i <= |s|
    ensures InPieces(pieces) && StrPrefix(s, i, PiecesCode(pieces)) && At(s, i + |PiecesCode(pieces)|) == '\0'
    decreases if i < |s| then |s| - i else 0
  {
    hide CloneSuffix, IsPiece;
    if At(s, i) == '\0' {
      pieces := [];
      assert s[i..i + 0] == "";
    } else {
      var p, e := PieceFound(s, i);
      var more := ClonesFound(s, e);
      pieces := [p] + more;
      assert pieces[1..] == more && pieces[0] == p;
      Longer(s, i, e, PiecesCode(more));
    }
  }

  lemma Longer(s: string, i: nat, e: nat, u: string)
    requires i <= e <= |s| && StrPrefix(s, e, u)
    ensures StrPrefix(s, i, s[i..e] + u)
  {
    assert s[i..e + |u|] == s[i..e] + s[e..e + |u|];
  }

  /** An encoding behind "_Z" that takes all of the name but its suffix is the answer. */
  lemma Answered(c: Ctx, st: St, st2: St, t: string, last: string, x: Suffix) returns (out: string)
    requires StrPrefix(c.s, 0, "_Z") && st.cur == 0 && Ran(c, N(Encoding), st.(cur := 2), true, st2)
    requires InSuffix(x) && |Tail(x)| <= |c.s| && StrPrefix(c.s, |c.s| - |Tail(x)|, Tail(x))
    requires Is(c, st2, |c.s| - |Tail(x)|, t, last, st.nest) && t != "" && |t| + |Suffixed(x)| < c.cap
    ensures Answers(c, st, true, out) && Reads(out, t + Suffixed(x))
  {
    hide Ran, Alts, Step, StrPrefix, Said, Remembers, CloneSuffix, PiecesCode;
    AtPrefix(c.s, 0, "_Z", 0);
    AtPrefix(c.s, 0, "_Z", 1);
    TwoTokenHit(c, '_', 'Z', st);
    NestedStart();
    Seq2(c, [CC('_', 'Z'), N(Encoding)], st, true, st.(cur := 2), true, st2);
    Only(c, MangledName, st, true, st2);
    var st4 := SuffixRead(c, st2, t, last, st.nest, x);
    out := st4.buf;
    assert TopRun(c, st, true, st4);
    forall st3 | TopRun(c, st, true, st3) ensures st3 == st4 { TopDeterministic(c, st, true, st4, true, st3); }
  }

  lemma SuffixRead(c: Ctx, st: St, t: string, last: string, n: int, x: Suffix) returns (st2: St)
    requires InSuffix(x) && |Tail(x)| <= |c.s| && StrPrefix(c.s, |c.s| - |Tail(x)|, Tail(x))
    requires Is(c, st, |c.s| - |Tail(x)|, t, last, n) && t != "" && |t| + |Suffixed(x)| < c.cap
    ensures TopEnd(c, true, st, true, st2) && !st2.overflowed && Reads(st2.buf, t + Suffixed(x))
  {
    match x
    case Clones(pieces) =>
      hide StrPrefix, Is, PiecesCode, TopEnd, Reads;
      ClonesDropped(c, st, t, last, n, pieces);
      st2 := st;
    case Version(text) =>
      hide StrPrefix, Is, SaidText, TopEnd, Reads;
      VersionSaid(c, st, t, last, n, text);
      st2 := SaidText(c, st, "@" + text);
  }

  lemma ClonesDropped(c: Ctx, st: St, t: string, last: string, n: int, pieces: seq<Piece>)
    requires InPieces(pieces) && |PiecesCode(pieces)| + 1 <= |c.s|
    requires StrPrefix(c.s, |c.s| - |PiecesCode(pieces) + ['\0']|, PiecesCode(pieces) + ['\0'])
    requires Is(c, st, |c.s| - |PiecesCode(pieces) + ['\0']|, t, last, n) && t != ""
    ensures TopEnd(c, true, st, true, st) && !st.overflowed && Reads(st.buf, t + "")
  {
    hide StrPrefix, Remembers, PiecesCode, CloneSuffix;
    ClonesRead(c.s, st.cur, pieces);
    assert t + "" == t;
  }

  lemma VersionSaid(c: Ctx, st: St, t: string, last: string, n: int, text: string)
    requires |text| + 2 <= |c.s| && StrPrefix(c.s, |c.s| - |text| - 2, "@" + text + ['\0'])
    requires Is(c, st, |c.s| - |text| - 2, t, last, n) && t != "" && |t| + |"@" + text| < c.cap
    ensures var st2 := SaidText(c, st, "@" + text);
            TopEnd(c, true, st, true, st2) && !st2.overflowed && Reads(st2.buf, t + ("@" + text))
  {
    hide StrPrefix, SaidText, Remembers, CloneSuffix;
    var i := st.cur;
    AtPrefix(c.s, i, "@" + text + ['\0'], 0);
    PrefixParts(c.s, i, "@" + text, ['\0']);
    Unfolded(c.s, i, "@" + text);
    Tells(c, st, i, t, last, n, "@" + text);
    NotAClone(c.s, i);
  }

  lemma NotAClone(s: string, i: nat)
    requires At(s, i) == '@'
    ensures !CloneSuffix(s, i)
  {
  }

  lemma Blank(c: Ctx, buf: string)
    requires 0 < c.cap <= |buf|
    ensures Is(c, InitialSt(buf), 0, "", "", -1)
  {
  }

  /** A member function: parts of a nested name, parameter types and a suffix. */
  function MemberCode(isConst: bool, parts: seq<Part>, types: seq<nat>, x: Suffix): string
    requires InTypes(types) && forall p :: p in parts ==> InRange(p)
  {
    "_Z" + (NestedCode(isConst, parts) + (TypeCodes(types) + Tail(x)))
  }

  lemma WholeParts(s: string, u: string, v: string)
    requires s == "_Z" + (u + v)
    ensures StrPrefix(s, 0, "_Z") && StrPrefix(s, 2, u) && StrPrefix(s, 2 + |u|, v) && |s| == 2 + |u| + |v|
    ensures v != "" ==> s[|s| - 1] == v[|v| - 1]
  {
    assert s[2..2 + |u|] == u;
    assert s[2 + |u|..] == v;
    assert s[..2] == "_Z";
  }

  /** Whatever the parts and the parameter types are, the name of a member function prints the text of its
      parts and "()", by the grammar and in the shipped parser alike; marks of clones are dropped, and a version
      is printed behind it. */
  lemma MemberPrints(shipped: bool, cap: nat, buf: string, isConst: bool, parts: seq<Part>, types: seq<nat>, x: Suffix)
    returns (out: string)
    requires Nested(parts) && (forall p :: p in parts ==> InRange(p)) && types != [] && InTypes(types) && InSuffix(x)
    requires |Text(parts)| + 2 + |Suffixed(x)| < cap <= |buf|
    ensures Answers(Ctx(MemberCode(isConst, parts, types, x), cap, shipped), InitialSt(buf), true, out)
    ensures Reads(out, Text(parts) + "()" + Suffixed(x))
  {
    hide Ran, Alts, Step, Code, Text, NestedCode, TypeCodes, InRange, StrPrefix, Shows, Remembers, Answers, Suffixed,
         Tail, InSuffix;
    var c, st := Ctx(MemberCode(isConst, parts, types, x), cap, shipped), InitialSt(buf);
    var u, v := NestedCode(isConst, parts), TypeCodes(types) + Tail(x);
    WholeParts(c.s, u, v);
    PrefixParts(c.s, 2 + |u|, TypeCodes(types), Tail(x));
    Blank(c, buf);
    Moved(c, st, 0, "", "", -1, 2);
    var s1, last := NestedRead(c, st.(cur := 2), 2, "", -1, isConst, parts);
    var s2 := ParametersRead(c, s1, 2 + |u|, Text(parts), last, -1, types, Tail(x));
    FunctionText(c, st.(cur := 2), s1, s2);
    out := Answered(c, st, s2, Text(parts) + "()", last, x);
  }

  lemma EncodingShape()
    ensures |Alts(Encoding)| == 3 && Alts(Encoding)[0] == Seq([N(Name), N(BareFunctionType)])
    ensures Alts(Encoding)[1] == N(Name)
  {
  }

  /** Output that was taken back as a whole. */
  lemma StartedOver(c: Ctx, st: St, st2: St, i: nat, last: string, n: int)
    requires Is(c, st, i, "", last, n) && |st2.buf| == |st.buf|
    ensures Is(c, Rewind(st, st2), i, "", last, n)
  {
  }

  lemma SameSize(c: Ctx, e: Peg, st: St, ok: bool, st2: St)
    requires Ran(c, e, st, ok, st2)
    ensures |st2.buf| == |st.buf|
  {
    hide Ran, Alts;
    RunKeeps(c, e, st, ok, st2);
  }

  /** Without parameter types it is a variable, and its name alone is printed. */
  lemma VariablePrints(shipped: bool, cap: nat, buf: string, isConst: bool, parts: seq<Part>, x: Suffix)
    returns (out: string)
    requires Nested(parts) && (forall p :: p in parts ==> InRange(p)) && InSuffix(x)
    requires |Text(parts)| + 2 + |Suffixed(x)| < cap <= |buf|
    ensures Answers(Ctx("_Z" + (NestedCode(isConst, parts) + Tail(x)), cap, shipped), InitialSt(buf), true, out)
    ensures Reads(out, Text(parts) + Suffixed(x))
  {
    hide Ran, Alts, Step, Code, Text, NestedCode, InRange, StrPrefix, Shows, Remembers, Answers, Fitting, Suffixed,
         PiecesCode, InSuffix;
    var u := NestedCode(isConst, parts);
    var c, st := Ctx("_Z" + (u + Tail(x)), cap, shipped), InitialSt(buf);
    WholeParts(c.s, u, Tail(x));
    Blank(c, buf);
    var s0 := st.(cur := 2);
    Moved(c, st, 0, "", "", -1, 2);
    var s1, last1 := NestedRead(c, s0, 2, "", -1, isConst, parts);
    AtPrefix(c.s, 2 + |u|, Tail(x), 0);
    NoParameters(c, s1);
    EncodingShape();
    Seq2(c, [N(Name), N(BareFunctionType)], s0, true, s1, false, s1);
    SameSize(c, N(Name), s0, true, s1);
    var s2 := Rewind(s0, s1);
    StartedOver(c, s0, s1, 2, "", -1);
    var s3, last := NestedRead(c, s2, 2, "", -1, isConst, parts);
    NoneTried(c, Encoding, s0);
    Miss(c, Encoding, 0, s0, s0, s2);
    Hit(c, Encoding, 1, s0, s2, s3);
    assert Text(parts) != "" by { TextThere(parts); }
    out := Answered(c, st, s3, Text(parts), last, x);
  }

  lemma TextThere(parts: seq<Part>)
    requires Nested(parts) && forall p :: p in parts ==> InRange(p)
    ensures Text(parts) != ""
  {
    hide Code, InRange, Word, After;
    PartSane(parts[0], "");
  }

  /** A function outside of namespaces and classes: a name or an operator, perhaps in std. */
  function FunctionCode(inStd: bool, p: Part, types: seq<nat>, x: Suffix): string
    requires InTypes(types) && InRange(p)
  {
    "_Z" + (((if inStd then "St" else "") + Code(p)) + (TypeCodes(types) + Tail(x)))
  }

  function FunctionName(inStd: bool, p: Part): string
    requires InRange(p)
  {
    (if inStd then "std::" else "") + Word(p, "")
  }

  lemma PlainRead(c: Ctx, st: St, i: nat, t: string, last: string, n: int, p: Part) returns (st2: St)
    requires Is(c, st, i, t, last, n) && InRange(p) && (p.Id? || p.Op?) && StrPrefix(c.s, i, Code(p))
    requires i + |Code(p)| < |c.s| && At(c.s, i + |Code(p)|) != 'B' && |t + Word(p, "")| < c.cap
    ensures Ran(c, N(UnqualifiedName), st, true, st2) && At(c.s, i) !in "TSNZ"
    ensures Is(c, st2, i + |Code(p)|, t + Word(p, ""), After(p, ""), n)
  {
    hide Is, Ran, Alts, StrPrefix, Operators, Shown, Class, IdCode, Identifier;
    Cursor(c, st, i, t, last, n);
    match p
    case Id(name) =>
      NameStart(c, i, name);
      st2 := IdRead(c, st, i, t, last, n, name);
    case Op(k) =>
      OpStart(c, i, k);
      st2 := OpRead(c, st, i, t, last, n, k);
  }

  lemma NameStart(c: Ctx, i: nat, id: string)
    requires Identifier(id) && StrPrefix(c.s, i, IdCode(id))
    ensures IsDigit(At(c.s, i))
  {
    IdentifierStart(c, i, id);
  }

  lemma OpStart(c: Ctx, i: nat, k: nat)
    requires k < |Operators()| && StrPrefix(c.s, i, Operators()[k].code)
    ensures IsLower(At(c.s, i))
  {
    hide Operators, OperatorList, StrPrefix;
    OperatorsAgree(k);
    AtPrefix(c.s, i, Operators()[k].code, 0);
  }

  /** The name of such a function. */
  lemma FunctionNameRead(c: Ctx, st: St, i: nat, last: string, n: int, inStd: bool, p: Part)
    returns (st2: St, last2: string)
    requires Is(c, st, i, "", last, n) && InRange(p) && (p.Id? || p.Op?)
    requires StrPrefix(c.s, i, (if inStd then "St" else "") + Code(p)) && |FunctionName(inStd, p)| < c.cap
    requires var e := i + (if inStd then 2 else 0) + |Code(p)|; e < |c.s| && At(c.s, e) != 'B'
    ensures Ran(c, N(UnscopedName), st, true, st2) && At(c.s, i) !in "NZ"
    ensures Is(c, st2, i + (if inStd then 2 else 0) + |Code(p)|, FunctionName(inStd, p), last2, n)
  {
    hide Ran, Alts, Step, Shows, Remembers, StrPrefix, Code, Word, After, InRange, SaidText;
    NameShape();
    MoreNameShape();
    NoneTried(c, UnscopedName, st);
    Forgets(c, st, i, "", last, n);
    last2 := After(p, "");
    if inStd {
      PrefixParts(c.s, i, "St", Code(p));
      AtPrefix(c.s, i, "St", 0);
      AtPrefix(c.s, i, "St", 1);
      NoStdUnqualified(c, st);
      TwoTokenHit(c, 'S', 't', st);
      var s1 := st.(cur := i + 2);
      Moved(c, st, i, "", "", n, i + 2);
      TellsOn(c, s1, i + 2, "", n, "std::");
      SayRun(c, s1, "std::");
      var s2 := SaidText(c, s1, "std::");
      assert "" + "std::" == "std::";
      st2 := PlainRead(c, s2, i + 2, "std::", "", n, p);
      Seq3(c, [CC('S', 't'), Say("std::"), N(UnqualifiedName)], st, true, s1, true, s2, true, st2);
      Miss(c, UnscopedName, 0, st, st, st);
      Hit(c, UnscopedName, 1, st, st, st2);
    } else {
      assert "" + Code(p) == Code(p) && "" + Word(p, "") == Word(p, "");
      st2 := PlainRead(c, st, i, "", "", n, p);
      Hit(c, UnscopedName, 0, st, st, st2);
    }
  }

  lemma NoStdUnqualified(c: Ctx, st: St)
    requires At(c.s, st.cur) == 'S'
    ensures Ran(c, N(UnqualifiedName), st, false, st)
  {
    hide Ran, Alts, Step, FirstSpelled;
    NameShape();
    MoreNameShape();
    NoOperator(c, st);
    NoCtorDtor(c, st);
    NoIdent(c, st);
    NoLocalSource(c, st);
    MissFirst(c, [N(SourceName), Opt(N(AbiTags))], st);
    MissFirst(c, [N(LocalSourceName), Opt(N(AbiTags))], st);
    NoneFits(c, UnqualifiedName, st);
  }

  /** A name that is tried as a template first and then taken as it is. */
  lemma NameTwice(c: Ctx, st: St, s1: St, st2: St)
    requires At(c.s, st.cur) !in "NZ" && Ran(c, N(UnscopedName), st, true, s1) && At(c.s, s1.cur) != 'I'
    requires Ran(c, N(UnscopedName), Rewind(st, s1), true, st2)
    ensures Ran(c, N(Name), st, true, st2)
  {
    hide *;
    MoreNameShape();
    NoNested(c, st);
    NoLocal(c, st);
    NoneTried(c, UnscopedTemplateName, st);
    Hit(c, UnscopedTemplateName, 0, st, st, s1);
    NoArguments(c, s1);
    Seq2(c, [N(UnscopedTemplateName), N(TemplateArgs)], st, true, s1, false, s1);
    NoneTried(c, Name, st);
    Miss(c, Name, 0, st, st, st);
    Miss(c, Name, 1, st, st, st);
    Miss(c, Name, 2, st, st, Rewind(st, s1));
    Hit(c, Name, 3, st, Rewind(st, s1), st2);
  }

  /** The name is read twice, first as that of a template. */
  lemma PlainNameRead(c: Ctx, st: St, i: nat, inStd: bool, p: Part) returns (st2: St, last: string)
    requires Is(c, st, i, "", "", -1) && InRange(p) && (p.Id? || p.Op?) && |FunctionName(inStd, p)| < c.cap
    requires StrPrefix(c.s, i, (if inStd then "St" else "") + Code(p))
    requires var e := i + (if inStd then 2 else 0) + |Code(p)|; e < |c.s| && At(c.s, e) !in "BI"
    ensures Ran(c, N(Name), st, true, st2)
    ensures Is(c, st2, i + (if inStd then 2 else 0) + |Code(p)|, FunctionName(inStd, p), last, -1)
  {
    hide Ran, Alts, Step, Code, FunctionName, InRange, StrPrefix, Shows, Remembers;
    var s1, last1 := FunctionNameRead(c, st, i, "", -1, inStd, p);
    SameSize(c, N(UnscopedName), st, true, s1);
    StartedOver(c, st, s1, i, "", -1);
    st2, last := FunctionNameRead(c, Rewind(st, s1), i, "", -1, inStd, p);
    NameTwice(c, st, s1, st2);
  }

  lemma FunctionParts(s: string, inStd: bool, p: Part, types: seq<nat>, x: Suffix)
    requires InTypes(types) && InRange(p) && s == FunctionCode(inStd, p, types, x)
    ensures var e := 2 + (if inStd then 2 else 0) + |Code(p)|;
            && StrPrefix(s, 0, "_Z") && StrPrefix(s, 2, (if inStd then "St" else "") + Code(p))
            && StrPrefix(s, e, TypeCodes(types) + Tail(x)) && |s| == e + |TypeCodes(types)| + |Tail(x)|
            && StrPrefix(s, |s| - |Tail(x)|, Tail(x))
  {
    hide Code, TypeCodes, InRange, StrPrefix, Tail;
    var u, v := (if inStd then "St" else "") + Code(p), TypeCodes(types) + Tail(x);
    WholeParts(s, u, v);
    PrefixParts(s, 2 + |u|, TypeCodes(types), Tail(x));
  }

  /** Such a function prints its name and "()". */
  lemma FunctionPrints(shipped: bool, cap: nat, buf: string, inStd: bool, p: Part, types: seq<nat>, x: Suffix)
    returns (out: string)
    requires InRange(p) && (p.Id? || p.Op?) && types != [] && InTypes(types) && InSuffix(x)
    requires |FunctionName(inStd, p)| + 2 + |Suffixed(x)| < cap <= |buf|
    ensures Answers(Ctx(FunctionCode(inStd, p, types, x), cap, shipped), InitialSt(buf), true, out)
    ensures Reads(out, FunctionName(inStd, p) + "()" + Suffixed(x))
  {
    hide Ran, Alts, Step, Code, FunctionName, FunctionCode, TypeCodes, InRange, StrPrefix, Shows, Remembers, Answers,
         Suffixed, Tail, InSuffix;
    var c, st := Ctx(FunctionCode(inStd, p, types, x), cap, shipped), InitialSt(buf);
    var e := 2 + (if inStd then 2 else 0) + |Code(p)|;
    FunctionParts(c.s, inStd, p, types, x);
    TypeStart(c, e, types, Tail(x));
    Blank(c, buf);
    var s0 := st.(cur := 2);
    Moved(c, st, 0, "", "", -1, 2);
    var s2, last := PlainNameRead(c, s0, 2, inStd, p);
    var t := FunctionName(inStd, p);
    var s3 := ParametersRead(c, s2, e, t, last, -1, types, Tail(x));
    FunctionText(c, s0, s2, s3);
    out := Answered(c, st, s3, t + "()", last, x);
  }

  lemma TypeStart(c: Ctx, i: nat, types: seq<nat>, tail: string)
    requires types != [] && InTypes(types) && tail != "" && StrPrefix(c.s, i, TypeCodes(types) + tail)
    ensures i < |c.s| && At(c.s, i) !in "BI"
  {
    hide StrPrefix, Builtins, BuiltinTypeList, IsAlpha;
    TypesAgree(types[0]);
    AtPrefix(c.s, i, TypeCodes(types) + tail, 0);
    Unfolded(c.s, i, TypeCodes(types) + tail);
  }

  /** An operator name accepted where a code stands prints the operator, and it is always accepted. */
  lemma OperatorSays(c: Ctx, st: St, i: nat, t: string, last: string, n: int, k: nat, ok: bool, st2: St)
    requires Is(c, st, i, t, last, n) && k < |Operators()| && StrPrefix(c.s, i, Operators()[k].code)
    requires |t + Operators()[k].text| < c.cap && Ran(c, N(OperatorName), st, ok, st2)
    ensures ok && Is(c, st2, i + |Operators()[k].code|, t + Operators()[k].text, "", n)
  {
    hide *;
    var s := OpRead(c, st, i, t, last, n, k);
    Deterministic(c, N(OperatorName), st, ok, st2, true, s);
  }

  /** So does every other part that is read as a component: substitution, constructor, destructor, cast. */
  lemma ComponentSays(c: Ctx, st: St, i: nat, t: string, last: string, n: int, p: Part, ok: bool, st2: St)
    requires Is(c, st, i, t, last, n) && InRange(p) && !p.Args? && (p.Ctor? || p.Dtor? ==> last != "" && last[0] != '<')
    requires StrPrefix(c.s, i, Code(p)) && i + |Code(p)| < |c.s| && At(c.s, i + |Code(p)|) != 'B'
    requires |t + Word(p, last)| < c.cap && Ran(c, Component(), st, ok, st2)
    ensures ok && Is(c, st2, i + |Code(p)|, t + Word(p, last), After(p, last), n)
  {
    hide *;
    var s := PartRead(c, st, i, t, last, n, p);
    Deterministic(c, Component(), st, ok, st2, true, s);
  }

  /** There is one answer, so these are the texts that the parser leaves. */
  lemma OneAnswer(c: Ctx, st: St, ok1: bool, out1: string, ok2: bool, out2: string)
    requires Answers(c, st, ok1, out1) && Answers(c, st, ok2, out2)
    ensures ok1 == ok2 && (ok1 ==> out1 == out2)
  {
    hide TopRun;
  }

  // ---------------------------------------------------------------- some texts in full

  lemma Two(p: Part, q: Part)
    requires InRange(p) && InRange(q) && !q.Args? && !p.Args? && Word(p, "") != ""
    requires p.Id? && ((q.Ctor? || q.Dtor?) ==> After(p, "") != "")
    ensures Nested([p, q])
    ensures Text([p, q]) == Word(p, "") + "::" + Word(q, After(p, ""))
    ensures Codes([p, q]) == Code(p) + Code(q)
  {
    hide Code, InRange, Word, After;
    var both := [p, q];
    assert both[1..] == [q] && [q][1..] == [];
    assert Fitting([q][1..], After(q, After(p, "")), true);
    assert Fitting([q], After(p, ""), true);
    assert Codes([q]) == Code(q) + Codes([q][1..]) == Code(q);
    var t1 := Word(p, "");
    assert "" + t1 == t1;
    var last := After(p, "");
    assert Printed([q], t1, last) == Printed([q][1..], t1 + "::" + Word(q, last), After(q, last));
  }

  predicate ClassName(id: string) {
    Identifier(id) && !Anonymous(id)
  }

  lemma ClassPart(id: string)
    requires ClassName(id)
    ensures InRange(Id(id)) && Code(Id(id)) == InDecimal(|id|) + id && Word(Id(id), "") == id == After(Id(id), "") != ""
  {
  }

  lemma OperatorPart(k: nat, last: string)
    requires k < |Operators()|
    ensures InRange(Op(k)) && Code(Op(k)) == Operators()[k].code && Word(Op(k), last) == Operators()[k].text
  {
  }

  lemma SpecialPart(d: char, last: string)
    ensures d in "123" ==> InRange(Ctor(d)) && Code(Ctor(d)) == ['C', d] && Word(Ctor(d), last) == last
    ensures d in "012" ==> InRange(Dtor(d)) && Code(Dtor(d)) == ['D', d] && Word(Dtor(d), last) == "~" + last
  {
  }

  /** Operators of a class. */
  lemma OperatorText(id: string, k: nat)
    requires ClassName(id) && k < |Operators()|
    ensures Nested([Id(id), Op(k)])
    ensures Codes([Id(id), Op(k)]) == InDecimal(|id|) + id + Operators()[k].code
    ensures Text([Id(id), Op(k)]) == id + "::" + Operators()[k].text
  {
    hide *;
    ClassPart(id);
    OperatorPart(k, id);
    Two(Id(id), Op(k));
  }

  /** Its constructors. */
  lemma ConstructorText(id: string, d: char)
    requires ClassName(id) && d in "123"
    ensures Nested([Id(id), Ctor(d)])
    ensures Codes([Id(id), Ctor(d)]) == InDecimal(|id|) + id + ['C', d]
    ensures Text([Id(id), Ctor(d)]) == id + "::" + id
  {
    hide *;
    ClassPart(id);
    SpecialPart(d, id);
    Two(Id(id), Ctor(d));
  }

  /** Its destructors. */
  lemma DestructorText(id: string, d: char)
    requires ClassName(id) && d in "012"
    ensures Nested([Id(id), Dtor(d)])
    ensures Codes([Id(id), Dtor(d)]) == InDecimal(|id|) + id + ['D', d]
    ensures Text([Id(id), Dtor(d)]) == id + "::~" + id
  {
    hide *;
    ClassPart(id);
    SpecialPart(d, id);
    Two(Id(id), Dtor(d));
    assert id + "::" + ("~" + id) == id + "::~" + id;
  }

  lemma FooCode(parts: seq<Part>, x: Suffix)
    requires parts == [Id("Foo"), Op(9)] && Nested(parts) && (forall p :: p in parts ==> InRange(p)) && x == Clones([])
    requires Codes(parts) == "3" + "Foo" + "pl" && InTypes([8]) && TypeCodes([8]) == "i"
    ensures MemberCode(false, parts, [8], x) == "_ZN3FooplEi\0"
  {
    hide Codes, TypeCodes, InTypes, InRange, Nested;
  }

  lemma FooEntries()
    ensures |Operators()| > 9 && Operators()[9] == Entry("pl", "operator+")
    ensures ClassName("Foo") && InDecimal(3) == "3"
  {
  }

  lemma IntCode()
    ensures InTypes([8]) && TypeCodes([8]) == "i"
  {
    assert Builtins()[8] == Entry("i", "int");
    assert [8][1..] == [];
  }

  lemma FooText()
    ensures "Foo" + "::" + "operator+" + "()" + Suffixed(Clones([])) == "Foo::operator+()"
    ensures InSuffix(Clones([])) && |"Foo" + "::" + "operator+"| + 2 + |Suffixed(Clones([]))| == 16
  {
  }

  /** One name in full, in a buffer that it just fits: Foo::operator+(int). */
  lemma FooPlus(shipped: bool, buf: string) returns (out: string)
    requires |buf| == 17
    ensures Answers(Ctx("_ZN3FooplEi\0", 17, shipped), InitialSt(buf), true, out) && Reads(out, "Foo::operator+()")
  {
    hide *;
    var types, parts, x := [8], [Id("Foo"), Op(9)], Clones([]);
    FooEntries();
    IntCode();
    FooText();
    ClassPart("Foo");
    OperatorPart(9, "");
    OperatorText("Foo", 9);
    FooCode(parts, x);
    out := MemberPrints(shipped, 17, buf, false, parts, types, x);
  }
}
