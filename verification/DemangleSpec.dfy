/** The mangled-name grammar that demangle.cc follows, as a table, and what it means to
    run it.

    `Alts` gives, for each non-terminal, its alternatives in the order in which the parser
    tries them; output actions (`Say`, `Sep`, ...) sit inside the alternatives.  `Run` is the
    big-step meaning of such a table: ordered choice, greedy repetition, and a rewind of
    everything but the output bytes when an alternative fails.  `Lang` reads the same table as
    a plain context-free grammar. */
module DemangleSpec {

  import opened Common

  // ---------------------------------------------------------------- characters and scanners

  predicate IsLower(c: char) { 'a' <= c <= 'z' }
  predicate IsAlpha(c: char) { 'a' <= c <= 'z' || 'A' <= c <= 'Z' }
  predicate IsDigit(c: char) { '0' <= c <= '9' }

  /** The three kinds of digit runs: numbers, floating-point literals and sequence ids. */
  datatype Digits = Decimal | LowerHex | Base36

  predicate InClass(k: Digits, c: char) {
    IsDigit(c) || (k == LowerHex && 'a' <= c <= 'f') || (k == Base36 && 'A' <= c <= 'Z')
  }

  /** A C string: one NUL, at the end. */
  ghost predicate IsCString(s: string) {
    && |s| > 0
    && s[|s| - 1] == '\0'
    && forall i :: 0 <= i < |s| - 1 ==> s[i] != '\0'
  }

  function At(s: string, i: int): char {
    if 0 <= i < |s| then s[i] else '\0'
  }

  /** The end of the longest run of such digits from `i` on. */
  function ScanEnd(s: string, k: Digits, i: nat): (e: nat)
    ensures i <= e && (i <= |s| ==> e <= |s|)
    ensures forall j :: i <= j < e ==> InClass(k, At(s, j))
    ensures !InClass(k, At(s, e))
    decreases if i < |s| then |s| - i else 0
  {
    if i < |s| && InClass(k, s[i]) then ScanEnd(s, k, i + 1) else i
  }

  /** 32-bit two's complement. */
  function Wrap32(x: int): int {
    (x + 0x8000_0000) % 0x1_0000_0000 - 0x8000_0000
  }

  function DigitsValue(s: string, i: nat, acc: int): int
    decreases if i < |s| then |s| - i else 0
  {
    if i < |s| && IsDigit(s[i])
    then DigitsValue(s, i + 1, Wrap32(acc * 10 + (s[i] as int - '0' as int)))
    else acc
  }

  datatype Number = Number(value: int, end: nat)

  /** <number>: an optional 'n' and at least one digit. */
  function NumberAt(s: string, i: nat): Option<Number> {
    var j := if At(s, i) == 'n' then i + 1 else i;
    var e := ScanEnd(s, Decimal, j);
    if e == j then None
    else Some(Number(Wrap32(if At(s, i) == 'n' then -DigitsValue(s, j, 0) else DigitsValue(s, j, 0)), e))
  }

  function StrPrefix(s: string, i: nat, prefix: string): bool {
    i + |prefix| <= |s| && s[i..i + |prefix|] == prefix
  }

  const AnonPrefix := "_GLOBAL__N_"

  /** Where a <source-name> at `i` ends, when its length is not negative and the name is there. */
  function SourceNameEnd(s: string, i: nat): Option<nat> {
    match NumberAt(s, i)
    case None => None
    case Some(n) => if 0 <= n.value && n.end + n.value < |s| then Some(n.end + n.value) else None
  }

  /** Where the shipped code takes the cursor after the number and the identifier: only the length -1 is
      refused, any other negative length is taken. */
  function ShippedSourceNameEnd(s: string, i: nat): Option<int> {
    match NumberAt(s, i)
    case None => None
    case Some(n) =>
      if n.value == -1 || (0 <= n.value && |s| <= n.end + n.value) then None else Some(n.end + n.value)
  }

  // ---------------------------------------------------------------- abbreviation tables

  datatype AbbrevPair = AbbrevPair(abbrev: string, realName: string)

  function OperatorList(): seq<AbbrevPair> {
    ArithmeticOperators() + AssignmentOperators() + OtherOperators()
  }

  function ArithmeticOperators(): seq<AbbrevPair> {
    [AbbrevPair("nw", "new"), AbbrevPair("na", "new[]"), AbbrevPair("dl", "delete"), AbbrevPair("da", "delete[]"),
     AbbrevPair("ps", "+"), AbbrevPair("ng", "-"), AbbrevPair("ad", "&"), AbbrevPair("de", "*"),
     AbbrevPair("co", "~"), AbbrevPair("pl", "+"), AbbrevPair("mi", "-"), AbbrevPair("ml", "*"),
     AbbrevPair("dv", "/"), AbbrevPair("rm", "%"), AbbrevPair("an", "&"), AbbrevPair("or", "|"),
     AbbrevPair("eo", "^")]
  }

  function AssignmentOperators(): seq<AbbrevPair> {
    [AbbrevPair("aS", "="), AbbrevPair("pL", "+="), AbbrevPair("mI", "-="), AbbrevPair("mL", "*="),
     AbbrevPair("dV", "/="), AbbrevPair("rM", "%="), AbbrevPair("aN", "&="), AbbrevPair("oR", "|="),
     AbbrevPair("eO", "^="), AbbrevPair("ls", "<<"), AbbrevPair("rs", ">>"), AbbrevPair("lS", "<<="),
     AbbrevPair("rS", ">>=")]
  }

  function OtherOperators(): seq<AbbrevPair> {
    [AbbrevPair("eq", "=="), AbbrevPair("ne", "!="), AbbrevPair("lt", "<"), AbbrevPair("gt", ">"),
     AbbrevPair("le", "<="), AbbrevPair("ge", ">="), AbbrevPair("nt", "!"), AbbrevPair("aa", "&&"),
     AbbrevPair("oo", "||"), AbbrevPair("pp", "++"), AbbrevPair("mm", "--"), AbbrevPair("cm", ","),
     AbbrevPair("pm", "->*"), AbbrevPair("pt", "->"), AbbrevPair("cl", "()"), AbbrevPair("ix", "[]"),
     AbbrevPair("qu", "?"), AbbrevPair("st", "sizeof"), AbbrevPair("sz", "sizeof")]
  }

  function BuiltinTypeList(): seq<AbbrevPair> {
    [AbbrevPair("v", "void"), AbbrevPair("w", "wchar_t"), AbbrevPair("b", "bool"), AbbrevPair("c", "char"),
     AbbrevPair("a", "signed char"), AbbrevPair("h", "unsigned char"), AbbrevPair("s", "short"),
     AbbrevPair("t", "unsigned short"), AbbrevPair("i", "int"), AbbrevPair("j", "unsigned int"),
     AbbrevPair("l", "long"), AbbrevPair("m", "unsigned long"), AbbrevPair("x", "long long"),
     AbbrevPair("y", "unsigned long long"), AbbrevPair("n", "__int128"), AbbrevPair("o", "unsigned __int128"),
     AbbrevPair("f", "float"), AbbrevPair("d", "double"), AbbrevPair("e", "long double"),
     AbbrevPair("g", "__float128"), AbbrevPair("z", "ellipsis")]
  }

  function SubstitutionList(): seq<AbbrevPair> {
    [AbbrevPair("St", ""), AbbrevPair("Sa", "allocator"), AbbrevPair("Sb", "basic_string"),
     AbbrevPair("Ss", "string"), AbbrevPair("Si", "istream"), AbbrevPair("So", "ostream"),
     AbbrevPair("Sd", "iostream")]
  }

  /** `n` characters (1 or 2) of the abbreviation, from its `off`-th on, stand at position i. */
  predicate Spelled(a: AbbrevPair, off: nat, n: nat, s: string, i: nat) {
    At(a.abbrev, off) == At(s, i) && (n == 2 ==> At(a.abbrev, off + 1) == At(s, i + 1))
  }

  /** The first entry from `k` on that is spelled at position i, or the length of the table. */
  function FirstSpelled(t: seq<AbbrevPair>, off: nat, n: nat, s: string, i: nat, k: nat): (r: nat)
    requires k <= |t|
    ensures k <= r <= |t|
    ensures r < |t| ==> Spelled(t[r], off, n, s, i)
    ensures forall j :: k <= j < r ==> !Spelled(t[j], off, n, s, i)
    decreases |t| - k
  {
    if k == |t| || Spelled(t[k], off, n, s, i) then k else FirstSpelled(t, off, n, s, i, k + 1)
  }

  // ---------------------------------------------------------------- the parser state

  /** The demangling state; `buf` is the output buffer it points into. */
  datatype St = St(cur: nat, outCur: nat, prevName: nat, prevLen: int, nest: int,
                   append: bool, overflowed: bool, buf: string)

  /** The mangled string, the size of the output buffer, and whether source names of a length below -1 are
      taken, as in the shipped code, or refused, as the grammar says. */
  datatype Ctx = Ctx(s: string, cap: nat, shipped: bool := false)

  /** All fields as in `st`, the output bytes as in `later`. */
  function Rewind(st: St, later: St): St {
    st.(buf := later.buf)
  }

  // ---------------------------------------------------------------- output

  /** Where appended characters come from: a string, or the output buffer itself. */
  datatype Source = Lit(t: string) | Mem(p: nat)

  function SourceAt(src: Source, buf: string, i: nat): char {
    match src
    case Lit(t) => At(t, i)
    case Mem(p) => At(buf, p + i)
  }

  function Put(buf: string, i: nat, c: char): (r: string)
    ensures |r| == |buf|
  {
    if i < |buf| then buf[i := c] else buf
  }

  function Writes(c: Ctx, st: St, src: Source, i: nat, n: nat): St
    decreases n - i
  {
    if i >= n then st
    else if st.outCur + 1 < c.cap then
      Writes(c, st.(buf := Put(st.buf, st.outCur, SourceAt(src, st.buf, i)), outCur := st.outCur + 1), src, i + 1, n)
    else st.(overflowed := true)
  }

  function Terminated(st: St): St {
    if st.overflowed then st else st.(buf := Put(st.buf, st.outCur, '\0'))
  }

  function Appended(c: Ctx, st: St, src: Source, n: nat): St {
    Terminated(Writes(c, st, src, 0, n))
  }

  /** Append with the "< <" tweak and the memory of the last identifier, when appending is on. */
  function Said(c: Ctx, st: St, src: Source, n: int): St {
    if !st.append || n <= 0 then st
    else
      var st1 := if SourceAt(src, st.buf, 0) == '<' && 0 < st.outCur && At(st.buf, st.outCur - 1) == '<'
                 then Appended(c, st, Lit(" "), 1) else st;
      var c0 := SourceAt(src, st1.buf, 0);
      var st2 := if IsAlpha(c0) || c0 == '_' then st1.(prevName := st1.outCur, prevLen := n) else st1;
      Appended(c, st2, src, n)
  }

  function SaidText(c: Ctx, st: St, t: string): St {
    Said(c, st, Lit(t), |t|)
  }

  function Separated(c: Ctx, st: St): St {
    if st.nest >= 1 then SaidText(c, st, "::") else st
  }

  function Cancelled(st: St): St {
    if st.nest >= 1 && st.append && st.outCur >= 2
    then st.(outCur := st.outCur - 2, buf := Put(st.buf, st.outCur - 2, '\0'))
    else st
  }

  /** ++ on a 16-bit nest level, when inside a nested name. */
  function Bumped(st: St): St {
    if st.nest > -1 then st.(nest := if st.nest == 32767 then -32768 else st.nest + 1) else st
  }

  function Identified(c: Ctx, st: St, e: nat, n: nat): St {
    if n > |AnonPrefix| && StrPrefix(c.s, e, AnonPrefix)
    then SaidText(c, st, "(anonymous namespace)")
    else if e + n <= |c.s| then Said(c, st, Lit(c.s[e..e + n]), n) else st
  }

  // ---------------------------------------------------------------- the grammar

  datatype NT =
    | MangledName | Encoding | Name | UnscopedName | UnscopedTemplateName | NestedName | Prefix | PrefixMore
    | UnqualifiedName | SourceName | LocalSourceName | AbiTags | AbiTag | OperatorName | SpecialName
    | CallOffset | NVOffset | VOffset | CtorDtorName | Type | CVQualifiers | BuiltinType | FunctionType
    | BareFunctionType | ClassEnumType | ArrayType | PointerToMemberType | TemplateParam
    | TemplateTemplateParam | TemplateArgs | TemplateArg | Expression | ExprPrimary | LocalName
    | Discriminator | Substitution

  datatype Peg =
    | C(c: char) | CC(c0: char, c1: char) | OneOf(cs: string)   // tokens
    | Num | Float | SeqId | Ident                               // scanners
    | Builtin | Oper | Abbrev                                   // table look-ups, with output
    | Say(t: string) | Prev | Sep | Cancel | Bump               // actions; they always succeed
    | Seq(es: seq<Peg>) | Alt(es: seq<Peg>) | Opt(e: Peg) | Star(e: Peg)
    | Nest(e: Peg)                                              // nest level 0 inside, restored after
    | Quiet(e: Peg)                                             // appending off inside, restored after
    | N(nt: NT)

  function Alts(nt: NT): seq<Peg> {
    match nt
    case MangledName => [Seq([CC('_', 'Z'), N(Encoding)])]
    case Encoding => [Seq([N(Name), N(BareFunctionType)]), N(Name), N(SpecialName)]
    case Name => [N(NestedName), N(LocalName), Seq([N(UnscopedTemplateName), N(TemplateArgs)]), N(UnscopedName)]
    case UnscopedName => [N(UnqualifiedName), Seq([CC('S', 't'), Say("std::"), N(UnqualifiedName)])]
    case UnscopedTemplateName => [N(UnscopedName), N(Substitution)]
    case NestedName => [Seq([C('N'), Nest(Seq([Opt(N(CVQualifiers)), N(Prefix)])), C('E')])]
    // A prefix is a run of components; template arguments may follow a non-empty run, and
    // then another prefix.  A separator is written before it is known to be needed.
    case Prefix => [Seq([Sep, Alt([Seq([Component(), Bump, N(PrefixMore)]), Cancel])])]
    case PrefixMore => [Seq([Sep, Alt([Seq([Component(), Bump, N(PrefixMore)]),
                                       Seq([Cancel, Opt(Seq([N(TemplateArgs), N(Prefix)]))])])])]
    case UnqualifiedName => [N(OperatorName), N(CtorDtorName),
                             Seq([N(SourceName), Opt(N(AbiTags))]), Seq([N(LocalSourceName), Opt(N(AbiTags))])]
    case SourceName => [Ident]
    case LocalSourceName => [Seq([C('L'), N(SourceName), Opt(N(Discriminator))])]
    // After the last tag a stray 'B' is swallowed as well.
    case AbiTags => [Quiet(Seq([N(AbiTag), Star(N(AbiTag)), Opt(C('B'))]))]
    case AbiTag => [Seq([C('B'), N(SourceName)])]
    case OperatorName => [Seq([CC('c', 'v'), Say("operator "), Nest(N(Type))]),
                          Seq([C('v'), OneOf("0123456789"), N(SourceName)]), Oper]
    case SpecialName => [Seq([C('T'), OneOf("VTIS"), N(Type)]),
                         Seq([CC('T', 'c'), N(CallOffset), N(CallOffset), N(Encoding)]),
                         Seq([CC('G', 'V'), N(Name)]),
                         Seq([C('T'), N(CallOffset), N(Encoding)]),
                         Seq([CC('T', 'C'), N(Type), Num, C('_'), Quiet(N(Type))]),
                         Seq([C('T'), OneOf("FJ"), N(Type)]),
                         Seq([CC('G', 'R'), N(Name)]),
                         Seq([CC('G', 'A'), N(Encoding)]),
                         Seq([C('T'), OneOf("hv"), N(CallOffset), N(Encoding)])]
    case CallOffset => [Seq([C('h'), N(NVOffset), C('_')]), Seq([C('v'), N(VOffset), C('_')])]
    case NVOffset => [Num]
    case VOffset => [Seq([Num, C('_'), Num])]
    case CtorDtorName => [Seq([C('C'), OneOf("123"), Prev]), Seq([C('D'), OneOf("012"), Say("~"), Prev])]
    case Type => [Seq([N(CVQualifiers), N(Type)]), Seq([OneOf("OPRCG"), N(Type)]), Seq([CC('D', 'p'), N(Type)]),
                  Seq([C('D'), OneOf("tT"), N(Expression), C('E')]), Seq([C('U'), N(SourceName), N(Type)]),
                  N(BuiltinType), N(FunctionType), N(ClassEnumType), N(ArrayType), N(PointerToMemberType),
                  N(Substitution), Seq([N(TemplateTemplateParam), N(TemplateArgs)]), N(TemplateParam)]
    case CVQualifiers => [Seq([C('r'), Opt(C('V')), Opt(C('K'))]), Seq([C('V'), Opt(C('K'))]), C('K')]
    case BuiltinType => [Builtin, Seq([C('u'), N(SourceName)])]
    case FunctionType => [Seq([C('F'), Opt(C('Y')), N(BareFunctionType), C('E')])]
    case BareFunctionType => [Seq([Quiet(Seq([N(Type), Star(N(Type))])), Say("()")])]
    case ClassEnumType => [N(Name)]
    case ArrayType => [Seq([C('A'), Num, C('_'), N(Type)]), Seq([C('A'), Opt(N(Expression)), C('_'), N(Type)])]
    case PointerToMemberType => [Seq([C('M'), N(Type), N(Type)])]
    case TemplateParam => [Seq([CC('T', '_'), Say("?")]), Seq([C('T'), Num, C('_'), Say("?")])]
    case TemplateTemplateParam => [N(TemplateParam), N(Substitution)]
    case TemplateArgs => [Seq([Quiet(Seq([C('I'), N(TemplateArg), Star(N(TemplateArg)), C('E')])), Say("<>")])]
    case TemplateArg => [Seq([OneOf("IJ"), Star(N(TemplateArg)), C('E')]), N(Type), N(ExprPrimary),
                         Seq([C('X'), N(Expression), C('E')])]
    case Expression => [N(TemplateParam), N(ExprPrimary),
                        Seq([N(OperatorName), N(Expression), N(Expression), N(Expression)]),
                        Seq([N(OperatorName), N(Expression), N(Expression)]),
                        Seq([N(OperatorName), N(Expression)]),
                        Seq([CC('s', 't'), N(Type)]),
                        Seq([CC('s', 'r'), N(Type), N(UnqualifiedName), N(TemplateArgs)]),
                        Seq([CC('s', 'r'), N(Type), N(UnqualifiedName)])]
    case ExprPrimary => [Seq([C('L'), N(Type), Num, C('E')]), Seq([C('L'), N(Type), Float, C('E')]),
                         Seq([C('L'), N(MangledName), C('E')]), Seq([CC('L', 'Z'), N(Encoding), C('E')])]
    case LocalName => [Seq([C('Z'), N(Encoding), C('E'), Say("::"), N(Name), Opt(N(Discriminator))]),
                       Seq([C('Z'), N(Encoding), CC('E', 's'), Opt(N(Discriminator))])]
    case Discriminator => [Seq([C('_'), Num])]
    case Substitution => [Seq([CC('S', '_'), Say("?")]), Seq([C('S'), SeqId, C('_'), Say("?")]),
                          Seq([C('S'), Abbrev])]
  }

  function Choice(nt: NT, k: nat): Peg {
    if k < |Alts(nt)| then Alts(nt)[k] else Alt([])
  }

  function Component(): Peg {
    Alt([N(TemplateParam), N(Substitution), N(UnscopedName)])
  }

  // ---------------------------------------------------------------- running the grammar

  function Fail(st: St): (bool, St) { (false, st) }

  function SaidOper(c: Ctx, st: St, name: string): St {
    var st1 := SaidText(c, st, "operator");
    var st2 := if IsLower(At(name, 0)) then SaidText(c, st1, " ") else st1;
    SaidText(c, st2, name)
  }

  function SaidAbbrev(c: Ctx, st: St, name: string): St {
    var st1 := SaidText(c, st, "std");
    if At(name, 0) != '\0' then SaidText(c, SaidText(c, st1, "::"), name) else st1
  }

  /** The effect of a token, scanner, look-up or action. */
  function Step(c: Ctx, e: Peg, st: St): (bool, St) {
    match e
    case C(c0) => if At(c.s, st.cur) == c0 then (true, st.(cur := st.cur + 1)) else Fail(st)
    case CC(c0, c1) =>
      if At(c.s, st.cur) == c0 && At(c.s, st.cur + 1) == c1 then (true, st.(cur := st.cur + 2)) else Fail(st)
    case OneOf(cs) => if At(c.s, st.cur) in cs then (true, st.(cur := st.cur + 1)) else Fail(st)
    case Num =>
      (match NumberAt(c.s, st.cur) case None => Fail(st) case Some(n) => (true, st.(cur := n.end)))
    case Float => Scan(c, LowerHex, st)
    case SeqId => Scan(c, Base36, st)
    case Ident =>
      (match SourceNameEnd(c.s, st.cur)
       case None => if c.shipped then StepBack(c, st) else Fail(st)
       case Some(end) =>
         var n := NumberAt(c.s, st.cur).value;
         (true, Identified(c, st.(cur := n.end), n.end, end - n.end).(cur := end)))
    case Builtin =>
      var k := FirstSpelled(BuiltinTypeList(), 0, 1, c.s, st.cur, 0);
      if k == |BuiltinTypeList()| then Fail(st)
      else (true, SaidText(c, st, BuiltinTypeList()[k].realName).(cur := st.cur + 1))
    case Oper =>
      var k := FirstSpelled(OperatorList(), 0, 2, c.s, st.cur, 0);
      if !(IsLower(At(c.s, st.cur)) && IsAlpha(At(c.s, st.cur + 1))) || k == |OperatorList()| then Fail(st)
      else (true, SaidOper(c, st, OperatorList()[k].realName).(cur := st.cur + 2))
    case Abbrev =>
      var k := FirstSpelled(SubstitutionList(), 1, 1, c.s, st.cur, 0);
      if k == |SubstitutionList()| then Fail(st)
      else (true, SaidAbbrev(c, st, SubstitutionList()[k].realName).(cur := st.cur + 1))
    case Say(t) => (true, SaidText(c, st, t))
    case Prev => (true, Said(c, st, Mem(st.prevName), st.prevLen))
    case Sep => (true, Separated(c, st))
    case Cancel => (true, Cancelled(st))
    case Bump => (true, Bumped(st))
    case _ => Fail(st)
  }

  /** The shipped step over a source name that is not in the grammar: nothing is printed, and the cursor
      moves.  Before the start of the string it is undefined; here that is a failure. */
  function StepBack(c: Ctx, st: St): (bool, St) {
    match ShippedSourceNameEnd(c.s, st.cur)
    case None => Fail(st)
    case Some(end) => if 0 <= end then (true, st.(cur := end)) else Fail(st)
  }

  function Scan(c: Ctx, k: Digits, st: St): (bool, St) {
    var e := ScanEnd(c.s, k, st.cur);
    if e == st.cur then Fail(st) else (true, st.(cur := e))
  }

  /** From state `st`, `e` succeeds or fails (`ok`) and leaves state `st2`. */
  least predicate Run[nat](c: Ctx, e: Peg, st: St, ok: bool, st2: St)
  {
    match e
    case Seq(es) =>
      if es == [] then ok && st2 == st
      else exists ok1: bool, st1: St, st3: St ::
        (&& Run(c, es[0], st, ok1, st1)
         && (if ok1 then Run(c, Seq(es[1..]), st1, ok, st3) else !ok && st3 == st1)
         && st2 == if ok then st3 else Rewind(st, st3))
    case Alt(es) =>
      if es == [] then !ok && st2 == st
      else exists ok1: bool, st1: St ::
        (&& Run(c, es[0], st, ok1, st1)
         && if ok1 then ok && st2 == st1 else Run(c, Alt(es[1..]), st1, ok, st2))
    case Opt(e1) => ok && exists ok1: bool :: Run(c, e1, st, ok1, st2)
    case Star(e1) =>
      ok && exists ok1: bool, st1: St ::
        (&& Run(c, e1, st, ok1, st1)
         && if ok1 then Run(c, e, st1, true, st2) else st2 == st1)
    case Nest(e1) =>
      exists st1: St ::
        Run(c, e1, st.(nest := 0), ok, st1) && st2 == if ok then st1.(nest := st.nest) else Rewind(st, st1)
    case Quiet(e1) =>
      exists st1: St ::
        Run(c, e1, st.(append := false), ok, st1) && st2 == if ok then st1.(append := st.append) else Rewind(st, st1)
    case N(nt) => Run(c, Alt(Alts(nt)), st, ok, st2)
    case _ => (ok, st2) == Step(c, e, st)
  }

  /** `Run`, as a name that can be hidden. */
  ghost predicate Ran(c: Ctx, e: Peg, st: St, ok: bool, st2: St) {
    Run(c, e, st, ok, st2)
  }

  /** The context-free language of the same table: `e` derives s[i..j]. */
  least predicate Lang[nat](s: string, e: Peg, i: nat, j: nat)
  {
    match e
    case Seq(es) =>
      if es == [] then i == j else exists m: nat :: Lang(s, es[0], i, m) && Lang(s, Seq(es[1..]), m, j)
    case Alt(es) => es != [] && (Lang(s, es[0], i, j) || Lang(s, Alt(es[1..]), i, j))
    case Opt(e1) => i == j || Lang(s, e1, i, j)
    case Star(e1) => i == j || exists m: nat :: Lang(s, e1, i, m) && Lang(s, e, m, j)
    case Nest(e1) => Lang(s, e1, i, j)
    case Quiet(e1) => Lang(s, e1, i, j)
    case N(nt) => Lang(s, Alt(Alts(nt)), i, j)
    case C(c0) => j == i + 1 && At(s, i) == c0
    case CC(c0, c1) => j == i + 2 && At(s, i) == c0 && At(s, i + 1) == c1
    case OneOf(cs) => j == i + 1 && At(s, i) in cs
    case Num => NumberAt(s, i).Some? && NumberAt(s, i).value.end == j
    case Float => i < j == ScanEnd(s, LowerHex, i)
    case SeqId => i < j == ScanEnd(s, Base36, i)
    case Ident => SourceNameEnd(s, i) == Some(j)
    case Builtin => j == i + 1 && exists a :: a in BuiltinTypeList() && Spelled(a, 0, 1, s, i)
    case Oper => j == i + 2 && exists a :: a in OperatorList() && Spelled(a, 0, 2, s, i)
    case Abbrev => j == i + 1 && exists a :: a in SubstitutionList() && Spelled(a, 1, 1, s, i)
    case _ => i == j
  }

  // ---------------------------------------------------------------- the whole name

  /** ScanEnd for letters. */
  function AlphaEnd(s: string, i: nat): (e: nat)
    ensures i <= e && (i <= |s| ==> e <= |s|)
    ensures forall j :: i <= j < e ==> IsAlpha(At(s, j))
    ensures !IsAlpha(At(s, e))
    decreases if i < |s| then |s| - i else 0
  {
    if i < |s| && IsAlpha(s[i]) then AlphaEnd(s, i + 1) else i
  }

  /** (.<alpha>+.<digit>+)* up to the end of the string. */
  predicate CloneSuffix(s: string, i: nat)
    decreases if i < |s| then |s| - i else 0
  {
    At(s, i) == '\0' ||
    (At(s, i) == '.' && IsAlpha(At(s, i + 1)) &&
     var j := AlphaEnd(s, i + 1);
     At(s, j) == '.' && IsDigit(At(s, j + 1)) && CloneSuffix(s, ScanEnd(s, Decimal, j + 1)))
  }

  /** A mangled name, then nothing, a clone suffix or a version suffix. */
  ghost predicate TopRun(c: Ctx, st: St, ok: bool, st2: St) {
    exists ok1: bool, st1: St :: Ran(c, N(MangledName), st, ok1, st1) && TopEnd(c, ok1, st1, ok, st2)
  }

  ghost predicate TopEnd(c: Ctx, ok1: bool, st1: St, ok: bool, st2: St) {
    if !ok1 then !ok
    else if CloneSuffix(c.s, st1.cur) then ok && st2 == st1
    else if At(c.s, st1.cur) == '@' && st1.cur < |c.s| then
      ok && st2 == SaidText(c, st1, c.s[st1.cur..|c.s| - 1])
    else !ok
  }

  /** The parse ends; `ok` says whether it accepts the name within the buffer, and if so it leaves `out` there. */
  ghost predicate Answers(c: Ctx, st: St, ok: bool, out: string) {
    && (exists ok1: bool, st1: St :: TopRun(c, st, ok1, st1))
    && (ok <==> exists st2: St :: TopRun(c, st, true, st2) && !st2.overflowed)
    && (ok ==> forall st2: St :: TopRun(c, st, true, st2) ==> st2.buf == out)
  }

  function InitialSt(buf: string): St {
    St(0, 0, 0, -1, -1, true, false, buf)
  }
}
