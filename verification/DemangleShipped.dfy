/** Where the shipped parser leaves the grammar: it takes source names of a negative length.  When it
    still agrees with the grammar, when it still moves forward, and an input it never gets through. */
module DemangleShipped {
  import opened Common
  import opened DemangleSpec
  import opened DemangleTheory

  function Shipped(c: Ctx): Ctx {
    c.(shipped := true)
  }

  // ---------------------------------------------------------------- one source name

  /** The number at `p`, if there is one, is not below -1. */
  predicate Harmless(s: string, p: nat) {
    NumberAt(s, p).Some? ==> NumberAt(s, p).value.value >= -1
  }

  /** The shipped step is the grammar's exactly when the number is not below -1, as long as the cursor
      stays inside the string. */
  lemma SameNameIff(c: Ctx, st: St)
    requires !c.shipped
    requires ShippedSourceNameEnd(c.s, st.cur).Some? ==> ShippedSourceNameEnd(c.s, st.cur).value >= 0
    ensures Step(Shipped(c), Ident, st) == Step(c, Ident, st) <==> Harmless(c.s, st.cur)
  {
    hide NumberAt, Identified;
    if SourceNameEnd(c.s, st.cur).Some? {
      var n := NumberAt(c.s, st.cur).value;
      SameIdentified(c, st.(cur := n.end), n.end, n.value);
    }
  }

  /** A shipped source name moves forward exactly when the number has more characters than it takes
      back. */
  lemma MovesForwardIff(c: Ctx, st: St, st2: St)
    requires c.shipped && Ran(c, Ident, st, true, st2)
    ensures NumberAt(c.s, st.cur).Some?
    ensures var n := NumberAt(c.s, st.cur).value;
            st2.cur == n.end + n.value && (st2.cur > st.cur <==> -n.value < n.end - st.cur)
  {
    var k := RunHeight(c, Ident, st, true, st2);
    BasicParts(k, c, Ident, st, true, st2);
    hide NumberAt, Identified, Run, Ran;
  }

  /** A source name of the grammar always moves forward. */
  lemma GrammarMovesForward(c: Ctx, st: St, st2: St)
    requires !c.shipped && Ran(c, Ident, st, true, st2)
    ensures st2.cur > st.cur
  {
    var k := RunHeight(c, Ident, st, true, st2);
    BasicParts(k, c, Ident, st, true, st2);
    hide Identified, Run, Ran, DigitsValue;
  }

  /** "n0002" has the length -2 and still goes forward by three. */
  lemma NegativeLengthGoesForward()
    ensures ShippedSourceNameEnd(['n', '0', '0', '0', '2', '\0'], 0) == Some(3)
  {
    var s := ['n', '0', '0', '0', '2', '\0'];
    assert ScanEnd(s, Decimal, 5) == 5;
    assert ScanEnd(s, Decimal, 4) == 5;
    assert ScanEnd(s, Decimal, 3) == 5;
    assert ScanEnd(s, Decimal, 2) == 5;
    assert ScanEnd(s, Decimal, 1) == 5;
    assert DigitsValue(s, 5, 2) == 2;
    assert DigitsValue(s, 4, 0) == 2;
    assert DigitsValue(s, 3, 0) == 2;
    assert DigitsValue(s, 2, 0) == 2;
    assert DigitsValue(s, 1, 0) == 2;
    assert NumberAt(s, 0) == Some(Number(-2, 5));
  }

  /** In "_Zn4" the source name at 2 sends the cursor back to the start of the string. */
  lemma NegativeLengthStepsBack()
    ensures var s := ['_', 'Z', 'n', '4', '\0']; ShippedSourceNameEnd(s, 2) == Some(0) && SourceNameEnd(s, 2) == None
  {
    var s := ['_', 'Z', 'n', '4', '\0'];
    assert ScanEnd(s, Decimal, 4) == 4;
    assert ScanEnd(s, Decimal, 3) == 4;
    assert DigitsValue(s, 4, 4) == 4;
    assert DigitsValue(s, 3, 0) == 4;
    assert NumberAt(s, 2) == Some(Number(-4, 4));
  }

  // ---------------------------------------------------------------- names on which both agree

  /** Reading `s` from `i` as `e` by the context-free grammar, a source name may be tried at `p`. */
  least predicate Reaches[nat](s: string, e: Peg, i: nat, p: nat)
  {
    match e
    case Seq(es) =>
      es != [] && (Reaches(s, es[0], i, p) || exists m: nat :: Lang(s, es[0], i, m) && Reaches(s, Seq(es[1..]), m, p))
    case Alt(es) => es != [] && (Reaches(s, es[0], i, p) || Reaches(s, Alt(es[1..]), i, p))
    case Opt(e1) => Reaches(s, e1, i, p)
    case Star(e1) => Reaches(s, e1, i, p) || exists m: nat :: Lang(s, e1, i, m) && Reaches(s, e, m, p)
    case Nest(e1) => Reaches(s, e1, i, p)
    case Quiet(e1) => Reaches(s, e1, i, p)
    case N(nt) => Reaches(s, Alt(Alts(nt)), i, p)
    case Ident => p == i
    case _ => false
  }

  /** Wherever a source name may be tried, the number is not below -1. */
  ghost predicate Safe(s: string, e: Peg, i: nat) {
    forall p: nat :: Reaches(s, e, i, p) ==> Harmless(s, p)
  }

  lemma ReachesFirst(s: string, es: seq<Peg>, i: nat, p: nat)
    requires es != [] && Reaches(s, es[0], i, p)
    ensures Reaches(s, Seq(es), i, p)
  {
    hide Alts, Lang;
  }

  lemma ReachesChoice(s: string, es: seq<Peg>, i: nat, p: nat)
    requires es != [] && Reaches(s, es[0], i, p)
    ensures Reaches(s, Alt(es), i, p)
  {
    hide Alts, Lang;
  }

  lemma ReachesNext(s: string, es: seq<Peg>, i: nat, m: nat, p: nat)
    requires es != [] && Lang(s, es[0], i, m) && Reaches(s, Seq(es[1..]), m, p)
    ensures Reaches(s, Seq(es), i, p)
  {
    hide Alts;
  }

  lemma ReachesElse(s: string, es: seq<Peg>, i: nat, p: nat)
    requires es != [] && Reaches(s, Alt(es[1..]), i, p)
    ensures Reaches(s, Alt(es), i, p)
  {
    hide Alts, Lang;
  }

  lemma ReachesOpt(s: string, e: Peg, i: nat, p: nat)
    requires Reaches(s, e, i, p)
    ensures Reaches(s, Opt(e), i, p)
  {
    hide Alts, Lang;
  }

  lemma ReachesStar(s: string, e: Peg, i: nat, p: nat)
    requires Reaches(s, e, i, p)
    ensures Reaches(s, Star(e), i, p)
  {
    hide Alts, Lang;
  }

  lemma ReachesNest(s: string, e: Peg, i: nat, p: nat)
    requires Reaches(s, e, i, p)
    ensures Reaches(s, Nest(e), i, p)
  {
    hide Alts, Lang;
  }

  lemma ReachesQuiet(s: string, e: Peg, i: nat, p: nat)
    requires Reaches(s, e, i, p)
    ensures Reaches(s, Quiet(e), i, p)
  {
    hide Alts, Lang;
  }

  lemma ReachesAgain(s: string, e: Peg, i: nat, m: nat, p: nat)
    requires Lang(s, e, i, m) && Reaches(s, Star(e), m, p)
    ensures Reaches(s, Star(e), i, p)
  {
    hide Alts;
  }

  lemma ReachesEntry(s: string, nt: NT, i: nat, p: nat)
    requires Reaches(s, Alt(Alts(nt)), i, p)
    ensures Reaches(s, N(nt), i, p)
  {
    hide Alts;
  }

  lemma SafeFirst(s: string, es: seq<Peg>, i: nat)
    requires es != [] && (Safe(s, Seq(es), i) || Safe(s, Alt(es), i))
    ensures Safe(s, es[0], i)
  {
    hide Alts, Harmless, Lang, Reaches;
    forall p: nat | Reaches(s, es[0], i, p) ensures Harmless(s, p) {
      ReachesFirst(s, es, i, p);
      ReachesChoice(s, es, i, p);
    }
  }

  lemma SafeNext(s: string, es: seq<Peg>, i: nat, m: nat)
    requires es != [] && Safe(s, Seq(es), i) && Lang(s, es[0], i, m)
    ensures Safe(s, Seq(es[1..]), m)
  {
    hide Alts, Harmless, Lang, Reaches;
    forall p: nat | Reaches(s, Seq(es[1..]), m, p) ensures Harmless(s, p) { ReachesNext(s, es, i, m, p); }
  }

  lemma SafeElse(s: string, es: seq<Peg>, i: nat)
    requires es != [] && Safe(s, Alt(es), i)
    ensures Safe(s, Alt(es[1..]), i)
  {
    hide Alts, Harmless, Lang, Reaches;
    forall p: nat | Reaches(s, Alt(es[1..]), i, p) ensures Harmless(s, p) { ReachesElse(s, es, i, p); }
  }

  lemma SafeInside(s: string, e: Peg, i: nat)
    requires (e.Opt? || e.Star? || e.Nest? || e.Quiet?) && Safe(s, e, i)
    ensures Safe(s, e.e, i)
  {
    hide Alts, Harmless, Lang, Reaches;
    forall p: nat | Reaches(s, e.e, i, p) ensures Harmless(s, p) {
      match e
      case Opt(e1) => ReachesOpt(s, e1, i, p);
      case Star(e1) => ReachesStar(s, e1, i, p);
      case Nest(e1) => ReachesNest(s, e1, i, p);
      case Quiet(e1) => ReachesQuiet(s, e1, i, p);
    }
  }

  lemma SafeAgain(s: string, e: Peg, i: nat, m: nat)
    requires Safe(s, Star(e), i) && Lang(s, e, i, m)
    ensures Safe(s, Star(e), m)
  {
    hide Alts, Harmless, Lang, Reaches;
    forall p: nat | Reaches(s, Star(e), m, p) ensures Harmless(s, p) { ReachesAgain(s, e, i, m, p); }
  }

  lemma SafeEntry(s: string, nt: NT, i: nat)
    requires Safe(s, N(nt), i)
    ensures Safe(s, Alt(Alts(nt)), i)
  {
    hide Alts, Harmless, Lang, Reaches;
    forall p: nat | Reaches(s, Alt(Alts(nt)), i, p) ensures Harmless(s, p) { ReachesEntry(s, nt, i, p); }
  }

  lemma SafeHere(s: string, i: nat)
    requires Safe(s, Ident, i)
    ensures Harmless(s, i)
  {
    hide Alts, Harmless, Lang;
    assert Reaches(s, Ident, i, i);
  }

  lemma SameWrites(c: Ctx, st: St, src: Source, i: nat, n: nat)
    ensures Writes(Shipped(c), st, src, i, n) == Writes(c, st, src, i, n)
    decreases n - i
  {
  }

  lemma SameSaid(c: Ctx, st: St, src: Source, n: int)
    ensures Said(Shipped(c), st, src, n) == Said(c, st, src, n)
  {
    hide Writes;
    if st.append && n > 0 {
      SameWrites(c, st, Lit(" "), 0, 1);
      var st1 := if SourceAt(src, st.buf, 0) == '<' && 0 < st.outCur && At(st.buf, st.outCur - 1) == '<'
                 then Appended(c, st, Lit(" "), 1) else st;
      var c0 := SourceAt(src, st1.buf, 0);
      var st2 := if IsAlpha(c0) || c0 == '_' then st1.(prevName := st1.outCur, prevLen := n) else st1;
      SameWrites(c, st2, src, 0, n);
    }
  }

  lemma SameText(c: Ctx, st: St, t: string)
    ensures SaidText(Shipped(c), st, t) == SaidText(c, st, t)
  {
    SameSaid(c, st, Lit(t), |t|);
  }

  lemma SameIdentified(c: Ctx, st: St, e: nat, n: nat)
    ensures Identified(Shipped(c), st, e, n) == Identified(c, st, e, n)
  {
    hide Said;
    SameText(c, st, "(anonymous namespace)");
    if e + n <= |c.s| { SameSaid(c, st, Lit(c.s[e..e + n]), n); }
  }

  lemma SameOper(c: Ctx, st: St, name: string)
    ensures SaidOper(Shipped(c), st, name) == SaidOper(c, st, name)
  {
    hide SaidText;
    SameText(c, st, "operator");
    var st1 := SaidText(c, st, "operator");
    SameText(c, st1, " ");
    SameText(c, if IsLower(At(name, 0)) then SaidText(c, st1, " ") else st1, name);
  }

  lemma SameAbbrev(c: Ctx, st: St, name: string)
    ensures SaidAbbrev(Shipped(c), st, name) == SaidAbbrev(c, st, name)
  {
    hide SaidText;
    SameText(c, st, "std");
    var st1 := SaidText(c, st, "std");
    SameText(c, st1, "::");
    SameText(c, SaidText(c, st1, "::"), name);
  }

  lemma SameStep(c: Ctx, e: Peg, st: St)
    requires !c.shipped && (e.Ident? ==> Harmless(c.s, st.cur))
    ensures Step(Shipped(c), e, st) == Step(c, e, st)
  {
    hide Said, OperatorList, BuiltinTypeList, SubstitutionList, SaidOper, SaidAbbrev, SaidText, FirstSpelled, NumberAt,
         Identified;
    match e
    case Ident =>
      if SourceNameEnd(c.s, st.cur).Some? {
        var n := NumberAt(c.s, st.cur).value;
        SameIdentified(c, st.(cur := n.end), n.end, n.value);
      }
    case Builtin =>
      var k := FirstSpelled(BuiltinTypeList(), 0, 1, c.s, st.cur, 0);
      if k < |BuiltinTypeList()| { SameText(c, st, BuiltinTypeList()[k].realName); }
    case Oper =>
      var k := FirstSpelled(OperatorList(), 0, 2, c.s, st.cur, 0);
      if k < |OperatorList()| { SameOper(c, st, OperatorList()[k].realName); }
    case Abbrev =>
      var k := FirstSpelled(SubstitutionList(), 1, 1, c.s, st.cur, 0);
      if k < |SubstitutionList()| { SameAbbrev(c, st, SubstitutionList()[k].realName); }
    case Say(t) => SameText(c, st, t);
    case Prev => SameSaid(c, st, Mem(st.prevName), st.prevLen);
    case Sep => SameText(c, st, "::");
    case _ =>
  }

  lemma {:induction false} RunIsShipped(k: nat, c: Ctx, e: Peg, st: St, ok: bool, st2: St)
    requires !c.shipped && Run#[k](c, e, st, ok, st2) && Safe(c.s, e, st.cur)
    ensures Ran(Shipped(c), e, st, ok, st2)
  {
    hide *;
    var d := Shipped(c);
    match e
    case Seq(es) =>
      if es == [] {
        SeqNilParts(k, c, st, ok, st2);
        SeqNil(d, st);
      } else {
        var a1, t1, u1 := SeqParts(k, c, es, st, ok, st2);
        SafeFirst(c.s, es, st.cur);
        RunIsShipped(k - 1, c, es[0], st, a1, t1);
        if a1 {
          RunDerives(k - 1, c, es[0], st, a1, t1);
          SafeNext(c.s, es, st.cur, t1.cur);
          RunIsShipped(k - 1, c, Seq(es[1..]), t1, ok, u1);
          if !ok { Rewound(k - 1, c, Seq(es[1..]), t1, u1); }
        }
        SeqCons(d, es, st, a1, t1, ok, u1);
      }
    case Alt(es) =>
      if es == [] {
        AltNilParts(k, c, st, ok, st2);
        AltNil(d, st);
      } else {
        var a1, t1 := AltParts(k, c, es, st, ok, st2);
        SafeFirst(c.s, es, st.cur);
        RunIsShipped(k - 1, c, es[0], st, a1, t1);
        if a1 {
          AltHit(d, es, st, t1);
        } else {
          RunDerives(k - 1, c, es[0], st, a1, t1);
          SafeElse(c.s, es, st.cur);
          RunIsShipped(k - 1, c, Alt(es[1..]), t1, ok, st2);
          AltMiss(d, es, st, t1, ok, st2);
        }
      }
    case Opt(e1) =>
      var a1 := OptParts(k, c, e1, st, ok, st2);
      SafeInside(c.s, e, st.cur);
      RunIsShipped(k - 1, c, e1, st, a1, st2);
      OptRun(d, e1, st, a1, st2);
    case Star(e1) =>
      var a1, t1 := StarParts(k, c, e1, st, ok, st2);
      SafeInside(c.s, e, st.cur);
      RunIsShipped(k - 1, c, e1, st, a1, t1);
      if a1 {
        RunDerives(k - 1, c, e1, st, a1, t1);
        SafeAgain(c.s, e1, st.cur, t1.cur);
        RunIsShipped(k - 1, c, e, t1, true, st2);
        StarStep(d, e1, st, t1, st2);
      } else {
        StarEnd(d, e1, st, t1);
      }
    case Nest(e1) =>
      var t1 := NestParts(k, c, e1, st, ok, st2);
      SafeInside(c.s, e, st.cur);
      RunIsShipped(k - 1, c, e1, st.(nest := 0), ok, t1);
      NestRun(d, e1, st, ok, t1);
    case Quiet(e1) =>
      var t1 := QuietParts(k, c, e1, st, ok, st2);
      SafeInside(c.s, e, st.cur);
      RunIsShipped(k - 1, c, e1, st.(append := false), ok, t1);
      QuietRun(d, e1, st, ok, t1);
    case N(nt) =>
      NonTerminalParts(k, c, nt, st, ok, st2);
      SafeEntry(c.s, nt, st.cur);
      RunIsShipped(k - 1, c, Alt(Alts(nt)), st, ok, st2);
      Enter(d, nt, st, ok, st2);
    case _ =>
      BasicParts(k, c, e, st, ok, st2);
      if e.Ident? { SafeHere(c.s, st.cur); }
      SameStep(c, e, st);
      Basic(d, e, st);
  }

  lemma Rewound(k: nat, c: Ctx, e: Peg, st: St, st2: St)
    requires Run#[k](c, e, st, false, st2)
    ensures st2 == Rewind(st, st2)
  {
    hide Alts, Step, Run;
    RunKept(k, c, e, st, false, st2);
  }

  /** On a name that is safe in this sense the shipped parser does what the grammar says, whole run for
      whole run. */
  lemma SafeNameAgrees(c: Ctx, st: St, ok: bool, st2: St)
    requires !c.shipped && Safe(c.s, N(MangledName), st.cur) && TopRun(c, st, ok, st2)
    ensures TopRun(Shipped(c), st, ok, st2)
  {
    hide Ran, Alts, CloneSuffix, SaidText, Safe;
    var ok1: bool, st1: St :| Ran(c, N(MangledName), st, ok1, st1) && TopEnd(c, ok1, st1, ok, st2);
    var k := RunHeight(c, N(MangledName), st, ok1, st1);
    RunIsShipped(k, c, N(MangledName), st, ok1, st1);
    if ok1 && st1.cur < |c.s| { SameText(c, st1, c.s[st1.cur..|c.s| - 1]); }
    assert TopEnd(Shipped(c), ok1, st1, ok, st2);
  }

  /** So the answer and the printed text are the same too. */
  lemma SafeAnswer(c: Ctx, st: St, ok: bool, out: string)
    requires !c.shipped && Safe(c.s, N(MangledName), st.cur) && Answers(c, st, ok, out)
    ensures Answers(Shipped(c), st, ok, out)
  {
    hide TopRun, Safe, Shipped;
    var ok1: bool, st1: St :| TopRun(c, st, ok1, st1);
    SafeNameAgrees(c, st, ok1, st1);
    forall st2: St | TopRun(Shipped(c), st, true, st2) ensures TopRun(c, st, true, st2) {
      TopDeterministic(Shipped(c), st, ok1, st1, true, st2);
    }
    forall st2: St | TopRun(c, st, true, st2) ensures TopRun(Shipped(c), st, true, st2) {
      SafeNameAgrees(c, st, true, st2);
    }
  }

  // ---------------------------------------------------------------- names that are never parsed

  lemma NoToken(c: Ctx, c0: char, es: seq<Peg>, st: St)
    requires es != [] && es[0] == C(c0) && At(c.s, st.cur) != c0
    ensures Ran(c, Seq(es), st, false, st)
  {
    hide *;
    TokenRun(c, c0, st);
    SeqCons(c, es, st, false, st, false, st);
    RewindSelf(st);
  }

  lemma NoTwoTokens(c: Ctx, c0: char, c1: char, es: seq<Peg>, st: St)
    requires es != [] && es[0] == CC(c0, c1) && At(c.s, st.cur) != c0
    ensures Ran(c, Seq(es), st, false, st)
  {
    hide *;
    TwoTokenMiss(c, c0, c1, st);
    SeqCons(c, es, st, false, st, false, st);
    RewindSelf(st);
  }

  lemma RewindSelf(st: St)
    ensures Rewind(st, st) == st
  {
  }

  lemma {:induction false} AllMiss(c: Ctx, es: seq<Peg>, st: St)
    requires forall k :: 0 <= k < |es| ==> Ran(c, es[k], st, false, st)
    ensures Ran(c, Alt(es), st, false, st)
  {
    hide Ran, Alts, Step;
    if es == [] {
      AltNil(c, st);
    } else {
      AllMiss(c, es[1..], st);
      AltMiss(c, es, st, st, false, st);
    }
  }

  lemma NoneFits(c: Ctx, nt: NT, st: St)
    requires forall k :: 0 <= k < |Alts(nt)| ==> Ran(c, Alts(nt)[k], st, false, st)
    ensures Ran(c, N(nt), st, false, st)
  {
    hide *;
    AllMiss(c, Alts(nt), st);
    Enter(c, nt, st, false, st);
  }

  /** A number at the cursor leads the shipped code back to where it stands. */
  ghost predicate Stuck(c: Ctx, st: St) {
    c.shipped && ShippedSourceNameEnd(c.s, st.cur) == Some(st.cur)
  }

  /** Only a source name starts like that. */
  lemma StuckStart(c: Ctx, st: St)
    requires Stuck(c, st)
    ensures At(c.s, st.cur) == 'n' || IsDigit(At(c.s, st.cur))
    ensures At(c.s, st.cur) !in "TSBCDcvrVK"
    ensures !IsLower(At(c.s, st.cur)) || !IsAlpha(At(c.s, st.cur + 1))
  {
    hide DigitsValue;
  }

  lemma TemplateParamStart()
    ensures Alts(TemplateParam) == [Seq([CC('T', '_'), Say("?")]), Seq([C('T'), Num, C('_'), Say("?")])]
  {
  }

  lemma SubstitutionStart()
    ensures Alts(Substitution) ==
      [Seq([CC('S', '_'), Say("?")]), Seq([C('S'), SeqId, C('_'), Say("?")]), Seq([C('S'), Abbrev])]
  {
  }

  lemma NoParameter(c: Ctx, st: St)
    requires At(c.s, st.cur) != 'T'
    ensures Ran(c, N(TemplateParam), st, false, st)
  {
    hide *;
    TemplateParamStart();
    NoTwoTokens(c, 'T', '_', Alts(TemplateParam)[0].es, st);
    NoToken(c, 'T', Alts(TemplateParam)[1].es, st);
    NoneFits(c, TemplateParam, st);
  }

  lemma NoSubstitution(c: Ctx, st: St)
    requires At(c.s, st.cur) != 'S'
    ensures Ran(c, N(Substitution), st, false, st)
  {
    hide *;
    SubstitutionStart();
    NoTwoTokens(c, 'S', '_', Alts(Substitution)[0].es, st);
    NoToken(c, 'S', Alts(Substitution)[1].es, st);
    NoToken(c, 'S', Alts(Substitution)[2].es, st);
    NoneFits(c, Substitution, st);
  }

  lemma NoOperator(c: Ctx, st: St)
    requires At(c.s, st.cur) != 'c' && At(c.s, st.cur) != 'v'
    requires !IsLower(At(c.s, st.cur)) || !IsAlpha(At(c.s, st.cur + 1))
    ensures Ran(c, N(OperatorName), st, false, st)
  {
    hide *;
    OperatorShape();
    NoTwoTokens(c, 'c', 'v', Alts(OperatorName)[0].es, st);
    NoToken(c, 'v', Alts(OperatorName)[1].es, st);
    OperRun(c, st, FirstSpelled(OperatorList(), 0, 2, c.s, st.cur, 0));
    NoneFits(c, OperatorName, st);
  }

  lemma NoCtorDtor(c: Ctx, st: St)
    requires At(c.s, st.cur) != 'C' && At(c.s, st.cur) != 'D'
    ensures Ran(c, N(CtorDtorName), st, false, st)
  {
    hide *;
    CtorDtorShape();
    NoToken(c, 'C', Alts(CtorDtorName)[0].es, st);
    NoToken(c, 'D', Alts(CtorDtorName)[1].es, st);
    NoneFits(c, CtorDtorName, st);
  }

  lemma TagStart()
    ensures Alts(AbiTag) == [Seq([C('B'), N(SourceName)])]
  {
  }

  lemma NoTag(c: Ctx, st: St)
    requires At(c.s, st.cur) != 'B'
    ensures Ran(c, N(AbiTag), st, false, st)
  {
    hide *;
    TagStart();
    NoToken(c, 'B', Alts(AbiTag)[0].es, st);
    NoneFits(c, AbiTag, st);
  }

  lemma NoTags(c: Ctx, st: St)
    requires At(c.s, st.cur) != 'B'
    ensures Ran(c, N(AbiTags), st, false, st)
  {
    AbiTagsShape();
    hide Ran, Alts, Step;
    var quiet := st.(append := false);
    NoTag(c, quiet);
    var es := [N(AbiTag), Star(N(AbiTag)), Opt(C('B'))];
    SeqCons(c, es, quiet, false, quiet, false, quiet);
    QuietRun(c, Seq(es), st, false, quiet);
    Only(c, AbiTags, st, false, st);
  }

  lemma StuckName(c: Ctx, st: St)
    requires Stuck(c, st)
    ensures Ran(c, N(SourceName), st, true, st)
  {
    SourceNameShape();
    Basic(c, Ident, st);
    hide Ran, Alts;
    Only(c, SourceName, st, true, st);
  }

  lemma NameShape()
    ensures |Alts(UnqualifiedName)| == 4 && Alts(UnqualifiedName)[0] == N(OperatorName)
    ensures Alts(UnqualifiedName)[1] == N(CtorDtorName)
    ensures Alts(UnqualifiedName)[2] == Seq([N(SourceName), Opt(N(AbiTags))])
    ensures |Alts(UnscopedName)| == 2 && Alts(UnscopedName)[0] == N(UnqualifiedName)
  {
  }

  lemma StuckUnqualified(c: Ctx, st: St)
    requires Stuck(c, st)
    ensures Ran(c, N(UnqualifiedName), st, true, st)
  {
    hide *;
    StuckStart(c, st);
    NameShape();
    NoOperator(c, st);
    NoCtorDtor(c, st);
    StuckName(c, st);
    NoTags(c, st);
    var es := [N(SourceName), Opt(N(AbiTags))];
    OptRun(c, N(AbiTags), st, false, st);
    Seq2(c, es, st, true, st, true, st);
    NoneTried(c, UnqualifiedName, st);
    Miss(c, UnqualifiedName, 0, st, st, st);
    Miss(c, UnqualifiedName, 1, st, st, st);
    Hit(c, UnqualifiedName, 2, st, st, st);
  }

  /** A component read there is this source name, and the cursor has not moved. */
  lemma StuckComponent(c: Ctx, st: St)
    requires Stuck(c, st)
    ensures Ran(c, Component(), st, true, st)
  {
    hide *;
    StuckStart(c, st);
    NameShape();
    StuckUnqualified(c, st);
    NoneTried(c, UnscopedName, st);
    Hit(c, UnscopedName, 0, st, st, st);
    NoParameter(c, st);
    NoSubstitution(c, st);
    ComponentRun(c, st, false, st, false, st, true, st);
  }

  lemma Stays(k: nat, c: Ctx, e: Peg, st: St, ok: bool, st2: St)
    requires Run#[k](c, e, st, ok, st2) && (e == Sep || e == Bump)
    ensures ok && st2.cur == st.cur
  {
    hide Run, Alts, SaidText, Kept, NumberAt, SourceNameEnd, Scan, BuiltinTypeList, OperatorList,
         SubstitutionList, StepBack;
    BasicParts(k, c, e, st, ok, st2);
    StepKept(c, e, st);
  }

  lemma StuckRun(k: nat, c: Ctx, st: St, ok: bool, st2: St)
    requires Stuck(c, st) && Run#[k](c, Component(), st, ok, st2)
    ensures ok && st2 == st
  {
    StuckComponent(c, st);
    hide Ran, Run, Component, Stuck, Alts, Step;
    var h := RunHeight(c, Component(), st, true, st);
    SameRun(k, h, c, Component(), st, ok, st2, true, st);
  }

  lemma StuckHere(c: Ctx, st: St, st2: St)
    requires Stuck(c, st) && st2.cur == st.cur
    ensures Stuck(c, st2)
  {
  }

  /** A prefix of a nested name read there is never finished, neither accepted nor rejected. */
  lemma {:induction false} StuckPrefix(k: nat, c: Ctx, more: bool, st: St, ok: bool, st2: St)
    requires Stuck(c, st)
    ensures !Run#[k](c, N(if more then PrefixMore else Prefix), st, ok, st2)
  {
    hide *;
    if Run#[k](c, N(if more then PrefixMore else Prefix), st, ok, st2) {
      PrefixShape();
      var nt := if more then PrefixMore else Prefix;
      NonTerminalParts(k, c, nt, st, ok, st2);
      var a1, t1 := AltParts(k - 1, c, Alts(nt), st, ok, st2);
      var es := Alts(nt)[0].es;
      var b1, u1, v1 := SeqParts(k - 2, c, es, st, a1, t1);
      Stays(k - 3, c, Sep, st, b1, u1);
      StuckHere(c, st, u1);
      var b2, u2, v2 := SeqParts(k - 3, c, es[1..], u1, a1, v1);
      var b3, u3 := AltParts(k - 4, c, es[1].es, u1, b2, u2);
      StuckMore(k - 5, c, u1, b3, u3);
    }
  }

  lemma {:induction false} StuckMore(k: nat, c: Ctx, st: St, ok: bool, st2: St)
    requires Stuck(c, st)
    ensures !Run#[k](c, Seq([Component(), Bump, N(PrefixMore)]), st, ok, st2)
  {
    hide *;
    if Run#[k](c, Seq([Component(), Bump, N(PrefixMore)]), st, ok, st2) {
      var es := [Component(), Bump, N(PrefixMore)];
      var b1, u1, v1 := SeqParts(k, c, es, st, ok, st2);
      StuckRun(k - 1, c, st, b1, u1);
      var b2, u2, v2 := SeqParts(k - 1, c, es[1..], st, ok, v1);
      Stays(k - 2, c, Bump, st, b2, u2);
      StuckHere(c, st, u2);
      var b3, u3, v3 := SeqParts(k - 2, c, es[1..][1..], u2, ok, v2);
      StuckPrefix(k - 3, c, true, u2, b3, u3);
    }
  }

  lemma PrefixNeverEnds(c: Ctx, st: St, ok: bool, st2: St)
    requires Stuck(c, st)
    ensures !Ran(c, N(Prefix), st, ok, st2)
  {
    hide *;
    if Ran(c, N(Prefix), st, ok, st2) {
      var k := RunHeight(c, N(Prefix), st, ok, st2);
      StuckPrefix(k, c, false, st, ok, st2);
    }
  }

  lemma NestedStart()
    ensures Alts(MangledName) == [Seq([CC('_', 'Z'), N(Encoding)])]
    ensures Alts(Encoding) != [] && Alts(Encoding)[0] == Seq([N(Name), N(BareFunctionType)])
    ensures Alts(Name) != [] && Alts(Name)[0] == N(NestedName)
    ensures Alts(NestedName) == [Seq([C('N'), Nest(Seq([Opt(N(CVQualifiers)), N(Prefix)])), C('E')])]
  {
  }

  lemma TokenParts(k: nat, c: Ctx, e: Peg, st: St, ok: bool, st2: St)
    requires e.C? || e.CC?
    requires Run#[k](c, e, st, ok, st2)
    ensures e.C? && At(c.s, st.cur) == e.c ==> ok && st2 == st.(cur := st.cur + 1)
    ensures e.CC? && At(c.s, st.cur) == e.c0 && At(c.s, st.cur + 1) == e.c1 ==> ok && st2 == st.(cur := st.cur + 2)
  {
    hide Run, Alts, SaidText, Kept, NumberAt, SourceNameEnd, Scan, BuiltinTypeList, OperatorList,
         SubstitutionList, StepBack;
    BasicParts(k, c, e, st, ok, st2);
  }

  lemma NoQualifiers(k: nat, c: Ctx, st: St, ok: bool, st2: St)
    requires At(c.s, st.cur) !in "rVK"
    requires Run#[k](c, Opt(N(CVQualifiers)), st, ok, st2)
    ensures ok && st2 == st
  {
    hide *;
    TokenRun(c, 'r', st);
    TokenRun(c, 'V', st);
    TokenRun(c, 'K', st);
    CVQualifiersRun(c, st, false, st, false, st, false, st);
    OptRun(c, N(CVQualifiers), st, false, st);
    var h := RunHeight(c, Opt(N(CVQualifiers)), st, true, st);
    SameRun(k, h, c, Opt(N(CVQualifiers)), st, ok, st2, true, st);
  }

  /** The shipped parser never gets through "_ZN" with such a number behind it. */
  lemma NestedNeverEnds(c: Ctx, st: St, ok: bool, st2: St)
    requires At(c.s, st.cur) == '_' && At(c.s, st.cur + 1) == 'Z' && At(c.s, st.cur + 2) == 'N'
    requires Stuck(c, st.(cur := st.cur + 3))
    ensures !Ran(c, N(MangledName), st, ok, st2)
  {
    hide *;
    if Ran(c, N(MangledName), st, ok, st2) {
      NestedStart();
      var k := RunHeight(c, N(MangledName), st, ok, st2);
      NonTerminalParts(k, c, MangledName, st, ok, st2);
      var a1, t1 := AltParts(k - 1, c, Alts(MangledName), st, ok, st2);
      var es := Alts(MangledName)[0].es;
      var b1, u1, v1 := SeqParts(k - 2, c, es, st, a1, t1);
      TokenParts(k - 3, c, es[0], st, b1, u1);
      var b2, u2, v2 := SeqParts(k - 3, c, es[1..], u1, a1, v1);
      NonTerminalParts(k - 4, c, Encoding, u1, b2, u2);
      var a3, t3 := AltParts(k - 5, c, Alts(Encoding), u1, b2, u2);
      var b3, u3, v3 := SeqParts(k - 6, c, Alts(Encoding)[0].es, u1, a3, t3);
      NonTerminalParts(k - 7, c, Name, u1, b3, u3);
      var a4, t4 := AltParts(k - 8, c, Alts(Name), u1, b3, u3);
      NestedStuck(k - 9, c, u1, a4, t4);
    }
  }

  lemma NestedStuck(k: nat, c: Ctx, st: St, ok: bool, st2: St)
    requires At(c.s, st.cur) == 'N' && Stuck(c, st.(cur := st.cur + 1))
    ensures !Run#[k](c, N(NestedName), st, ok, st2)
  {
    hide *;
    if Run#[k](c, N(NestedName), st, ok, st2) {
      NestedStart();
      NonTerminalParts(k, c, NestedName, st, ok, st2);
      var a1, t1 := AltParts(k - 1, c, Alts(NestedName), st, ok, st2);
      var es := Alts(NestedName)[0].es;
      var b1, u1, v1 := SeqParts(k - 2, c, es, st, a1, t1);
      TokenParts(k - 3, c, es[0], st, b1, u1);
      var b2, u2, v2 := SeqParts(k - 3, c, es[1..], u1, a1, v1);
      var w := NestParts(k - 4, c, es[1].e, u1, b2, u2);
      var inner := es[1].e.es;
      var s0 := u1.(nest := 0);
      StuckHere(c, u1, s0);
      StuckStart(c, s0);
      var b3, u3, v3 := SeqParts(k - 5, c, inner, s0, b2, w);
      NoQualifiers(k - 6, c, s0, b3, u3);
      var b4, u4, v4 := SeqParts(k - 6, c, inner[1..], s0, b2, v3);
      StuckPrefix(k - 7, c, false, s0, b4, u4);
    }
  }

  /** "_ZNn2E": the length -2 leads back to the number itself, so no result is ever given, from any state at
      the start and with any output buffer. */
  lemma NeverParsed(cap: nat, st: St, ok: bool, st2: St)
    requires st.cur == 0
    ensures !TopRun(Ctx(['_', 'Z', 'N', 'n', '2', 'E', '\0'], cap, true), st, ok, st2)
  {
    var s := ['_', 'Z', 'N', 'n', '2', 'E', '\0'];
    var c := Ctx(s, cap, true);
    BackToItself();
    hide Ran, CloneSuffix, SaidText, NumberAt;
    forall ok1: bool, st1: St ensures !Ran(c, N(MangledName), st, ok1, st1) { NestedNeverEnds(c, st, ok1, st1); }
  }

  lemma BackToItself()
    ensures ShippedSourceNameEnd(['_', 'Z', 'N', 'n', '2', 'E', '\0'], 3) == Some(3)
  {
    var s := ['_', 'Z', 'N', 'n', '2', 'E', '\0'];
    assert ScanEnd(s, Decimal, 5) == 5;
    assert ScanEnd(s, Decimal, 4) == 5;
    assert DigitsValue(s, 5, 2) == 2;
    assert DigitsValue(s, 4, 0) == 2;
    assert NumberAt(s, 3) == Some(Number(-2, 5));
  }
}
