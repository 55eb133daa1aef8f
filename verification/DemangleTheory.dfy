/** What the grammar table means: rules for building runs, and theorems about every run. */
module DemangleTheory {
  import opened Common
  import opened DemangleSpec

  // ---------------------------------------------------------------- building runs

  lemma SeqNil(c: Ctx, st: St)
    ensures Ran(c, Seq([]), st, true, st)
  {
    hide Alts, Step;
  }

  /** One element of a sequence, then the rest of it. */
  lemma SeqCons(c: Ctx, es: seq<Peg>, st: St, ok1: bool, st1: St, ok2: bool, st2: St)
    requires es != []
    requires Ran(c, es[0], st, ok1, st1)
    requires if ok1 then Ran(c, Seq(es[1..]), st1, ok2, if ok2 then st2 else Rewind(st1, st2)) else !ok2 && st2 == st1
    ensures Ran(c, Seq(es), st, ok2, if ok2 then st2 else Rewind(st, st2))
  {
    hide Alts, Step;
    if ok1 {
      var st3 := if ok2 then st2 else Rewind(st1, st2);
      assert Ran(c, Seq(es[1..]), st1, ok2, st3);
    }
  }

  lemma Seq1(c: Ctx, es: seq<Peg>, st: St, ok1: bool, st1: St)
    requires |es| == 1
    requires Ran(c, es[0], st, ok1, st1)
    ensures Ran(c, Seq(es), st, ok1, if ok1 then st1 else Rewind(st, st1))
  {
    hide Alts, Ran, Step;
    assert es[1..] == [];
    SeqNil(c, st1);
    SeqCons(c, es, st, ok1, st1, ok1, st1);
  }

  lemma Seq2(c: Ctx, es: seq<Peg>, st: St, ok1: bool, st1: St, ok2: bool, st2: St)
    requires |es| == 2
    requires Ran(c, es[0], st, ok1, st1)
    requires if ok1 then Ran(c, es[1], st1, ok2, st2) else !ok2 && st2 == st1
    ensures Ran(c, Seq(es), st, ok2, if ok2 then st2 else Rewind(st, st2))
  {
    hide Alts, Ran, Step;
    if ok1 { Seq1(c, es[1..], st1, ok2, st2); }
    SeqCons(c, es, st, ok1, st1, ok2, st2);
  }

  lemma Seq3(c: Ctx, es: seq<Peg>, st: St, ok1: bool, st1: St, ok2: bool, st2: St, ok3: bool, st3: St)
    requires |es| == 3
    requires Ran(c, es[0], st, ok1, st1)
    requires if ok1 then Ran(c, es[1], st1, ok2, st2) else !ok2 && st2 == st1
    requires if ok2 then Ran(c, es[2], st2, ok3, st3) else !ok3 && st3 == st2
    ensures Ran(c, Seq(es), st, ok3, if ok3 then st3 else Rewind(st, st3))
  {
    hide Alts, Ran, Step;
    if ok1 { Seq2(c, es[1..], st1, ok2, st2, ok3, st3); }
    SeqCons(c, es, st, ok1, st1, ok3, st3);
  }

  lemma Seq4(c: Ctx, es: seq<Peg>, st: St, ok1: bool, st1: St, ok2: bool, st2: St, ok3: bool, st3: St,
             ok4: bool, st4: St)
    requires |es| == 4
    requires Ran(c, es[0], st, ok1, st1)
    requires if ok1 then Ran(c, es[1], st1, ok2, st2) else !ok2 && st2 == st1
    requires if ok2 then Ran(c, es[2], st2, ok3, st3) else !ok3 && st3 == st2
    requires if ok3 then Ran(c, es[3], st3, ok4, st4) else !ok4 && st4 == st3
    ensures Ran(c, Seq(es), st, ok4, if ok4 then st4 else Rewind(st, st4))
  {
    hide Alts, Ran, Step;
    if ok1 { Seq3(c, es[1..], st1, ok2, st2, ok3, st3, ok4, st4); }
    SeqCons(c, es, st, ok1, st1, ok4, st4);
  }

  lemma Seq5(c: Ctx, es: seq<Peg>, st: St, ok1: bool, st1: St, ok2: bool, st2: St, ok3: bool, st3: St,
             ok4: bool, st4: St, ok5: bool, st5: St)
    requires |es| == 5
    requires Ran(c, es[0], st, ok1, st1)
    requires if ok1 then Ran(c, es[1], st1, ok2, st2) else !ok2 && st2 == st1
    requires if ok2 then Ran(c, es[2], st2, ok3, st3) else !ok3 && st3 == st2
    requires if ok3 then Ran(c, es[3], st3, ok4, st4) else !ok4 && st4 == st3
    requires if ok4 then Ran(c, es[4], st4, ok5, st5) else !ok5 && st5 == st4
    ensures Ran(c, Seq(es), st, ok5, if ok5 then st5 else Rewind(st, st5))
  {
    hide Alts, Ran, Step;
    if ok1 { Seq4(c, es[1..], st1, ok2, st2, ok3, st3, ok4, st4, ok5, st5); }
    SeqCons(c, es, st, ok1, st1, ok5, st5);
  }

  lemma Seq6(c: Ctx, es: seq<Peg>, st: St, ok1: bool, st1: St, ok2: bool, st2: St, ok3: bool, st3: St,
             ok4: bool, st4: St, ok5: bool, st5: St, ok6: bool, st6: St)
    requires |es| == 6
    requires Ran(c, es[0], st, ok1, st1)
    requires if ok1 then Ran(c, es[1], st1, ok2, st2) else !ok2 && st2 == st1
    requires if ok2 then Ran(c, es[2], st2, ok3, st3) else !ok3 && st3 == st2
    requires if ok3 then Ran(c, es[3], st3, ok4, st4) else !ok4 && st4 == st3
    requires if ok4 then Ran(c, es[4], st4, ok5, st5) else !ok5 && st5 == st4
    requires if ok5 then Ran(c, es[5], st5, ok6, st6) else !ok6 && st6 == st5
    ensures Ran(c, Seq(es), st, ok6, if ok6 then st6 else Rewind(st, st6))
  {
    hide Alts, Ran, Step;
    if ok1 { Seq5(c, es[1..], st1, ok2, st2, ok3, st3, ok4, st4, ok5, st5, ok6, st6); }
    SeqCons(c, es, st, ok1, st1, ok6, st6);
  }

  lemma AltNil(c: Ctx, st: St)
    ensures Ran(c, Alt([]), st, false, st)
  {
    hide Alts, Step;
  }

  lemma AltHit(c: Ctx, es: seq<Peg>, st: St, st1: St)
    requires es != []
    requires Ran(c, es[0], st, true, st1)
    ensures Ran(c, Alt(es), st, true, st1)
  {
    hide Alts, Step;
  }

  lemma AltMiss(c: Ctx, es: seq<Peg>, st: St, st1: St, ok: bool, st2: St)
    requires es != []
    requires Ran(c, es[0], st, false, st1)
    requires Ran(c, Alt(es[1..]), st1, ok, st2)
    ensures Ran(c, Alt(es), st, ok, st2)
  {
    hide Alts, Step;
  }

  lemma Enter(c: Ctx, nt: NT, st: St, ok: bool, st2: St)
    requires Ran(c, Alt(Alts(nt)), st, ok, st2)
    ensures Ran(c, N(nt), st, ok, st2)
  {
    hide Alts, Step;
  }

  /** The first `k` alternatives of `nt` fail from `st` and leave `stk`. */
  ghost predicate Tried(c: Ctx, nt: NT, k: nat, st: St, stk: St)
  {
    && k <= |Alts(nt)|
    && forall ok: bool, st2: St ::
         Ran(c, Alt(Alts(nt)[k..]), stk, ok, st2) ==> Ran(c, Alt(Alts(nt)), st, ok, st2)
  }

  lemma NoneTried(c: Ctx, nt: NT, st: St)
    ensures Tried(c, nt, 0, st, st)
  {
    hide Alts, Step;
    assert Alts(nt)[0..] == Alts(nt);
  }

  /** Alternative `k` fails too. */
  lemma Miss(c: Ctx, nt: NT, k: nat, st: St, stk: St, st1: St)
    requires k < |Alts(nt)|
    requires Tried(c, nt, k, st, stk)
    requires Ran(c, Alts(nt)[k], stk, false, st1)
    ensures Tried(c, nt, k + 1, st, st1)
  {
    hide Alts, Ran, Step;
    var es := Alts(nt)[k..];
    assert es[0] == Alts(nt)[k] && es[1..] == Alts(nt)[k + 1..];
    forall ok: bool, st2: St | Ran(c, Alt(Alts(nt)[k + 1..]), st1, ok, st2)
      ensures Ran(c, Alt(Alts(nt)), st, ok, st2)
    {
      AltMiss(c, es, stk, st1, ok, st2);
    }
  }

  /** Alternative `k` succeeds. */
  lemma Hit(c: Ctx, nt: NT, k: nat, st: St, stk: St, st1: St)
    requires k < |Alts(nt)|
    requires Tried(c, nt, k, st, stk)
    requires Ran(c, Alts(nt)[k], stk, true, st1)
    ensures Ran(c, N(nt), st, true, st1)
  {
    hide Alts, Ran, Step;
    AltHit(c, Alts(nt)[k..], stk, st1);
    Enter(c, nt, st, true, st1);
  }

  lemma AllMissed(c: Ctx, nt: NT, st: St, stk: St)
    requires Tried(c, nt, |Alts(nt)|, st, stk)
    ensures Ran(c, N(nt), st, false, stk)
  {
    hide Alts, Ran, Step;
    assert Alts(nt)[|Alts(nt)|..] == [];
    AltNil(c, stk);
    Enter(c, nt, st, false, stk);
  }

  /** A non-terminal with one alternative. */
  lemma Only(c: Ctx, nt: NT, st: St, ok: bool, st1: St)
    requires |Alts(nt)| == 1
    requires Ran(c, Alts(nt)[0], st, ok, st1)
    ensures Ran(c, N(nt), st, ok, st1)
  {
    hide Alts, Step;
    NoneTried(c, nt, st);
    if ok {
      Hit(c, nt, 0, st, st, st1);
    } else {
      Miss(c, nt, 0, st, st, st1);
      AllMissed(c, nt, st, st1);
    }
  }

  lemma Basic(c: Ctx, e: Peg, st: St)
    requires !e.Seq? && !e.Alt? && !e.Opt? && !e.Star? && !e.Nest? && !e.Quiet? && !e.N?
    ensures Ran(c, e, st, Step(c, e, st).0, Step(c, e, st).1)
  {
    hide Alts, Step;
  }

  lemma OptRun(c: Ctx, e: Peg, st: St, ok: bool, st1: St)
    requires Ran(c, e, st, ok, st1)
    ensures Ran(c, Opt(e), st, true, st1)
  {
    hide Alts, Step;
  }

  lemma StarEnd(c: Ctx, e: Peg, st: St, st1: St)
    requires Ran(c, e, st, false, st1)
    ensures Ran(c, Star(e), st, true, st1)
  {
    hide Alts, Step;
  }

  lemma StarStep(c: Ctx, e: Peg, st: St, st1: St, st2: St)
    requires Ran(c, e, st, true, st1)
    requires Ran(c, Star(e), st1, true, st2)
    ensures Ran(c, Star(e), st, true, st2)
  {
    hide Alts, Step;
  }

  lemma NestRun(c: Ctx, e: Peg, st: St, ok: bool, st1: St)
    requires Ran(c, e, st.(nest := 0), ok, st1)
    ensures Ran(c, Nest(e), st, ok, if ok then st1.(nest := st.nest) else Rewind(st, st1))
  {
    hide Alts, Step;
  }

  lemma QuietRun(c: Ctx, e: Peg, st: St, ok: bool, st1: St)
    requires Ran(c, e, st.(append := false), ok, st1)
    ensures Ran(c, Quiet(e), st, ok, if ok then st1.(append := st.append) else Rewind(st, st1))
  {
    hide Alts, Step;
  }

  lemma TokenRun(c: Ctx, c0: char, st: St)
    ensures At(c.s, st.cur) == c0 ==> Ran(c, C(c0), st, true, st.(cur := st.cur + 1))
    ensures At(c.s, st.cur) != c0 ==> Ran(c, C(c0), st, false, st)
  {
    hide Ran, Alts;
    Basic(c, C(c0), st);
  }

  lemma EitherTokenRun(c: Ctx, cs: string, st: St)
    ensures At(c.s, st.cur) in cs ==> Ran(c, OneOf(cs), st, true, st.(cur := st.cur + 1))
    ensures At(c.s, st.cur) !in cs ==> Ran(c, OneOf(cs), st, false, st)
  {
    hide Ran, Alts;
    Basic(c, OneOf(cs), st);
  }

  lemma SourceNameShape()
    ensures Alts(SourceName) == [Ident]
  {
  }

  lemma ComponentRun(c: Ctx, st: St, ok1: bool, st1: St, ok2: bool, st2: St, ok3: bool, st3: St)
    requires Ran(c, N(TemplateParam), st, ok1, st1)
    requires if ok1 then ok2 && st2 == st1 else Ran(c, N(Substitution), st1, ok2, st2)
    requires if ok2 then ok3 && st3 == st2 else Ran(c, N(UnscopedName), st2, ok3, st3)
    ensures Ran(c, Component(), st, ok3, st3)
  {
    hide Alts, Ran, Step;
    var es := [N(TemplateParam), N(Substitution), N(UnscopedName)];
    assert es[1..] == [N(Substitution), N(UnscopedName)] && es[1..][1..] == [N(UnscopedName)];
    assert [N(UnscopedName)][1..] == [];
    if ok1 {
      AltHit(c, es, st, st1);
    } else {
      if ok2 {
        AltHit(c, es[1..], st1, st2);
      } else {
        if ok3 {
          AltHit(c, [N(UnscopedName)], st2, st3);
        } else {
          AltNil(c, st3);
          AltMiss(c, [N(UnscopedName)], st2, st3, false, st3);
        }
        AltMiss(c, es[1..], st1, st2, ok3, st3);
      }
      AltMiss(c, es, st, st1, ok3, st3);
    }
  }

  lemma PrefixShape()
    ensures Alts(Prefix) == [Seq([Sep, Alt([Seq([Component(), Bump, N(PrefixMore)]), Cancel])])]
    ensures Alts(PrefixMore) == [Seq([Sep, Alt([Seq([Component(), Bump, N(PrefixMore)]),
                                                Seq([Cancel, Opt(Seq([N(TemplateArgs), N(Prefix)]))])])])]
  {
  }

  /** One more component of a prefix: separator, component, nest level, the rest. */
  lemma PrefixGoesOn(c: Ctx, more: bool, st: St, st1: St, st2: St, st3: St, st4: St)
    requires Ran(c, Sep, st, true, st1) && Ran(c, Component(), st1, true, st2) && Ran(c, Bump, st2, true, st3)
    requires Ran(c, N(PrefixMore), st3, true, st4)
    ensures Ran(c, N(if more then PrefixMore else Prefix), st, true, st4)
  {
    var nt := if more then PrefixMore else Prefix;
    PrefixShape();
    hide Alts, Ran, Component;
    var on := [Component(), Bump, N(PrefixMore)];
    Seq3(c, on, st1, true, st2, true, st3, true, st4);
    AltHit(c, Alts(nt)[0].es[1].es, st1, st4);
    Seq2(c, Alts(nt)[0].es, st, true, st1, true, st4);
    Only(c, nt, st, true, st4);
  }

  /** No further component: the separator is cancelled, and template arguments may follow. */
  lemma PrefixEnds(c: Ctx, more: bool, st: St, st1: St, st2: St, st3: St, args: bool, st4: St, st5: St)
    requires Ran(c, Sep, st, true, st1) && Ran(c, Component(), st1, false, st2) && Ran(c, Cancel, st2, true, st3)
    requires if more then Ran(c, N(TemplateArgs), st3, args, st4) && (if args then Ran(c, N(Prefix), st4, true, st5)
                                                                   else st4 == Rewind(st3, st4) && st5 == st4)
             else st5 == st3
    requires st2 == Rewind(st1, st2)
    ensures Ran(c, N(if more then PrefixMore else Prefix), st, true, st5)
  {
    var nt := if more then PrefixMore else Prefix;
    PrefixShape();
    hide Alts, Ran, Component;
    var on := [Component(), Bump, N(PrefixMore)];
    Seq3(c, on, st1, false, st2, false, st2, false, st2);
    if more {
      var tail := Seq([N(TemplateArgs), N(Prefix)]);
      Seq2(c, [N(TemplateArgs), N(Prefix)], st3, args, st4, args, st5);
      OptRun(c, tail, st3, args, st5);
      Seq2(c, [Cancel, Opt(tail)], st2, true, st3, true, st5);
    }
    var es := Alts(nt)[0].es[1].es;
    AltHit(c, es[1..], st2, st5);
    AltMiss(c, es, st1, st2, true, st5);
    Seq2(c, Alts(nt)[0].es, st, true, st1, true, st5);
    Only(c, nt, st, true, st5);
  }

  lemma BuiltinCodesAreLetters(k: nat)
    requires k < |BuiltinTypeList()|
    ensures At(BuiltinTypeList()[k].abbrev, 0) != '\0'
  {
  }

  lemma AbbreviationsAreLetters(k: nat)
    requires k < |SubstitutionList()|
    ensures At(SubstitutionList()[k].abbrev, 1) != '\0'
  {
  }

  lemma TypeShape()
    ensures |Alts(Type)| == 13
    ensures Alts(Type)[5] == N(BuiltinType) && Alts(Type)[6] == N(FunctionType) && Alts(Type)[7] == N(ClassEnumType)
    ensures Alts(Type)[8] == N(ArrayType) && Alts(Type)[9] == N(PointerToMemberType) && Alts(Type)[10] == N(Substitution)
    ensures Alts(Type)[11] == Choice(Type, 11) && Alts(Type)[12] == N(TemplateParam)
  {
  }

  lemma LocalShape()
    ensures |Alts(LocalName)| == 2
    ensures Alts(LocalName)[0] == Seq([C('Z'), N(Encoding), C('E'), Say("::"), N(Name), Opt(N(Discriminator))])
    ensures Choice(LocalName, 0) == Alts(LocalName)[0]
  {
  }

  lemma TemplateArgsShape()
    ensures |Alts(TemplateArgs)| == 1
    ensures Alts(TemplateArgs)[0] ==
      Seq([Quiet(Seq([C('I'), N(TemplateArg), Star(N(TemplateArg)), C('E')])), Say("<>")])
  {
  }

  lemma AbiTagsShape()
    ensures |Alts(AbiTags)| == 1
    ensures Alts(AbiTags)[0] == Quiet(Seq([N(AbiTag), Star(N(AbiTag)), Opt(C('B'))]))
  {
  }

  lemma ExpressionShape()
    ensures |Alts(Expression)| == 8
    ensures Alts(Expression)[0] == N(TemplateParam) && Alts(Expression)[1] == N(ExprPrimary)
    ensures Alts(Expression)[2] == Choice(Expression, 2) && Alts(Expression)[3] == Choice(Expression, 3)
    ensures Alts(Expression)[4] == Choice(Expression, 4) && Alts(Expression)[5] == Choice(Expression, 5)
    ensures Alts(Expression)[6] == Choice(Expression, 6) && Alts(Expression)[7] == Choice(Expression, 7)
  {
  }

  lemma SpecialShape()
    ensures |Alts(SpecialName)| == 9
    ensures forall k :: 0 <= k < 9 ==> Alts(SpecialName)[k] == Choice(SpecialName, k)
  {
  }

  lemma ConstructionShape()
    ensures |Alts(SpecialName)| == 9
    ensures Alts(SpecialName)[4] == Seq([CC('T', 'C'), N(Type), Num, C('_'), Quiet(N(Type))])
    ensures Choice(SpecialName, 4) == Alts(SpecialName)[4]
  {
  }

  lemma PrimaryShape()
    ensures Choice(ExprPrimary, 0) == Seq([C('L'), N(Type), Num, C('E')])
    ensures Choice(ExprPrimary, 1) == Seq([C('L'), N(Type), Float, C('E')])
  {
  }

  lemma TemplateArgShape()
    ensures Choice(TemplateArg, 0) == Seq([OneOf("IJ"), Star(N(TemplateArg)), C('E')])
  {
  }

  lemma TemplateParamShape()
    ensures Choice(TemplateParam, 1) == Seq([C('T'), Num, C('_'), Say("?")])
  {
  }

  lemma DecltypeShape()
    ensures Choice(Type, 3) == Seq([C('D'), OneOf("tT"), N(Expression), C('E')])
  {
  }

  lemma CtorDtorShape()
    ensures |Alts(CtorDtorName)| == 2
    ensures Alts(CtorDtorName)[0] == Seq([C('C'), OneOf("123"), Prev])
    ensures Alts(CtorDtorName)[1] == Seq([C('D'), OneOf("012"), Say("~"), Prev])
  {
  }

  lemma OperatorShape()
    ensures |Alts(OperatorName)| == 3
    ensures forall k :: 0 <= k < 3 ==> Choice(OperatorName, k) == Alts(OperatorName)[k]
    ensures Alts(OperatorName)[0] == Seq([CC('c', 'v'), Say("operator "), Nest(N(Type))])
    ensures Alts(OperatorName)[1] == Seq([C('v'), OneOf("0123456789"), N(SourceName)])
    ensures Alts(OperatorName)[2] == Oper
  {
  }

  lemma TooShortForOperator(c: Ctx, st: St)
    requires IsCString(c.s) && st.cur < |c.s| <= st.cur + 2
    ensures Ran(c, N(OperatorName), st, false, st)
  {
    OperatorShape();
    hide Ran, Step, Tried, Alts, IsCString;
    NoOperatorCode(c, st);
    NoCast(c, st);
    NoVendorOperator(c, st);
    NoneTried(c, OperatorName, st);
    Miss(c, OperatorName, 0, st, st, st);
    Miss(c, OperatorName, 1, st, st, st);
    Miss(c, OperatorName, 2, st, st, st);
    AllMissed(c, OperatorName, st, st);
  }

  lemma NoCast(c: Ctx, st: St)
    requires IsCString(c.s) && st.cur < |c.s| <= st.cur + 2
    ensures Ran(c, Seq([CC('c', 'v'), Say("operator "), Nest(N(Type))]), st, false, st)
  {
    hide Ran, Step, Alts;
    TwoTokenMiss(c, 'c', 'v', st);
    Seq3(c, [CC('c', 'v'), Say("operator "), Nest(N(Type))], st, false, st, false, st, false, st);
  }

  lemma NoVendorOperator(c: Ctx, st: St)
    requires IsCString(c.s) && st.cur < |c.s| <= st.cur + 2
    ensures Ran(c, Seq([C('v'), OneOf("0123456789"), N(SourceName)]), st, false, st)
  {
    hide Ran, Step, Alts;
    TokenRun(c, 'v', st);
    var ok1 := At(c.s, st.cur) == 'v';
    var st1 := if ok1 then st.(cur := st.cur + 1) else st;
    EitherTokenRun(c, "0123456789", st1);
    assert ok1 ==> At(c.s, st1.cur) !in "0123456789";
    Seq3(c, [C('v'), OneOf("0123456789"), N(SourceName)], st, ok1, st1, false, st1, false, st1);
  }

  lemma NoOperatorCode(c: Ctx, st: St)
    requires IsCString(c.s) && st.cur < |c.s| <= st.cur + 2
    ensures Ran(c, Oper, st, false, st)
  {
    hide Ran, Alts, OperatorList, SaidOper, FirstSpelled;
    Basic(c, Oper, st);
  }

  // The basic entries one by one, so that users need not look at all of `Step`.

  lemma NumRun(c: Ctx, st: St)
    ensures match NumberAt(c.s, st.cur)
            case None => Ran(c, Num, st, false, st)
            case Some(n) => Ran(c, Num, st, true, st.(cur := n.end))
  {
    hide Ran, Alts;
    Basic(c, Num, st);
  }

  lemma FloatRun(c: Ctx, st: St)
    ensures Ran(c, Float, st, Scan(c, LowerHex, st).0, Scan(c, LowerHex, st).1)
  {
    hide Ran, Alts, Scan;
    Basic(c, Float, st);
  }

  lemma SeqIdRun(c: Ctx, st: St)
    ensures Ran(c, SeqId, st, Scan(c, Base36, st).0, Scan(c, Base36, st).1)
  {
    hide Ran, Alts, Scan;
    Basic(c, SeqId, st);
  }

  lemma IdentRun(c: Ctx, st: St)
    requires !c.shipped
    ensures match SourceNameEnd(c.s, st.cur)
            case None => Ran(c, Ident, st, false, st)
            case Some(end) =>
              var n := NumberAt(c.s, st.cur).value;
              Ran(c, Ident, st, true, Identified(c, st.(cur := n.end), n.end, end - n.end).(cur := end))
  {
    hide Ran, Alts, Identified;
    Basic(c, Ident, st);
  }

  lemma BuiltinRun(c: Ctx, st: St, k: nat)
    requires k == FirstSpelled(BuiltinTypeList(), 0, 1, c.s, st.cur, 0)
    ensures if k == |BuiltinTypeList()| then Ran(c, Builtin, st, false, st)
            else Ran(c, Builtin, st, true, SaidText(c, st, BuiltinTypeList()[k].realName).(cur := st.cur + 1))
  {
    hide Ran, Alts, SaidText, BuiltinTypeList;
    Basic(c, Builtin, st);
  }

  lemma OperRun(c: Ctx, st: St, k: nat)
    requires k == FirstSpelled(OperatorList(), 0, 2, c.s, st.cur, 0)
    ensures if !(IsLower(At(c.s, st.cur)) && IsAlpha(At(c.s, st.cur + 1))) || k == |OperatorList()|
            then Ran(c, Oper, st, false, st)
            else Ran(c, Oper, st, true, SaidOper(c, st, OperatorList()[k].realName).(cur := st.cur + 2))
  {
    hide Ran, Alts, SaidOper, OperatorList;
    Basic(c, Oper, st);
  }

  lemma AbbrevRun(c: Ctx, st: St, k: nat)
    requires k == FirstSpelled(SubstitutionList(), 1, 1, c.s, st.cur, 0)
    ensures if k == |SubstitutionList()| then Ran(c, Abbrev, st, false, st)
            else Ran(c, Abbrev, st, true, SaidAbbrev(c, st, SubstitutionList()[k].realName).(cur := st.cur + 1))
  {
    hide Ran, Alts, SaidAbbrev, SubstitutionList;
    Basic(c, Abbrev, st);
  }

  lemma SayRun(c: Ctx, st: St, t: string)
    ensures Ran(c, Say(t), st, true, SaidText(c, st, t))
  {
    hide Ran, Alts, SaidText;
    Basic(c, Say(t), st);
  }

  lemma PrevRun(c: Ctx, st: St)
    ensures Ran(c, Prev, st, true, Said(c, st, Mem(st.prevName), st.prevLen))
  {
    hide Ran, Alts, Said;
    Basic(c, Prev, st);
  }

  lemma SepRun(c: Ctx, st: St)
    ensures Ran(c, Sep, st, true, Separated(c, st))
  {
    hide Ran, Alts, Separated;
    Basic(c, Sep, st);
  }

  lemma CancelRun(c: Ctx, st: St)
    ensures Ran(c, Cancel, st, true, Cancelled(st))
  {
    hide Ran, Alts, Cancelled;
    Basic(c, Cancel, st);
  }

  lemma BumpRun(c: Ctx, st: St)
    ensures Ran(c, Bump, st, true, Bumped(st))
  {
    hide Ran, Alts, Bumped;
    Basic(c, Bump, st);
  }

  lemma TwoTokenMiss(c: Ctx, c0: char, c1: char, st: St)
    requires !(At(c.s, st.cur) == c0 && At(c.s, st.cur + 1) == c1)
    ensures Ran(c, CC(c0, c1), st, false, st)
  {
    hide Ran, Alts;
    Basic(c, CC(c0, c1), st);
  }

  lemma CVQualifiersRun(c: Ctx, st: St, r: bool, st1: St, v: bool, st2: St, k: bool, st3: St)
    requires Ran(c, C('r'), st, r, st1) && Ran(c, C('V'), st1, v, st2) && Ran(c, C('K'), st2, k, st3)
    requires (!r ==> st1 == st) && (!v ==> st2 == st1) && (!k ==> st3 == st2)
    ensures Ran(c, N(CVQualifiers), st, r || v || k, st3)
  {
    hide Ran, Step;
    NoneTried(c, CVQualifiers, st);
    OptRun(c, C('V'), st1, v, st2);
    OptRun(c, C('K'), st2, k, st3);
    if r {
      Seq3(c, Alts(CVQualifiers)[0].es, st, true, st1, true, st2, true, st3);
      Hit(c, CVQualifiers, 0, st, st, st3);
    } else {
      Seq3(c, Alts(CVQualifiers)[0].es, st, false, st, false, st, false, st);
      Miss(c, CVQualifiers, 0, st, st, st);
      if v {
        Seq2(c, Alts(CVQualifiers)[1].es, st, true, st2, true, st3);
        Hit(c, CVQualifiers, 1, st, st, st3);
      } else {
        Seq2(c, Alts(CVQualifiers)[1].es, st, false, st, false, st);
        Miss(c, CVQualifiers, 1, st, st, st);
        if k {
          Hit(c, CVQualifiers, 2, st, st, st3);
        } else {
          Miss(c, CVQualifiers, 2, st, st, st);
          AllMissed(c, CVQualifiers, st, st);
        }
      }
    }
  }

  // ---------------------------------------------------------------- taking runs apart

  lemma SeqParts(k: nat, c: Ctx, es: seq<Peg>, st: St, ok: bool, st2: St) returns (ok1: bool, st1: St, st3: St)
    requires es != []
    requires Run#[k](c, Seq(es), st, ok, st2)
    ensures k > 0
    ensures Run#[k - 1](c, es[0], st, ok1, st1)
    ensures if ok1 then Run#[k - 1](c, Seq(es[1..]), st1, ok, st3) else !ok && st3 == st1
    ensures st2 == if ok then st3 else Rewind(st, st3)
  {
    hide Alts, Step;
    ok1, st1, st3 :| && Run#[k - 1](c, es[0], st, ok1, st1)
                     && (if ok1 then Run#[k - 1](c, Seq(es[1..]), st1, ok, st3) else !ok && st3 == st1)
                     && st2 == if ok then st3 else Rewind(st, st3);
  }

  lemma SeqNilParts(k: nat, c: Ctx, st: St, ok: bool, st2: St)
    requires Run#[k](c, Seq([]), st, ok, st2)
    ensures ok && st2 == st
  {
    hide Alts, Step;
  }

  lemma AltParts(k: nat, c: Ctx, es: seq<Peg>, st: St, ok: bool, st2: St) returns (ok1: bool, st1: St)
    requires es != []
    requires Run#[k](c, Alt(es), st, ok, st2)
    ensures k > 0
    ensures Run#[k - 1](c, es[0], st, ok1, st1)
    ensures if ok1 then ok && st2 == st1 else Run#[k - 1](c, Alt(es[1..]), st1, ok, st2)
  {
    hide Alts, Step;
    ok1, st1 :| Run#[k - 1](c, es[0], st, ok1, st1) &&
      if ok1 then ok && st2 == st1 else Run#[k - 1](c, Alt(es[1..]), st1, ok, st2);
  }

  lemma AltNilParts(k: nat, c: Ctx, st: St, ok: bool, st2: St)
    requires Run#[k](c, Alt([]), st, ok, st2)
    ensures !ok && st2 == st
  {
    hide Alts, Step;
  }

  lemma OptParts(k: nat, c: Ctx, e: Peg, st: St, ok: bool, st2: St) returns (ok1: bool)
    requires Run#[k](c, Opt(e), st, ok, st2)
    ensures k > 0 && ok && Run#[k - 1](c, e, st, ok1, st2)
  {
    hide Alts, Step;
    ok1 :| Run#[k - 1](c, e, st, ok1, st2);
  }

  lemma StarParts(k: nat, c: Ctx, e: Peg, st: St, ok: bool, st2: St) returns (ok1: bool, st1: St)
    requires Run#[k](c, Star(e), st, ok, st2)
    ensures k > 0 && ok && Run#[k - 1](c, e, st, ok1, st1)
    ensures if ok1 then Run#[k - 1](c, Star(e), st1, true, st2) else st2 == st1
  {
    hide Alts, Step;
    ok1, st1 :| Run#[k - 1](c, e, st, ok1, st1) &&
      if ok1 then Run#[k - 1](c, Star(e), st1, true, st2) else st2 == st1;
  }

  lemma NestParts(k: nat, c: Ctx, e: Peg, st: St, ok: bool, st2: St) returns (st1: St)
    requires Run#[k](c, Nest(e), st, ok, st2)
    ensures k > 0 && Run#[k - 1](c, e, st.(nest := 0), ok, st1)
    ensures st2 == if ok then st1.(nest := st.nest) else Rewind(st, st1)
  {
    hide Alts, Step;
    st1 :| Run#[k - 1](c, e, st.(nest := 0), ok, st1) && st2 == if ok then st1.(nest := st.nest) else Rewind(st, st1);
  }

  lemma QuietParts(k: nat, c: Ctx, e: Peg, st: St, ok: bool, st2: St) returns (st1: St)
    requires Run#[k](c, Quiet(e), st, ok, st2)
    ensures k > 0 && Run#[k - 1](c, e, st.(append := false), ok, st1)
    ensures st2 == if ok then st1.(append := st.append) else Rewind(st, st1)
  {
    hide Alts, Step;
    st1 :| Run#[k - 1](c, e, st.(append := false), ok, st1) && st2 == if ok then st1.(append := st.append) else Rewind(st, st1);
  }

  lemma NonTerminalParts(k: nat, c: Ctx, nt: NT, st: St, ok: bool, st2: St)
    requires Run#[k](c, N(nt), st, ok, st2)
    ensures k > 0 && Run#[k - 1](c, Alt(Alts(nt)), st, ok, st2)
  {
    hide Alts, Step;
  }

  lemma BasicParts(k: nat, c: Ctx, e: Peg, st: St, ok: bool, st2: St)
    requires !e.Seq? && !e.Alt? && !e.Opt? && !e.Star? && !e.Nest? && !e.Quiet? && !e.N?
    requires Run#[k](c, e, st, ok, st2)
    ensures (ok, st2) == Step(c, e, st)
  {
    hide Alts, Step;
  }

  // ---------------------------------------------------------------- theorems about every run

  lemma {:induction false} SameRun(k1: nat, k2: nat, c: Ctx, e: Peg, st: St, ok1: bool, st1: St, ok2: bool, st2: St)
    requires Run#[k1](c, e, st, ok1, st1)
    requires Run#[k2](c, e, st, ok2, st2)
    ensures ok1 == ok2 && st1 == st2
    decreases k1
  {
    hide *;
    match e
    case Seq(es) =>
      if es == [] {
        SeqNilParts(k1, c, st, ok1, st1);
        SeqNilParts(k2, c, st, ok2, st2);
      } else {
        var a1, t1, u1 := SeqParts(k1, c, es, st, ok1, st1);
        var a2, t2, u2 := SeqParts(k2, c, es, st, ok2, st2);
        SameRun(k1 - 1, k2 - 1, c, es[0], st, a1, t1, a2, t2);
        if a1 { SameRun(k1 - 1, k2 - 1, c, Seq(es[1..]), t1, ok1, u1, ok2, u2); }
      }
    case Alt(es) =>
      if es == [] {
        AltNilParts(k1, c, st, ok1, st1);
        AltNilParts(k2, c, st, ok2, st2);
      } else {
        var a1, t1 := AltParts(k1, c, es, st, ok1, st1);
        var a2, t2 := AltParts(k2, c, es, st, ok2, st2);
        SameRun(k1 - 1, k2 - 1, c, es[0], st, a1, t1, a2, t2);
        if !a1 { SameRun(k1 - 1, k2 - 1, c, Alt(es[1..]), t1, ok1, st1, ok2, st2); }
      }
    case Opt(e1) =>
      var a1 := OptParts(k1, c, e1, st, ok1, st1);
      var a2 := OptParts(k2, c, e1, st, ok2, st2);
      SameRun(k1 - 1, k2 - 1, c, e1, st, a1, st1, a2, st2);
    case Star(e1) =>
      var a1, t1 := StarParts(k1, c, e1, st, ok1, st1);
      var a2, t2 := StarParts(k2, c, e1, st, ok2, st2);
      SameRun(k1 - 1, k2 - 1, c, e1, st, a1, t1, a2, t2);
      if a1 { SameRun(k1 - 1, k2 - 1, c, e, t1, true, st1, true, st2); }
    case Nest(e1) =>
      var t1 := NestParts(k1, c, e1, st, ok1, st1);
      var t2 := NestParts(k2, c, e1, st, ok2, st2);
      SameRun(k1 - 1, k2 - 1, c, e1, st.(nest := 0), ok1, t1, ok2, t2);
    case Quiet(e1) =>
      var t1 := QuietParts(k1, c, e1, st, ok1, st1);
      var t2 := QuietParts(k2, c, e1, st, ok2, st2);
      SameRun(k1 - 1, k2 - 1, c, e1, st.(append := false), ok1, t1, ok2, t2);
    case N(nt) =>
      NonTerminalParts(k1, c, nt, st, ok1, st1);
      NonTerminalParts(k2, c, nt, st, ok2, st2);
      SameRun(k1 - 1, k2 - 1, c, Alt(Alts(nt)), st, ok1, st1, ok2, st2);
    case _ =>
      BasicParts(k1, c, e, st, ok1, st1);
      BasicParts(k2, c, e, st, ok2, st2);
  }

  /** A run is a function of the state it starts in: output, cursor and outcome. */
  lemma Deterministic(c: Ctx, e: Peg, st: St, ok1: bool, st1: St, ok2: bool, st2: St)
    requires Ran(c, e, st, ok1, st1)
    requires Ran(c, e, st, ok2, st2)
    ensures ok1 == ok2 && st1 == st2
  {
    hide Alts, Step;
    var k1: nat :| Run#[k1](c, e, st, ok1, st1);
    var k2: nat :| Run#[k2](c, e, st, ok2, st2);
    SameRun(k1, k2, c, e, st, ok1, st1, ok2, st2);
  }

  /** What every run keeps: a failure rewinds everything but the output bytes, a success
      restores the append flag, nothing is written at or beyond the size of the output buffer,
      and while appending is off the output is left alone entirely. */
  ghost predicate Kept(c: Ctx, st: St, ok: bool, st2: St) {
    && (!ok ==> st2 == Rewind(st, st2))
    && st2.append == st.append
    && |st2.buf| == |st.buf|
    && (InBounds(c, st) ==> InBounds(c, st2) && forall i :: c.cap <= i < |st.buf| ==> st2.buf[i] == st.buf[i])
    && (!st.append ==> SameOutput(st, st2))
  }

  ghost predicate InBounds(c: Ctx, st: St) {
    st.outCur == 0 || st.outCur < c.cap
  }

  ghost predicate SameOutput(st: St, st2: St) {
    && st2.outCur == st.outCur && st2.prevName == st.prevName && st2.prevLen == st.prevLen
    && st2.overflowed == st.overflowed && st2.buf == st.buf
  }

  lemma WritesKept(c: Ctx, st: St, src: Source, i: nat, n: nat)
    requires InBounds(c, st)
    ensures var st2 := Writes(c, st, src, i, n);
            && InBounds(c, st2) && |st2.buf| == |st.buf|
            && st2 == st.(outCur := st2.outCur, overflowed := st2.overflowed, buf := st2.buf)
            && (i < n && !st2.overflowed ==> st2.outCur < c.cap)
            && forall j :: c.cap <= j < |st.buf| ==> st2.buf[j] == st.buf[j]
    decreases n - i
  {
    if i < n && st.outCur + 1 < c.cap {
      WritesKept(c, st.(buf := Put(st.buf, st.outCur, SourceAt(src, st.buf, i)), outCur := st.outCur + 1), src, i + 1, n);
    }
  }

  lemma SaidKept(c: Ctx, st: St, src: Source, n: int)
    ensures var st2 := Said(c, st, src, n);
            && st2.cur == st.cur && st2.nest == st.nest && Kept(c, st, true, st2)
  {
    if st.append && n > 0 {
      AppendedShape(c, st, Lit(" "), 1);
      var st1 := if SourceAt(src, st.buf, 0) == '<' && 0 < st.outCur && At(st.buf, st.outCur - 1) == '<'
                 then Appended(c, st, Lit(" "), 1) else st;
      var c0 := SourceAt(src, st1.buf, 0);
      var st2 := if IsAlpha(c0) || c0 == '_' then st1.(prevName := st1.outCur, prevLen := n) else st1;
      AppendedShape(c, st2, src, n);
    }
  }

  lemma AppendedShape(c: Ctx, st: St, src: Source, n: nat)
    requires n > 0
    ensures var st2 := Appended(c, st, src, n);
            && |st2.buf| == |st.buf|
            && st2 == st.(outCur := st2.outCur, overflowed := st2.overflowed, buf := st2.buf)
            && (InBounds(c, st) ==> InBounds(c, st2) && forall j :: c.cap <= j < |st.buf| ==> st2.buf[j] == st.buf[j])
  {
    WritesShape(c, st, src, 0, n);
    if InBounds(c, st) { WritesKept(c, st, src, 0, n); }
  }

  lemma WritesShape(c: Ctx, st: St, src: Source, i: nat, n: nat)
    ensures var st2 := Writes(c, st, src, i, n);
            |st2.buf| == |st.buf| && st2 == st.(outCur := st2.outCur, overflowed := st2.overflowed, buf := st2.buf)
    decreases n - i
  {
  }

  lemma SaidTextKept(c: Ctx, st: St, t: string)
    ensures var st2 := SaidText(c, st, t); st2.cur == st.cur && st2.nest == st.nest && Kept(c, st, true, st2)
  {
    SaidKept(c, st, Lit(t), |t|);
  }

  lemma KeptThen(c: Ctx, st: St, st1: St, ok: bool, st2: St)
    requires Kept(c, st, true, st1) && Kept(c, st1, ok, st2)
    ensures Kept(c, st, ok, if ok then st2 else Rewind(st, st2))
  {
  }

  lemma KeptElse(c: Ctx, st: St, st1: St, ok: bool, st2: St)
    requires Kept(c, st, false, st1) && Kept(c, st1, ok, st2)
    ensures Kept(c, st, ok, st2)
  {
  }

  lemma KeptAnyway(c: Ctx, st: St, ok: bool, st2: St)
    requires Kept(c, st, ok, st2)
    ensures Kept(c, st, true, st2) && Kept(c, st, false, Rewind(st, st2))
  {
  }

  lemma KeptInside(c: Ctx, st: St, nest: int, append: bool, ok: bool, st1: St)
    requires Kept(c, st.(nest := nest, append := append), ok, st1)
    requires append ==> st.append
    ensures ok ==> Kept(c, st, true, st1.(nest := st.nest, append := st.append))
    ensures !ok ==> Kept(c, st, false, Rewind(st, st1))
    ensures st1.append == append && (!append ==> SameOutput(st, st1))
  {
  }

  lemma SaidOperKept(c: Ctx, st: St, name: string)
    ensures var st2 := SaidOper(c, st, name); st2.cur == st.cur && st2.nest == st.nest && Kept(c, st, true, st2)
  {
    hide SaidText, Kept;
    var st1 := SaidText(c, st, "operator");
    SaidTextKept(c, st, "operator");
    SaidTextKept(c, st1, " ");
    var st2 := if IsLower(At(name, 0)) then SaidText(c, st1, " ") else st1;
    if IsLower(At(name, 0)) { KeptThen(c, st, st1, true, st2); }
    SaidTextKept(c, st2, name);
    KeptThen(c, st, st2, true, SaidText(c, st2, name));
  }

  lemma SaidAbbrevKept(c: Ctx, st: St, name: string)
    ensures var st2 := SaidAbbrev(c, st, name); st2.cur == st.cur && st2.nest == st.nest && Kept(c, st, true, st2)
  {
    hide SaidText, Kept;
    var st1 := SaidText(c, st, "std");
    SaidTextKept(c, st, "std");
    var st2 := SaidText(c, st1, "::");
    SaidTextKept(c, st1, "::");
    KeptThen(c, st, st1, true, st2);
    SaidTextKept(c, st2, name);
    KeptThen(c, st, st2, true, SaidText(c, st2, name));
  }

  lemma IdentKept(c: Ctx, st: St)
    ensures Kept(c, st, Step(c, Ident, st).0, Step(c, Ident, st).1)
  {
    hide Said, SaidText, NumberAt;
    if SourceNameEnd(c.s, st.cur).Some? {
      var n := NumberAt(c.s, st.cur).value;
      var st1 := st.(cur := n.end);
      SaidTextKept(c, st1, "(anonymous namespace)");
      SaidKept(c, st1, Lit(c.s[n.end..n.end + n.value]), n.value);
    }
  }

  lemma StepKept(c: Ctx, e: Peg, st: St)
    ensures Kept(c, st, Step(c, e, st).0, Step(c, e, st).1)
    ensures e.Say? || e.Prev? || e.Sep? || e.Cancel? || e.Bump? ==> Step(c, e, st).1.cur == st.cur
  {
    hide Said, OperatorList, BuiltinTypeList, SubstitutionList, SaidOper, SaidAbbrev, SaidText, FirstSpelled, NumberAt;
    match e
    case Ident => IdentKept(c, st);
    case Builtin =>
      var k := FirstSpelled(BuiltinTypeList(), 0, 1, c.s, st.cur, 0);
      if k < |BuiltinTypeList()| { SaidTextKept(c, st, BuiltinTypeList()[k].realName); }
    case Oper =>
      var k := FirstSpelled(OperatorList(), 0, 2, c.s, st.cur, 0);
      if k < |OperatorList()| { SaidOperKept(c, st, OperatorList()[k].realName); }
    case Abbrev =>
      var k := FirstSpelled(SubstitutionList(), 1, 1, c.s, st.cur, 0);
      if k < |SubstitutionList()| { SaidAbbrevKept(c, st, SubstitutionList()[k].realName); }
    case Say(t) => SaidTextKept(c, st, t);
    case Prev => SaidKept(c, st, Mem(st.prevName), st.prevLen);
    case Sep => SaidTextKept(c, st, "::");
    case _ =>
  }

  lemma {:induction false} RunKept(k: nat, c: Ctx, e: Peg, st: St, ok: bool, st2: St)
    requires Run#[k](c, e, st, ok, st2)
    ensures Kept(c, st, ok, st2)
  {
    hide Alts, Step, Run, Kept;
    match e
    case Seq(es) =>
      if es == [] {
        SeqNilParts(k, c, st, ok, st2);
        KeptNothing(c, st);
      } else {
        var a1, t1, u1 := SeqParts(k, c, es, st, ok, st2);
        RunKept(k - 1, c, es[0], st, a1, t1);
        if a1 {
          RunKept(k - 1, c, Seq(es[1..]), t1, ok, u1);
          KeptThen(c, st, t1, ok, u1);
        } else {
          KeptAnyway(c, st, a1, t1);
        }
      }
    case Alt(es) =>
      if es == [] {
        AltNilParts(k, c, st, ok, st2);
        KeptNothing(c, st);
      } else {
        var a1, t1 := AltParts(k, c, es, st, ok, st2);
        RunKept(k - 1, c, es[0], st, a1, t1);
        if !a1 {
          RunKept(k - 1, c, Alt(es[1..]), t1, ok, st2);
          KeptElse(c, st, t1, ok, st2);
        }
      }
    case Opt(e1) =>
      var a1 := OptParts(k, c, e1, st, ok, st2);
      RunKept(k - 1, c, e1, st, a1, st2);
      KeptAnyway(c, st, a1, st2);
    case Star(e1) =>
      var a1, t1 := StarParts(k, c, e1, st, ok, st2);
      RunKept(k - 1, c, e1, st, a1, t1);
      KeptAnyway(c, st, a1, t1);
      if a1 {
        RunKept(k - 1, c, e, t1, true, st2);
        KeptThen(c, st, t1, true, st2);
      }
    case Nest(e1) =>
      var t1 := NestParts(k, c, e1, st, ok, st2);
      RunKept(k - 1, c, e1, st.(nest := 0), ok, t1);
      KeptInside(c, st, 0, st.append, ok, t1);
    case Quiet(e1) =>
      var t1 := QuietParts(k, c, e1, st, ok, st2);
      RunKept(k - 1, c, e1, st.(append := false), ok, t1);
      KeptQuiet(c, st, ok, t1);
    case N(nt) =>
      NonTerminalParts(k, c, nt, st, ok, st2);
      RunKept(k - 1, c, Alt(Alts(nt)), st, ok, st2);
    case _ =>
      BasicParts(k, c, e, st, ok, st2);
      StepKept(c, e, st);
  }

  lemma KeptNothing(c: Ctx, st: St)
    ensures Kept(c, st, true, st) && Kept(c, st, false, st)
  {
  }

  lemma KeptQuiet(c: Ctx, st: St, ok: bool, st1: St)
    requires Kept(c, st.(append := false), ok, st1)
    ensures Kept(c, st, ok, if ok then st1.(append := st.append) else Rewind(st, st1))
    ensures SameOutput(st, st1)
  {
  }

  lemma RunKeeps(c: Ctx, e: Peg, st: St, ok: bool, st2: St)
    requires Ran(c, e, st, ok, st2)
    ensures Kept(c, st, ok, st2)
  {
    hide Alts, Step;
    var k: nat :| Run#[k](c, e, st, ok, st2);
    RunKept(k, c, e, st, ok, st2);
  }

  lemma StepInLanguage(c: Ctx, e: Peg, st: St)
    requires !c.shipped
    requires !e.Seq? && !e.Alt? && !e.Opt? && !e.Star? && !e.Nest? && !e.Quiet? && !e.N?
    requires Step(c, e, st).0
    ensures Lang(c.s, e, st.cur, Step(c, e, st).1.cur)
  {
    hide Alts, Said, OperatorList, BuiltinTypeList, SubstitutionList, SaidOper, SaidAbbrev, SaidText, NumberAt, Kept;
    StepKept(c, e, st);
    match e
    case Builtin =>
      assert BuiltinTypeList()[FirstSpelled(BuiltinTypeList(), 0, 1, c.s, st.cur, 0)] in BuiltinTypeList();
    case Oper =>
      assert OperatorList()[FirstSpelled(OperatorList(), 0, 2, c.s, st.cur, 0)] in OperatorList();
    case Abbrev =>
      assert SubstitutionList()[FirstSpelled(SubstitutionList(), 1, 1, c.s, st.cur, 0)] in SubstitutionList();
    case _ =>
  }

  lemma RewindCur(c: Ctx, st: St, st2: St)
    requires Kept(c, st, false, st2)
    ensures st2.cur == st.cur
  {
  }

  lemma LangSeq(s: string, es: seq<Peg>, i: nat, m: nat, j: nat)
    requires es != [] && Lang(s, es[0], i, m) && Lang(s, Seq(es[1..]), m, j)
    ensures Lang(s, Seq(es), i, j)
  {
    hide Alts, Spelled, NumberAt, SourceNameEnd, OperatorList, BuiltinTypeList, SubstitutionList;
  }

  lemma LangAlt(s: string, es: seq<Peg>, i: nat, j: nat)
    requires es != [] && (Lang(s, es[0], i, j) || Lang(s, Alt(es[1..]), i, j))
    ensures Lang(s, Alt(es), i, j)
  {
    hide Alts, Spelled, NumberAt, SourceNameEnd, OperatorList, BuiltinTypeList, SubstitutionList;
  }

  lemma LangNil(s: string, i: nat)
    ensures Lang(s, Seq([]), i, i)
  {
    hide Alts, Spelled, NumberAt, SourceNameEnd, OperatorList, BuiltinTypeList, SubstitutionList;
  }

  lemma LangWrap(s: string, e: Peg, i: nat, j: nat)
    requires e.Opt? || e.Nest? || e.Quiet?
    requires (e.Opt? && i == j) || Lang(s, e.e, i, j)
    ensures Lang(s, e, i, j)
  {
    hide Alts, Spelled, NumberAt, SourceNameEnd, OperatorList, BuiltinTypeList, SubstitutionList;
  }

  lemma LangStar(s: string, e: Peg, i: nat, m: nat, j: nat)
    requires i == j || (Lang(s, e, i, m) && Lang(s, Star(e), m, j))
    ensures Lang(s, Star(e), i, j)
  {
    hide Alts, Spelled, NumberAt, SourceNameEnd, OperatorList, BuiltinTypeList, SubstitutionList;
  }

  lemma LangEnter(s: string, nt: NT, i: nat, j: nat)
    requires Lang(s, Alt(Alts(nt)), i, j)
    ensures Lang(s, N(nt), i, j)
  {
    hide Alts, Spelled, NumberAt, SourceNameEnd, OperatorList, BuiltinTypeList, SubstitutionList;
  }

  lemma {:induction false} RunDerives(k: nat, c: Ctx, e: Peg, st: St, ok: bool, st2: St)
    requires !c.shipped
    requires Run#[k](c, e, st, ok, st2)
    ensures if ok then Lang(c.s, e, st.cur, st2.cur) else st2.cur == st.cur
  {
    hide *;
    RunKept(k, c, e, st, ok, st2);
    if !ok {
      RewindCur(c, st, st2);
      return;
    }
    match e
    case Seq(es) =>
      if es == [] {
        SeqNilParts(k, c, st, ok, st2);
        LangNil(c.s, st.cur);
      } else {
        var a1, t1, u1 := SeqParts(k, c, es, st, ok, st2);
        RunDerives(k - 1, c, es[0], st, a1, t1);
        RunDerives(k - 1, c, Seq(es[1..]), t1, ok, u1);
        LangSeq(c.s, es, st.cur, t1.cur, st2.cur);
      }
    case Alt(es) =>
      if es == [] {
        AltNilParts(k, c, st, ok, st2);
      } else {
        var a1, t1 := AltParts(k, c, es, st, ok, st2);
        RunDerives(k - 1, c, es[0], st, a1, t1);
        if !a1 { RunDerives(k - 1, c, Alt(es[1..]), t1, ok, st2); }
        LangAlt(c.s, es, st.cur, st2.cur);
      }
    case Opt(e1) =>
      var a1 := OptParts(k, c, e1, st, ok, st2);
      RunDerives(k - 1, c, e1, st, a1, st2);
      LangWrap(c.s, e, st.cur, st2.cur);
    case Star(e1) =>
      var a1, t1 := StarParts(k, c, e1, st, ok, st2);
      RunDerives(k - 1, c, e1, st, a1, t1);
      if a1 { RunDerives(k - 1, c, e, t1, true, st2); }
      LangStar(c.s, e1, st.cur, t1.cur, st2.cur);
    case Nest(e1) =>
      var t1 := NestParts(k, c, e1, st, ok, st2);
      RunDerives(k - 1, c, e1, st.(nest := 0), ok, t1);
      LangWrap(c.s, e, st.cur, st2.cur);
    case Quiet(e1) =>
      var t1 := QuietParts(k, c, e1, st, ok, st2);
      RunDerives(k - 1, c, e1, st.(append := false), ok, t1);
      LangWrap(c.s, e, st.cur, st2.cur);
    case N(nt) =>
      NonTerminalParts(k, c, nt, st, ok, st2);
      RunDerives(k - 1, c, Alt(Alts(nt)), st, ok, st2);
      LangEnter(c.s, nt, st.cur, st2.cur);
    case _ =>
      BasicParts(k, c, e, st, ok, st2);
      StepInLanguage(c, e, st);
  }

  /** Whatever the parser accepts, the context-free reading of the grammar derives. */
  lemma AcceptedIsDerivable(c: Ctx, e: Peg, st: St, st2: St)
    requires !c.shipped
    requires Ran(c, e, st, true, st2)
    ensures Lang(c.s, e, st.cur, st2.cur)
  {
    hide Alts, Step;
    var k: nat :| Run#[k](c, e, st, true, st2);
    RunDerives(k, c, e, st, true, st2);
  }

  /** A function encoding prints its name and then "()", whatever its parameter types are. */
  lemma FunctionText(c: Ctx, st: St, st1: St, st2: St)
    requires Ran(c, N(Name), st, true, st1)
    requires Ran(c, N(BareFunctionType), st1, true, st2)
    ensures Ran(c, N(Encoding), st, true, st2)
    ensures SameOutput(SaidText(c, st1, "()"), st2)
  {
    hide Step, Ran, Alts;
    Seq2(c, [N(Name), N(BareFunctionType)], st, true, st1, true, st2);
    NoneTried(c, Encoding, st);
    FunctionShape();
    Hit(c, Encoding, 0, st, st, st2);
    BareFunctionText(c, st1, st2);
  }

  lemma FunctionShape()
    ensures |Alts(Encoding)| == 3 && Alts(Encoding)[0] == Seq([N(Name), N(BareFunctionType)])
    ensures Alts(BareFunctionType) == [Seq([Quiet(Seq([N(Type), Star(N(Type))])), Say("()")])]
  {
  }

  lemma BareFunctionText(c: Ctx, st: St, st2: St)
    requires Ran(c, N(BareFunctionType), st, true, st2)
    ensures SameOutput(SaidText(c, st, "()"), st2)
  {
    hide Alts, Step, SaidText, SameOutput;
    var types := Seq([N(Type), Star(N(Type))]);
    var k := RunHeight(c, N(BareFunctionType), st, true, st2);
    NonTerminalParts(k, c, BareFunctionType, st, true, st2);
    FunctionShape();
    hide Run, Step;
    QuietThenSay(k - 1, c, types, "()", st, st2);
  }

  lemma QuietThenSay(k: nat, c: Ctx, e: Peg, t: string, st: St, st2: St)
    requires Run#[k](c, Alt([Seq([Quiet(e), Say(t)])]), st, true, st2)
    ensures SameOutput(SaidText(c, st, t), st2)
  {
    hide Alts, Step, Run, SaidText, Kept;
    var alts := [Seq([Quiet(e), Say(t)])];
    assert alts[1..] == [];
    var a1, t1 := AltParts(k, c, alts, st, true, st2);
    if !a1 {
      AltNilParts(k - 1, c, t1, true, st2);
    } else {
      var es := [Quiet(e), Say(t)];
      assert es[1..] == [Say(t)] && es[1..][1..] == [];
      var b1, u1, v1 := SeqParts(k - 1, c, es, st, true, st2);
      var b2, u2, v2 := SeqParts(k - 2, c, es[1..], u1, true, v1);
      SeqNilParts(k - 3, c, u2, true, v2);
      SayParts(k - 3, c, t, u1, b2, u2);
      var w := QuietParts(k - 2, c, e, st, true, u1);
      RunKept(k - 3, c, e, st.(append := false), true, w);
      KeptQuiet(c, st, true, w);
      SaidSame(c, st, u1, t);
    }
  }

  lemma RunHeight(c: Ctx, e: Peg, st: St, ok: bool, st2: St) returns (k: nat)
    requires Ran(c, e, st, ok, st2)
    ensures Run#[k](c, e, st, ok, st2)
  {
    hide Alts, Step;
    k :| Run#[k](c, e, st, ok, st2);
  }

  lemma SayParts(k: nat, c: Ctx, t: string, st: St, ok: bool, st2: St)
    requires Run#[k](c, Say(t), st, ok, st2)
    ensures ok && st2 == SaidText(c, st, t)
  {
    hide Alts, SaidText;
  }

  lemma WritesSame(c: Ctx, st: St, st2: St, src: Source, i: nat, n: nat)
    requires SameOutput(st, st2)
    ensures SameOutput(Writes(c, st, src, i, n), Writes(c, st2, src, i, n))
    decreases n - i
  {
  }

  /** What is printed depends on the output fields and the append flag only. */
  lemma SaidSame(c: Ctx, st: St, st2: St, t: string)
    requires SameOutput(st, st2) && st.append == st2.append
    ensures SameOutput(SaidText(c, st, t), SaidText(c, st2, t))
  {
    WritesSame(c, st, st2, Lit(" "), 0, 1);
    if st.append && |t| > 0 {
      var a := if At(t, 0) == '<' && 0 < st.outCur && At(st.buf, st.outCur - 1) == '<' then Appended(c, st, Lit(" "), 1) else st;
      var b := if At(t, 0) == '<' && 0 < st2.outCur && At(st2.buf, st2.outCur - 1) == '<' then Appended(c, st2, Lit(" "), 1) else st2;
      assert SameOutput(a, b);
      var a2 := if IsAlpha(At(t, 0)) || At(t, 0) == '_' then a.(prevName := a.outCur, prevLen := |t|) else a;
      var b2 := if IsAlpha(At(t, 0)) || At(t, 0) == '_' then b.(prevName := b.outCur, prevLen := |t|) else b;
      WritesSame(c, a2, b2, Lit(t), 0, |t|);
    }
  }

  /** A name that is accepted as a whole is a mangled name of the grammar, followed by
      nothing, by a clone suffix or by a version suffix. */
  lemma AcceptedName(c: Ctx, st: St, st2: St)
    requires !c.shipped
    requires TopRun(c, st, true, st2)
    ensures exists j: nat :: Lang(c.s, N(MangledName), st.cur, j) && (CloneSuffix(c.s, j) || At(c.s, j) == '@')
  {
    hide Ran, Alts, CloneSuffix, SaidText;
    var ok1: bool, st1: St :| Ran(c, N(MangledName), st, ok1, st1) && TopEnd(c, ok1, st1, true, st2);
    AcceptedIsDerivable(c, N(MangledName), st, st1);
  }

  /** So is the parse of a whole name. */
  lemma TopDeterministic(c: Ctx, st: St, ok1: bool, st1: St, ok2: bool, st2: St)
    requires TopRun(c, st, ok1, st1)
    requires TopRun(c, st, ok2, st2)
    ensures ok1 == ok2 && (ok1 ==> st1 == st2)
  {
    hide Ran, CloneSuffix, SaidText;
    var k1: bool, t1: St :| Ran(c, N(MangledName), st, k1, t1) && TopEnd(c, k1, t1, ok1, st1);
    var k2: bool, t2: St :| Ran(c, N(MangledName), st, k2, t2) && TopEnd(c, k2, t2, ok2, st2);
    Deterministic(c, N(MangledName), st, k1, t1, k2, t2);
  }

  // ---------------------------------------------------------------- where the code leaves the grammar

  /** ABI tags end where their last tag ends, unless a 'B' stands there: then one later. */
  lemma AbiTagsEnd(c: Ctx, st: St, st2: St) returns (m: nat)
    requires !c.shipped
    requires Ran(c, N(AbiTags), st, true, st2)
    ensures Lang(c.s, Seq([N(AbiTag), Star(N(AbiTag))]), st.cur, m)
    ensures st2.cur == m + if At(c.s, m) == 'B' then 1 else 0
  {
    hide *;
    AbiTagsShape();
    var es := [N(AbiTag), Star(N(AbiTag)), Opt(C('B'))];
    var k := RunHeight(c, N(AbiTags), st, true, st2);
    NonTerminalParts(k, c, AbiTags, st, true, st2);
    var a1, t1 := AltParts(k - 1, c, Alts(AbiTags), st, true, st2);
    if !a1 {
      assert Alts(AbiTags)[1..] == [];
      AltNilParts(k - 2, c, t1, true, st2);
    }
    var w := QuietParts(k - 2, c, Seq(es), st, true, st2);
    m := TagsThenB(k - 3, c, st.(append := false), w);
  }

  lemma TagsThenB(k: nat, c: Ctx, st: St, st2: St) returns (m: nat)
    requires !c.shipped
    requires Run#[k](c, Seq([N(AbiTag), Star(N(AbiTag)), Opt(C('B'))]), st, true, st2)
    ensures Lang(c.s, Seq([N(AbiTag), Star(N(AbiTag))]), st.cur, m)
    ensures st2.cur == m + if At(c.s, m) == 'B' then 1 else 0
  {
    hide *;
    var es := [N(AbiTag), Star(N(AbiTag)), Opt(C('B'))];
    assert es[1..] == [Star(N(AbiTag)), Opt(C('B'))] && es[1..][1..] == [Opt(C('B'))] && es[1..][1..][1..] == [];
    var b1, u1, v1 := SeqParts(k, c, es, st, true, st2);
    var b2, u2, v2 := SeqParts(k - 1, c, es[1..], u1, true, v1);
    var b3, u3, v3 := SeqParts(k - 2, c, es[1..][1..], u2, true, v2);
    SeqNilParts(k - 3, c, u3, true, v3);
    RunDerives(k - 1, c, N(AbiTag), st, true, u1);
    RunDerives(k - 2, c, Star(N(AbiTag)), u1, true, u2);
    LangPair(c.s, N(AbiTag), Star(N(AbiTag)), st.cur, u1.cur, u2.cur);
    m := u2.cur;
    var o := OptParts(k - 3, c, C('B'), u2, b3, u3);
    OptionalB(k - 4, c, u2, o, u3);
  }

  lemma LangPair(s: string, e1: Peg, e2: Peg, i: nat, m: nat, j: nat)
    requires Lang(s, e1, i, m) && Lang(s, e2, m, j)
    ensures Lang(s, Seq([e1, e2]), i, j)
  {
    hide *;
    var two := [e1, e2];
    assert two[1..] == [e2] && two[1..][1..] == [];
    LangNil(s, j);
    LangSeq(s, two[1..], m, j, j);
    LangSeq(s, two, i, m, j);
  }

  lemma OptionalB(k: nat, c: Ctx, st: St, ok: bool, st2: St)
    requires Run#[k](c, C('B'), st, ok, st2)
    ensures st2.cur == st.cur + if At(c.s, st.cur) == 'B' then 1 else 0
  {
    hide Alts, Run;
    BasicParts(k, c, C('B'), st, ok, st2);
  }
}
