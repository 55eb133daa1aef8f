/** The parsing functions of demangle.cc, as methods over one mutable state.

    Every method runs exactly its entry of the grammar table (`Did`), so that the theorems of
    DemangleTheory hold of it; it terminates, it advances the cursor when it succeeds and
    leaves the state as it was when it fails (`Parsed`).  Loops over a parsing function are
    written out where the source passes a function pointer. */
module DemangleParser {
  import opened Common
  import opened DemangleSpec
  import opened DemangleShipped
  import opened DemangleTheory

  /** The fields that `State copy = *state` saves. */
  datatype Saved = Saved(cur: nat, outCur: nat, prevName: nat, prevLen: int, nest: int, append: bool, overflowed: bool)

  ghost function Reloaded(copy: Saved, buf: string): St {
    St(copy.cur, copy.outCur, copy.prevName, copy.prevLen, copy.nest, copy.append, copy.overflowed, buf)
  }

  class State {
    const mangled: string
    const out: array<char>
    const outSize: nat
    var cur: nat
    var outCur: nat
    var prevName: nat
    var prevLen: int
    var nest: int
    var append: bool
    var overflowed: bool

    constructor (mangled: string, out: array<char>, outSize: nat)
      requires IsCString(mangled) && outSize <= out.Length
      ensures Valid() && this.mangled == mangled && this.out == out && this.outSize == outSize
      ensures Now() == InitialSt(out[..])
    {
      this.mangled, this.out, this.outSize := mangled, out, outSize;
      cur, outCur, prevName, prevLen, nest, append, overflowed := 0, 0, 0, -1, -1, true, false;
    }

    ghost function Here(): Ctx { Ctx(mangled, outSize) }

    ghost function Now(): St
      reads this, out
    {
      St(cur, outCur, prevName, prevLen, nest, append, overflowed, out[..])
    }

    ghost predicate Valid()
      reads this
    {
      && IsCString(mangled)
      && outSize <= out.Length
      && cur < |mangled|
      && (outCur == 0 || outCur < outSize)
    }

    /** `e` ran from the old state to this one. */
    twostate predicate Did(e: Peg, ok: bool)
      reads this, out
    {
      && Valid()
      && Ran(Here(), e, old(Now()), ok, Now())
      && append == old(append)
    }

    /** `e` ran, and either consumed input or left all but the output bytes alone. */
    twostate predicate Parsed(e: Peg, ok: bool)
      reads this, out
    {
      && Did(e, ok)
      && if ok then old(cur) < cur && nest == old(nest) else Now() == Rewind(old(Now()), Now())
    }

    function Save(): Saved
      reads this
    {
      Saved(cur, outCur, prevName, prevLen, nest, append, overflowed)
    }

    /** `*state = copy`, where `copy` was saved in state `s0`. */
    method Restore(copy: Saved, ghost s0: St)
      requires Valid() && s0 == Reloaded(copy, s0.buf)
      requires copy.cur < |mangled| && (copy.outCur == 0 || copy.outCur < outSize)
      modifies this
      ensures Valid() && Now() == Rewind(s0, old(Now()))
      ensures cur == copy.cur && nest == copy.nest && append == copy.append
    {
      cur, outCur, prevName, prevLen := copy.cur, copy.outCur, copy.prevName, copy.prevLen;
      nest, append, overflowed := copy.nest, copy.append, copy.overflowed;
    }

    // -------------------------------------------------------------- output

    method Append(src: Source, length: nat)
      requires Valid() && length > 0
      modifies this, out
      ensures Valid() && Now() == Appended(Here(), old(Now()), src, length)
    {
      var i := 0;
      ghost var s0 := Now();
      while i < length
        invariant 0 <= i <= length && Valid() && overflowed == old(overflowed)
        invariant i > 0 ==> outCur < outSize
        invariant Writes(Here(), s0, src, 0, length) == Writes(Here(), Now(), src, i, length)
      {
        if outCur + 1 < outSize {
          var c := match src
                   case Lit(t) => At(t, i)
                   case Mem(p) => if p + i < out.Length then out[p + i] else '\0';
          ghost var before := Now();
          out[outCur] := c;
          outCur := outCur + 1;
          assert Now() == before.(buf := Put(before.buf, before.outCur, SourceAt(src, before.buf, i)), outCur := before.outCur + 1);
        } else {
          overflowed := true;
          break;
        }
        i := i + 1;
      }
      if !overflowed {
        ghost var before := Now();
        out[outCur] := '\0';
        assert Now() == Terminated(before);
      }
    }

    method MaybeAppendWithLength(src: Source, length: int)
      requires Valid()
      modifies this, out
      ensures Valid() && Now() == Said(Here(), old(Now()), src, length)
    {
      if append && length > 0 {
        var c0 := CharAt(src, 0);
        if c0 == '<' && 0 < outCur && out[outCur - 1] == '<' {
          Append(Lit(" "), 1);
        }
        c0 := CharAt(src, 0);
        if IsAlpha(c0) || c0 == '_' {
          prevName, prevLen := outCur, length;
        }
        Append(src, length);
      }
    }

    method CharAt(src: Source, i: nat) returns (c: char)
      ensures c == SourceAt(src, out[..], i)
    {
      c := match src
           case Lit(t) => At(t, i)
           case Mem(p) => if p + i < out.Length then out[p + i] else '\0';
    }

    method MaybeAppend(t: string)
      requires Valid()
      modifies this, out
      ensures Did(Say(t), true) && Now() == SaidText(Here(), old(Now()), t)
      ensures cur == old(cur) && nest == old(nest)
    {
      hide Alts, Ran, Step;
      ghost var s0 := Now();
      if append {
        MaybeAppendWithLength(Lit(t), |t|);
      }
      SayRun(Here(), s0, t);
      SaidTextKept(Here(), s0, t);
    }

    method MaybeIncreaseNestLevel()
      requires Valid()
      modifies this
      ensures Did(Bump, true) && cur == old(cur)
    {
      hide Alts, Ran, Step;
      ghost var s0 := Now();
      if nest > -1 {
        nest := if nest == 32767 then -32768 else nest + 1;
      }
      BumpRun(Here(), s0);
    }

    method MaybeAppendSeparator()
      requires Valid()
      modifies this, out
      ensures Did(Sep, true) && cur == old(cur) && nest == old(nest)
    {
      hide Alts, Ran, Step, SaidText;
      ghost var s0 := Now();
      if nest >= 1 {
        MaybeAppend("::");
      }
      SepRun(Here(), s0);
    }

    method MaybeCancelLastSeparator()
      requires Valid()
      modifies this, out
      ensures Did(Cancel, true) && cur == old(cur) && nest == old(nest)
    {
      hide Alts, Ran, Step;
      ghost var s0 := Now();
      if nest >= 1 && append && 2 <= outCur {
        outCur := outCur - 2;
        out[outCur] := '\0';
      }
      assert Now() == Cancelled(s0);
      CancelRun(Here(), s0);
    }

    // -------------------------------------------------------------- tokens and scanners

    method ParseOneCharToken(c0: char) returns (ok: bool)
      requires Valid() && c0 != '\0'
      modifies this
      ensures Parsed(C(c0), ok)
      ensures Now() == old(Now()).(cur := cur)
      ensures (ok <==> mangled[old(cur)] == c0) && cur == old(cur) + if ok then 1 else 0
    {
      hide Alts, Ran, Step;
      ghost var s0 := Now();
      ok := mangled[cur] == c0;
      if ok {
        cur := cur + 1;
      }
      TokenRun(Here(), c0, s0);
    }

    method ParseTwoCharToken(c0: char, c1: char) returns (ok: bool)
      requires Valid() && c0 != '\0' && c1 != '\0'
      modifies this
      ensures Parsed(CC(c0, c1), ok)
      ensures Now() == old(Now()).(cur := cur)
      ensures ok <==> mangled[old(cur)] == c0 && mangled[old(cur) + 1] == c1
    {
      hide Alts, Ran;
      ghost var s0 := Now();
      ok := mangled[cur] == c0 && mangled[cur + 1] == c1;
      if ok {
        cur := cur + 2;
      }
      Basic(Here(), CC(c0, c1), s0);
    }

    method ParseCharClass(cs: string) returns (ok: bool)
      requires Valid() && '\0' !in cs
      modifies this
      ensures Parsed(OneOf(cs), ok)
      ensures Now() == old(Now()).(cur := cur)
    {
      hide Alts, Ran, Step;
      ghost var s0 := Now();
      EitherTokenRun(Here(), cs, s0);
      for p := 0 to |cs|
        invariant Now() == s0 && Valid()
        invariant mangled[cur] !in cs[..p]
      {
        if mangled[cur] == cs[p] {
          cur := cur + 1;
          return true;
        }
      }
      assert cs[..|cs|] == cs;
      return false;
    }

    /** A failure may have consumed an 'n'. */
    method ParseNumber() returns (ok: bool, number: int)
      requires Valid()
      modifies this
      ensures ok ==> Parsed(Num, true)
      ensures ok ==> Now() == old(Now()).(cur := cur)
      ensures ok ==> NumberAt(mangled, old(cur)) == Some(Number(number, cur))
      ensures !ok ==> NumberAt(mangled, old(cur)).None? && Ran(Here(), Num, old(Now()), false, old(Now()))
      ensures !ok ==> Valid() && Now() == old(Now()).(cur := cur)
    {
      hide Alts, Ran, Step;
      ghost var s0 := Now();
      NumRun(Here(), s0);
      var sign := 1;
      var minus := ParseOneCharToken('n');
      if minus {
        sign := -1;
      }
      var p := cur;
      number := 0;
      while IsDigit(mangled[p])
        invariant cur <= p < |mangled|
        invariant ScanEnd(mangled, Decimal, cur) == ScanEnd(mangled, Decimal, p)
        invariant DigitsValue(mangled, cur, 0) == DigitsValue(mangled, p, number)
        decreases |mangled| - p
      {
        number := Wrap32(number * 10 + (mangled[p] as int - '0' as int));
        p := p + 1;
      }
      ok := p != cur;
      if ok {
        cur := p;
        assert number * sign == if minus then -number else number;
        number := Wrap32(number * sign);
      }
    }

    method ParseFloatNumber() returns (ok: bool)
      requires Valid()
      modifies this
      ensures Parsed(Float, ok)
      ensures Now() == old(Now()).(cur := cur)
    {
      hide Alts, Ran, Step;
      FloatRun(Here(), Now());
      ok := ParseDigits(LowerHex);
    }

    method ParseSeqId() returns (ok: bool)
      requires Valid()
      modifies this
      ensures Parsed(SeqId, ok)
      ensures Now() == old(Now()).(cur := cur)
    {
      hide Alts, Ran, Step;
      SeqIdRun(Here(), Now());
      ok := ParseDigits(Base36);
    }

    method ParseDigits(k: Digits) returns (ok: bool)
      requires Valid()
      modifies this
      ensures Valid() && (ok, Now()) == Scan(Here(), k, old(Now())) && (ok <==> old(cur) < cur)
    {
      var p := cur;
      while InClass(k, mangled[p])
        invariant cur <= p < |mangled|
        invariant ScanEnd(mangled, k, cur) == ScanEnd(mangled, k, p)
        decreases |mangled| - p
      {
        p := p + 1;
      }
      ok := p != cur;
      cur := p;
    }

    /** Whether `n` characters remain before the terminator. */
    method AtLeastNumCharsRemaining(n: int) returns (r: bool)
      requires Valid()
      ensures r <==> n <= 0 || cur + n < |mangled|
    {
      var i := 0;
      while i < n
        invariant 0 <= i && (i <= n || n <= 0) && cur + i < |mangled|
      {
        if mangled[cur + i] == '\0' {
          return false;
        }
        i := i + 1;
      }
      return true;
    }

    // -------------------------------------------------------------- names

    /** A failure may have consumed the "_Z". */
    method ParseMangledName() returns (ok: bool)
      requires Valid()
      modifies this, out
      ensures ok ==> Parsed(N(MangledName), true)
      ensures !ok ==> Valid() && Ran(Here(), N(MangledName), old(Now()), false, Rewind(old(Now()), Now()))
      ensures !ok ==> Now() == Rewind(old(Now()), Now()).(cur := cur)
      decreases |mangled| - cur, 11
    {
      hide Ran, Step, Tried;
      ghost var s0 := Now();
      ok := ParseTwoCharToken('_', 'Z');
      ghost var o1, s1 := ok, Now();
      if ok { ok := ParseEncoding(); }
      Seq2(Here(), Alts(MangledName)[0].es, s0, o1, s1, ok, Now());
      Only(Here(), MangledName, s0, ok, if ok then Now() else Rewind(s0, Now()));
    }

    method ParseEncoding() returns (ok: bool)
      requires Valid()
      modifies this, out
      ensures Parsed(N(Encoding), ok)
      decreases |mangled| - cur, 10
    {
      hide Ran, Step, Tried;
      var copy := Save();
      ghost var s0 := Now();
      ghost var a := s0;
      ghost var o1: bool, o2: bool;
      ghost var s1: St, s2: St;
      NoneTried(Here(), Encoding, s0);
      ok := ParseName();                      o1, s1 := ok, Now();
      if ok { ok := ParseBareFunctionType(); } o2, s2 := ok, Now();
      Seq2(Here(), Alts(Encoding)[0].es, a, o1, s1, o2, s2);
      if ok { Hit(Here(), Encoding, 0, s0, a, Now()); return; }
      Restore(copy, s0);
      Miss(Here(), Encoding, 0, s0, a, Now());  a := Now();

      ok := ParseName();
      if ok { Hit(Here(), Encoding, 1, s0, a, Now()); return; }
      Miss(Here(), Encoding, 1, s0, a, Now());  a := Now();

      ok := ParseSpecialName();
      if ok { Hit(Here(), Encoding, 2, s0, a, Now()); return; }
      Miss(Here(), Encoding, 2, s0, a, Now());
      AllMissed(Here(), Encoding, s0, Now());
    }

    method ParseName() returns (ok: bool)
      requires Valid()
      modifies this, out
      ensures Parsed(N(Name), ok)
      decreases |mangled| - cur, 6
    {
      hide Ran, Step, Tried;
      var copy := Save();
      ghost var s0 := Now();
      ghost var a := s0;
      ghost var o1: bool, o2: bool;
      ghost var s1: St, s2: St;
      NoneTried(Here(), Name, s0);
      ok := ParseNestedName();
      if ok { Hit(Here(), Name, 0, s0, a, Now()); return; }
      Miss(Here(), Name, 0, s0, a, Now());  a := Now();

      ok := ParseLocalName();
      if ok { Hit(Here(), Name, 1, s0, a, Now()); return; }
      Miss(Here(), Name, 1, s0, a, Now());  a := Now();

      ok := ParseUnscopedTemplateName();      o1, s1 := ok, Now();
      if ok { ok := ParseTemplateArgs(); }    o2, s2 := ok, Now();
      Seq2(Here(), Alts(Name)[2].es, a, o1, s1, o2, s2);
      if ok { Hit(Here(), Name, 2, s0, a, Now()); return; }
      Restore(copy, s0);
      Miss(Here(), Name, 2, s0, a, Now());  a := Now();

      ok := ParseUnscopedName();
      if ok { Hit(Here(), Name, 3, s0, a, Now()); return; }
      Miss(Here(), Name, 3, s0, a, Now());
      AllMissed(Here(), Name, s0, Now());
    }

    method ParseUnscopedName() returns (ok: bool)
      requires Valid()
      modifies this, out
      ensures Parsed(N(UnscopedName), ok)
      decreases |mangled| - cur, 4
    {
      hide Ran, Step, Tried;
      var copy := Save();
      ghost var s0 := Now();
      ghost var a := s0;
      ghost var o1: bool, o2: bool, o3: bool;
      ghost var s1: St, s2: St, s3: St;
      NoneTried(Here(), UnscopedName, s0);
      ok := ParseUnqualifiedName();
      if ok { Hit(Here(), UnscopedName, 0, s0, a, Now()); return; }
      Miss(Here(), UnscopedName, 0, s0, a, Now());  a := Now();

      ok := ParseTwoCharToken('S', 't');      o1, s1 := ok, Now();
      if ok { MaybeAppend("std::"); }         o2, s2 := ok, Now();
      if ok { ok := ParseUnqualifiedName(); } o3, s3 := ok, Now();
      Seq3(Here(), Alts(UnscopedName)[1].es, a, o1, s1, o2, s2, o3, s3);
      if ok { Hit(Here(), UnscopedName, 1, s0, a, Now()); return; }
      Restore(copy, s0);
      Miss(Here(), UnscopedName, 1, s0, a, Now());
      AllMissed(Here(), UnscopedName, s0, Now());
    }

    method ParseUnscopedTemplateName() returns (ok: bool)
      requires Valid()
      modifies this, out
      ensures Parsed(N(UnscopedTemplateName), ok)
      decreases |mangled| - cur, 5
    {
      hide Ran, Step, Tried;
      ghost var s0 := Now();
      ghost var a := s0;
      NoneTried(Here(), UnscopedTemplateName, s0);
      ok := ParseUnscopedName();
      if ok { Hit(Here(), UnscopedTemplateName, 0, s0, a, Now()); return; }
      Miss(Here(), UnscopedTemplateName, 0, s0, a, Now());  a := Now();

      ok := ParseSubstitution();
      if ok { Hit(Here(), UnscopedTemplateName, 1, s0, a, Now()); return; }
      Miss(Here(), UnscopedTemplateName, 1, s0, a, Now());
      AllMissed(Here(), UnscopedTemplateName, s0, Now());
    }

    method ParseNestedName() returns (ok: bool)
      requires Valid()
      modifies this, out
      ensures Parsed(N(NestedName), ok)
      decreases |mangled| - cur, 2
    {
      hide Ran, Step, Tried;
      var copy := Save();
      ghost var s0 := Now();
      ok := ParseOneCharToken('N');
      ghost var o1, s1 := ok, Now();
      if ok {
        nest := 0; // EnterNestedName
        ghost var t0 := Now();
        var got := ParseCVQualifiers();
        ghost var t1 := Now();
        OptRun(Here(), N(CVQualifiers), t0, got, t1);
        ok := ParsePrefix();
        Seq2(Here(), [Opt(N(CVQualifiers)), N(Prefix)], t0, true, t1, true, Now());
        NestRun(Here(), Seq([Opt(N(CVQualifiers)), N(Prefix)]), s1, true, Now());
        nest := copy.nest; // LeaveNestedName
      }
      ghost var o2, s2 := ok, Now();
      if ok { ok := ParseOneCharToken('E'); }
      Seq3(Here(), Alts(NestedName)[0].es, s0, o1, s1, o2, s2, ok, Now());
      Only(Here(), NestedName, s0, ok, if ok then Now() else Rewind(s0, Now()));
      if !ok {
        Restore(copy, s0);
      }
    }

    /** Always succeeds, possibly on nothing. */
    method ParsePrefix() returns (ok: bool)
      requires Valid()
      modifies this, out
      ensures ok && Did(N(Prefix), true) && old(cur) <= cur
      decreases |mangled| - cur, 6
    {
      hide Ran, Step, Tried;
      ghost var s0 := Now();
      var hasSomething := false;
      while true
        invariant Valid() && old(cur) <= cur && append == old(append)
        invariant hasSomething ==> old(cur) < cur
        invariant forall st2: St ::
          Ran(Here(), N(if hasSomething then PrefixMore else Prefix), Now(), true, st2) ==>
            Ran(Here(), N(Prefix), s0, true, st2)
        decreases |mangled| - cur
      {
        ghost var h := Now();
        MaybeAppendSeparator();
        ghost var s1 := Now();
        ok := ParseTemplateParam();
        ghost var o2, s2 := ok, Now();
        if !ok { ok := ParseSubstitution(); }
        ghost var o3, s3 := ok, Now();
        if !ok { ok := ParseUnscopedName(); }
        ghost var s4 := Now();
        ComponentRun(Here(), s1, o2, s2, o3, s3, ok, s4);
        if ok {
          MaybeIncreaseNestLevel();
          ghost var s5 := Now();
          forall st2: St | Ran(Here(), N(PrefixMore), s5, true, st2)
            ensures Ran(Here(), N(Prefix), s0, true, st2)
          {
            PrefixGoesOn(Here(), hasSomething, h, s1, s4, s5, st2);
          }
          hasSomething := true;
          continue;
        }
        MaybeCancelLastSeparator();
        ghost var s5 := Now();
        if hasSomething {
          ok := ParseTemplateArgs();
          ghost var s6 := Now();
          if ok {
            ok := ParsePrefix();
            PrefixEnds(Here(), true, h, s1, s4, s5, true, s6, Now());
            return;
          }
          PrefixEnds(Here(), true, h, s1, s4, s5, false, s6, s6);
          return true;
        }
        PrefixEnds(Here(), false, h, s1, s4, s5, false, s5, s5);
        return true;
      }
    }

    method ParseUnqualifiedName() returns (ok: bool)
      requires Valid()
      modifies this, out
      ensures Parsed(N(UnqualifiedName), ok)
      decreases |mangled| - cur, 3
    {
      hide Ran, Step, Tried;
      var copy := Save();
      ghost var s0 := Now();
      ghost var a := s0;
      ghost var o1: bool, o2: bool;
      ghost var s1: St, s2: St;
      NoneTried(Here(), UnqualifiedName, s0);
      ok := ParseOperatorName();
      if ok { Hit(Here(), UnqualifiedName, 0, s0, a, Now()); return; }
      Miss(Here(), UnqualifiedName, 0, s0, a, Now());  a := Now();

      ok := ParseCtorDtorName();
      if ok { Hit(Here(), UnqualifiedName, 1, s0, a, Now()); return; }
      Miss(Here(), UnqualifiedName, 1, s0, a, Now());  a := Now();

      ok := ParseSourceName();                o1, s1 := ok, Now();
      if ok { var got := ParseAbiTags(); OptRun(Here(), N(AbiTags), s1, got, Now()); } o2, s2 := ok, Now();
      Seq2(Here(), Alts(UnqualifiedName)[2].es, a, o1, s1, o2, s2);
      if ok { Hit(Here(), UnqualifiedName, 2, s0, a, Now()); return; }
      Restore(copy, s0);
      Miss(Here(), UnqualifiedName, 2, s0, a, Now());  a := Now();

      ok := ParseLocalSourceName();           o1, s1 := ok, Now();
      if ok { var got := ParseAbiTags(); OptRun(Here(), N(AbiTags), s1, got, Now()); } o2, s2 := ok, Now();
      Seq2(Here(), Alts(UnqualifiedName)[3].es, a, o1, s1, o2, s2);
      if ok { Hit(Here(), UnqualifiedName, 3, s0, a, Now()); return; }
      Restore(copy, s0);
      Miss(Here(), UnqualifiedName, 3, s0, a, Now());
      AllMissed(Here(), UnqualifiedName, s0, Now());
    }

    method ParseSourceName() returns (ok: bool)
      requires Valid()
      modifies this, out
      ensures Parsed(N(SourceName), ok)
      decreases |mangled| - cur, 1
    {
      hide Ran, Alts, Step, Identified, NumberAt;
      var copy := Save();
      ghost var s0 := Now();
      var length;
      ok, length := ParseNumber();
      if ok {
        ok := ParseIdentifier(length);
      }
      if !ok {
        Restore(copy, s0);
      }
      IdentRun(Here(), s0);
      SourceNameShape();
      Only(Here(), SourceName, s0, ok, Now());
    }

    /** The identifier of the given length at the cursor.  A length below -1 would move the
        cursor back: it is reported, and refused. */
    method ParseIdentifier(length: int) returns (ok: bool)
      requires Valid()
      modifies this, out
      ensures ok <==> 0 <= length && old(cur) + length < |mangled|
      ensures ok ==> Valid() && cur == old(cur) + length
      ensures ok ==> Now() == Identified(Here(), old(Now()), old(cur), length).(cur := cur)
      ensures nest == old(nest) && append == old(append)
      ensures !ok ==> Valid() && Now() == old(Now())
    {
      hide Ran, Alts, SaidText, Said;
      // Of negative lengths the shipped code refuses -1 only: DemangleSpec.StepBack.
      if length < 0 {
        return false;
      }
      ok := AtLeastNumCharsRemaining(length);
      if !ok {
        return;
      }
      if length > |AnonPrefix| && mangled[cur..cur + |AnonPrefix|] == AnonPrefix {
        MaybeAppend("(anonymous namespace)");
      } else {
        MaybeAppendWithLength(Lit(mangled[cur..cur + length]), length);
        SaidKept(Here(), old(Now()), Lit(mangled[old(cur)..old(cur) + length]), length);
      }
      cur := cur + length;
    }

    method ParseLocalSourceName() returns (ok: bool)
      requires Valid()
      modifies this, out
      ensures Parsed(N(LocalSourceName), ok)
      decreases |mangled| - cur, 2
    {
      hide Ran, Step, Tried;
      var copy := Save();
      ghost var s0 := Now();
      ghost var o1: bool, o2: bool, o3: bool;
      ghost var s1: St, s2: St, s3: St;
      NoneTried(Here(), LocalSourceName, s0);
      ok := ParseOneCharToken('L');           o1, s1 := ok, Now();
      if ok { ok := ParseSourceName(); }      o2, s2 := ok, Now();
      if ok { var got := ParseDiscriminator(); OptRun(Here(), N(Discriminator), s2, got, Now()); } o3, s3 := ok, Now();
      Seq3(Here(), Alts(LocalSourceName)[0].es, s0, o1, s1, o2, s2, o3, s3);
      if ok { Hit(Here(), LocalSourceName, 0, s0, s0, Now()); return; }
      Restore(copy, s0);
      Miss(Here(), LocalSourceName, 0, s0, s0, Now());
      AllMissed(Here(), LocalSourceName, s0, Now());
    }

    /** After at least one tag, a 'B' that starts no further tag is consumed as well. */
    method ParseAbiTags() returns (ok: bool)
      requires Valid()
      modifies this, out
      ensures Parsed(N(AbiTags), ok)
      decreases |mangled| - cur, 2
    {
      AbiTagsShape();
      hide Ran, Step, Tried, Alts;
      var copy := Save();
      ghost var s0 := Now();
      append := false; // DisableAppend
      ghost var t0 := Now();
      ok := ParseAbiTag();
      ghost var t1 := if ok then Now() else Rewind(t0, Now());
      ghost var t2 := t1;
      if ok { t2 := MoreAbiTags(); }
      ghost var tags := Seq([N(AbiTag), Star(N(AbiTag)), Opt(C('B'))]);
      ghost var t3 := if ok then Now() else t1;
      Seq3(Here(), tags.es, t0, ok, t1, ok, t2, ok, t3);
      QuietRun(Here(), tags, s0, ok, if ok then t3 else Rewind(t0, t3));
      if ok {
        append := copy.append; // RestoreAppend
      } else {
        Restore(copy, s0);
      }
      Only(Here(), AbiTags, s0, ok, Now());
    }

    /** The loop of OneOrMore(ParseAbiTag, state); `end` is the state after the last tag. */
    method MoreAbiTags() returns (ghost end: St)
      requires Valid()
      modifies this, out
      ensures Valid() && old(cur) <= cur && nest == old(nest) && append == old(append)
      ensures Ran(Here(), Star(N(AbiTag)), old(Now()), true, end) && Ran(Here(), Opt(C('B')), end, true, Now())
      decreases |mangled| - cur, 2
    {
      hide Ran, Step, Tried, Alts;
      ghost var s0 := Now();
      end := s0;
      var more := true;
      while more
        invariant Valid() && old(cur) <= cur && nest == old(nest) && append == old(append)
        invariant more ==> forall st2: St ::
          Ran(Here(), Star(N(AbiTag)), Now(), true, st2) ==> Ran(Here(), Star(N(AbiTag)), s0, true, st2)
        invariant !more ==> Ran(Here(), Star(N(AbiTag)), s0, true, end) && Ran(Here(), Opt(C('B')), end, true, Now())
        decreases |mangled| - cur, more
      {
        ghost var h := Now();
        more := ParseAbiTag();
        if more {
          forall st2: St | Ran(Here(), Star(N(AbiTag)), Now(), true, st2)
            ensures Ran(Here(), Star(N(AbiTag)), s0, true, st2)
          {
            StarStep(Here(), N(AbiTag), h, Now(), st2);
          }
        } else {
          end := Rewind(h, Now());
          StarEnd(Here(), N(AbiTag), h, end);
          TokenRun(Here(), 'B', end);
          OptRun(Here(), C('B'), end, mangled[h.cur] == 'B', Now());
        }
      }
    }

    /** A failure may have consumed the 'B'. */
    method ParseAbiTag() returns (ok: bool)
      requires Valid()
      modifies this, out
      ensures ok ==> Parsed(N(AbiTag), true)
      ensures !ok ==> Valid() && Ran(Here(), N(AbiTag), old(Now()), false, Rewind(old(Now()), Now()))
      ensures !ok ==> Now() == Rewind(old(Now()), Now()).(cur := old(cur) + if mangled[old(cur)] == 'B' then 1 else 0)
      decreases |mangled| - cur, 1
    {
      hide Ran, Step, Tried;
      ghost var s0 := Now();
      ok := ParseOneCharToken('B');
      ghost var o1, s1 := ok, Now();
      if ok { ok := ParseSourceName(); }
      Seq2(Here(), Alts(AbiTag)[0].es, s0, o1, s1, ok, Now());
      Only(Here(), AbiTag, s0, ok, if ok then Now() else Rewind(s0, Now()));
    }

    method CallOffsetNonVirtual() returns (ok: bool)
      requires Valid()
      modifies this, out
      ensures Parsed(Choice(CallOffset, 0), ok)
      decreases |mangled| - cur, 1, 0
    {
      hide Ran, Step, Tried;
      var copy := Save();
      ghost var s0 := Now();
      ok := ParseOneCharToken('h');               ghost var o1, s1 := ok, Now();
      if ok { ok := ParseNVOffset(); }            ghost var o2, s2 := ok, if ok then Now() else s1;
      if ok { ok := ParseOneCharToken('_'); }     ghost var o3, s3 := ok, if o2 then Now() else s2;
      Seq3(Here(), Alts(CallOffset)[0].es, s0, o1, s1, o2, s2, o3, s3);
      if !ok { Restore(copy, s0); }
    }

    method CallOffsetVirtual() returns (ok: bool)
      requires Valid()
      modifies this, out
      ensures Parsed(Choice(CallOffset, 1), ok)
      decreases |mangled| - cur, 1, 0
    {
      hide Ran, Step, Tried;
      var copy := Save();
      ghost var s0 := Now();
      ok := ParseOneCharToken('v');               ghost var o1, s1 := ok, Now();
      if ok { ok := ParseVOffset(); }             ghost var o2, s2 := ok, Now();
      if ok { ok := ParseOneCharToken('_'); }     ghost var o3, s3 := ok, Now();
      Seq3(Here(), Alts(CallOffset)[1].es, s0, o1, s1, o2, s2, o3, s3);
      if !ok { Restore(copy, s0); }
    }

    method ParseCallOffset() returns (ok: bool)
      requires Valid()
      modifies this, out
      ensures Parsed(N(CallOffset), ok)
      decreases |mangled| - cur, 1
    {
      hide Ran, Step, Tried;
      ghost var s0 := Now();
      ghost var a := s0;
      NoneTried(Here(), CallOffset, s0);
      ok := CallOffsetNonVirtual();
      if ok { Hit(Here(), CallOffset, 0, s0, a, Now()); return; }
      Miss(Here(), CallOffset, 0, s0, a, Now());  a := Now();

      ok := CallOffsetVirtual();
      if ok { Hit(Here(), CallOffset, 1, s0, a, Now()); return; }
      Miss(Here(), CallOffset, 1, s0, a, Now());
      AllMissed(Here(), CallOffset, s0, Now());
    }

    /** A failure may have consumed an 'n'. */
    method ParseNVOffset() returns (ok: bool)
      requires Valid()
      modifies this
      ensures ok ==> Parsed(N(NVOffset), true)
      ensures !ok ==> Valid() && Ran(Here(), N(NVOffset), old(Now()), false, old(Now()))
      ensures !ok ==> Now() == old(Now()).(cur := cur)
    {
      hide Ran, Step, Tried;
      ghost var s0 := Now();
      var number;
      ok, number := ParseNumber();
      Only(Here(), NVOffset, s0, ok, if ok then Now() else s0);
    }

    method ParseVOffset() returns (ok: bool)
      requires Valid()
      modifies this, out
      ensures Parsed(N(VOffset), ok)
      decreases |mangled| - cur, 1
    {
      hide Ran, Step, Tried;
      var copy := Save();
      ghost var s0 := Now();
      ghost var o1: bool, o2: bool, o3: bool;
      ghost var s1: St, s2: St, s3: St;
      var number;
      NoneTried(Here(), VOffset, s0);
      ok, number := ParseNumber();            o1, s1 := ok, if ok then Now() else s0;
      if ok { ok := ParseOneCharToken('_'); } o2, s2 := ok, if o1 then Now() else s1;
      if ok { ok, number := ParseNumber(); }  o3, s3 := ok, if ok then Now() else s2;
      Seq3(Here(), Alts(VOffset)[0].es, s0, o1, s1, o2, s2, o3, s3);
      if ok { Hit(Here(), VOffset, 0, s0, s0, Now()); return; }
      Restore(copy, s0);
      Miss(Here(), VOffset, 0, s0, s0, Now());
      AllMissed(Here(), VOffset, s0, Now());
    }

    method ParseCtorDtorName() returns (ok: bool)
      requires Valid()
      modifies this, out
      ensures Parsed(N(CtorDtorName), ok)
      decreases |mangled| - cur, 1
    {
      CtorDtorShape();
      hide Ran, Step, Tried, Alts;
      var copy := Save();
      ghost var s0 := Now();
      NoneTried(Here(), CtorDtorName, s0);
      ok := ParseOneCharToken('C');
      ghost var o1, s1 := ok, Now();
      if ok { ok := ParseCharClass("123"); }
      ghost var o2, s2 := ok, Now();
      if ok { AppendPreviousName(); }
      Seq3(Here(), Alts(CtorDtorName)[0].es, s0, o1, s1, o2, s2, ok, Now());
      if ok {
        Hit(Here(), CtorDtorName, 0, s0, s0, Now());
        return;
      }
      Restore(copy, s0);
      Miss(Here(), CtorDtorName, 0, s0, s0, Now());
      ghost var a := Now();
      ok := ParseOneCharToken('D');
      o1, s1 := ok, Now();
      if ok { ok := ParseCharClass("012"); }
      o2, s2 := ok, Now();
      if ok { MaybeAppend("~"); }
      ghost var o3, s3 := ok, Now();
      if ok { AppendPreviousName(); }
      Seq4(Here(), Alts(CtorDtorName)[1].es, a, o1, s1, o2, s2, o3, s3, ok, Now());
      if ok {
        Hit(Here(), CtorDtorName, 1, s0, a, Now());
        return;
      }
      Restore(copy, s0);
      Miss(Here(), CtorDtorName, 1, s0, a, Now());
      AllMissed(Here(), CtorDtorName, s0, Now());
    }

    /** The class name for a constructor or destructor, read back from the output buffer. */
    method AppendPreviousName()
      requires Valid()
      modifies this, out
      ensures Did(Prev, true) && cur == old(cur) && nest == old(nest)
    {
      hide Ran, Alts, Step, Said;
      ghost var s0 := Now();
      MaybeAppendWithLength(Mem(prevName), prevLen);
      PrevRun(Here(), s0);
      SaidKept(Here(), s0, Mem(s0.prevName), s0.prevLen);
    }

    // -------------------------------------------------------------- operators and special names

    method OperatorCast() returns (ok: bool)
      requires Valid()
      modifies this, out
      ensures Parsed(Choice(OperatorName, 0), ok)
      decreases |mangled| - cur, 2, 0
    {
      OperatorShape();
      hide Ran, Step, Tried, Alts;
      var copy := Save();
      ghost var s0 := Now();
      ok := ParseTwoCharToken('c', 'v');            ghost var o1, s1 := ok, Now();
      if ok { MaybeAppend("operator "); }           ghost var o2, s2 := ok, Now();
      if ok {
        nest := 0; // EnterNestedName
        ok := ParseType();
        NestRun(Here(), N(Type), s2, ok, Now());
        if ok { nest := copy.nest; } // LeaveNestedName
      }
      ghost var o3, s3 := ok, if ok then Now() else if o2 then Rewind(s2, Now()) else s2;
      Seq3(Here(), Alts(OperatorName)[0].es, s0, o1, s1, o2, s2, o3, s3);
      if !ok { Restore(copy, s0); }
    }

    method OperatorVendor() returns (ok: bool)
      requires Valid()
      modifies this, out
      ensures Parsed(Choice(OperatorName, 1), ok)
      decreases |mangled| - cur, 2, 0
    {
      OperatorShape();
      hide Ran, Step, Tried, Alts;
      var copy := Save();
      ghost var s0 := Now();
      ok := ParseOneCharToken('v');               ghost var o1, s1 := ok, Now();
      if ok { ok := ParseCharClass("0123456789"); } ghost var o2, s2 := ok, Now();
      if ok { ok := ParseSourceName(); }          ghost var o3, s3 := ok, Now();
      Seq3(Here(), Alts(OperatorName)[1].es, s0, o1, s1, o2, s2, o3, s3);
      if !ok { Restore(copy, s0); }
    }

    method ParseOperatorName() returns (ok: bool)
      requires Valid()
      modifies this, out
      ensures Parsed(N(OperatorName), ok)
      decreases |mangled| - cur, 2
    {
      hide Ran, Step, Tried;
      ok := AtLeastNumCharsRemaining(2);
      if !ok {
        TooShortForOperator(Here(), Now());
        return;
      }
      ghost var s0 := Now();
      ghost var a := s0;
      NoneTried(Here(), OperatorName, s0);
      ok := OperatorCast();
      if ok { Hit(Here(), OperatorName, 0, s0, a, Now()); return; }
      Miss(Here(), OperatorName, 0, s0, a, Now());  a := Now();

      ok := OperatorVendor();
      if ok { Hit(Here(), OperatorName, 1, s0, a, Now()); return; }
      Miss(Here(), OperatorName, 1, s0, a, Now());  a := Now();

      ok := ParseOperatorCode();
      if ok { Hit(Here(), OperatorName, 2, s0, a, Now()); return; }
      Miss(Here(), OperatorName, 2, s0, a, Now());
      AllMissed(Here(), OperatorName, s0, Now());
    }

    method AppendOperator(name: string)
      requires Valid()
      modifies this, out
      ensures Valid() && Now() == SaidOper(Here(), old(Now()), name) && Kept(Here(), old(Now()), true, Now())
      ensures cur == old(cur) && nest == old(nest)
    {
      hide Ran, Alts, Step, SaidText;
      ghost var s0 := Now();
      MaybeAppend("operator");
      if IsLower(At(name, 0)) {
        MaybeAppend(" ");
      }
      MaybeAppend(name);
      SaidOperKept(Here(), s0, name);
    }

    /** The two-letter operators: the tail of ParseOperatorName. */
    method ParseOperatorCode() returns (ok: bool)
      requires Valid() && mangled[cur] != '\0'
      modifies this, out
      ensures Parsed(Oper, ok)
    {
      hide Ran, Alts, Step, OperatorList, SaidOper;
      ghost var s0 := Now();
      OperRun(Here(), s0, FirstSpelled(OperatorList(), 0, 2, mangled, cur, 0));
      if !(IsLower(mangled[cur]) && IsAlpha(mangled[cur + 1])) {
        return false;
      }
      var k := 0;
      while k < |OperatorList()|
        invariant k <= |OperatorList()| && Now() == s0 && Valid()
        invariant FirstSpelled(OperatorList(), 0, 2, mangled, cur, k) == FirstSpelled(OperatorList(), 0, 2, mangled, cur, 0)
      {
        var p := OperatorList()[k];
        if mangled[cur] == At(p.abbrev, 0) && mangled[cur + 1] == At(p.abbrev, 1) {
          AppendOperator(p.realName);
          cur := cur + 2;
          return true;
        }
        k := k + 1;
      }
      return false;
    }

    /** ParseType with appending off. */
    method ParseQuietType() returns (ok: bool)
      requires Valid()
      modifies this, out
      ensures Parsed(Quiet(N(Type)), ok)
      decreases |mangled| - cur, 9
    {
      hide Ran, Step, Tried, Alts;
      var copy := Save();
      ghost var s0 := Now();
      append := false; // DisableAppend
      ok := ParseType();
      QuietRun(Here(), N(Type), s0, ok, Now());
      append := copy.append; // RestoreAppend
    }

    method SpecialTable() returns (ok: bool)
      requires Valid()
      modifies this, out
      ensures Parsed(Choice(SpecialName, 0), ok)
      decreases |mangled| - cur, 2, 0
    {
      hide Ran, Step, Tried;
      var copy := Save();
      ghost var s0 := Now();
      ok := ParseOneCharToken('T');               ghost var o1, s1 := ok, Now();
      if ok { ok := ParseCharClass("VTIS"); }     ghost var o2, s2 := ok, Now();
      if ok { ok := ParseType(); }                ghost var o3, s3 := ok, Now();
      Seq3(Here(), Alts(SpecialName)[0].es, s0, o1, s1, o2, s2, o3, s3);
      if !ok { Restore(copy, s0); }
    }

    method SpecialCovariantThunk() returns (ok: bool)
      requires Valid()
      modifies this, out
      ensures Parsed(Choice(SpecialName, 1), ok)
      decreases |mangled| - cur, 2, 0
    {
      hide Ran, Step, Tried;
      var copy := Save();
      ghost var s0 := Now();
      ok := ParseTwoCharToken('T', 'c');          ghost var o1, s1 := ok, Now();
      if ok { ok := ParseCallOffset(); }          ghost var o2, s2 := ok, Now();
      if ok { ok := ParseCallOffset(); }          ghost var o3, s3 := ok, Now();
      if ok { ok := ParseEncoding(); }            ghost var o4, s4 := ok, Now();
      Seq4(Here(), Alts(SpecialName)[1].es, s0, o1, s1, o2, s2, o3, s3, o4, s4);
      if !ok { Restore(copy, s0); }
    }

    method SpecialGuard() returns (ok: bool)
      requires Valid()
      modifies this, out
      ensures Parsed(Choice(SpecialName, 2), ok)
      decreases |mangled| - cur, 2, 0
    {
      hide Ran, Step, Tried;
      var copy := Save();
      ghost var s0 := Now();
      ok := ParseTwoCharToken('G', 'V');          ghost var o1, s1 := ok, Now();
      if ok { ok := ParseName(); }                ghost var o2, s2 := ok, Now();
      Seq2(Here(), Alts(SpecialName)[2].es, s0, o1, s1, o2, s2);
      if !ok { Restore(copy, s0); }
    }

    method SpecialThunk() returns (ok: bool)
      requires Valid()
      modifies this, out
      ensures Parsed(Choice(SpecialName, 3), ok)
      decreases |mangled| - cur, 2, 0
    {
      hide Ran, Step, Tried;
      var copy := Save();
      ghost var s0 := Now();
      ok := ParseOneCharToken('T');               ghost var o1, s1 := ok, Now();
      if ok { ok := ParseCallOffset(); }          ghost var o2, s2 := ok, Now();
      if ok { ok := ParseEncoding(); }            ghost var o3, s3 := ok, Now();
      Seq3(Here(), Alts(SpecialName)[3].es, s0, o1, s1, o2, s2, o3, s3);
      if !ok { Restore(copy, s0); }
    }

    method SpecialConstruction() returns (ok: bool)
      requires Valid()
      modifies this, out
      ensures Parsed(Choice(SpecialName, 4), ok)
      decreases |mangled| - cur, 2, 0
    {
      ConstructionShape();
      hide Ran, Step, Tried, Alts;
      var copy := Save();
      ghost var s0 := Now();
      var number;
      ok := ParseTwoCharToken('T', 'C');          ghost var o1, s1 := ok, Now();
      if ok { ok := ParseType(); }                ghost var o2, s2 := ok, Now();
      if ok { ok, number := ParseNumber(); }      ghost var o3, s3 := ok, if ok then Now() else s2;
      if ok { ok := ParseOneCharToken('_'); }     ghost var o4, s4 := ok, if o3 then Now() else s3;
      if ok { ok := ParseQuietType(); }           ghost var o5, s5 := ok, if o4 then Now() else s4;
      Seq5(Here(), Alts(SpecialName)[4].es, s0, o1, s1, o2, s2, o3, s3, o4, s4, o5, s5);
      if !ok { Restore(copy, s0); }
    }

    method SpecialTypeInfo() returns (ok: bool)
      requires Valid()
      modifies this, out
      ensures Parsed(Choice(SpecialName, 5), ok)
      decreases |mangled| - cur, 2, 0
    {
      hide Ran, Step, Tried;
      var copy := Save();
      ghost var s0 := Now();
      ok := ParseOneCharToken('T');               ghost var o1, s1 := ok, Now();
      if ok { ok := ParseCharClass("FJ"); }       ghost var o2, s2 := ok, Now();
      if ok { ok := ParseType(); }                ghost var o3, s3 := ok, Now();
      Seq3(Here(), Alts(SpecialName)[5].es, s0, o1, s1, o2, s2, o3, s3);
      if !ok { Restore(copy, s0); }
    }

    method SpecialReference() returns (ok: bool)
      requires Valid()
      modifies this, out
      ensures Parsed(Choice(SpecialName, 6), ok)
      decreases |mangled| - cur, 2, 0
    {
      hide Ran, Step, Tried;
      var copy := Save();
      ghost var s0 := Now();
      ok := ParseTwoCharToken('G', 'R');          ghost var o1, s1 := ok, Now();
      if ok { ok := ParseName(); }                ghost var o2, s2 := ok, Now();
      Seq2(Here(), Alts(SpecialName)[6].es, s0, o1, s1, o2, s2);
      if !ok { Restore(copy, s0); }
    }

    method SpecialTransaction() returns (ok: bool)
      requires Valid()
      modifies this, out
      ensures Parsed(Choice(SpecialName, 7), ok)
      decreases |mangled| - cur, 2, 0
    {
      hide Ran, Step, Tried;
      var copy := Save();
      ghost var s0 := Now();
      ok := ParseTwoCharToken('G', 'A');          ghost var o1, s1 := ok, Now();
      if ok { ok := ParseEncoding(); }            ghost var o2, s2 := ok, Now();
      Seq2(Here(), Alts(SpecialName)[7].es, s0, o1, s1, o2, s2);
      if !ok { Restore(copy, s0); }
    }

    method SpecialOffsetThunk() returns (ok: bool)
      requires Valid()
      modifies this, out
      ensures Parsed(Choice(SpecialName, 8), ok)
      decreases |mangled| - cur, 2, 0
    {
      hide Ran, Step, Tried;
      var copy := Save();
      ghost var s0 := Now();
      ok := ParseOneCharToken('T');               ghost var o1, s1 := ok, Now();
      if ok { ok := ParseCharClass("hv"); }       ghost var o2, s2 := ok, Now();
      if ok { ok := ParseCallOffset(); }          ghost var o3, s3 := ok, Now();
      if ok { ok := ParseEncoding(); }            ghost var o4, s4 := ok, Now();
      Seq4(Here(), Alts(SpecialName)[8].es, s0, o1, s1, o2, s2, o3, s3, o4, s4);
      if !ok { Restore(copy, s0); }
    }

    method ParseSpecialName() returns (ok: bool)
      requires Valid()
      modifies this, out
      ensures Parsed(N(SpecialName), ok)
      decreases |mangled| - cur, 2
    {
      SpecialShape();
      hide Ran, Step, Tried, Alts;
      ghost var s0 := Now();
      ghost var a := s0;
      NoneTried(Here(), SpecialName, s0);
      ok := SpecialTable();
      if ok { Hit(Here(), SpecialName, 0, s0, a, Now()); return; }
      Miss(Here(), SpecialName, 0, s0, a, Now());  a := Now();

      ok := SpecialCovariantThunk();
      if ok { Hit(Here(), SpecialName, 1, s0, a, Now()); return; }
      Miss(Here(), SpecialName, 1, s0, a, Now());  a := Now();

      ok := SpecialGuard();
      if ok { Hit(Here(), SpecialName, 2, s0, a, Now()); return; }
      Miss(Here(), SpecialName, 2, s0, a, Now());  a := Now();

      ok := SpecialThunk();
      if ok { Hit(Here(), SpecialName, 3, s0, a, Now()); return; }
      Miss(Here(), SpecialName, 3, s0, a, Now());  a := Now();

      ok := SpecialConstruction();
      if ok { Hit(Here(), SpecialName, 4, s0, a, Now()); return; }
      Miss(Here(), SpecialName, 4, s0, a, Now());  a := Now();

      ok := SpecialTypeInfo();
      if ok { Hit(Here(), SpecialName, 5, s0, a, Now()); return; }
      Miss(Here(), SpecialName, 5, s0, a, Now());  a := Now();

      ok := SpecialReference();
      if ok { Hit(Here(), SpecialName, 6, s0, a, Now()); return; }
      Miss(Here(), SpecialName, 6, s0, a, Now());  a := Now();

      ok := SpecialTransaction();
      if ok { Hit(Here(), SpecialName, 7, s0, a, Now()); return; }
      Miss(Here(), SpecialName, 7, s0, a, Now());  a := Now();

      ok := SpecialOffsetThunk();
      if ok { Hit(Here(), SpecialName, 8, s0, a, Now()); return; }
      Miss(Here(), SpecialName, 8, s0, a, Now());
      AllMissed(Here(), SpecialName, s0, Now());
    }

    method LocalEntity() returns (ok: bool)
      requires Valid()
      modifies this, out
      ensures Parsed(Choice(LocalName, 0), ok)
      decreases |mangled| - cur, 2, 0
    {
      LocalShape();
      hide Ran, Step, Tried, Alts;
      var copy := Save();
      ghost var s0 := Now();
      ok := ParseOneCharToken('Z');               ghost var o1, s1 := ok, Now();
      if ok { ok := ParseEncoding(); }            ghost var o2, s2 := ok, Now();
      if ok { ok := ParseOneCharToken('E'); }     ghost var o3, s3 := ok, Now();
      if ok { MaybeAppend("::"); }                ghost var o4, s4 := ok, Now();
      if ok { ok := ParseName(); }                ghost var o5, s5 := ok, Now();
      if ok { var got := ParseDiscriminator(); OptRun(Here(), N(Discriminator), s5, got, Now()); } ghost var o6, s6 := ok, Now();
      Seq6(Here(), Alts(LocalName)[0].es, s0, o1, s1, o2, s2, o3, s3, o4, s4, o5, s5, o6, s6);
      if !ok { Restore(copy, s0); }
    }

    method LocalString() returns (ok: bool)
      requires Valid()
      modifies this, out
      ensures Parsed(Choice(LocalName, 1), ok)
      decreases |mangled| - cur, 2, 0
    {
      hide Ran, Step, Tried;
      var copy := Save();
      ghost var s0 := Now();
      ok := ParseOneCharToken('Z');               ghost var o1, s1 := ok, Now();
      if ok { ok := ParseEncoding(); }            ghost var o2, s2 := ok, Now();
      if ok { ok := ParseTwoCharToken('E', 's'); } ghost var o3, s3 := ok, Now();
      if ok { var got := ParseDiscriminator(); OptRun(Here(), N(Discriminator), s3, got, Now()); } ghost var o4, s4 := ok, Now();
      Seq4(Here(), Alts(LocalName)[1].es, s0, o1, s1, o2, s2, o3, s3, o4, s4);
      if !ok { Restore(copy, s0); }
    }

    method ParseLocalName() returns (ok: bool)
      requires Valid()
      modifies this, out
      ensures Parsed(N(LocalName), ok)
      decreases |mangled| - cur, 2
    {
      hide Ran, Step, Tried;
      ghost var s0 := Now();
      ghost var a := s0;
      NoneTried(Here(), LocalName, s0);
      ok := LocalEntity();
      if ok { Hit(Here(), LocalName, 0, s0, a, Now()); return; }
      Miss(Here(), LocalName, 0, s0, a, Now());  a := Now();

      ok := LocalString();
      if ok { Hit(Here(), LocalName, 1, s0, a, Now()); return; }
      Miss(Here(), LocalName, 1, s0, a, Now());
      AllMissed(Here(), LocalName, s0, Now());
    }

    method ParseDiscriminator() returns (ok: bool)
      requires Valid()
      modifies this, out
      ensures Parsed(N(Discriminator), ok)
      decreases |mangled| - cur, 1
    {
      hide Ran, Step, Tried;
      var copy := Save();
      ghost var s0 := Now();
      ghost var o1: bool, o2: bool;
      ghost var s1: St, s2: St;
      var number;
      NoneTried(Here(), Discriminator, s0);
      ok := ParseOneCharToken('_');           o1, s1 := ok, Now();
      if ok { ok, number := ParseNumber(); }  o2, s2 := ok, if ok then Now() else s1;
      Seq2(Here(), Alts(Discriminator)[0].es, s0, o1, s1, o2, s2);
      if ok { Hit(Here(), Discriminator, 0, s0, s0, Now()); return; }
      Restore(copy, s0);
      Miss(Here(), Discriminator, 0, s0, s0, Now());
      AllMissed(Here(), Discriminator, s0, Now());
    }

    // -------------------------------------------------------------- types

    method TypeQualified() returns (ok: bool)
      requires Valid()
      modifies this, out
      ensures Parsed(Choice(Type, 0), ok)
      decreases |mangled| - cur, 8, 0
    {
      hide Ran, Step, Tried;
      var copy := Save();
      ghost var s0 := Now();
      ok := ParseCVQualifiers();                  ghost var o1, s1 := ok, Now();
      if ok { ok := ParseType(); }                ghost var o2, s2 := ok, Now();
      Seq2(Here(), Alts(Type)[0].es, s0, o1, s1, o2, s2);
      if !ok { Restore(copy, s0); }
    }

    method TypePrefixed() returns (ok: bool)
      requires Valid()
      modifies this, out
      ensures Parsed(Choice(Type, 1), ok)
      decreases |mangled| - cur, 8, 0
    {
      hide Ran, Step, Tried;
      var copy := Save();
      ghost var s0 := Now();
      ok := ParseCharClass("OPRCG");              ghost var o1, s1 := ok, Now();
      if ok { ok := ParseType(); }                ghost var o2, s2 := ok, Now();
      Seq2(Here(), Alts(Type)[1].es, s0, o1, s1, o2, s2);
      if !ok { Restore(copy, s0); }
    }

    method TypePack() returns (ok: bool)
      requires Valid()
      modifies this, out
      ensures Parsed(Choice(Type, 2), ok)
      decreases |mangled| - cur, 8, 0
    {
      hide Ran, Step, Tried;
      var copy := Save();
      ghost var s0 := Now();
      ok := ParseTwoCharToken('D', 'p');          ghost var o1, s1 := ok, Now();
      if ok { ok := ParseType(); }                ghost var o2, s2 := ok, Now();
      Seq2(Here(), Alts(Type)[2].es, s0, o1, s1, o2, s2);
      if !ok { Restore(copy, s0); }
    }

    method TypeDecltype() returns (ok: bool)
      requires Valid()
      modifies this, out
      ensures Parsed(Choice(Type, 3), ok)
      decreases |mangled| - cur, 8, 0
    {
      DecltypeShape();
      hide Ran, Step, Tried, Choice;
      var copy := Save();
      ghost var s0 := Now();
      ok := ParseOneCharToken('D');               ghost var o1, s1 := ok, Now();
      if ok { ok := ParseCharClass("tT"); }       ghost var o2, s2 := ok, Now();
      if ok { ok := ParseExpression(); }          ghost var o3, s3 := ok, Now();
      if ok { ok := ParseOneCharToken('E'); }     ghost var o4, s4 := ok, Now();
      Seq4(Here(), Choice(Type, 3).es, s0, o1, s1, o2, s2, o3, s3, o4, s4);
      if !ok { Restore(copy, s0); }
    }

    method TypeVendor() returns (ok: bool)
      requires Valid()
      modifies this, out
      ensures Parsed(Choice(Type, 4), ok)
      decreases |mangled| - cur, 8, 0
    {
      hide Ran, Step, Tried;
      var copy := Save();
      ghost var s0 := Now();
      ok := ParseOneCharToken('U');               ghost var o1, s1 := ok, Now();
      if ok { ok := ParseSourceName(); }          ghost var o2, s2 := ok, Now();
      if ok { ok := ParseType(); }                ghost var o3, s3 := ok, Now();
      Seq3(Here(), Alts(Type)[4].es, s0, o1, s1, o2, s2, o3, s3);
      if !ok { Restore(copy, s0); }
    }

    method TypeTemplateTemplate() returns (ok: bool)
      requires Valid()
      modifies this, out
      ensures Parsed(Choice(Type, 11), ok)
      decreases |mangled| - cur, 8, 0
    {
      hide Ran, Step, Tried;
      var copy := Save();
      ghost var s0 := Now();
      ok := ParseTemplateTemplateParam();         ghost var o1, s1 := ok, Now();
      if ok { ok := ParseTemplateArgs(); }        ghost var o2, s2 := ok, Now();
      Seq2(Here(), Alts(Type)[11].es, s0, o1, s1, o2, s2);
      if !ok { Restore(copy, s0); }
    }

    method ParseType() returns (ok: bool)
      requires Valid()
      modifies this, out
      ensures Parsed(N(Type), ok)
      decreases |mangled| - cur, 8
    {
      hide Ran, Step, Tried;
      ghost var s0 := Now();
      ghost var a := s0;
      NoneTried(Here(), Type, s0);
      ok := TypeQualified();
      if ok { Hit(Here(), Type, 0, s0, a, Now()); return; }
      Miss(Here(), Type, 0, s0, a, Now());  a := Now();

      ok := TypePrefixed();
      if ok { Hit(Here(), Type, 1, s0, a, Now()); return; }
      Miss(Here(), Type, 1, s0, a, Now());  a := Now();

      ok := TypePack();
      if ok { Hit(Here(), Type, 2, s0, a, Now()); return; }
      Miss(Here(), Type, 2, s0, a, Now());  a := Now();

      ok := TypeDecltype();
      if ok { Hit(Here(), Type, 3, s0, a, Now()); return; }
      Miss(Here(), Type, 3, s0, a, Now());  a := Now();

      ok := TypeVendor();
      if ok { Hit(Here(), Type, 4, s0, a, Now()); return; }
      Miss(Here(), Type, 4, s0, a, Now());  a := Now();

      ok := TypeUnprefixed(s0);
    }

    /** The alternatives of <type> from <builtin-type> on; `s0` is where ParseType began. */
    method TypeUnprefixed(ghost s0: St) returns (ok: bool)
      requires Valid() && Tried(Here(), Type, 5, s0, Now())
      modifies this, out
      ensures Valid() && Ran(Here(), N(Type), s0, ok, Now())
      ensures append == old(append)
      ensures if ok then old(cur) < cur && nest == old(nest) else Now() == Rewind(old(Now()), Now())
      decreases |mangled| - cur, 8, 1
    {
      TypeShape();
      hide Ran, Step, Tried, Alts;
      ghost var a := Now();
      ok := ParseBuiltinType();
      if ok { Hit(Here(), Type, 5, s0, a, Now()); return; }
      Miss(Here(), Type, 5, s0, a, Now());  a := Now();

      ok := ParseFunctionType();
      if ok { Hit(Here(), Type, 6, s0, a, Now()); return; }
      Miss(Here(), Type, 6, s0, a, Now());  a := Now();

      ok := ParseClassEnumType();
      if ok { Hit(Here(), Type, 7, s0, a, Now()); return; }
      Miss(Here(), Type, 7, s0, a, Now());  a := Now();

      ok := ParseArrayType();
      if ok { Hit(Here(), Type, 8, s0, a, Now()); return; }
      Miss(Here(), Type, 8, s0, a, Now());  a := Now();

      ok := ParsePointerToMemberType();
      if ok { Hit(Here(), Type, 9, s0, a, Now()); return; }
      Miss(Here(), Type, 9, s0, a, Now());  a := Now();

      ok := ParseSubstitution();
      if ok { Hit(Here(), Type, 10, s0, a, Now()); return; }
      Miss(Here(), Type, 10, s0, a, Now());  a := Now();

      ok := TypeTemplateTemplate();
      if ok { Hit(Here(), Type, 11, s0, a, Now()); return; }
      Miss(Here(), Type, 11, s0, a, Now());  a := Now();

      ok := ParseTemplateParam();
      if ok { Hit(Here(), Type, 12, s0, a, Now()); return; }
      Miss(Here(), Type, 12, s0, a, Now());
      AllMissed(Here(), Type, s0, Now());
    }

    method ParseCVQualifiers() returns (ok: bool)
      requires Valid()
      modifies this, out
      ensures Parsed(N(CVQualifiers), ok)
      decreases |mangled| - cur, 1
    {
      hide Ran, Step, Tried;
      var numCvQualifiers := 0;
      ghost var s0 := Now();
      var r := ParseOneCharToken('r');
      numCvQualifiers := numCvQualifiers + if r then 1 else 0;
      ghost var s1 := Now();
      var v := ParseOneCharToken('V');
      numCvQualifiers := numCvQualifiers + if v then 1 else 0;
      ghost var s2 := Now();
      var k := ParseOneCharToken('K');
      numCvQualifiers := numCvQualifiers + if k then 1 else 0;
      CVQualifiersRun(Here(), s0, r, s1, v, s2, k, Now());
      return numCvQualifiers > 0;
    }

    method ParseBuiltinType() returns (ok: bool)
      requires Valid()
      modifies this, out
      ensures Parsed(N(BuiltinType), ok)
      decreases |mangled| - cur, 2
    {
      hide Ran, Step, Tried;
      ghost var s0 := Now();
      NoneTried(Here(), BuiltinType, s0);
      ok := ParseBuiltinCode();
      if ok {
        Hit(Here(), BuiltinType, 0, s0, s0, Now());
        return;
      }
      Miss(Here(), BuiltinType, 0, s0, s0, Now());
      var copy := Save();
      ok := ParseOneCharToken('u');
      ghost var o1, s1 := ok, Now();
      if ok { ok := ParseSourceName(); }
      Seq2(Here(), Alts(BuiltinType)[1].es, s0, o1, s1, ok, Now());
      if ok {
        Hit(Here(), BuiltinType, 1, s0, s0, Now());
        return;
      }
      Restore(copy, s0);
      Miss(Here(), BuiltinType, 1, s0, s0, Now());
      AllMissed(Here(), BuiltinType, s0, Now());
    }

    /** The one-letter types: the head of ParseBuiltinType. */
    method ParseBuiltinCode() returns (ok: bool)
      requires Valid()
      modifies this, out
      ensures Parsed(Builtin, ok) && (!ok ==> Now() == old(Now()))
    {
      hide Ran, Alts, Step, BuiltinTypeList, SaidText;
      ghost var s0 := Now();
      BuiltinRun(Here(), s0, FirstSpelled(BuiltinTypeList(), 0, 1, mangled, cur, 0));
      var k := 0;
      while k < |BuiltinTypeList()|
        invariant k <= |BuiltinTypeList()| && Now() == s0 && Valid()
        invariant FirstSpelled(BuiltinTypeList(), 0, 1, mangled, cur, k) == FirstSpelled(BuiltinTypeList(), 0, 1, mangled, cur, 0)
      {
        var p := BuiltinTypeList()[k];
        if mangled[cur] == At(p.abbrev, 0) {
          BuiltinCodesAreLetters(k);
          MaybeAppend(p.realName);
          SaidTextKept(Here(), s0, p.realName);
          cur := cur + 1;
          return true;
        }
        k := k + 1;
      }
      return false;
    }

    method ParseFunctionType() returns (ok: bool)
      requires Valid()
      modifies this, out
      ensures Parsed(N(FunctionType), ok)
      decreases |mangled| - cur, 2
    {
      hide Ran, Step, Tried;
      var copy := Save();
      ghost var s0 := Now();
      ghost var o1: bool, o2: bool, o3: bool, o4: bool;
      ghost var s1: St, s2: St, s3: St, s4: St;
      NoneTried(Here(), FunctionType, s0);
      ok := ParseOneCharToken('F');           o1, s1 := ok, Now();
      if ok { var got := ParseOneCharToken('Y'); OptRun(Here(), C('Y'), s1, got, Now()); } o2, s2 := ok, Now();
      if ok { ok := ParseBareFunctionType(); } o3, s3 := ok, Now();
      if ok { ok := ParseOneCharToken('E'); } o4, s4 := ok, Now();
      Seq4(Here(), Alts(FunctionType)[0].es, s0, o1, s1, o2, s2, o3, s3, o4, s4);
      if ok { Hit(Here(), FunctionType, 0, s0, s0, Now()); return; }
      Restore(copy, s0);
      Miss(Here(), FunctionType, 0, s0, s0, Now());
      AllMissed(Here(), FunctionType, s0, Now());
    }

    method ParseBareFunctionType() returns (ok: bool)
      requires Valid()
      modifies this, out
      ensures Parsed(N(BareFunctionType), ok)
      decreases |mangled| - cur, 9
    {
      hide Ran, Step, Tried;
      var copy := Save();
      ghost var s0 := Now();
      append := false; // DisableAppend
      ghost var t0 := Now();
      ok := ParseType();
      ghost var o1, t1 := ok, Now();
      if ok {
        var more := true;
        while more
          invariant Valid() && old(cur) < cur && nest == old(nest) && !append
          invariant more ==> forall st2: St ::
            Ran(Here(), Star(N(Type)), Now(), true, st2) ==> Ran(Here(), Star(N(Type)), t1, true, st2)
          invariant !more ==> Ran(Here(), Star(N(Type)), t1, true, Now())
          decreases |mangled| - cur, more
        {
          ghost var h := Now();
          more := ParseType();
          if more {
            forall st2: St | Ran(Here(), Star(N(Type)), Now(), true, st2)
              ensures Ran(Here(), Star(N(Type)), t1, true, st2)
            {
              StarStep(Here(), N(Type), h, Now(), st2);
            }
          } else {
            StarEnd(Here(), N(Type), h, Now());
          }
        }
      }
      ghost var t2 := Now();
      ghost var types := Seq([N(Type), Star(N(Type))]);
      Seq2(Here(), types.es, t0, o1, t1, o1, t2);
      QuietRun(Here(), types, s0, o1, if o1 then t2 else Rewind(t0, t2));
      ghost var s1 := if o1 then t2.(append := s0.append) else Rewind(s0, t2);
      if ok {
        append := copy.append; // RestoreAppend
        MaybeAppend("()");
      }
      Seq2(Here(), Alts(BareFunctionType)[0].es, s0, o1, s1, ok, if ok then Now() else s1);
      Only(Here(), BareFunctionType, s0, ok, if ok then Now() else Rewind(s0, s1));
      if !ok {
        Restore(copy, s0);
      }
    }

    method ParseClassEnumType() returns (ok: bool)
      requires Valid()
      modifies this, out
      ensures Parsed(N(ClassEnumType), ok)
      decreases |mangled| - cur, 7
    {
      hide Ran, Step, Tried;
      ghost var s0 := Now();
      NoneTried(Here(), ClassEnumType, s0);
      ok := ParseName();
      if ok { Hit(Here(), ClassEnumType, 0, s0, s0, Now()); return; }
      Miss(Here(), ClassEnumType, 0, s0, s0, Now());
      AllMissed(Here(), ClassEnumType, s0, Now());
    }

    method ArrayOfNumber() returns (ok: bool)
      requires Valid()
      modifies this, out
      ensures Parsed(Choice(ArrayType, 0), ok)
      decreases |mangled| - cur, 2, 0
    {
      hide Ran, Step, Tried;
      var copy := Save();
      ghost var s0 := Now();
      var number;
      ok := ParseOneCharToken('A');               ghost var o1, s1 := ok, Now();
      if ok { ok, number := ParseNumber(); }      ghost var o2, s2 := ok, if ok then Now() else s1;
      if ok { ok := ParseOneCharToken('_'); }     ghost var o3, s3 := ok, if o2 then Now() else s2;
      if ok { ok := ParseType(); }                ghost var o4, s4 := ok, if o3 then Now() else s3;
      Seq4(Here(), Alts(ArrayType)[0].es, s0, o1, s1, o2, s2, o3, s3, o4, s4);
      if !ok { Restore(copy, s0); }
    }

    method ArrayOfExpression() returns (ok: bool)
      requires Valid()
      modifies this, out
      ensures Parsed(Choice(ArrayType, 1), ok)
      decreases |mangled| - cur, 2, 0
    {
      hide Ran, Step, Tried;
      var copy := Save();
      ghost var s0 := Now();
      ok := ParseOneCharToken('A');               ghost var o1, s1 := ok, Now();
      if ok { var got := ParseExpression(); OptRun(Here(), N(Expression), s1, got, Now()); } ghost var o2, s2 := ok, Now();
      if ok { ok := ParseOneCharToken('_'); }     ghost var o3, s3 := ok, Now();
      if ok { ok := ParseType(); }                ghost var o4, s4 := ok, Now();
      Seq4(Here(), Alts(ArrayType)[1].es, s0, o1, s1, o2, s2, o3, s3, o4, s4);
      if !ok { Restore(copy, s0); }
    }

    method ParseArrayType() returns (ok: bool)
      requires Valid()
      modifies this, out
      ensures Parsed(N(ArrayType), ok)
      decreases |mangled| - cur, 2
    {
      hide Ran, Step, Tried;
      ghost var s0 := Now();
      ghost var a := s0;
      NoneTried(Here(), ArrayType, s0);
      ok := ArrayOfNumber();
      if ok { Hit(Here(), ArrayType, 0, s0, a, Now()); return; }
      Miss(Here(), ArrayType, 0, s0, a, Now());  a := Now();

      ok := ArrayOfExpression();
      if ok { Hit(Here(), ArrayType, 1, s0, a, Now()); return; }
      Miss(Here(), ArrayType, 1, s0, a, Now());
      AllMissed(Here(), ArrayType, s0, Now());
    }

    method ParsePointerToMemberType() returns (ok: bool)
      requires Valid()
      modifies this, out
      ensures Parsed(N(PointerToMemberType), ok)
      decreases |mangled| - cur, 2
    {
      hide Ran, Step, Tried;
      var copy := Save();
      ghost var s0 := Now();
      ghost var o1: bool, o2: bool, o3: bool;
      ghost var s1: St, s2: St, s3: St;
      NoneTried(Here(), PointerToMemberType, s0);
      ok := ParseOneCharToken('M');           o1, s1 := ok, Now();
      if ok { ok := ParseType(); }            o2, s2 := ok, Now();
      if ok { ok := ParseType(); }            o3, s3 := ok, Now();
      Seq3(Here(), Alts(PointerToMemberType)[0].es, s0, o1, s1, o2, s2, o3, s3);
      if ok { Hit(Here(), PointerToMemberType, 0, s0, s0, Now()); return; }
      Restore(copy, s0);
      Miss(Here(), PointerToMemberType, 0, s0, s0, Now());
      AllMissed(Here(), PointerToMemberType, s0, Now());
    }

    // -------------------------------------------------------------- templates and expressions

    method TemplateParamFirst() returns (ok: bool)
      requires Valid()
      modifies this, out
      ensures Parsed(Choice(TemplateParam, 0), ok)
      decreases |mangled| - cur, 1, 0
    {
      hide Ran, Step, Tried;
      var copy := Save();
      ghost var s0 := Now();
      ok := ParseTwoCharToken('T', '_');          ghost var o1, s1 := ok, Now();
      if ok { MaybeAppend("?"); }                 ghost var o2, s2 := ok, Now();
      Seq2(Here(), Alts(TemplateParam)[0].es, s0, o1, s1, o2, s2);
      if !ok { Restore(copy, s0); }
    }

    method TemplateParamNumbered() returns (ok: bool)
      requires Valid()
      modifies this, out
      ensures Parsed(Choice(TemplateParam, 1), ok)
      decreases |mangled| - cur, 1, 0
    {
      TemplateParamShape();
      hide Ran, Step, Tried, Choice;
      var copy := Save();
      ghost var s0 := Now();
      var number;
      ok := ParseOneCharToken('T');               ghost var o1, s1 := ok, Now();
      if ok { ok, number := ParseNumber(); }      ghost var o2, s2 := ok, if ok then Now() else s1;
      if ok { ok := ParseOneCharToken('_'); }     ghost var o3, s3 := ok, if o2 then Now() else s2;
      if ok { MaybeAppend("?"); }                 ghost var o4, s4 := ok, if o3 then Now() else s3;
      Seq4(Here(), Choice(TemplateParam, 1).es, s0, o1, s1, o2, s2, o3, s3, o4, s4);
      if !ok { Restore(copy, s0); }
    }

    method ParseTemplateParam() returns (ok: bool)
      requires Valid()
      modifies this, out
      ensures Parsed(N(TemplateParam), ok)
      decreases |mangled| - cur, 1
    {
      hide Ran, Step, Tried;
      ghost var s0 := Now();
      ghost var a := s0;
      NoneTried(Here(), TemplateParam, s0);
      ok := TemplateParamFirst();
      if ok { Hit(Here(), TemplateParam, 0, s0, a, Now()); return; }
      Miss(Here(), TemplateParam, 0, s0, a, Now());  a := Now();

      ok := TemplateParamNumbered();
      if ok { Hit(Here(), TemplateParam, 1, s0, a, Now()); return; }
      Miss(Here(), TemplateParam, 1, s0, a, Now());
      AllMissed(Here(), TemplateParam, s0, Now());
    }

    method ParseTemplateTemplateParam() returns (ok: bool)
      requires Valid()
      modifies this, out
      ensures Parsed(N(TemplateTemplateParam), ok)
      decreases |mangled| - cur, 2
    {
      hide Ran, Step, Tried;
      ghost var s0 := Now();
      ghost var a := s0;
      NoneTried(Here(), TemplateTemplateParam, s0);
      ok := ParseTemplateParam();
      if ok { Hit(Here(), TemplateTemplateParam, 0, s0, a, Now()); return; }
      Miss(Here(), TemplateTemplateParam, 0, s0, a, Now());  a := Now();

      ok := ParseSubstitution();
      if ok { Hit(Here(), TemplateTemplateParam, 1, s0, a, Now()); return; }
      Miss(Here(), TemplateTemplateParam, 1, s0, a, Now());
      AllMissed(Here(), TemplateTemplateParam, s0, Now());
    }

    method ParseTemplateArgs() returns (ok: bool)
      requires Valid()
      modifies this, out
      ensures Parsed(N(TemplateArgs), ok)
      decreases |mangled| - cur, 10
    {
      TemplateArgsShape();
      hide Ran, Step, Tried, Alts;
      var copy := Save();
      ghost var s0 := Now();
      append := false; // DisableAppend
      ghost var t0 := Now();
      ok := ParseOneCharToken('I');
      ghost var o1, t1 := ok, Now();
      if ok { ok := ParseTemplateArg(); }
      ghost var o2, t2 := ok, Now();
      if ok { ZeroOrMoreTemplateArgs(); }
      ghost var t3 := Now();
      if ok { ok := ParseOneCharToken('E'); }
      ghost var o4, t4 := ok, Now();
      ghost var args := Seq([C('I'), N(TemplateArg), Star(N(TemplateArg)), C('E')]);
      Seq4(Here(), args.es, t0, o1, t1, o2, t2, o2, t3, o4, t4);
      QuietRun(Here(), args, s0, o4, if o4 then t4 else Rewind(t0, t4));
      ghost var s1 := if o4 then t4.(append := s0.append) else Rewind(s0, t4);
      if ok {
        append := copy.append; // RestoreAppend
        MaybeAppend("<>");
      }
      Seq2(Here(), Alts(TemplateArgs)[0].es, s0, o4, s1, ok, if ok then Now() else s1);
      Only(Here(), TemplateArgs, s0, ok, if ok then Now() else Rewind(s0, s1));
      if !ok {
        Restore(copy, s0);
      }
    }

    /** ZeroOrMore(ParseTemplateArg, state). */
    method ZeroOrMoreTemplateArgs()
      requires Valid()
      modifies this, out
      ensures Did(Star(N(TemplateArg)), true) && old(cur) <= cur && nest == old(nest)
      decreases |mangled| - cur, 10
    {
      hide Ran, Step, Tried;
      ghost var s0 := Now();
      var more := true;
      while more
        invariant Valid() && old(cur) <= cur && nest == old(nest) && append == old(append)
        invariant more ==> forall st2: St ::
          Ran(Here(), Star(N(TemplateArg)), Now(), true, st2) ==> Ran(Here(), Star(N(TemplateArg)), s0, true, st2)
        invariant !more ==> Ran(Here(), Star(N(TemplateArg)), s0, true, Now())
        decreases |mangled| - cur, more
      {
        ghost var h := Now();
        more := ParseTemplateArg();
        if more {
          forall st2: St | Ran(Here(), Star(N(TemplateArg)), Now(), true, st2)
            ensures Ran(Here(), Star(N(TemplateArg)), s0, true, st2)
          {
            StarStep(Here(), N(TemplateArg), h, Now(), st2);
          }
        } else {
          StarEnd(Here(), N(TemplateArg), h, Now());
        }
      }
    }

    method TemplateArgPack() returns (ok: bool)
      requires Valid()
      modifies this, out
      ensures Parsed(Choice(TemplateArg, 0), ok)
      decreases |mangled| - cur, 9, 0
    {
      TemplateArgShape();
      hide Ran, Step, Tried, Choice;
      var copy := Save();
      ghost var s0 := Now();
      ok := ParseOneCharToken('I');
      if !ok { ok := ParseOneCharToken('J'); }
      EitherTokenRun(Here(), "IJ", s0);             ghost var o1, s1 := ok, Now();
      if ok { ZeroOrMoreTemplateArgs(); }           ghost var o2, s2 := ok, Now();
      if ok { ok := ParseOneCharToken('E'); }       ghost var o3, s3 := ok, Now();
      Seq3(Here(), Choice(TemplateArg, 0).es, s0, o1, s1, o2, s2, o3, s3);
      if !ok { Restore(copy, s0); }
    }

    method TemplateArgExpression() returns (ok: bool)
      requires Valid()
      modifies this, out
      ensures Parsed(Choice(TemplateArg, 3), ok)
      decreases |mangled| - cur, 9, 0
    {
      hide Ran, Step, Tried;
      var copy := Save();
      ghost var s0 := Now();
      ok := ParseOneCharToken('X');               ghost var o1, s1 := ok, Now();
      if ok { ok := ParseExpression(); }          ghost var o2, s2 := ok, Now();
      if ok { ok := ParseOneCharToken('E'); }     ghost var o3, s3 := ok, Now();
      Seq3(Here(), Alts(TemplateArg)[3].es, s0, o1, s1, o2, s2, o3, s3);
      if !ok { Restore(copy, s0); }
    }

    method ParseTemplateArg() returns (ok: bool)
      requires Valid()
      modifies this, out
      ensures Parsed(N(TemplateArg), ok)
      decreases |mangled| - cur, 9
    {
      hide Ran, Step, Tried;
      ghost var s0 := Now();
      ghost var a := s0;
      NoneTried(Here(), TemplateArg, s0);
      ok := TemplateArgPack();
      if ok { Hit(Here(), TemplateArg, 0, s0, a, Now()); return; }
      Miss(Here(), TemplateArg, 0, s0, a, Now());  a := Now();

      ok := ParseType();
      if ok { Hit(Here(), TemplateArg, 1, s0, a, Now()); return; }
      Miss(Here(), TemplateArg, 1, s0, a, Now());  a := Now();

      ok := ParseExprPrimary();
      if ok { Hit(Here(), TemplateArg, 2, s0, a, Now()); return; }
      Miss(Here(), TemplateArg, 2, s0, a, Now());  a := Now();

      ok := TemplateArgExpression();
      if ok { Hit(Here(), TemplateArg, 3, s0, a, Now()); return; }
      Miss(Here(), TemplateArg, 3, s0, a, Now());
      AllMissed(Here(), TemplateArg, s0, Now());
    }

    method ExpressionTrinary() returns (ok: bool)
      requires Valid()
      modifies this, out
      ensures Parsed(Choice(Expression, 2), ok)
      decreases |mangled| - cur, 5, 0
    {
      hide Ran, Step, Tried;
      var copy := Save();
      ghost var s0 := Now();
      ok := ParseOperatorName();                  ghost var o1, s1 := ok, Now();
      if ok { ok := ParseExpression(); }          ghost var o2, s2 := ok, Now();
      if ok { ok := ParseExpression(); }          ghost var o3, s3 := ok, Now();
      if ok { ok := ParseExpression(); }          ghost var o4, s4 := ok, Now();
      Seq4(Here(), Alts(Expression)[2].es, s0, o1, s1, o2, s2, o3, s3, o4, s4);
      if !ok { Restore(copy, s0); }
    }

    method ExpressionBinary() returns (ok: bool)
      requires Valid()
      modifies this, out
      ensures Parsed(Choice(Expression, 3), ok)
      decreases |mangled| - cur, 5, 0
    {
      hide Ran, Step, Tried;
      var copy := Save();
      ghost var s0 := Now();
      ok := ParseOperatorName();                  ghost var o1, s1 := ok, Now();
      if ok { ok := ParseExpression(); }          ghost var o2, s2 := ok, Now();
      if ok { ok := ParseExpression(); }          ghost var o3, s3 := ok, Now();
      Seq3(Here(), Alts(Expression)[3].es, s0, o1, s1, o2, s2, o3, s3);
      if !ok { Restore(copy, s0); }
    }

    method ExpressionUnary() returns (ok: bool)
      requires Valid()
      modifies this, out
      ensures Parsed(Choice(Expression, 4), ok)
      decreases |mangled| - cur, 5, 0
    {
      hide Ran, Step, Tried;
      var copy := Save();
      ghost var s0 := Now();
      ok := ParseOperatorName();                  ghost var o1, s1 := ok, Now();
      if ok { ok := ParseExpression(); }          ghost var o2, s2 := ok, Now();
      Seq2(Here(), Alts(Expression)[4].es, s0, o1, s1, o2, s2);
      if !ok { Restore(copy, s0); }
    }

    method ExpressionSizeof() returns (ok: bool)
      requires Valid()
      modifies this, out
      ensures Parsed(Choice(Expression, 5), ok)
      decreases |mangled| - cur, 5, 0
    {
      hide Ran, Step, Tried;
      var copy := Save();
      ghost var s0 := Now();
      ok := ParseTwoCharToken('s', 't');          ghost var o1, s1 := ok, Now();
      if ok { ok := ParseType(); }                ghost var o2, s2 := ok, Now();
      Seq2(Here(), Alts(Expression)[5].es, s0, o1, s1, o2, s2);
      if !ok { Restore(copy, s0); }
    }

    method ExpressionScopedTemplate() returns (ok: bool)
      requires Valid()
      modifies this, out
      ensures Parsed(Choice(Expression, 6), ok)
      decreases |mangled| - cur, 5, 0
    {
      hide Ran, Step, Tried;
      var copy := Save();
      ghost var s0 := Now();
      ok := ParseTwoCharToken('s', 'r');          ghost var o1, s1 := ok, Now();
      if ok { ok := ParseType(); }                ghost var o2, s2 := ok, Now();
      if ok { ok := ParseUnqualifiedName(); }     ghost var o3, s3 := ok, Now();
      if ok { ok := ParseTemplateArgs(); }        ghost var o4, s4 := ok, Now();
      Seq4(Here(), Alts(Expression)[6].es, s0, o1, s1, o2, s2, o3, s3, o4, s4);
      if !ok { Restore(copy, s0); }
    }

    method ExpressionScoped() returns (ok: bool)
      requires Valid()
      modifies this, out
      ensures Parsed(Choice(Expression, 7), ok)
      decreases |mangled| - cur, 5, 0
    {
      hide Ran, Step, Tried;
      var copy := Save();
      ghost var s0 := Now();
      ok := ParseTwoCharToken('s', 'r');          ghost var o1, s1 := ok, Now();
      if ok { ok := ParseType(); }                ghost var o2, s2 := ok, Now();
      if ok { ok := ParseUnqualifiedName(); }     ghost var o3, s3 := ok, Now();
      Seq3(Here(), Alts(Expression)[7].es, s0, o1, s1, o2, s2, o3, s3);
      if !ok { Restore(copy, s0); }
    }

    method ParseExpression() returns (ok: bool)
      requires Valid()
      modifies this, out
      ensures Parsed(N(Expression), ok)
      decreases |mangled| - cur, 5
    {
      ExpressionShape();
      hide Ran, Step, Tried, Alts;
      ghost var s0 := Now();
      ghost var a := s0;
      NoneTried(Here(), Expression, s0);
      ok := ParseTemplateParam();
      if ok { Hit(Here(), Expression, 0, s0, a, Now()); return; }
      Miss(Here(), Expression, 0, s0, a, Now());  a := Now();

      ok := ParseExprPrimary();
      if ok { Hit(Here(), Expression, 1, s0, a, Now()); return; }
      Miss(Here(), Expression, 1, s0, a, Now());  a := Now();

      ok := ExpressionTrinary();
      if ok { Hit(Here(), Expression, 2, s0, a, Now()); return; }
      Miss(Here(), Expression, 2, s0, a, Now());  a := Now();

      ok := ExpressionBinary();
      if ok { Hit(Here(), Expression, 3, s0, a, Now()); return; }
      Miss(Here(), Expression, 3, s0, a, Now());  a := Now();

      ok := ExpressionUnary();
      if ok { Hit(Here(), Expression, 4, s0, a, Now()); return; }
      Miss(Here(), Expression, 4, s0, a, Now());  a := Now();

      ok := ExpressionSizeof();
      if ok { Hit(Here(), Expression, 5, s0, a, Now()); return; }
      Miss(Here(), Expression, 5, s0, a, Now());  a := Now();

      ok := ExpressionScopedTemplate();
      if ok { Hit(Here(), Expression, 6, s0, a, Now()); return; }
      Miss(Here(), Expression, 6, s0, a, Now());  a := Now();

      ok := ExpressionScoped();
      if ok { Hit(Here(), Expression, 7, s0, a, Now()); return; }
      Miss(Here(), Expression, 7, s0, a, Now());
      AllMissed(Here(), Expression, s0, Now());
    }

    method PrimaryNumber() returns (ok: bool)
      requires Valid()
      modifies this, out
      ensures Parsed(Choice(ExprPrimary, 0), ok)
      decreases |mangled| - cur, 2, 0
    {
      PrimaryShape();
      hide Ran, Step, Tried, Choice;
      var copy := Save();
      ghost var s0 := Now();
      var number;
      ok := ParseOneCharToken('L');               ghost var o1, s1 := ok, Now();
      if ok { ok := ParseType(); }                ghost var o2, s2 := ok, Now();
      if ok { ok, number := ParseNumber(); }      ghost var o3, s3 := ok, if ok then Now() else s2;
      if ok { ok := ParseOneCharToken('E'); }     ghost var o4, s4 := ok, if o3 then Now() else s3;
      Seq4(Here(), Choice(ExprPrimary, 0).es, s0, o1, s1, o2, s2, o3, s3, o4, s4);
      if !ok { Restore(copy, s0); }
    }

    method PrimaryFloat() returns (ok: bool)
      requires Valid()
      modifies this, out
      ensures Parsed(Choice(ExprPrimary, 1), ok)
      decreases |mangled| - cur, 2, 0
    {
      PrimaryShape();
      hide Ran, Step, Tried, Choice;
      var copy := Save();
      ghost var s0 := Now();
      ok := ParseOneCharToken('L');               ghost var o1, s1 := ok, Now();
      if ok { ok := ParseType(); }                ghost var o2, s2 := ok, Now();
      if ok { ok := ParseFloatNumber(); }         ghost var o3, s3 := ok, Now();
      if ok { ok := ParseOneCharToken('E'); }     ghost var o4, s4 := ok, Now();
      Seq4(Here(), Choice(ExprPrimary, 1).es, s0, o1, s1, o2, s2, o3, s3, o4, s4);
      if !ok { Restore(copy, s0); }
    }

    method PrimaryMangledName() returns (ok: bool)
      requires Valid()
      modifies this, out
      ensures Parsed(Choice(ExprPrimary, 2), ok)
      decreases |mangled| - cur, 2, 0
    {
      hide Ran, Step, Tried;
      var copy := Save();
      ghost var s0 := Now();
      ok := ParseOneCharToken('L');               ghost var o1, s1 := ok, Now();
      if ok { ok := ParseMangledName(); }         ghost var o2, s2 := ok, if ok then Now() else if o1 then Rewind(s1, Now()) else s1;
      if ok { ok := ParseOneCharToken('E'); }     ghost var o3, s3 := ok, if o2 then Now() else s2;
      Seq3(Here(), Alts(ExprPrimary)[2].es, s0, o1, s1, o2, s2, o3, s3);
      if !ok { Restore(copy, s0); }
    }

    method PrimaryEncoding() returns (ok: bool)
      requires Valid()
      modifies this, out
      ensures Parsed(Choice(ExprPrimary, 3), ok)
      decreases |mangled| - cur, 2, 0
    {
      hide Ran, Step, Tried;
      var copy := Save();
      ghost var s0 := Now();
      ok := ParseTwoCharToken('L', 'Z');          ghost var o1, s1 := ok, Now();
      if ok { ok := ParseEncoding(); }            ghost var o2, s2 := ok, Now();
      if ok { ok := ParseOneCharToken('E'); }     ghost var o3, s3 := ok, Now();
      Seq3(Here(), Alts(ExprPrimary)[3].es, s0, o1, s1, o2, s2, o3, s3);
      if !ok { Restore(copy, s0); }
    }

    method ParseExprPrimary() returns (ok: bool)
      requires Valid()
      modifies this, out
      ensures Parsed(N(ExprPrimary), ok)
      decreases |mangled| - cur, 2
    {
      hide Ran, Step, Tried;
      ghost var s0 := Now();
      ghost var a := s0;
      NoneTried(Here(), ExprPrimary, s0);
      ok := PrimaryNumber();
      if ok { Hit(Here(), ExprPrimary, 0, s0, a, Now()); return; }
      Miss(Here(), ExprPrimary, 0, s0, a, Now());  a := Now();

      ok := PrimaryFloat();
      if ok { Hit(Here(), ExprPrimary, 1, s0, a, Now()); return; }
      Miss(Here(), ExprPrimary, 1, s0, a, Now());  a := Now();

      ok := PrimaryMangledName();
      if ok { Hit(Here(), ExprPrimary, 2, s0, a, Now()); return; }
      Miss(Here(), ExprPrimary, 2, s0, a, Now());  a := Now();

      ok := PrimaryEncoding();
      if ok { Hit(Here(), ExprPrimary, 3, s0, a, Now()); return; }
      Miss(Here(), ExprPrimary, 3, s0, a, Now());
      AllMissed(Here(), ExprPrimary, s0, Now());
    }

    method SubstitutionFirst() returns (ok: bool)
      requires Valid()
      modifies this, out
      ensures Parsed(Choice(Substitution, 0), ok)
      decreases |mangled| - cur, 1, 0
    {
      hide Ran, Step, Tried;
      var copy := Save();
      ghost var s0 := Now();
      ok := ParseTwoCharToken('S', '_');          ghost var o1, s1 := ok, Now();
      if ok { MaybeAppend("?"); }                 ghost var o2, s2 := ok, Now();
      Seq2(Here(), Alts(Substitution)[0].es, s0, o1, s1, o2, s2);
      if !ok { Restore(copy, s0); }
    }

    method SubstitutionNumbered() returns (ok: bool)
      requires Valid()
      modifies this, out
      ensures Parsed(Choice(Substitution, 1), ok)
      decreases |mangled| - cur, 1, 0
    {
      hide Ran, Step, Tried;
      var copy := Save();
      ghost var s0 := Now();
      ok := ParseOneCharToken('S');               ghost var o1, s1 := ok, Now();
      if ok { ok := ParseSeqId(); }               ghost var o2, s2 := ok, Now();
      if ok { ok := ParseOneCharToken('_'); }     ghost var o3, s3 := ok, Now();
      if ok { MaybeAppend("?"); }                 ghost var o4, s4 := ok, Now();
      Seq4(Here(), Alts(Substitution)[1].es, s0, o1, s1, o2, s2, o3, s3, o4, s4);
      if !ok { Restore(copy, s0); }
    }

    method SubstitutionStandard() returns (ok: bool)
      requires Valid()
      modifies this, out
      ensures Parsed(Choice(Substitution, 2), ok)
      decreases |mangled| - cur, 1, 0
    {
      hide Ran, Step, Tried;
      var copy := Save();
      ghost var s0 := Now();
      ok := ParseOneCharToken('S');               ghost var o1, s1 := ok, Now();
      if ok { ok := ParseAbbreviation(); }        ghost var o2, s2 := ok, Now();
      Seq2(Here(), Alts(Substitution)[2].es, s0, o1, s1, o2, s2);
      if !ok { Restore(copy, s0); }
    }

    method ParseSubstitution() returns (ok: bool)
      requires Valid()
      modifies this, out
      ensures Parsed(N(Substitution), ok)
      decreases |mangled| - cur, 1
    {
      hide Ran, Step, Tried;
      ghost var s0 := Now();
      ghost var a := s0;
      NoneTried(Here(), Substitution, s0);
      ok := SubstitutionFirst();
      if ok { Hit(Here(), Substitution, 0, s0, a, Now()); return; }
      Miss(Here(), Substitution, 0, s0, a, Now());  a := Now();

      ok := SubstitutionNumbered();
      if ok { Hit(Here(), Substitution, 1, s0, a, Now()); return; }
      Miss(Here(), Substitution, 1, s0, a, Now());  a := Now();

      ok := SubstitutionStandard();
      if ok { Hit(Here(), Substitution, 2, s0, a, Now()); return; }
      Miss(Here(), Substitution, 2, s0, a, Now());
      AllMissed(Here(), Substitution, s0, Now());
    }

    /** The letter of an abbreviation such as "Sa": the tail of ParseSubstitution. */
    method ParseAbbreviation() returns (ok: bool)
      requires Valid()
      modifies this, out
      ensures Parsed(Abbrev, ok)
    {
      hide Ran, Alts, Step, SubstitutionList, SaidText, Lang, NumberAt, OperatorList, BuiltinTypeList, Kept;
      ghost var s0 := Now();
      AbbrevRun(Here(), s0, FirstSpelled(SubstitutionList(), 1, 1, mangled, cur, 0));
      var k := 0;
      while k < |SubstitutionList()|
        invariant k <= |SubstitutionList()| && Now() == s0 && Valid()
        invariant FirstSpelled(SubstitutionList(), 1, 1, mangled, cur, k) == FirstSpelled(SubstitutionList(), 1, 1, mangled, cur, 0)
      {
        var p := SubstitutionList()[k];
        if mangled[cur] == At(p.abbrev, 1) {
          AbbreviationsAreLetters(k);
          MaybeAppend("std");
          if At(p.realName, 0) != '\0' {
            MaybeAppend("::");
            MaybeAppend(p.realName);
          }
          SaidAbbrevKept(Here(), s0, p.realName);
          cur := cur + 1;
          return true;
        }
        k := k + 1;
      }
      return false;
    }

    // -------------------------------------------------------------- the whole name

    method SkipAlpha(start: nat) returns (i: nat)
      requires Valid() && start < |mangled|
      ensures i == AlphaEnd(mangled, start) < |mangled|
    {
      i := start;
      while IsAlpha(mangled[i])
        invariant start <= i < |mangled| && AlphaEnd(mangled, i) == AlphaEnd(mangled, start)
        decreases |mangled| - i
      {
        i := i + 1;
      }
    }

    method SkipDigits(start: nat) returns (i: nat)
      requires Valid() && start < |mangled|
      ensures i == ScanEnd(mangled, Decimal, start) < |mangled|
    {
      i := start;
      while IsDigit(mangled[i])
        invariant start <= i < |mangled| && ScanEnd(mangled, Decimal, i) == ScanEnd(mangled, Decimal, start)
        decreases |mangled| - i
      {
        i := i + 1;
      }
    }

    /** Whether the rest of the string is a function clone suffix. */
    method IsFunctionCloneSuffix(start: nat) returns (r: bool)
      requires Valid() && start < |mangled|
      ensures r == CloneSuffix(mangled, start)
    {
      hide AlphaEnd, ScanEnd;
      var i := start;
      while mangled[i] != '\0'
        invariant start <= i < |mangled|
        invariant CloneSuffix(mangled, i) == CloneSuffix(mangled, start)
        decreases |mangled| - i
      {
        if mangled[i] != '.' || !IsAlpha(mangled[i + 1]) {
          return false;
        }
        var j := SkipAlpha(i + 1);
        if mangled[j] != '.' || !IsDigit(mangled[j + 1]) {
          return false;
        }
        i := SkipDigits(j + 1);
      }
      return true;
    }

    method ParseTopLevelMangledName() returns (ok: bool)
      requires Valid()
      modifies this, out
      ensures Valid() && (ok ==> TopRun(Here(), old(Now()), true, Now()))
      ensures !ok ==> exists st2: St :: TopRun(Here(), old(Now()), false, st2)
      ensures forall i :: outSize <= i < out.Length ==> out[i] == old(out[i])
    {
      hide Ran, Alts, SaidText;
      ghost var s0 := Now();
      ok := ParseMangledName();
      ghost var s1 := if ok then Now() else Rewind(s0, Now());
      RunKeeps(Here(), N(MangledName), s0, ok, s1);
      assert forall i :: outSize <= i < out.Length ==> out[i] == s1.buf[i];
      if !ok {
        assert TopEnd(Here(), false, s1, false, s1);
        assert TopRun(Here(), s0, false, s1);
        return;
      }
      if mangled[cur] != '\0' {
        var clone := IsFunctionCloneSuffix(cur);
        if !clone {
          if mangled[cur] != '@' {
            assert TopEnd(Here(), true, s1, false, s1);
            assert TopRun(Here(), s0, false, s1);
            return false;
          }
          ghost var rest := mangled[cur..|mangled| - 1];
          MaybeAppend(mangled[cur..|mangled| - 1]);
          SaidTextKept(Here(), s1, rest);
          assert forall i :: outSize <= i < out.Length ==> out[i] == Now().buf[i];
        }
      }
      assert TopEnd(Here(), true, s1, true, Now());
      return true;
    }
  }

  /** The demangler entry point: it succeeds exactly if the whole name parses and its text fits, and
      then that text is in `out`.  On safe names this is what the shipped code does. */
  method Demangle(mangled: string, out: array<char>, outSize: nat) returns (ok: bool)
    requires IsCString(mangled) && outSize <= out.Length
    modifies out
    ensures var c, st := Ctx(mangled, outSize), InitialSt(old(out[..]));
            && Answers(c, st, ok, out[..])
            && (Safe(mangled, N(MangledName), 0) ==> Answers(Shipped(c), st, ok, out[..]))
    ensures forall i :: outSize <= i < out.Length ==> out[i] == old(out[i])
  {
    hide Ran, Alts, TopRun, Safe;
    var state := new State(mangled, out, outSize);
    ghost var c, st := Ctx(mangled, outSize), InitialSt(old(out[..]));
    var parsed := state.ParseTopLevelMangledName();
    ok := parsed && !state.overflowed;
    ghost var end :| TopRun(c, st, parsed, end) && (parsed ==> end == state.Now());
    forall st2: St | TopRun(c, st, true, st2)
      ensures parsed && st2 == end
    {
      TopDeterministic(c, st, parsed, end, true, st2);
    }
    assert Answers(c, st, ok, out[..]);
    if Safe(mangled, N(MangledName), 0) { SafeAnswer(c, st, ok, out[..]); }
  }
}
