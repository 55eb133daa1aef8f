/** The line reader of symbolize.cc: a fixed buffer over a file, shifted and refilled in place. */
module LineReader {
  import opened Bytes
  import opened Common

  const NEWLINE: byte := 10

  // ---------------------------------------------------------------- splitting the whole text

  /** The first newline of a text, or its length. */
  function LineFeed(u: bytes): (k: nat)
    ensures k <= |u|
    ensures k < |u| ==> u[k] == NEWLINE
    ensures NEWLINE !in u[..k]
  {
    if u == [] then 0 else if u[0] == NEWLINE then 0
    else
      assert u == [u[0]] + u[1..];
      LineFeed(u[1..]) + 1
  }

  /** The newline-terminated lines of a text. */
  function Lines(u: bytes): seq<bytes>
    decreases |u|
  {
    var k := LineFeed(u);
    if k == |u| then [] else [u[..k]] + Lines(u[k + 1..])
  }

  /** What follows the last newline. */
  function Remainder(u: bytes): bytes
    decreases |u|
  {
    var k := LineFeed(u);
    if k == |u| then u else Remainder(u[k + 1..])
  }

  function Joined(ls: seq<bytes>): bytes {
    if ls == [] then [] else ls[0] + [10] + Joined(ls[1..])
  }

  lemma LinesUnfold(u: bytes)
    requires LineFeed(u) < |u|
    ensures var k := LineFeed(u);
            Lines(u) == [u[..k]] + Lines(u[k + 1..]) && Remainder(u) == Remainder(u[k + 1..])
  {
    hide LineFeed;
  }

  lemma Around(u: bytes, k: nat)
    requires k < |u|
    ensures u == u[..k] + [u[k]] + u[k + 1..]
  {
  }

  lemma JoinedCons(a: bytes, ls: seq<bytes>)
    ensures Joined([a] + ls) == a + [NEWLINE] + Joined(ls)
  {
    assert ([a] + ls)[1..] == ls;
  }

  /** The lines, each with its newline, and the remainder are the text. */
  lemma {:induction false} LinesAreText(u: bytes)
    ensures u == Joined(Lines(u)) + Remainder(u)
    decreases |u|
  {
    var k := LineFeed(u);
    if k < |u| {
      hide LineFeed, Lines, Remainder, Joined;
      var a, v := u[..k], u[k + 1..];
      LinesUnfold(u);
      Around(u, k);
      LinesAreText(v);
      JoinedCons(a, Lines(v));
      Sum3(a, [NEWLINE], Joined(Lines(v)), Remainder(v));
    }
  }

  lemma Sum3(a: bytes, b: bytes, c: bytes, d: bytes)
    ensures a + b + (c + d) == (a + b + c) + d
  {
  }

  /** None of them holds a newline. */
  lemma {:induction false} LinesAreLines(u: bytes)
    ensures 10 !in Remainder(u) && forall i :: 0 <= i < |Lines(u)| ==> 10 !in Lines(u)[i]
    decreases |u|
  {
    hide LineFeed;
    var k := LineFeed(u);
    if k == |u| {
      assert u[..k] == u;
    } else {
      LinesAreLines(u[k + 1..]);
    }
  }

  /** The lines up to the first that does not fit into the buffer with its newline. */
  function Fitting(ls: seq<bytes>, bufLen: nat): seq<bytes> {
    if ls == [] || |ls[0]| >= bufLen then [] else [ls[0]] + Fitting(ls[1..], bufLen)
  }

  /** That is a prefix, and everything if every line fits. */
  lemma {:induction false} FittingIs(ls: seq<bytes>, bufLen: nat)
    ensures Fitting(ls, bufLen) <= ls
    ensures Fitting(ls, bufLen) == ls <==> forall i :: 0 <= i < |ls| ==> |ls[i]| < bufLen
    ensures var n := |Fitting(ls, bufLen)|; n < |ls| ==> |ls[n]| >= bufLen
  {
    if ls != [] && |ls[0]| < bufLen {
      FittingIs(ls[1..], bufLen);
      assert ls == [ls[0]] + ls[1..];
    }
  }

  /** The first newline depends on what stands before it only. */
  lemma {:induction false} LineFeedIs(u: bytes, k: nat)
    requires k <= |u| && NEWLINE !in u[..k] && (k < |u| ==> u[k] == NEWLINE)
    ensures LineFeed(u) == k
    decreases k
  {
    if k > 0 {
      assert u[0] == u[..k][0] && u[1..][..k - 1] == u[..k][1..];
      LineFeedIs(u[1..], k - 1);
    }
  }

  // ---------------------------------------------------------------- the reader

  class Reader {
    const file: bytes
    const buf: array<byte>
    var offset: nat
    var bol: nat
    var eol: nat
    var eod: nat
    /** No call has returned false yet. */
    ghost var good: bool

    ghost predicate Valid()
      reads this
    {
      && bol <= eol <= buf.Length && eod <= buf.Length && offset <= |file|
      && (good && eod > 0 ==> eol < eod)
    }

    /** The text that has not been returned yet. */
    ghost function Unread(): bytes
      reads this, buf
      requires Valid() && good
    {
      if eod == 0 then file[offset..] else buf[eol + 1..eod] + file[offset..]
    }

    /** A reader that starts at an offset of the file. */
    constructor (file: bytes, bufLen: nat, offset: nat)
      requires offset <= |file|
      ensures Valid() && good && Unread() == file[offset..] && this.file == file
      ensures fresh(buf) && buf.Length == bufLen
    {
      this.file := file;
      this.offset := offset;
      buf := new byte[bufLen](_ => 0);
      bol, eol, eod, good := 0, 0, 0, true;
    }

    /** ReadFromOffset: pread may deliver less than asked, by `chunk`, and is called again until the
        count is reached or the file ends; -1 if it fails. */
    method ReadFromOffset(pos: nat, count: nat, chunk: nat, error: bool) returns (n: int)
      requires offset <= |file| && pos + count <= buf.Length
      modifies buf
      ensures error ==> n == -1
      ensures !error ==> n == Min(count, |file| - offset)
      ensures !error ==> buf[pos..pos + n] == file[offset..offset + n]
      ensures forall k :: 0 <= k < pos ==> buf[k] == old(buf[k])
    {
      n := 0;
      while n < count
        invariant 0 <= n <= Min(count, |file| - offset)
        invariant forall k :: pos <= k < pos + n ==> buf[k] == file[offset + k - pos]
        invariant forall k :: 0 <= k < pos ==> buf[k] == old(buf[k])
        decreases count - n
      {
        if error {
          return -1;
        }
        var left := Min(count - n, |file| - offset - n);
        if left == 0 {
          assert buf[pos..pos + n] == file[offset..offset + n];
          return;
        }
        var len := if chunk == 0 then 1 else Min(chunk, left);
        Pread(pos + n, offset + n, len);
        n := n + len;
      }
      assert buf[pos..pos + n] == file[offset..offset + n];
      if error {
        n := -1;
      }
    }

    /** pread, when it delivers `len` bytes. */
    method Pread(pos: nat, from: nat, len: nat)
      requires pos + len <= buf.Length && from + len <= |file|
      modifies buf
      ensures forall k :: pos <= k < pos + len ==> buf[k] == file[from + k - pos]
      ensures forall k :: 0 <= k < pos ==> buf[k] == old(buf[k])
    {
      for i := 0 to len
        invariant forall k :: pos <= k < pos + i ==> buf[k] == file[from + k - pos]
        invariant forall k :: 0 <= k < pos ==> buf[k] == old(buf[k])
      {
        buf[pos + i] := file[from + i];
      }
    }

    /** memchr. */
    method FindLineFeed() returns (k: nat)
      requires bol <= eod <= buf.Length
      ensures k == bol + LineFeed(buf[bol..eod])
    {
      k := bol;
      while k < eod && buf[k] != NEWLINE
        invariant bol <= k <= eod && NEWLINE !in buf[bol..k]
      {
        k := k + 1;
      }
      assert buf[bol..eod][..k - bol] == buf[bol..k];
      LineFeedIs(buf[bol..eod], k - bol);
    }

    /** memmove of the incomplete line to the start of the buffer. */
    method MoveToFront()
      requires bol <= eod <= buf.Length
      modifies buf
      ensures buf[..eod - bol] == old(buf[bol..eod])
    {
      var n := eod - bol;
      for i := 0 to n
        invariant buf[..i] == old(buf[bol..bol + i])
        invariant forall k :: i <= k < buf.Length ==> buf[k] == old(buf[k])
      {
        buf[i] := buf[bol + i];
      }
    }

    /** What the buffer holds from `bol` on, and the rest of the file. */
    ghost predicate Holds(u: bytes)
      reads this, buf
    {
      bol <= eod <= buf.Length && offset <= |file| && buf[bol..eod] + file[offset..] == u
    }

    /** The first call: as much as fits. */
    method FirstFill(chunk: nat, error: bool) returns (ok: bool)
      requires Valid() && good && eod == 0
      modifies this`offset, this`bol, this`eod, buf
      ensures ok ==> eod > 0 && Holds(old(Unread())) && eod - bol == Min(|old(Unread())|, buf.Length)
      ensures !ok ==> offset == old(offset) && eod == old(eod) && bol == old(bol)
      ensures !ok && !error ==> Min(|old(Unread())|, buf.Length) == 0
    {
      ghost var u := Unread();
      var n := ReadFromOffset(0, buf.Length, chunk, error);
      if n <= 0 {
        return false;
      }
      assert u == file[offset..] && file[offset..] == file[offset..offset + n] + file[offset + n..];
      offset := offset + n;
      eod := n;
      bol := 0;
      return true;
    }

    /** An incomplete line moves to the front, and as much as fits is read behind it. */
    method Refill(chunk: nat, error: bool, ghost u: bytes) returns (ok: bool)
      requires Holds(u)
      modifies this`offset, this`bol, this`eod, buf
      ensures ok ==> eod > 0 && Holds(u) && eod - bol == Min(|u|, buf.Length)
      ensures !ok ==> offset == old(offset) && eod == old(eod) && bol == old(bol)
      ensures !ok && !error ==> old(eod) - old(bol) == Min(|u|, buf.Length)
    {
      var incomplete := eod - bol;
      ghost var kept := buf[bol..eod];
      MoveToFront();
      var n := ReadFromOffset(incomplete, buf.Length - incomplete, chunk, error);
      if n <= 0 {
        return false;
      }
      assert buf[..incomplete] == kept;
      assert buf[0..incomplete + n] == buf[..incomplete] + buf[incomplete..incomplete + n];
      assert file[offset..] == file[offset..offset + n] + file[offset + n..];
      offset := offset + n;
      eod := incomplete + n;
      bol := 0;
      assert buf[bol..eod] + file[offset..] == u;
      return true;
    }

    /** ReadLine.  It returns the next line exactly if that line and its newline fit into the buffer;
        a reading error can only make it stop earlier. */
    method ReadLine(chunk: nat, error: bool) returns (ok: bool)
      requires Valid() && good
      modifies this`offset, this`bol, this`eol, this`eod, this`good, buf
      ensures Valid() && good == ok
      ensures var u := old(Unread()); var k := LineFeed(u);
              && (ok ==> k < |u| && k < buf.Length && buf[bol..eol] == u[..k] && Unread() == u[k + 1..])
              && (!error ==> (ok <==> k < |u| && k < buf.Length))
    {
      hide LineFeed;
      ghost var u := Unread();
      var filled := Fill(chunk, error);
      if !filled {
        good := false;
        eol := bol;
        return false;
      }
      var k := FindLineFeed();
      FeedInSum(buf[bol..eod], file[offset..]);
      if k == eod {
        good := false;
        eol := bol;
        return false;
      }
      ok := TakeLine(k, u);
    }

    /** The start of ReadLine: afterwards the buffer holds a newline, or all it can hold. */
    method Fill(chunk: nat, error: bool) returns (ok: bool)
      requires Valid() && good
      modifies this`offset, this`bol, this`eod, buf
      ensures bol <= buf.Length && eod <= buf.Length && offset <= |file|
      ensures ok ==> Holds(old(Unread()))
      ensures ok ==> LineFeed(buf[bol..eod]) < eod - bol || eod - bol == Min(|old(Unread())|, buf.Length)
      ensures !ok && !error ==> LineFeed(old(Unread())) >= Min(|old(Unread())|, buf.Length)
    {
      hide LineFeed;
      ghost var u := Unread();
      if eod == 0 {
        ok := FirstFill(chunk, error);
        return;
      }
      bol := eol + 1;
      var k := FindLineFeed();
      if k < eod {
        return true;
      }
      assert buf[bol..eod] + file[offset..] == u;
      FeedInSum(buf[bol..eod], file[offset..]);
      assert LineFeed(u) >= eod - bol;
      ok := Refill(chunk, error, u);
    }

    /** The newline becomes a NUL. */
    method TakeLine(k: nat, ghost u: bytes) returns (ok: bool)
      requires Holds(u) && good && bol <= k < eod && LineFeed(u) == k - bol
      modifies this`eol, buf
      ensures ok && Valid() && good && eol == k
      ensures buf[bol..eol] == u[..LineFeed(u)] && Unread() == u[LineFeed(u) + 1..]
    {
      hide LineFeed;
      eol := k;
      ghost var n := k - bol;
      assert buf[bol..eod][..n] == buf[bol..k] && buf[bol..eod][n + 1..] == buf[k + 1..eod];
      assert u[..n] == buf[bol..k] && u[n + 1..] == buf[k + 1..eod] + file[offset..];
      buf[eol] := 0;
      assert buf[bol..k] == u[..n] && buf[k + 1..eod] + file[offset..] == u[n + 1..];
      return true;
    }
  }

  /** The first newline of `a + b`, where it is in `a`. */
  lemma FeedInSum(a: bytes, b: bytes)
    ensures LineFeed(a) < |a| ==> LineFeed(a + b) == LineFeed(a)
    ensures LineFeed(a) == |a| ==> LineFeed(a + b) >= |a|
  {
    assert (a + b)[..|a|] == a;
    FeedInPrefix(a + b, |a|);
  }

  /** Reading lines until the first false: the lines, each as the buffer held it. */
  method ReadLines(r: Reader, chunk: nat) returns (lines: seq<bytes>)
    requires r.Valid() && r.good
    modifies r, r.buf
    ensures lines == Fitting(Lines(old(r.Unread())), r.buf.Length)
  {
    hide LineFeed, Lines, Fitting;
    lines := [];
    ghost var all := Fitting(Lines(r.Unread()), r.buf.Length);
    assert lines + all == all;
    while true
      invariant r.Valid() && r.good
      invariant all == lines + Fitting(Lines(r.Unread()), r.buf.Length)
      decreases |r.Unread()|
    {
      LinesStep(r.Unread(), r.buf.Length);
      var ok := r.ReadLine(chunk, false);
      if !ok {
        assert lines + [] == lines;
        return;
      }
      var line := r.buf[r.bol..r.eol];
      OneMore(lines, line, Fitting(Lines(r.Unread()), r.buf.Length));
      lines := lines + [line];
    }
  }

  lemma OneMore(a: seq<bytes>, x: bytes, b: seq<bytes>)
    ensures a + ([x] + b) == (a + [x]) + b
  {
  }

  lemma LinesStep(u: bytes, bufLen: nat)
    ensures var k := LineFeed(u);
            Fitting(Lines(u), bufLen) ==
            if k < |u| && k < bufLen then [u[..k]] + Fitting(Lines(u[k + 1..]), bufLen) else []
  {
    var k := LineFeed(u);
    if k < |u| {
      hide LineFeed, Lines;
      LinesUnfold(u);
      assert ([u[..k]] + Lines(u[k + 1..]))[1..] == Lines(u[k + 1..]);
    }
  }

  lemma {:induction false} FeedInPrefix(u: bytes, n: nat)
    requires n <= |u|
    ensures var k := LineFeed(u[..n]);
            if k < n then LineFeed(u) == k else LineFeed(u) >= n
    decreases n
  {
    if n > 0 && u[0] != NEWLINE {
      assert u[..n][0] == u[0] && u[..n][1..] == u[1..][..n - 1];
      FeedInPrefix(u[1..], n - 1);
    }
  }
}
