/** The doubly linked list of LinkedList.c, with its remembered position, and the two loops of the
    MQTT client that delete while they walk. */
module LinkedList {
  import opened Common

  class ListElement<T> {
    var content: T
    var prev: ListElement?<T>
    var next: ListElement?<T>

    constructor (content: T)
      ensures this.content == content && prev == null && next == null
    {
      this.content := content;
      prev, next := null, null;
    }
  }

  /** The i-th element, or null outside. */
  function Elem<T>(s: seq<ListElement<T>>, i: int): ListElement?<T> {
    if 0 <= i < |s| then s[i] else null
  }

  function With<X>(s: seq<X>, i: nat, x: X): seq<X>
    requires i <= |s|
  {
    s[..i] + [x] + s[i..]
  }

  ghost predicate Distinct<X>(s: seq<X>) {
    forall i, j :: 0 <= i < j < |s| ==> s[i] != s[j]
  }

  lemma WithoutIs<X>(s: seq<X>, i: nat)
    requires i < |s|
    ensures var t := Without(s, i);
            |t| == |s| - 1 && forall k :: 0 <= k < |t| ==> t[k] == s[if k < i then k else k + 1]
  {
  }

  /** The list when a walk has kept `k` of `s` and is at its element `j`. */
  function Walked<X>(k: seq<X>, s: seq<X>, j: nat): (e: seq<X>)
    requires j <= |s|
    ensures |e| == |k| + |s| - j
  {
    k + s[j..]
  }

  lemma Walk<X>(k: seq<X>, s: seq<X>, j: nat)
    requires j < |s|
    ensures var e := Walked(k, s, j);
            && e[|k|] == s[j]
            && e == Walked(k + [s[j]], s, j + 1) && Without(e, |k|) == Walked(k, s, j + 1)
  {
  }

  lemma WalkStarts<X>(s: seq<X>)
    ensures Walked([], s, 0) == s
  {
  }

  lemma WalkEnds<X>(k: seq<X>, s: seq<X>, j: nat)
    requires j == |s|
    ensures Walked(k, s, j) == k
  {
  }

  lemma DistinctWithout<X>(s: seq<X>, i: nat)
    requires Distinct(s) && i < |s|
    ensures Distinct(Without(s, i))
  {
  }

  /** What is in the list, but not taken out, is still in it. */
  lemma StillIn<X>(s: seq<X>, i: nat, x: X)
    requires i < |s| && x in s && x != s[i]
    ensures x in Without(s, i)
  {
    var k :| 0 <= k < |s| && s[k] == x;
    assert Without(s, i)[if k < i then k else k - 1] == x;
  }

  lemma StillWith<X>(s: seq<X>, i: nat, x: X, y: X)
    requires i <= |s| && x in s
    ensures x in With(s, i, y)
  {
    var k :| 0 <= k < |s| && s[k] == x;
    assert With(s, i, y)[if k < i then k else k + 1] == x;
  }

  lemma DistinctWith<X>(s: seq<X>, i: nat, x: X)
    requires Distinct(s) && i <= |s| && x !in s
    ensures Distinct(With(s, i, x))
  {
    var t := With(s, i, x);
    WithIs(s, i, x);
    forall j, k | 0 <= j < k < |t|
      ensures t[j] != t[k]
    {
    }
  }

  lemma WithIs<X>(s: seq<X>, i: nat, x: X)
    requires i <= |s|
    ensures var t := With(s, i, x);
            && |t| == |s| + 1 && t[i] == x
            && forall k :: 0 <= k < |t| && k != i ==> t[k] == s[if k < i then k else k - 1]
  {
  }

  lemma Removed<X>(s: seq<X>, i: nat)
    requires Distinct(s) && i < |s|
    ensures forall j :: 0 <= j < |s| && j != i ==> s[j] != s[i]
    ensures Distinct(Without(s, i)) && |Without(s, i)| == |s| - 1
    ensures forall k :: 0 <= k < |s| - 1 ==> Without(s, i)[k] == s[if k < i then k else k + 1]
    ensures forall x :: x in Without(s, i) ==> x in s
    ensures i == 0 ==> Without(s, i) == s[1..]
    ensures i == |s| - 1 ==> Without(s, i) == s[..i]
  {
  }

  lemma DistinctFrom<X>(s: seq<X>, i: nat)
    requires Distinct(s) && i < |s|
    ensures forall j :: 0 <= j < |s| && j != i ==> s[j] != s[i]
  {
  }

  lemma DistinctAt<X>(s: seq<X>, i: nat, j: nat)
    requires Distinct(s) && i < |s| && j < |s| && i != j
    ensures s[i] != s[j]
  {
  }

  ghost function Elements<T>(s: seq<ListElement<T>>): set<ListElement<T>> {
    set e | e in s
  }

  ghost predicate NextLinked<T>(s: seq<ListElement<T>>)
    reads Elements(s)
  {
    forall i {:trigger s[i].next} :: 0 <= i < |s| ==> s[i].next == Elem(s, i + 1)
  }

  ghost predicate PrevLinked<T>(s: seq<ListElement<T>>)
    reads Elements(s)
  {
    forall i {:trigger s[i].prev} :: 0 <= i < |s| ==> s[i].prev == Elem(s, i - 1)
  }

  /** The links of the elements describe the sequence. */
  ghost predicate Linked<T>(s: seq<ListElement<T>>)
    reads Elements(s)
  {
    NextLinked(s) && PrevLinked(s)
  }

  /** An element `x` has come in before position `i`: only the one before that has a new successor. */
  lemma NextLinkedWith<T>(s: seq<ListElement<T>>, i: nat, x: ListElement<T>)
    requires i < |s| && x.next == s[i]
    requires forall k {:trigger s[k].next} :: 0 <= k < |s| ==>
               s[k].next == if k + 1 == i then x else Elem(s, k + 1)
    ensures NextLinked(With(s, i, x))
  {
    hide With;
    var t := With(s, i, x);
    WithIs(s, i, x);
    forall k {:trigger t[k].next} | 0 <= k < |t|
      ensures t[k].next == Elem(t, k + 1)
    {
      if k != i {
        assert t[k] == s[if k < i then k else k - 1];
      }
    }
  }

  lemma PrevLinkedWith<T>(s: seq<ListElement<T>>, i: nat, x: ListElement<T>)
    requires i < |s| && x.prev == Elem(s, i - 1)
    requires forall k {:trigger s[k].prev} :: 0 <= k < |s| ==>
               s[k].prev == if k == i then x else Elem(s, k - 1)
    ensures PrevLinked(With(s, i, x))
  {
    hide With;
    var t := With(s, i, x);
    WithIs(s, i, x);
    forall k {:trigger t[k].prev} | 0 <= k < |t|
      ensures t[k].prev == Elem(t, k - 1)
    {
      if k != i {
        assert t[k] == s[if k < i then k else k - 1];
      }
    }
  }

  /** The element at position `i` has gone: only the one before it has a new successor. */
  lemma NextLinkedWithout<T>(s: seq<ListElement<T>>, i: nat)
    requires i < |s|
    requires forall k {:trigger s[k].next} :: 0 <= k < |s| && k != i ==>
               s[k].next == if k + 1 == i then Elem(s, i + 1) else Elem(s, k + 1)
    ensures NextLinked(Without(s, i))
  {
    hide Without;
    var t := Without(s, i);
    WithoutIs(s, i);
    forall k {:trigger t[k].next} | 0 <= k < |t|
      ensures t[k].next == Elem(t, k + 1)
    {
      assert t[k] == s[if k < i then k else k + 1];
    }
  }

  lemma PrevLinkedWithout<T>(s: seq<ListElement<T>>, i: nat)
    requires i < |s|
    requires forall k {:trigger s[k].prev} :: 0 <= k < |s| && k != i ==>
               s[k].prev == if k == i + 1 then Elem(s, i - 1) else Elem(s, k - 1)
    ensures PrevLinked(Without(s, i))
  {
    hide Without;
    var t := Without(s, i);
    WithoutIs(s, i);
    forall k {:trigger t[k].prev} | 0 <= k < |t|
      ensures t[k].prev == Elem(t, k - 1)
    {
      assert t[k] == s[if k < i then k else k + 1];
    }
  }

  /** No two elements have the same content; contents are pointers here. */
  ghost predicate Unshared<T>(s: seq<ListElement<T>>)
    reads Elements(s)
  {
    forall i, j :: 0 <= i < j < |s| ==> s[i].content != s[j].content
  }

  class List<T(==)> {
    var first: ListElement?<T>
    var last: ListElement?<T>
    var current: ListElement?<T>
    var count: nat
    ghost var elems: seq<ListElement<T>>

    /** first, last, prev, next and count describe one sequence, and current is null or in it. */
    ghost predicate Valid()
      reads this, Elements(elems)
    {
      && Distinct(elems) && Linked(elems)
      && first == Elem(elems, 0) && last == Elem(elems, |elems| - 1) && count == |elems|
      && (current == null || current in elems)
    }

    constructor ()
      ensures Valid() && elems == []
    {
      first, last, current, count, elems := null, null, null, 0, [];
    }

    /** ListAppendNoMalloc. */
    method AppendNoMalloc(content: T, newel: ListElement<T>)
      requires Valid() && newel !in elems
      modifies this, newel, Elements(elems)
      ensures Valid() && elems == old(elems) + [newel] && newel.content == content && current == old(current)
      ensures forall e :: e in old(elems) ==> e.content == old(e.content)
    {
      newel.content := content;
      newel.next := null;
      newel.prev := last;
      if first == null {
        first := newel;
      } else {
        last.next := newel;
      }
      last := newel;
      count := count + 1;
      elems := elems + [newel];
    }

    /** ListAppend. */
    method Append(content: T)
      requires Valid()
      modifies this, Elements(elems)
      ensures Valid() && |elems| == |old(elems)| + 1 && elems[..|old(elems)|] == old(elems)
      ensures fresh(elems[|old(elems)|]) && elems[|old(elems)|].content == content && current == old(current)
      ensures forall e :: e in old(elems) ==> e.content == old(e.content)
    {
      var newel := new ListElement(content);
      AppendNoMalloc(content, newel);
    }

    /** ListInsert: before `index`, or at the end for null. */
    method Insert(content: T, index: ListElement?<T>, ghost i: nat)
      requires Valid() && i <= |elems| && index == Elem(elems, i)
      modifies this, Elements(elems)
      ensures Valid() && |elems| == |old(elems)| + 1 && current == old(current)
      ensures elems == With(old(elems), i, elems[i]) && fresh(elems[i]) && elems[i].content == content
      ensures forall e :: e in old(elems) ==> e.content == old(e.content)
    {
      var newel := new ListElement(content);
      if index == null {
        AppendNoMalloc(content, newel);
        assert old(elems)[..i] == old(elems);
      } else {
        LinkBefore(newel, index, i);
        WithIs(old(elems), i, newel);
      }
    }

    /** The linking in ListInsert. */
    method LinkBefore(newel: ListElement<T>, index: ListElement<T>, ghost i: nat)
      requires Valid() && i < |elems| && index == elems[i] && newel !in elems
      modifies this`first, this`count, this`elems, newel, Elements(elems)
      ensures Valid() && elems == With(old(elems), i, newel) && current == old(current)
      ensures newel.content == old(newel.content)
      ensures forall e :: e in old(elems) ==> e.content == old(e.content)
    {
      hide Distinct, With;
      ghost var s := elems;
      assert s[i].prev == Elem(s, i - 1);
      assert forall k {:trigger s[k].next} :: 0 <= k < |s| ==> s[k].next == Elem(s, k + 1);
      newel.next := index;
      newel.prev := index.prev;
      index.prev := newel;
      if newel.prev != null {
        newel.prev.next := newel;
      } else {
        first := newel;
      }
      count := count + 1;
      elems := With(s, i, newel);
      DistinctFrom(s, i);
      if i > 0 {
        DistinctFrom(s, i - 1);
      }
      DistinctWith(s, i, newel);
      WithIs(s, i, newel);
      NextLinkedWith(s, i, newel);
      PrevLinkedWith(s, i, newel);
      if current != null {
        StillWith<ListElement<T>>(s, i, current, newel);
      }
    }

    /** ListNextElement: from null it starts over. */
    function NextElement(pos: ListElement?<T>): ListElement?<T>
      reads this, pos
    {
      if pos == null then first else pos.next
    }

    /** ListFindItem, with the comparison as a predicate on contents: the remembered element if it
        matches, else the first that does; null exactly if none does. */
    method FindItem(same: T -> bool) returns (rc: ListElement?<T>, ghost i: int)
      requires Valid()
      modifies this`current
      ensures Valid()
      ensures rc == null <==> forall k :: 0 <= k < |elems| ==> !same(elems[k].content)
      ensures rc == null ==> current == old(current)
      ensures rc != null ==> 0 <= i < |elems| && rc == elems[i] == current && same(rc.content)
      ensures rc != null ==> rc == old(current) || forall k :: 0 <= k < i ==> !same(elems[k].content)
      ensures old(current) != null && same(old(current.content)) ==> rc == old(current)
    {
      i := -1;
      if current != null && same(current.content) {
        i :| 0 <= i < |elems| && elems[i] == current;
        return current, i;
      }
      ghost var j := 0;
      rc := first;
      while rc != null && !same(rc.content)
        invariant 0 <= j <= |elems| && rc == Elem(elems, j)
        invariant forall k :: 0 <= k < j ==> !same(elems[k].content)
        decreases |elems| - j
      {
        rc := rc.next;
        j := j + 1;
      }
      if rc != null {
        i := j;
        current := rc;
      }
    }

    /** The unlinking in ListUnlink, once the element is found. */
    method UnlinkElement(e: ListElement<T>, ghost i: nat)
      requires Valid() && i < |elems| && elems[i] == e
      modifies this`first, this`last, this`count, this`elems, this`current, Elements(elems)
      ensures elems == Without(old(elems), i)
      ensures current == if old(current) == e then null else old(current)
      ensures Valid() && e.next == old(e.next) && e.next == Elem(old(elems), i + 1)
      ensures forall x :: x in old(elems) ==> x.content == old(x.content)
    {
      hide Distinct, Without;
      ghost var s := elems;
      assert e.prev == Elem(s, i - 1) && e.next == Elem(s, i + 1);
      if e.prev == null {
        first := e.next;
      } else {
        e.prev.next := e.next;
      }
      if e.next == null {
        last := e.prev;
      } else {
        e.next.prev := e.prev;
      }
      count := count - 1;
      elems := Without(s, i);
      if current == e {
        current := null;
      }
      if i > 0 {
        DistinctFrom(s, i - 1);
      }
      if i + 1 < |s| {
        DistinctFrom(s, i + 1);
      }
      NextLinkedWithout(s, i);
      PrevLinkedWithout(s, i);
      DistinctWithout(s, i);
      WithoutIs(s, i);
      if current != null {
        StillIn<ListElement<T>>(s, i, current);
      }
    }

    /** ListUnlink: the element that ListFindItem finds goes; the remembered position stays, or moves to
        the element behind if it is the one that goes. */
    method Unlink(same: T -> bool) returns (removed: bool, ghost i: int)
      requires Valid()
      modifies this, Elements(elems)
      ensures Valid()
      ensures removed <==> exists k :: 0 <= k < |old(elems)| && same(old(elems[k].content))
      ensures !removed ==> elems == old(elems) && current == old(current)
      ensures removed ==>
                && 0 <= i < |old(elems)| && elems == Without(old(elems), i) && same(old(elems[i].content))
                && (old(elems)[i] == old(current) || forall k :: 0 <= k < i ==> !same(old(elems[k].content)))
                && (old(current) != null && same(old(current.content)) ==> old(elems)[i] == old(current))
                && current == (if old(elems)[i] == old(current) then Elem(old(elems), i + 1) else old(current))
      ensures forall x :: x in old(elems) ==> x.content == old(x.content)
    {
      var saved := current;
      var rc;
      rc, i := FindItem(same);
      if rc == null {
        return false, i;
      }
      var next := rc.next;
      UnlinkElement(rc, i);
      current := if saved == rc then next else saved;
      ghost var s := old(elems);
      if current != null {
        if saved == rc {
          DistinctAt(s, i, i + 1);
        }
        StillIn(s, i, current);
      }
      removed := true;
    }

    /** ListDetach and ListRemove as the walks below use them: of an element that is remembered, or the only
        one with its content.  In general they are Unlink by content. */
    method Remove(e: ListElement<T>, ghost i: nat)
      requires Valid() && i < |elems| && e == elems[i]
      requires e == current || Unshared(elems)
      modifies this, Elements(elems)
      ensures Valid() && elems == Without(old(elems), i)
      ensures current == (if e == old(current) then Elem(old(elems), i + 1) else old(current))
      ensures forall x :: x in old(elems) ==> x.content == old(x.content)
      ensures old(Unshared(elems)) ==> Unshared(elems)
    {
      hide NextLinked, PrevLinked, Without;
      var content := e.content;
      var _, k := Unlink(x => x == content);
      DistinctFrom(old(elems), i);
      WithoutIs(old(elems), i);
    }

    /** ListDetachHead. */
    method DetachHead() returns (content: Option<T>)
      requires Valid()
      modifies this, Elements(elems)
      ensures Valid()
      ensures old(elems) == [] ==> content == None && elems == [] && current == old(current)
      ensures old(elems) != [] ==>
                && elems == old(elems)[1..] && content == Some(old(elems[0].content))
                && current == (if old(current) == old(elems)[0] then Elem(old(elems), 1) else old(current))
      ensures forall x :: x in old(elems) ==> x.content == old(x.content)
    {
      hide Distinct, Without;
      if count == 0 {
        return None;
      }
      var head := first;
      if current == head {
        current := head.next;
      }
      if last == head {
        last := null;
      }
      content := Some(head.content);
      first := first.next;
      if first != null {
        first.prev := null;
      }
      count := count - 1;
      ghost var s := elems;
      elems := Without(s, 0);
      Removed(s, 0);
      if current != null {
        StillIn<ListElement<T>>(s, 0, current);
      }
    }

    /** ListPopTail. */
    method PopTail() returns (content: Option<T>)
      requires Valid()
      modifies this, Elements(elems)
      ensures Valid()
      ensures old(elems) == [] ==> content == None && elems == [] && current == old(current)
      ensures old(elems) != [] ==>
                var n := |old(elems)| - 1;
                && elems == old(elems)[..n] && content == Some(old(elems[n].content))
                && current == (if old(current) == old(elems)[n] then Elem(old(elems), n - 1) else old(current))
      ensures forall x :: x in old(elems) ==> x.content == old(x.content)
    {
      if count == 0 {
        return None;
      }
      var tail := last;
      if current == tail {
        current := tail.prev;
      }
      if first == tail {
        first := null;
      }
      content := Some(tail.content);
      last := last.prev;
      if last != null {
        last.next := null;
      }
      count := count - 1;
      ghost var s := elems;
      elems := elems[..|elems| - 1];
      if current != null {
        ghost var k :| 0 <= k < |s| && s[k] == current;
        assert elems[k] == current;
      }
    }

    /** The loop of MQTTProtocol_checkPendingWrites: goes on from the remembered position after a removal. */
    method RemoveDone(done: T -> bool)
      requires Valid()
      modifies this, Elements(elems)
      ensures Valid() && elems == Kept(old(elems), old(Contents(elems)), done)
      ensures forall x :: x in elems ==> x in old(elems) && x.content == old(x.content)
    {
      hide Unshared, Distinct, Contents, Walked;
      ghost var s, c, j: nat := elems, Contents(elems), 0;
      ghost var k: seq<ListElement<T>> := [];
      var le := first;
      WalkStarts(s);
      while le != null
        invariant j <= |s| && k == Kept(s, c, done, j) && elems == Walked(k, s, j)
        invariant Valid() && le == Elem(elems, |k|)
        invariant forall x :: x in elems ==> x in s && x.content == old(x.content)
        decreases |s| - j
      {
        Walk(k, s, j);
        assert le.content == c[j];
        if done(le.content) {
          current := le;
          Remove(le, |k|);
          le := current;
        } else {
          le := NextElement(le);
          k := k + [s[j]];
        }
        j := j + 1;
      }
      WalkEnds(k, s, j);
    }

    /** The second loop of MQTTAsync_removeResponsesAndCommands: takes the successor before it removes. */
    method RemoveMine(mine: T -> bool)
      requires Valid() && Unshared(elems)
      modifies this, Elements(elems)
      ensures Valid() && elems == Kept(old(elems), old(Contents(elems)), mine)
      ensures forall x :: x in elems ==> x in old(elems) && x.content == old(x.content)
    {
      hide Unshared, Distinct, Contents, Walked;
      ghost var s, c, j: nat := elems, Contents(elems), 0;
      ghost var k: seq<ListElement<T>> := [];
      var at := NextElement(null);
      var next := NextElement(at);
      WalkStarts(s);
      while at != null
        invariant j <= |s| && k == Kept(s, c, mine, j) && elems == Walked(k, s, j)
        invariant Valid() && Unshared(elems) && at == Elem(elems, |k|)
        invariant at != null ==> next == Elem(elems, |k| + 1)
        invariant forall x :: x in elems ==> x in s && x.content == old(x.content)
        decreases |s| - j
      {
        Walk(k, s, j);
        if mine(at.content) {
          Remove(at, |k|);
        } else {
          k := k + [s[j]];
        }
        at := next;
        next := NextElement(next);
        j := j + 1;
      }
      WalkEnds(k, s, j);
    }
  }

  ghost function Contents<T>(s: seq<ListElement<T>>): (r: seq<T>)
    reads Elements(s)
    ensures |r| == |s| && forall k :: 0 <= k < |s| ==> r[k] == s[k].content
  {
    seq(|s|, k requires 0 <= k < |s| reads Elements(s) => s[k].content)
  }

  /** What stays of the first `n` of `s` when all whose content `drop` holds of go. */
  ghost function Kept<X, T>(s: seq<X>, contents: seq<T>, drop: T -> bool, n: nat := |s|): seq<X>
    requires n <= |s| == |contents|
  {
    if n == 0 then []
    else Kept(s, contents, drop, n - 1) + if drop(contents[n - 1]) then [] else [s[n - 1]]
  }

  /** The kept are just those that `drop` does not hold of, in their order. */
  lemma {:induction false} KeptIs<X, T>(s: seq<X>, contents: seq<T>, drop: T -> bool, n: nat) returns (at: seq<nat>)
    requires n <= |s| == |contents|
    ensures |at| == |Kept(s, contents, drop, n)| && forall a, b :: 0 <= a < b < |at| ==> at[a] < at[b]
    ensures forall a :: 0 <= a < |at| ==>
              at[a] < n && Kept(s, contents, drop, n)[a] == s[at[a]] && !drop(contents[at[a]])
    ensures forall j :: 0 <= j < n && !drop(contents[j]) ==> j in at
  {
    at := [];
    if n > 0 {
      at := KeptIs(s, contents, drop, n - 1);
      if !drop(contents[n - 1]) {
        assert forall j :: j in at ==> j in at + [n - 1];
        assert (at + [n - 1])[|at|] == n - 1;
        at := at + [n - 1];
      }
    }
  }
}
