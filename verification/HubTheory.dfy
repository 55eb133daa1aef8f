/** No ended child is lost on its way from the handler to the scheduler, and the scheduler keeps
    one child per object, within its limit. */
module HubTheory {
  import opened Bytes
  import opened Common
  import opened HubSpec

  // ---------------------------------------------------------------- bags of process ids

  function PidsOfExits(s: seq<Exit>): (r: seq<nat>)
    ensures |r| == |s| && forall k :: 0 <= k < |s| ==> r[k] == s[k].pid
  {
    seq(|s|, k requires 0 <= k < |s| => s[k].pid)
  }

  function PidsOfWork(s: seq<Instance>): (r: seq<nat>)
    ensures |r| == |s| && forall k :: 0 <= k < |s| ==> r[k] == s[k].pid
  {
    seq(|s|, k requires 0 <= k < |s| => s[k].pid)
  }

  function ExitPids(s: seq<Exit>): multiset<nat> {
    multiset(PidsOfExits(s))
  }

  function WorkPids(s: seq<Instance>): multiset<nat> {
    multiset(PidsOfWork(s))
  }

  lemma ExitSum(a: seq<Exit>, b: seq<Exit>)
    ensures ExitPids(a + b) == ExitPids(a) + ExitPids(b)
  {
    assert PidsOfExits(a + b) == PidsOfExits(a) + PidsOfExits(b);
  }

  lemma WorkSum(a: seq<Instance>, b: seq<Instance>)
    ensures WorkPids(a + b) == WorkPids(a) + WorkPids(b)
  {
    assert PidsOfWork(a + b) == PidsOfWork(a) + PidsOfWork(b);
  }

  lemma ExitSize(s: seq<Exit>)
    ensures |ExitPids(s)| == |s|
  {
  }

  lemma WorkSize(s: seq<Instance>)
    ensures |WorkPids(s)| == |s|
  {
  }

  /** Cancelling a common element. */
  lemma BagCancel(a: multiset<nat>, b: multiset<nat>, x: nat)
    requires multiset{x} + a <= b + multiset{x}
    ensures a <= b
  {
    forall y
      ensures a[y] <= b[y]
    {
      assert (multiset{x} + a)[y] <= (b + multiset{x})[y];
    }
  }

  lemma WorkErase(s: seq<Instance>, i: nat)
    requires i < |s|
    ensures WorkPids(s) == WorkPids(Without(s, i)) + multiset{s[i].pid}
  {
    hide WorkPids;
    assert s == s[..i] + [s[i]] + s[i + 1..];
    WorkSum(s[..i] + [s[i]], s[i + 1..]);
    WorkSum(s[..i], [s[i]]);
    WorkSum(s[..i], s[i + 1..]);
    WorkOne(s[i]);
  }

  lemma WorkOne(x: Instance)
    ensures WorkPids([x]) == multiset{x.pid}
  {
    assert PidsOfWork([x]) == [x.pid];
  }

  lemma ExitOne(e: Exit)
    ensures ExitPids([e]) == multiset{e.pid}
  {
    assert PidsOfExits([e]) == [e.pid];
  }

  lemma WorkIn(s: seq<Instance>, pid: nat)
    ensures pid in WorkPids(s) <==> FindPid(s, pid) < |s|
  {
    hide FindPid;
    assert pid in WorkPids(s) <==> pid in PidsOfWork(s);
    var i := FindPid(s, pid);
    assert i < |s| ==> PidsOfWork(s)[i] == pid;
  }

  // ---------------------------------------------------------------- the slots

  function Occupied(slots: seq<Exit>): seq<Exit> {
    if slots == [] then []
    else (if slots[0].pid == 0 then [] else [slots[0]]) + Occupied(slots[1..])
  }

  lemma {:induction false} OccupiedSignal(slots: seq<Exit>, e: Exit)
    requires e.pid > 0 && FreeSlot(slots) < |slots|
    ensures ExitPids(Occupied(Signal(slots, e))) == ExitPids(Occupied(slots)) + multiset{e.pid}
    ensures |Signal(slots, e)| == |slots|
    decreases |slots|
  {
    hide ExitPids;
    var rest := slots[1..];
    if slots[0].pid == 0 {
      assert Signal(slots, e)[1..] == rest;
      ExitSum([e], Occupied(rest));
      ExitOne(e);
      assert [] + Occupied(rest) == Occupied(rest);
    } else {
      OccupiedSignal(rest, e);
      assert Signal(slots, e)[1..] == Signal(rest, e);
      ExitSum([slots[0]], Occupied(rest));
      ExitSum([slots[0]], Occupied(Signal(rest, e)));
    }
  }

  lemma {:induction false} AllOccupied(slots: seq<Exit>)
    requires FreeSlot(slots) == |slots|
    ensures |Occupied(slots)| == |slots|
  {
    if slots != [] {
      AllOccupied(slots[1..]);
    }
  }

  lemma {:induction false} NoneOccupied(slots: seq<Exit>)
    requires forall k :: 0 <= k < |slots| ==> slots[k].pid == 0
    ensures Occupied(slots) == []
  {
    if slots != [] {
      NoneOccupied(slots[1..]);
    }
  }

  // ---------------------------------------------------------------- the invariant

  /** Collected but not delivered, in order. */
  function Pending(h: Hub): seq<Exit> {
    match h.pc
    case AtSwap => Filling(h)
    case AtCount => Drained(h) + Filling(h)
    case Draining(i, n) => (if i <= |Drained(h)| then Drained(h)[i..] else []) + Filling(h)
  }

  function Work(h: Hub): seq<Instance> {
    h.inProgress + match h.forked case None => [] case Some(x) => [x]
  }

  /** Each child at work is running, collected or in a slot: in one of these, once. */
  ghost predicate Owned(h: Hub) {
    && WorkPids(Work(h)) == h.running + ExitPids(Pending(h)) + ExitPids(Occupied(h.slots))
    && (forall p :: WorkPids(Work(h))[p] <= 1)
    && 0 !in WorkPids(Work(h))
  }

  /** Everything collected has been delivered or is still on its way, in order, once. */
  ghost predicate Ordered(h: Hub) {
    && h.reaped == h.delivered + Pending(h)
    && (h.pc == AtSwap ==> Drained(h) == [])
    && (h.pc.Draining? ==> h.pc.next <= h.pc.count == |Drained(h)|)
  }

  /** The last group of an object among those moved. */
  function Latest(s: seq<Group>, id: nat): Option<Group>
    decreases |s|
  {
    if s == [] then None else if s[|s| - 1].id == id then Some(s[|s| - 1]) else Latest(s[..|s| - 1], id)
  }

  /** At most `limit` children, no two for the same object; one queued group per object, and that is
      the latest that was moved in for it. */
  ghost predicate Scheduled(h: Hub) {
    && |h.slots| == h.limit
    && |Work(h)| <= h.limit
    && (forall i, j :: 0 <= i < j < |Work(h)| ==> Work(h)[i].id != Work(h)[j].id)
    && (forall i, j :: 0 <= i < j < |h.queue| ==> h.queue[i].id != h.queue[j].id)
    && (h.forked.Some? ==> FindId(h.queue, h.forked.value.id) < |h.queue|)
    && forall i :: 0 <= i < |h.queue| ==> Latest(h.moved, h.queue[i].id) == Some(h.queue[i])
  }

  ghost predicate Good(h: Hub) {
    && Ordered(h) && Scheduled(h)
    && if h.cleaned then Owned(h)
       else h.running == multiset{} && Pending(h) == [] && h.inProgress == [] && h.forked == None
  }

  // ---------------------------------------------------------------- each step keeps it

  lemma Sizes(h: Hub)
    requires Owned(h) && Scheduled(h)
    ensures |h.running| + |Pending(h)| + |Occupied(h.slots)| <= h.limit
  {
    hide ExitPids, WorkPids, Pending, Occupied, Work;
    WorkSize(Work(h));
    ExitSize(Pending(h));
    ExitSize(Occupied(h.slots));
  }

  /** The array is never full. */
  lemma ArrayHasRoom(h: Hub, e: Exit)
    requires Good(h) && e.pid in h.running
    ensures |Filling(h)| < h.limit
  {
    hide ExitPids, WorkPids, Occupied, Work;
    assert h.running == h.running - multiset{e.pid} + multiset{e.pid};
    assert h.cleaned;
    Sizes(h);
  }

  lemma ReapPending(h: Hub, e: Exit)
    requires |Filling(h)| < 2 * h.limit
    ensures Pending(Reap(h, e)) == Pending(h) + [e]
    ensures Reap(h, e).(a0 := h.a0, a1 := h.a1) == h.(running := h.running - multiset{e.pid}, reaped := h.reaped + [e])
  {
    var v, f := Reap(h, e), Filling(h);
    assert Filling(v) == f + [e] && Drained(v) == Drained(h) && v.pc == h.pc;
    hide Reap, Filling, Drained;
    match h.pc
    case AtSwap =>
    case AtCount => Regrouped(Drained(h), f, [e]);
    case Draining(i, _) => Regrouped(if i <= |Drained(h)| then Drained(h)[i..] else [], f, [e]);
  }

  lemma Regrouped(a: seq<Exit>, b: seq<Exit>, c: seq<Exit>)
    ensures a + (b + c) == (a + b) + c
  {
  }

  lemma ReapKeeps(h: Hub, e: Exit)
    requires Good(h) && e.pid in h.running
    ensures Good(Reap(h, e))
  {
    hide ExitPids, WorkPids, Occupied, FindId, Pending;
    ArrayHasRoom(h, e);
    var h' := Reap(h, e);
    ReapPending(h, e);
    ExitSum(Pending(h), [e]);
    ExitOne(e);
    assert h.running == h'.running + multiset{e.pid};
    assert h'.reaped == h'.delivered + Pending(h');
  }

  /** A free slot always exists for a child that is delivered. */
  lemma SlotExists(h: Hub)
    requires Good(h) && h.pc.Draining? && h.pc.next < h.pc.count
    ensures FreeSlot(h.slots) < |h.slots| && Drained(h)[h.pc.next].pid > 0
  {
    hide WorkPids, Occupied, Work, Latest, FindId, ExitPids;
    assert Pending(h)[0] == Drained(h)[h.pc.next];
    assert h.cleaned;
    Sizes(h);
    if FreeSlot(h.slots) == |h.slots| {
      AllOccupied(h.slots);
    }
    PidPositive(Pending(h), 0);
  }

  lemma PidPositive(s: seq<Exit>, i: nat)
    requires i < |s|
    ensures s[i].pid in ExitPids(s)
  {
    assert PidsOfExits(s)[i] == s[i].pid;
  }

  lemma DeliverPending(h: Hub)
    requires h.pc.Draining? && h.pc.next < h.pc.count <= |Drained(h)|
    ensures Pending(h) == [Drained(h)[h.pc.next]] + Pending(MainStep(h))
  {
    hide Signal, FreeSlot;
    FirstThenRest(Drained(h), h.pc.next, Filling(h));
  }

  lemma FirstThenRest(d: seq<Exit>, i: nat, f: seq<Exit>)
    requires i < |d|
    ensures d[i..] + f == [d[i]] + (d[i + 1..] + f)
  {
    assert d[i..] == [d[i]] + d[i + 1..];
  }

  lemma DeliverKeeps(h: Hub)
    requires Good(h) && h.pc.Draining? && h.pc.next < h.pc.count
    ensures Good(MainStep(h))
  {
    hide ExitPids, WorkPids, Occupied, FindId, Signal, Pending;
    SlotExists(h);
    var h' := MainStep(h);
    var e := Drained(h)[h.pc.next];
    DeliverPending(h);
    OccupiedSignal(h.slots, e);
    ExitSum([e], Pending(h'));
    ExitOne(e);
    assert h'.reaped == h'.delivered + Pending(h');
    assert Work(h') == Work(h);
    assert Scheduled(h');
    assert h.cleaned ==> Owned(h');
  }

  /** What the invariant depends on. */
  lemma SameChildren(h: Hub, h': Hub)
    requires Work(h') == Work(h) && h'.running == h.running && Pending(h') == Pending(h) && h'.slots == h.slots
    ensures Owned(h) <==> Owned(h')
  {
    hide Work, Pending;
  }

  lemma MainKeeps(h: Hub)
    requires Good(h)
    ensures Good(MainStep(h))
  {
    hide Owned;
    if h.pc.Draining? && h.pc.next < h.pc.count {
      DeliverKeeps(h);
    } else {
      hide FindId, Signal;
      var h' := MainStep(h);
      assert [] + Filling(h) == Filling(h) && Filling(h) + [] == Filling(h);
      assert Pending(h') == Pending(h);
      SameChildren(h, h');
    }
  }

  // ---------------------------------------------------------------- cleaning up

  /** Sweeping takes out exactly the instances whose children wait in the slots. */
  lemma {:induction false} SweptPids(slots: seq<Exit>, s: seq<Instance>)
    requires ExitPids(Occupied(slots)) <= WorkPids(s)
    ensures WorkPids(s) == WorkPids(Swept(slots, s)) + ExitPids(Occupied(slots))
    decreases |slots|
  {
    hide WorkPids;
    if slots == [] {
      assert ExitPids([]) == multiset{};
    } else {
      var e, rest := slots[0], slots[1..];
      if e.pid == 0 {
        assert [] + Occupied(rest) == Occupied(rest);
        SweptPids(rest, s);
      } else {
        ExitSum([e], Occupied(rest));
        ExitOne(e);
        assert e.pid in WorkPids(s);
        WorkIn(s, e.pid);
        var i := FindPid(s, e.pid);
        WorkErase(s, i);
        BagCancel(ExitPids(Occupied(rest)), WorkPids(Without(s, i)), e.pid);
        SweptPids(rest, Without(s, i));
      }
    }
  }

  /** What is left keeps its order. */
  ghost predicate IsPart(a: seq<Instance>, b: seq<Instance>)
    decreases |b|
  {
    if a == [] then true
    else b != [] && ((a[0] == b[0] && IsPart(a[1..], b[1..])) || IsPart(a, b[1..]))
  }

  lemma {:induction false} PartSelf(a: seq<Instance>)
    ensures IsPart(a, a)
  {
    if a != [] {
      PartSelf(a[1..]);
    }
  }

  lemma {:induction false} PartErase(a: seq<Instance>, b: seq<Instance>, i: nat)
    requires i < |b| && IsPart(a, Without(b, i))
    ensures IsPart(a, b)
    decreases |b|
  {
    if a != [] {
      if i == 0 {
        assert Without(b, 0) == b[1..];
      } else {
        assert Without(b, i)[1..] == Without(b[1..], i - 1);
        if a[0] == b[0] && IsPart(a[1..], Without(b, i)[1..]) {
          PartErase(a[1..], b[1..], i - 1);
        } else {
          PartErase(a, b[1..], i - 1);
        }
      }
    }
  }

  lemma {:induction false} SweptPart(slots: seq<Exit>, s: seq<Instance>)
    ensures IsPart(Swept(slots, s), s)
    decreases |slots|
  {
    if slots == [] {
      PartSelf(s);
    } else {
      var i := FindPid(s, slots[0].pid);
      if slots[0].pid == 0 || i == |s| {
        SweptPart(slots[1..], s);
      } else {
        SweptPart(slots[1..], Without(s, i));
        PartErase(Swept(slots, s), s, i);
      }
    }
  }

  lemma {:induction false} PartShort(a: seq<Instance>, b: seq<Instance>)
    requires IsPart(a, b)
    ensures |a| <= |b|
    decreases |b|
  {
    if a != [] {
      if a[0] == b[0] && IsPart(a[1..], b[1..]) {
        PartShort(a[1..], b[1..]);
      } else {
        PartShort(a, b[1..]);
      }
    }
  }

  ghost predicate IdsApart(s: seq<Instance>) {
    forall i, j :: 0 <= i < j < |s| ==> s[i].id != s[j].id
  }

  lemma {:induction false} PartIn(a: seq<Instance>, b: seq<Instance>, i: nat)
    requires IsPart(a, b) && i < |a|
    ensures a[i] in b
    decreases |b|
  {
    if a[0] == b[0] && IsPart(a[1..], b[1..]) {
      if i > 0 {
        PartIn(a[1..], b[1..], i - 1);
      }
    } else {
      PartIn(a, b[1..], i);
    }
  }

  lemma {:induction false} PartApart(a: seq<Instance>, b: seq<Instance>)
    requires IsPart(a, b) && IdsApart(b)
    ensures IdsApart(a)
    decreases |b|
  {
    if a != [] {
      assert IdsApart(b[1..]);
      if a[0] == b[0] && IsPart(a[1..], b[1..]) {
        PartApart(a[1..], b[1..]);
        forall j | 0 < j < |a|
          ensures a[0].id != a[j].id
        {
          PartIn(a[1..], b[1..], j - 1);
        }
      } else {
        PartApart(a, b[1..]);
      }
    }
  }

  lemma CleanOwned(h: Hub)
    requires Good(h) && h.forked == None
    ensures Owned(Clean(h))
  {
    hide FindId, Swept, Owned;
    var h' := Clean(h);
    NoneOccupied(Cleared(h.slots));
    assert ExitPids([]) == multiset{} && WorkPids([]) == multiset{};
    assert Pending(h') == Pending(h);
    if h.cleaned && h.inProgress != [] {
      CleanBags(h);
    } else {
      CleanNothing(h);
    }
  }

  lemma CleanNothing(h: Hub)
    requires Good(h) && h.forked == None && (!h.cleaned || h.inProgress == [])
    requires Pending(Clean(h)) == Pending(h) && Occupied(Clean(h).slots) == []
    requires ExitPids([]) == multiset{} && WorkPids([]) == multiset{}
    ensures Owned(Clean(h))
  {
    hide ExitPids, WorkPids, FindId, Pending, Occupied, Scheduled, Ordered;
    assert Work(h) == [] && Work(Clean(h)) == [];
    assert h.running + ExitPids(Pending(h)) == multiset{};
  }

  lemma CleanBags(h: Hub)
    requires Owned(h) && h.forked == None && h.inProgress != []
    requires Pending(Clean(h)) == Pending(h) && Occupied(Clean(h).slots) == [] && ExitPids([]) == multiset{}
    ensures Owned(Clean(h))
  {
    hide ExitPids, WorkPids, FindId, Swept, Pending, Occupied;
    var h' := Clean(h);
    assert Work(h) == h.inProgress && Work(h') == h'.inProgress;
    var w, w', x := WorkPids(h.inProgress), WorkPids(h'.inProgress), ExitPids(Occupied(h.slots));
    assert x <= w;
    SweptPids(h.slots, h.inProgress);
    LessOnce(w', w);
    BagLess(w', x, h.running + ExitPids(Pending(h)));
    assert WorkPids(Work(h')) == h'.running + ExitPids(Pending(h')) + ExitPids(Occupied(h'.slots));
  }

  lemma LessOnce(a: multiset<nat>, b: multiset<nat>)
    requires a <= b && (forall p :: b[p] <= 1) && 0 !in b
    ensures (forall p :: a[p] <= 1) && 0 !in a
  {
    forall p
      ensures a[p] <= 1
    {
      assert a[p] <= b[p];
    }
  }

  lemma BagLess(a: multiset<nat>, x: multiset<nat>, b: multiset<nat>)
    requires a + x == b + x
    ensures a == b
  {
    forall y
      ensures a[y] == b[y]
    {
      assert (a + x)[y] == (b + x)[y];
    }
  }

  lemma CleanKeeps(h: Hub)
    requires Good(h) && h.forked == None
    ensures Good(Clean(h))
  {
    hide Owned, FindId, Swept, IsPart, Occupied;
    var h' := Clean(h);
    CleanOwned(h);
    assert Work(h) == h.inProgress && Work(h') == h'.inProgress;
    assert Pending(h') == Pending(h);
    if h.inProgress != [] {
      SweptPart(h.slots, h.inProgress);
      PartShort(h'.inProgress, h.inProgress);
      PartApart(h'.inProgress, h.inProgress);
    }
  }

  /** The next cleanup removes the instance of every child in a slot, leaves all others in their
      order, and frees every slot. */
  lemma CleanRemoves(h: Hub)
    requires Good(h) && h.cleaned && h.forked == None
    ensures var h' := Clean(h);
            && Occupied(h'.slots) == [] && IsPart(h'.inProgress, h.inProgress)
            && (forall p :: p in WorkPids(h'.inProgress) <==>
                  p in WorkPids(h.inProgress) && p !in ExitPids(Occupied(h.slots)))
  {
    hide ExitPids, FindId, Swept, IsPart;
    var h' := Clean(h);
    NoneOccupied(Cleared(h.slots));
    assert Work(h) == h.inProgress;
    SweptPids(h.slots, h.inProgress);
    SweptPart(h.slots, h.inProgress);
    if h.inProgress == [] {
      assert WorkPids(h.inProgress) == multiset{};
    }
  }

  // ---------------------------------------------------------------- the queue

  lemma {:induction false} LatestSum(a: seq<Group>, b: seq<Group>, id: nat)
    ensures Latest(a + b, id) == if Latest(b, id).Some? then Latest(b, id) else Latest(a, id)
    decreases |b|
  {
    if b == [] {
      assert a + b == a;
    } else {
      var n := |b| - 1;
      LatestSum(a, b[..n], id);
      assert (a + b)[..|a + b| - 1] == a + b[..n];
    }
  }

  lemma LatestFirst(g: Group, news: seq<Group>, id: nat)
    ensures Latest([g] + news, id) ==
            if Latest(news, id).Some? then Latest(news, id) else if g.id == id then Some(g) else None
  {
    LatestSum([g], news, id);
    assert [g][..0] == [];
  }

  function Ids(q: seq<Group>): (r: seq<nat>)
    ensures |r| == |q| && forall k :: 0 <= k < |q| ==> r[k] == q[k].id
  {
    seq(|q|, k requires 0 <= k < |q| => q[k].id)
  }

  /** Object ids in the order in which they first arrived. */
  function Arrivals(seen: seq<nat>, ids: seq<nat>): seq<nat>
    decreases |ids|
  {
    if ids == [] then seen else Arrivals(if ids[0] in seen then seen else seen + [ids[0]], ids[1..])
  }

  ghost predicate OnePerObject(q: seq<Group>) {
    forall i, j :: 0 <= i < j < |q| ==> q[i].id != q[j].id
  }

  lemma MergeOne(q: seq<Group>, g: Group)
    requires OnePerObject(q)
    ensures var i := FindId(q, g.id);
            var q' := if i == |q| then q + [g] else q[i := g];
            && OnePerObject(q') && Ids(q') == (if g.id in Ids(q) then Ids(q) else Ids(q) + [g.id])
            && forall k :: 0 <= k < |q'| ==> if q'[k].id == g.id then q'[k] == g else k < |q| && q'[k] == q[k]
  {
    hide FindId;
    var i := FindId(q, g.id);
    if i < |q| {
      assert Ids(q)[i] == g.id;
      assert Ids(q[i := g]) == Ids(q);
    } else {
      assert g.id !in Ids(q);
      assert Ids(q + [g]) == Ids(q) + [g.id];
    }
  }

  /** moveDataQueueToInternal keeps one group per object: the latest one moved, if there is one, and
      else the one that was queued; and the objects stay in the order of their first arrival. */
  lemma {:induction false} MergeIs(q: seq<Group>, news: seq<Group>)
    requires OnePerObject(q)
    ensures OnePerObject(Merge(q, news)) && Ids(Merge(q, news)) == Arrivals(Ids(q), Ids(news))
    ensures forall k :: 0 <= k < |Merge(q, news)| ==> IsLatest(q, news, k, Merge(q, news)[k])
    decreases |news|
  {
    hide FindId, OnePerObject;
    if news == [] {
      forall k | 0 <= k < |q|
        ensures IsLatest(q, news, k, q[k])
      {
      }
    } else {
      var g := news[0];
      var i := FindId(q, g.id);
      var q' := if i == |q| then q + [g] else q[i := g];
      MergeOne(q, g);
      MergeIs(q', news[1..]);
      assert Ids(news)[0] == g.id && Ids(news)[1..] == Ids(news[1..]);
      forall k | 0 <= k < |Merge(q, news)|
        ensures IsLatest(q, news, k, Merge(q, news)[k])
      {
        LatestStep(q, q', news, k, Merge(q, news)[k]);
      }
    }
  }

  /** Entry `k` of the merged queue: the latest group moved for its object, or the one queued before. */
  ghost predicate IsLatest(q: seq<Group>, news: seq<Group>, k: nat, g: Group) {
    if Latest(news, g.id).Some? then Latest(news, g.id) == Some(g) else k < |q| && q[k] == g
  }

  lemma LatestStep(q: seq<Group>, q': seq<Group>, news: seq<Group>, k: nat, g: Group)
    requires news != [] && IsLatest(q', news[1..], k, g)
    requires forall j :: 0 <= j < |q'| ==>
               if q'[j].id == news[0].id then q'[j] == news[0] else j < |q| && q'[j] == q[j]
    ensures IsLatest(q, news, k, g)
  {
    hide Latest;
    assert news == [news[0]] + news[1..];
    LatestFirst(news[0], news[1..], g.id);
  }

  lemma FindIdIs(q: seq<Group>, k: nat)
    requires OnePerObject(q) && k < |q|
    ensures FindId(q, q[k].id) == k
  {
    hide FindId;
  }

  lemma MoveKeeps(h: Hub, groups: seq<Group>)
    requires Good(h) && h.forked == None
    ensures Good(Next(h, Moves(groups)))
  {
    hide Owned, FindId, Merge, Latest, Ids, Arrivals;
    var h' := Next(h, Moves(groups));
    MergeIs(h.queue, groups);
    SameChildren(h, h');
    forall i | 0 <= i < |h'.queue|
      ensures Latest(h'.moved, h'.queue[i].id) == Some(h'.queue[i])
    {
      assert IsLatest(h.queue, groups, i, h'.queue[i]);
      LatestSum(h.moved, groups, h'.queue[i].id);
    }
  }

  // ---------------------------------------------------------------- starting children

  lemma ForkKeeps(h: Hub, k: nat, pid: nat)
    requires Good(h) && Can(h, Forks(k, pid))
    ensures Good(Fork(h, k, pid))
  {
    hide ExitPids, WorkPids, Occupied, FindId, Latest;
    var h' := Fork(h, k, pid);
    var x := Instance(pid, h.queue[k].id);
    FindIdIs(h.queue, k);
    assert Work(h) == h.inProgress && Work(h') == h.inProgress + [x];
    WorkSum(h.inProgress, [x]);
    WorkOne(x);
    WorkIn(h.inProgress, pid);
    assert FindPid(h.inProgress, pid) == |h.inProgress|;
    assert Pending(h') == Pending(h);
    assert Ordered(h');
    ForkScheduled(h, k, pid);
    assert Owned(h');
  }

  lemma ForkScheduled(h: Hub, k: nat, pid: nat)
    requires Scheduled(h) && Can(h, Forks(k, pid))
    ensures Scheduled(Fork(h, k, pid))
  {
    hide FindId, Latest;
    var h' := Fork(h, k, pid);
    var x := Instance(pid, h.queue[k].id);
    FindIdIs(h.queue, k);
    assert Work(h) == h.inProgress && Work(h') == h.inProgress + [x];
    assert forall i :: 0 <= i < |h.inProgress| ==> h.inProgress[i].id != x.id;
  }

  lemma PushKeeps(h: Hub)
    requires Good(h) && Can(h, Pushes)
    ensures Good(Push(h))
  {
    hide Owned, FindId, Latest;
    var h' := Push(h);
    var i := FindId(h.queue, h.forked.value.id);
    assert Work(h') == Work(h);
    SameChildren(h, h');
    assert forall j :: 0 <= j < |h'.queue| ==> h'.queue[j] == h.queue[if j < i then j else j + 1];
  }

  // ---------------------------------------------------------------- runs

  lemma StartedGood(h: Hub)
    requires Started(h)
    ensures Good(h)
  {
  }

  lemma NextKeeps(h: Hub, s: Step)
    requires Good(h) && Can(h, s)
    ensures Good(Next(h, s))
  {
    hide Good, Reap, MainStep, Clean, Fork, Push, MayStart, FindId, Merge;
    match s
    case Reaps(e) => ReapKeeps(h, e);
    case Main => MainKeeps(h);
    case Cleans => CleanKeeps(h);
    case Moves(groups) => MoveKeeps(h, groups);
    case Forks(k, pid) => ForkKeeps(h, k, pid);
    case Pushes => PushKeeps(h);
  }

  lemma {:induction false} RunKeeps(h: Hub, steps: seq<Step>)
    requires Good(h) && IsRun(h, steps)
    ensures Good(After(h, steps))
    decreases |steps|
  {
    hide Good, Can, Next;
    if steps != [] {
      NextKeeps(h, steps[0]);
      RunKeeps(Next(h, steps[0]), steps[1..]);
    }
  }

  /** Over every run, however the handler, the main loop and the manager interleave: what has been
      collected is what has been delivered, in the same order, followed by what is on its way;
      the array being filled has room for the next child, and the table a slot for the next delivery;
      and the next cleanup takes out the instance of every child that has been delivered. */
  lemma NoExitLost(h: Hub, steps: seq<Step>)
    requires Started(h) && IsRun(h, steps)
    ensures var v := After(h, steps);
            && v.reaped == v.delivered + Pending(v)
            && (forall e: Exit :: e.pid in v.running ==> |Filling(v)| < 2 * v.limit)
            && (v.pc.Draining? && v.pc.next < v.pc.count ==> FreeSlot(v.slots) < |v.slots|)
            && (v.forked == None && v.cleaned ==>
                  forall p :: p in WorkPids(Clean(v).inProgress) <==>
                    p in WorkPids(v.inProgress) && p !in ExitPids(Occupied(v.slots)))
  {
    hide After, WorkPids, ExitPids, Occupied, Pending, Clean, FreeSlot;
    StartedGood(h);
    RunKeeps(h, steps);
    var v := After(h, steps);
    assert Ordered(v);
    forall e: Exit | e.pid in v.running
      ensures |Filling(v)| < 2 * v.limit
    {
      ArrayHasRoom(v, e);
    }
    if v.pc.Draining? && v.pc.next < v.pc.count {
      SlotExists(v);
    }
    if v.forked == None && v.cleaned {
      CleanRemoves(v);
    }
  }

  // ---------------------------------------------------------------- everything is delivered

  /** How many statements of the main loop it takes to have delivered the first `n` of what was collected. */
  function To(h: Hub, n: nat): nat {
    if |h.delivered| >= n then 0
    else
      var m := n - |h.delivered|;
      match h.pc
      case AtSwap => m + 2
      case AtCount => 1 + if m <= |Drained(h)| then m else m + 3
      case Draining(i, c) => if i + m <= c then m else m + 3
  }

  lemma ToNext(h: Hub, s: Step, n: nat)
    requires Good(h) && Can(h, s) && n <= |h.reaped|
    ensures To(Next(h, s), n) <= if s.Main? && To(h, n) > 0 then To(h, n) - 1 else To(h, n)
    ensures h.reaped <= Next(h, s).reaped
  {
    hide Owned, Scheduled, Signal, Clean, Merge, Fork, Push, MayStart, FindId, Latest, Occupied, WorkPids, ExitPids;
    if s.Main? {
      MainNext(h, n);
    } else if s.Cleans? || s.Moves? || s.Forks? || s.Pushes? {
      SameProgress(h, s);
    }
  }

  lemma MainNext(h: Hub, n: nat)
    requires Ordered(h) && n <= |h.reaped|
    ensures To(MainStep(h), n) <= if To(h, n) > 0 then To(h, n) - 1 else 0
    ensures h.reaped <= MainStep(h).reaped
  {
    hide Signal;
    if h.pc.AtSwap? {
      assert |h.reaped| == |h.delivered| + |Filling(h)|;
    }
  }

  lemma SameProgress(h: Hub, s: Step)
    requires Can(h, s) && (s.Cleans? || s.Moves? || s.Forks? || s.Pushes?)
    ensures var h' := Next(h, s);
            h'.delivered == h.delivered && h'.pc == h.pc && Drained(h') == Drained(h) && h'.reaped == h.reaped
  {
  }

  /** How many statements the main loop runs. */
  function Turns(steps: seq<Step>): nat {
    if steps == [] then 0 else Turns(steps[1..]) + if steps[0].Main? then 1 else 0
  }

  lemma {:induction false} ToRun(h: Hub, steps: seq<Step>, n: nat)
    requires Good(h) && IsRun(h, steps) && n <= |h.reaped|
    ensures var v := After(h, steps); h.reaped <= v.reaped && (To(h, n) <= Turns(steps) ==> To(v, n) == 0)
    decreases |steps|
  {
    hide Good, Can, Next, To;
    if steps != [] {
      ToNext(h, steps[0], n);
      NextKeeps(h, steps[0]);
      ToRun(Next(h, steps[0]), steps[1..], n);
    }
  }

  /** Whatever is on its way is delivered by a bounded number of statements of the main loop, however many
      more children end meanwhile and whatever the manager does. */
  lemma EverythingDelivered(h: Hub, before: seq<Step>, steps: seq<Step>)
    requires Started(h) && IsRun(h, before) && IsRun(After(h, before), steps)
    requires Turns(steps) >= |Pending(After(h, before))| + 4
    ensures After(h, before).reaped <= After(After(h, before), steps).delivered
  {
    hide Owned, Scheduled, IsRun, After;
    StartedGood(h);
    RunKeeps(h, before);
    var u := After(h, before);
    var n := |u.reaped|;
    ToRun(u, steps, n);
    RunKeeps(u, steps);
    var v := After(u, steps);
    assert v.reaped == v.delivered + Pending(v);
    assert |v.delivered| >= n && v.delivered[..n] == v.reaped[..n] == u.reaped;
  }

  // ---------------------------------------------------------------- the order of arrival

  /** Where the object's group arrived that it is queued for: its first arrival since it last left. */
  function Since(log: seq<Entry>, id: nat): (k: Option<nat>)
    ensures k.Some? ==> k.value < |log|
  {
    if log == [] then None
    else
      var n := |log| - 1;
      match log[n]
      case Leaves(d) => if d == id then None else Since(log[..n], id)
      case Arrives(d) => if d == id && Since(log[..n], id).None? then Some(n) else Since(log[..n], id)
  }

  /** The object leaves between two entries. */
  ghost predicate LeavesBetween(log: seq<Entry>, id: nat, j: int, m: int) {
    exists d :: j < d < m && 0 <= d < |log| && log[d] == Leaves(id)
  }

  lemma LeavesBefore(log: seq<Entry>, n: nat, id: nat, j: int, m: int)
    requires n == |log| - 1
    ensures m <= n ==> (LeavesBetween(log[..n], id, j, m) <==> LeavesBetween(log, id, j, m))
    ensures LeavesBetween(log, id, j, n + 1) <==> LeavesBetween(log, id, j, n) || (j < n && log[n] == Leaves(id))
    ensures !LeavesBetween(log, id, n, n)
  {
    if m <= n && LeavesBetween(log, id, j, m) {
      var d :| j < d < m && 0 <= d < |log| && log[d] == Leaves(id);
      assert log[..n][d] == Leaves(id);
    }
    if LeavesBetween(log, id, j, n + 1) {
      var d :| j < d < n + 1 && 0 <= d < |log| && log[d] == Leaves(id);
      assert d == n || LeavesBetween(log, id, j, n);
    }
    if LeavesBetween(log, id, j, n) {
      var d :| j < d < n && 0 <= d < |log| && log[d] == Leaves(id);
      assert j < d < n + 1;
    }
  }

  /** That is: the object has not left after it, and left between any earlier arrival and it. */
  lemma {:induction false} SinceIs(log: seq<Entry>, id: nat, k: nat)
    ensures Since(log, id) == Some(k) <==>
            && k < |log| && log[k] == Arrives(id) && !LeavesBetween(log, id, k, |log|)
            && forall j :: 0 <= j < k && log[j] == Arrives(id) ==> LeavesBetween(log, id, j, k)
    ensures Since(log, id).None? <==>
            forall j :: 0 <= j < |log| && log[j] == Arrives(id) ==> LeavesBetween(log, id, j, |log|)
    decreases |log|
  {
    hide LeavesBetween;
    if log != [] {
      var n := |log| - 1;
      var init := log[..n];
      assert forall j :: 0 <= j < n ==> init[j] == log[j];
      SinceIs(init, id, k);
      if Since(init, id).Some? { SinceIs(init, id, Since(init, id).value); }
      LeavesBefore(log, n, id, n, n);
      forall j: int
        ensures LeavesBetween(log, id, j, |log|) <==> LeavesBetween(init, id, j, |init|) || (j < n && log[n] == Leaves(id))
        ensures k <= n ==> (LeavesBetween(init, id, j, k) <==> LeavesBetween(log, id, j, k))
      {
        LeavesBefore(log, n, id, j, n);
        LeavesBefore(log, n, id, j, k);
      }
    }
  }

  /** Objects stand exactly if they arrived and have not left, in the order in which they arrived. */
  ghost predicate Arrived(ids: seq<nat>, log: seq<Entry>) {
    && (forall i :: 0 <= i < |ids| ==> Since(log, ids[i]).Some?)
    && (forall i, j :: 0 <= i < j < |ids| ==> Since(log, ids[i]).value < Since(log, ids[j]).value)
    && forall id :: Since(log, id).Some? ==> id in ids
  }

  lemma SinceArrival(log: seq<Entry>, g: nat, id: nat)
    ensures Since(log + [Arrives(g)], id) ==
            if g == id && Since(log, id).None? then Some(|log|) else Since(log, id)
    ensures Since(log + [Leaves(g)], id) == if g == id then None else Since(log, id)
  {
    assert (log + [Arrives(g)])[..|log|] == log && (log + [Leaves(g)])[..|log|] == log;
  }

  lemma OneArrives(ids: seq<nat>, log: seq<Entry>, g: nat)
    requires Arrived(ids, log)
    ensures Arrived(if g in ids then ids else ids + [g], log + [Arrives(g)])
  {
    hide Since;
    forall id
      ensures Since(log + [Arrives(g)], id) == if g == id && Since(log, id).None? then Some(|log|) else Since(log, id)
    {
      SinceArrival(log, g, id);
    }
  }

  lemma {:induction false} AllArrive(ids: seq<nat>, log: seq<Entry>, news: seq<Group>)
    requires Arrived(ids, log)
    ensures Arrived(Arrivals(ids, Ids(news)), log + ArrivalsOf(news))
    decreases |news|
  {
    hide Arrived;
    if news == [] {
      assert log + ArrivalsOf(news) == log;
    } else {
      var g := news[0].id;
      OneArrives(ids, log, g);
      AllArrive(if g in ids then ids else ids + [g], log + [Arrives(g)], news[1..]);
      assert log + ArrivalsOf(news) == (log + [Arrives(g)]) + ArrivalsOf(news[1..]);
      assert Ids(news)[0] == g && Ids(news)[1..] == Ids(news[1..]);
    }
  }

  lemma OneLeaves(ids: seq<nat>, log: seq<Entry>, i: nat)
    requires Arrived(ids, log) && i < |ids|
    ensures Arrived(Without(ids, i), log + [Leaves(ids[i])])
  {
    hide Since;
    var g, left, log' := ids[i], Without(ids, i), log + [Leaves(ids[i])];
    forall k | 0 <= k < |left|
      ensures left[k] == ids[if k < i then k else k + 1] && Since(log', left[k]) == Since(log, left[k])
    {
      SinceArrival(log, g, left[k]);
    }
    forall id | Since(log', id).Some?
      ensures id in left
    {
      SinceArrival(log, g, id);
      var k :| 0 <= k < |ids| && ids[k] == id;
      assert left[if k < i then k else k - 1] == id;
    }
  }

  lemma NextArrives(h: Hub, s: Step)
    requires Good(h) && Can(h, s) && Arrived(Ids(h.queue), h.log)
    ensures Arrived(Ids(Next(h, s).queue), Next(h, s).log)
  {
    hide Arrived, Owned, Ordered, Latest, FindId, Merge, MayStart;
    match s
    case Moves(groups) =>
      AllArrive(Ids(h.queue), h.log, groups);
      MergeIs(h.queue, groups);
    case Pushes =>
      var i := FindId(h.queue, h.forked.value.id);
      OneLeaves(Ids(h.queue), h.log, i);
      assert Ids(Without(h.queue, i)) == Without(Ids(h.queue), i);
    case _ =>
  }

  lemma {:induction false} RunArrives(h: Hub, steps: seq<Step>)
    requires Good(h) && IsRun(h, steps) && Arrived(Ids(h.queue), h.log)
    ensures Arrived(Ids(After(h, steps).queue), After(h, steps).log)
    decreases |steps|
  {
    hide Good, Can, Next, Arrived;
    if steps != [] {
      NextKeeps(h, steps[0]);
      NextArrives(h, steps[0]);
      RunArrives(Next(h, steps[0]), steps[1..]);
    }
  }

  /** Over every run: at most `limit` children at work, no two for the same object; and the queue holds at
      most one group per object, the latest that was moved in for it, in the order in which the objects
      first arrived since they last left, and for all that did. */
  lemma SchedulerInvariant(h: Hub, steps: seq<Step>)
    requires Started(h) && IsRun(h, steps)
    ensures var v := After(h, steps);
            && |v.inProgress| <= v.limit
            && (forall i, j :: 0 <= i < j < |v.inProgress| ==> v.inProgress[i].id != v.inProgress[j].id)
            && OnePerObject(v.queue) && Arrived(Ids(v.queue), v.log)
            && forall i :: 0 <= i < |v.queue| ==> Latest(v.moved, v.queue[i].id) == Some(v.queue[i])
  {
    hide After, Latest, Owned, Ordered;
    StartedGood(h);
    RunKeeps(h, steps);
    RunArrives(h, steps);
    hide Arrived;
    var v := After(h, steps);
    assert Work(v)[..|v.inProgress|] == v.inProgress;
    assert forall i :: 0 <= i < |v.inProgress| ==> v.inProgress[i] == Work(v)[i];
  }

  // ---------------------------------------------------------------- groups about lights

  /** How many children a run starts for groups about lights. */
  function LightsStarted(h: Hub, steps: seq<Step>): nat
    requires IsRun(h, steps)
    decreases |steps|
  {
    if steps == [] then 0
    else
      LightsStarted(Next(h, steps[0]), steps[1..])
      + if steps[0].Forks? && h.queue[steps[0].position].light then 1 else 0
  }

  lemma LightStep(h: Hub, s: Step)
    requires Can(h, s)
    ensures var started := s.Forks? && h.queue[s.position].light;
            (started ==> !h.lightsPresent) && Next(h, s).lightsPresent == (h.lightsPresent || started)
  {
    hide FindId, FreeSlot, Merge, ArrivalsOf, Without;
  }

  lemma {:induction false} LightsCounted(h: Hub, steps: seq<Step>)
    requires IsRun(h, steps)
    ensures LightsStarted(h, steps) + (if h.lightsPresent then 1 else 0) == if After(h, steps).lightsPresent then 1 else 0
    decreases |steps|
  {
    hide Can, Next;
    if steps != [] {
      LightStep(h, steps[0]);
      LightsCounted(Next(h, steps[0]), steps[1..]);
    }
  }

  /** Over every run: a child is started for a group about lights once and never again, as the flag that says so
      is not taken back. */
  lemma OneLightEver(h: Hub, steps: seq<Step>)
    requires Started(h) && IsRun(h, steps)
    ensures LightsStarted(h, steps) <= 1
    ensures After(h, steps).lightsPresent <==> LightsStarted(h, steps) == 1
  {
    hide IsRun, LightsStarted, After;
    LightsCounted(h, steps);
  }

  // ---------------------------------------------------------------- what can happen

  /** The start of the process: everything is empty, and the slots hold what the allocator left there. */
  lemma TheStart(h: Hub)
    ensures Started(h) <==>
      && h == Hub(|h.slots|, h.second, [], [], AtSwap, h.slots, false, [], None, [], false, multiset{}, [], [], [], [])
  {
  }

  /** The main loop can always go on; a child can be reaped while it runs; the manager cleans and moves between
      two starts; it starts a child behind a cleanup for a group that is neither about an object being sent nor a
      second light, while fewer children than allowed are at work, under a new process id; and it goes on from a
      start by listing the instance. */
  lemma WhatCanHappen(h: Hub, e: Exit, groups: seq<Group>, k: nat, pid: nat)
    ensures Can(h, Main)
    ensures Can(h, Reaps(e)) <==> h.running[e.pid] > 0
    ensures Can(h, Cleans) <==> h.forked == None
    ensures Can(h, Moves(groups)) <==> h.forked == None
    ensures Can(h, Forks(k, pid)) <==>
      && h.forked == None && h.cleaned && |h.inProgress| < h.limit && k < |h.queue|
      && (forall x :: x in h.inProgress ==> x.id != h.queue[k].id && x.pid != pid)
      && (h.queue[k].light ==> !h.lightsPresent) && pid != 0
    ensures Can(h, Pushes) <==> h.forked.Some? && exists g :: g in h.queue && g.id == h.forked.value.id
  {
    hide Next;
    if Can(h, Forks(k, pid)) {
      forall x | x in h.inProgress ensures x.id != h.queue[k].id && x.pid != pid {
        var i :| 0 <= i < |h.inProgress| && h.inProgress[i] == x;
      }
    }
    if h.forked.Some? && FindId(h.queue, h.forked.value.id) < |h.queue| {
      assert h.queue[FindId(h.queue, h.forked.value.id)] in h.queue;
    }
  }

  /** The handler keeps a child unless the array it fills, with room for twice as many children as may run, is
      full. */
  lemma ReapIs(h: Hub, e: Exit)
    ensures var v := Reap(h, e);
            && v.reaped == h.reaped + [e] && v.running == h.running - multiset{e.pid} && Drained(v) == Drained(h)
            && Filling(v) == if |Filling(h)| < 2 * h.limit then Filling(h) + [e] else Filling(h)
  {
  }
}
