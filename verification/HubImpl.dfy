/** The arrays, lists and loops of main.cpp and mqttMsgManager.cpp, updated in place. */
module HubImpl {
  import opened Bytes
  import opened Common
  import opened HubSpec
  import opened HubTheory

  /** The globals of main.cpp and the locals of its loop. */
  class Collector {
    const maxLen: nat
    const childA0: array<nat>
    const resultA0: array<int>
    const childA1: array<nat>
    const resultA1: array<int>
    var countA0: nat
    var countA1: nat
    var second: bool

    ghost predicate Valid()
      reads this
    {
      && childA0.Length == maxLen && resultA0.Length == maxLen && childA1.Length == maxLen && resultA1.Length == maxLen
      && childA0 != childA1 && resultA0 != resultA1
      && countA0 <= maxLen && countA1 <= maxLen
    }

    constructor (limit: nat)
      ensures Valid() && maxLen == Capacity(limit) && !second && A0() == [] && A1() == []
      ensures fresh(childA0) && fresh(resultA0) && fresh(childA1) && fresh(resultA1)
    {
      maxLen := 2 * limit;
      childA0 := new nat[2 * limit];
      resultA0 := new int[2 * limit];
      childA1 := new nat[2 * limit];
      resultA1 := new int[2 * limit];
      countA0, countA1, second := 0, 0, false;
    }

    ghost function A0(): seq<Exit>
      reads this, childA0, resultA0
      requires Valid()
    {
      Paired(childA0[..countA0], resultA0[..countA0])
    }

    ghost function A1(): seq<Exit>
      reads this, childA1, resultA1
      requires Valid()
    {
      Paired(childA1[..countA1], resultA1[..countA1])
    }

    /** One turn of sigchld_hdl: the child goes to the array that is being filled. */
    method Collect(pid: nat, result: int)
      requires Valid()
      modifies this`countA0, this`countA1, childA0, resultA0, childA1, resultA1
      ensures Valid()
      ensures var room := |if second then old(A1()) else old(A0())| < maxLen;
              && A0() == (if !second && room then old(A0()) + [Exit(pid, result)] else old(A0()))
              && A1() == (if second && room then old(A1()) + [Exit(pid, result)] else old(A1()))
    {
      var child, results, count;
      if !second {
        child, results, count := childA0, resultA0, countA0;
      } else {
        child, results, count := childA1, resultA1, countA1;
      }
      if count < maxLen {
        child[count] := pid;
        results[count] := result;
        count := count + 1;
        if !second {
          countA0 := count;
        } else {
          countA1 := count;
        }
      }
    }

    /** gSigQueue changes over. */
    method Swap()
      requires Valid()
      modifies this`second
      ensures Valid() && second == !old(second) && A0() == old(A0()) && A1() == old(A1())
    {
      second := !second;
    }

    /** The count of the array that is not being filled. */
    method ReadCount() returns (count: nat)
      requires Valid()
      ensures count == |if second then A0() else A1()|
    {
      count := if second then countA0 else countA1;
    }

    method Entry(i: nat) returns (pid: nat, result: int)
      requires Valid() && i < |if second then A0() else A1()|
      ensures Exit(pid, result) == (if second then A0() else A1())[i]
    {
      if second {
        pid, result := childA0[i], resultA0[i];
      } else {
        pid, result := childA1[i], resultA1[i];
      }
    }

    method ResetCount()
      requires Valid()
      modifies this`countA0, this`countA1
      ensures Valid()
      ensures A0() == (if second then [] else old(A0())) && A1() == (if second then old(A1()) else [])
    {
      if !second {
        countA1 := 0;
      } else {
        countA0 := 0;
      }
    }
  }

  function Paired(pids: seq<nat>, results: seq<int>): (r: seq<Exit>)
    requires |pids| == |results|
    ensures |r| == |pids| && forall k :: 0 <= k < |r| ==> r[k] == Exit(pids[k], results[k])
  {
    seq(|pids|, k requires 0 <= k < |pids| => Exit(pids[k], results[k]))
  }

  lemma {:induction false} FreeSlotIs(slots: seq<Exit>, i: nat)
    requires i <= |slots| && (i < |slots| ==> slots[i].pid == 0) && forall k :: 0 <= k < i ==> slots[k].pid != 0
    ensures FreeSlot(slots) == i
  {
  }

  lemma FindPidIs(s: seq<Instance>, pid: nat, i: nat)
    requires i <= |s| && (i < |s| ==> s[i].pid == pid) && forall k :: 0 <= k < i ==> s[k].pid != pid
    ensures FindPid(s, pid) == i
  {
  }

  lemma FindIdAt(q: seq<Group>, id: nat, i: nat)
    requires i <= |q| && (i < |q| ==> q[i].id == id) && forall k :: 0 <= k < i ==> q[k].id != id
    ensures FindId(q, id) == i
  {
  }

  /** MqttMsgManager. */
  class Manager {
    const limit: nat
    const waitChildPid: array<nat>
    const waitChildResult: array<int>
    var msgInProgress: seq<Instance>
    var dataQueue: seq<Group>
    var internalDataQueue: seq<Group>
    var isLightsPresent: bool

    ghost predicate Valid()
      reads this
    {
      waitChildPid.Length == limit && waitChildResult.Length == limit
    }

    ghost function Slots(): seq<Exit>
      reads this, waitChildPid, waitChildResult
      requires Valid()
    {
      Paired(waitChildPid[..], waitChildResult[..])
    }

    /** The two arrays are not initialised. */
    constructor (limit: nat)
      ensures Valid() && this.limit == limit && msgInProgress == [] && dataQueue == [] && internalDataQueue == []
      ensures !isLightsPresent && fresh(waitChildPid) && fresh(waitChildResult)
    {
      this.limit := limit;
      waitChildPid := new nat[limit];
      waitChildResult := new int[limit];
      msgInProgress, dataQueue, internalDataQueue, isLightsPresent := [], [], [], false;
    }

    method SignalChildL2(pid: nat, result: int)
      requires Valid()
      modifies waitChildPid, waitChildResult
      ensures Valid() && Slots() == Signal(old(Slots()), Exit(pid, result))
    {
      hide FreeSlot;
      for lp := 0 to limit
        invariant Slots() == old(Slots())
        invariant forall k :: 0 <= k < lp ==> waitChildPid[k] != 0
      {
        if waitChildPid[lp] == 0 {
          FreeSlotIs(Slots(), lp);
          waitChildResult[lp] := result;
          waitChildPid[lp] := pid;
          assert Slots() == old(Slots())[lp := Exit(pid, result)];
          return;
        }
      }
      FreeSlotIs(Slots(), limit);
    }

    /** The instance of an ended child goes, if there is one. */
    method EraseChild(pid: nat)
      modifies this`msgInProgress
      ensures var i := FindPid(old(msgInProgress), pid);
              msgInProgress == if i == |old(msgInProgress)| then old(msgInProgress) else Without(old(msgInProgress), i)
    {
      hide FindPid;
      var it := 0;
      while it < |msgInProgress| && pid != msgInProgress[it].pid
        invariant it <= |msgInProgress| && forall k :: 0 <= k < it ==> msgInProgress[k].pid != pid
      {
        it := it + 1;
      }
      FindPidIs(msgInProgress, pid, it);
      if it < |msgInProgress| {
        msgInProgress := msgInProgress[..it] + msgInProgress[it + 1..];
      }
    }

    method CleanCompletedMsgInstances()
      requires Valid()
      modifies this`msgInProgress, waitChildPid
      ensures Valid() && Slots() == Cleared(old(Slots()))
      ensures msgInProgress == if old(msgInProgress) == [] then [] else Swept(old(Slots()), old(msgInProgress))
    {
      hide FindPid, Without;
      if |msgInProgress| == 0 {
        for lp := 0 to limit
          modifies waitChildPid
          invariant forall k :: 0 <= k < lp ==> waitChildPid[k] == 0
        {
          if waitChildPid[lp] != 0 {
            waitChildPid[lp] := 0;
          }
        }
        assert Slots() == Cleared(old(Slots())) && msgInProgress == [];
      } else {
        ghost var slots := Slots();
        assert slots[0..] == slots;
        for lp := 0 to limit
          invariant forall k :: 0 <= k < lp ==> waitChildPid[k] == 0
          invariant forall k :: lp <= k < limit ==> waitChildPid[k] == slots[k].pid
          invariant Swept(slots[lp..], msgInProgress) == Swept(slots, old(msgInProgress))
        {
          SweptStep(slots[lp..], msgInProgress);
          assert slots[lp..][1..] == slots[lp + 1..];
          if waitChildPid[lp] != 0 {
            EraseChild(waitChildPid[lp]);
            waitChildPid[lp] := 0;
          }
        }
        assert slots[limit..] == [];
        assert Swept([], msgInProgress) == msgInProgress;
        assert Slots() == Cleared(old(Slots()));
      }
    }

    /** addToDataQueue. */
    method AddToDataQueue(g: Group)
      modifies this`dataQueue
      ensures dataQueue == old(dataQueue) + [g]
    {
      dataQueue := dataQueue + [g];
    }

    method MoveDataQueueToInternal()
      modifies this`dataQueue, this`internalDataQueue
      ensures dataQueue == [] && internalDataQueue == Merge(old(internalDataQueue), old(dataQueue))
    {
      hide FindId;
      var news := dataQueue;
      dataQueue := [];
      assert news[0..] == news;
      for n := 0 to |news|
        invariant dataQueue == []
        invariant Merge(internalDataQueue, news[n..]) == Merge(old(internalDataQueue), news)
      {
        MergeStep(internalDataQueue, news[n..]);
        assert news[n..][1..] == news[n + 1..];
        var it := 0;
        while it < |internalDataQueue| && internalDataQueue[it].id != news[n].id
          invariant it <= |internalDataQueue| && forall k :: 0 <= k < it ==> internalDataQueue[k].id != news[n].id
        {
          it := it + 1;
        }
        FindIdAt(internalDataQueue, news[n].id, it);
        if it < |internalDataQueue| {
          internalDataQueue := internalDataQueue[it := news[n]];
        } else {
          internalDataQueue := internalDataQueue + [news[n]];
        }
      }
      assert news[|news|..] == [];
      assert Merge(internalDataQueue, []) == internalDataQueue;
    }

    method IsBusy(id: nat) returns (busy: bool)
      ensures busy == Busy(msgInProgress, id)
    {
      for r := 0 to |msgInProgress|
        invariant forall k :: 0 <= k < r ==> msgInProgress[k].id != id
      {
        if msgInProgress[r].id == id {
          return true;
        }
      }
      return false;
    }

    /** What the manager thread sees of a hub. */
    ghost predicate Sees(h: Hub)
      reads this
    {
      && h.limit == limit && h.inProgress == msgInProgress && h.queue == internalDataQueue
      && h.lightsPresent == isLightsPresent && h.forked == None
    }

    /** Its bookkeeping for a new child. */
    method Install(it: nat, pid: nat)
      requires it < |internalDataQueue|
      modifies this`msgInProgress, this`internalDataQueue, this`isLightsPresent
      ensures isLightsPresent == (old(isLightsPresent) || old(internalDataQueue)[it].light)
      ensures msgInProgress == old(msgInProgress) + [Instance(pid, old(internalDataQueue)[it].id)]
      ensures internalDataQueue == Without(old(internalDataQueue), it)
    {
      if internalDataQueue[it].light {
        isLightsPresent := true;
      }
      msgInProgress := msgInProgress + [Instance(pid, internalDataQueue[it].id)];
      internalDataQueue := Without(internalDataQueue, it);
    }

    /** The scheduling part of serverLoop.  `created` are the results of MqttMsgInstance::create, in
        order: the id of the new child, or none if it failed; `asked` are the groups it is called for.
        After an erase, the `for` steps over the group that follows; where the erased group was the last,
        it steps past the end of the list, which leaves the iterator undefined: `wild` says where.

        If there is a free place, the first group that can be started is started, if create succeeds.
        Afterwards all places are taken, or each group still queued has a reason to wait. */
    method Schedule(created: seq<Option<nat>>, wild: seq<nat>, ghost h: Hub)
        returns (ghost steps: seq<Step>, ghost asked: seq<Group>)
      requires Sees(h) && h.cleaned && OnePerObject(h.queue)
      requires NewPids(created) && Unused(created, 0, msgInProgress)
      modifies this`msgInProgress, this`internalDataQueue, this`isLightsPresent
      ensures IsRun(h, steps) && Sees(After(h, steps))
      ensures OnlyStarts(steps)
      ensures |old(msgInProgress)| >= limit ==> steps == [] && asked == []
      ensures |old(msgInProgress)| < limit ==> FirstServed(h, created, steps)
      ensures |old(msgInProgress)| < limit ==>
                |msgInProgress| == limit
                || AllWait(h, steps, asked, created, msgInProgress, isLightsPresent, internalDataQueue, |internalDataQueue|)
    {
      hide FindId, IsRun, After, Without, HasReason, FirstServed, Refused, Overtaken, Busy;
      hide OnePerObject, Can, Next, NoneBefore, AllWait, Unused, OnlyStarts, Launched, NewPids, StartOf;
      steps, asked := [], [];
      RunNothing(h);
      NoneSeen(h, created, msgInProgress, isLightsPresent);
      if |msgInProgress| >= limit {
        return;
      }
      ghost var now, seen := h, 0;
      var it: nat, calls: nat, launches: nat := 0, 0, 0;
      while it < |internalDataQueue|
        invariant IsRun(h, steps) && After(h, steps) == now && Sees(now) && now.cleaned && OnePerObject(now.queue)
        invariant OnlyStarts(steps)
        invariant |msgInProgress| < limit && it <= seen <= |internalDataQueue| && calls == |asked|
        invariant calls == 0 ==> steps == [] && now == h && NoneBefore(h, it)
        invariant calls > 0 ==> FirstServed(h, created, steps)
        invariant AllWait(h, steps, asked, created, msgInProgress, isLightsPresent, internalDataQueue, seen)
        invariant Unused(created, calls, msgInProgress)
        decreases limit - |msgInProgress|, |internalDataQueue| - it
      {
        var group := internalDataQueue[it];
        var busy := IsBusy(group.id);
        var pid: Option<nat> := None;
        ghost var before := asked;
        if !busy && !(group.light && isLightsPresent) {
          if calls < |created| {
            pid := created[calls];
          }
          UnusedNext(created, calls, msgInProgress, group.id);
          calls := calls + 1;
          asked := asked + [group];
        }
        if pid == None {
          if calls == 0 {
            NoneMore(h, it);
          } else if calls == 1 && before == [] {
            FirstCall(h, it, created, steps);
          }
          NextWaits(h, steps, before, asked, created, msgInProgress, isLightsPresent, internalDataQueue, seen, it);
          it := it + 1;
          seen := if it > seen then it else seen;
        } else {
          ghost var was, started, instances, lights := internalDataQueue, steps, msgInProgress, isLightsPresent;
          ghost var next := Launched(now, it, pid.value);
          LaunchedIs(now, it, pid.value);
          CanStart(now, it, pid.value);
          LaunchRuns(h, steps, now, it, pid.value);
          steps := steps + StartOf(it, pid.value);
          StartsMore(started, it, pid.value);
          if calls == 1 {
            FirstStart(h, it, created, pid.value);
          } else {
            MoreSteps(h, created, started, StartOf(it, pid.value));
          }
          now := next;
          Install(it, pid.value);
          if |msgInProgress| >= limit {
            return;
          }
          NextOvertaken(h, started, now.queue, pid.value, before, asked, created, instances, msgInProgress, lights,
                        isLightsPresent, was, seen, it);
          if it < |internalDataQueue| {
            seen := SeenAfter(|internalDataQueue|, seen, it);
            it := it + 1;
          } else {
            seen := |internalDataQueue|;
            it := if launches < |wild| && wild[launches] <= |internalDataQueue| then wild[launches] else |internalDataQueue|;
          }
          launches := launches + 1;
        }
      }
      if calls == 0 {
        NoneServed(h, created, steps);
      }
    }
  }

  function StartOf(k: nat, pid: nat): seq<Step> {
    [Forks(k, pid), Pushes]
  }

  lemma CanStart(h: Hub, k: nat, pid: nat)
    requires h.cleaned && h.forked == None && |h.inProgress| < h.limit && k < |h.queue| && !Held(h, h.queue[k])
    requires pid > 0 && forall i :: 0 <= i < |h.inProgress| ==> h.inProgress[i].pid != pid
    ensures Can(h, Forks(k, pid))
  {
    hide Busy;
  }

  predicate OnlyStarts(steps: seq<Step>) {
    forall i :: 0 <= i < |steps| ==> steps[i].Forks? || steps[i].Pushes?
  }

  /** Process ids are positive, and no two children get the same. */
  predicate NewPids(created: seq<Option<nat>>) {
    && (forall i :: 0 <= i < |created| && created[i].Some? ==> created[i].value > 0)
    && forall i, j :: 0 <= i < j < |created| && created[i].Some? ==> created[i] != created[j]
  }

  /** The children that create returns from its c-th call on have ids of their own. */
  predicate Unused(created: seq<Option<nat>>, c: nat, s: seq<Instance>) {
    forall i, j :: c <= i < |created| && 0 <= j < |s| && created[i].Some? ==> created[i].value != s[j].pid
  }

  /** A group that no child can be started for. */
  predicate Held(h: Hub, g: Group) {
    Busy(h.inProgress, g.id) || (g.light && h.lightsPresent)
  }

  predicate NoneBefore(h: Hub, i: nat) {
    i <= |h.queue| && forall k :: 0 <= k < i ==> Held(h, h.queue[k])
  }

  /** The first group that a child can be started for gets the first child. */
  ghost predicate FirstServed(h: Hub, created: seq<Option<nat>>, steps: seq<Step>) {
    forall k :: 0 <= k < |h.queue| && NoneBefore(h, k) && !Held(h, h.queue[k]) && |created| > 0 && created[0].Some? ==>
      |steps| >= 2 && steps[0] == Forks(k, created[0].value) && steps[1] == Pushes
  }

  /** create was called for the group, and failed. */
  ghost predicate Refused(asked: seq<Group>, created: seq<Option<nat>>, g: Group) {
    exists c :: 0 <= c < |asked| && asked[c] == g && !(c < |created| && created[c].Some?)
  }

  /** The group stood directly behind one that was started. */
  ghost predicate Overtaken(h: Hub, steps: seq<Step>, g: Group) {
    exists i :: 0 <= i < |steps| && StartedBefore(h, steps, i, g)
  }

  ghost predicate StartedBefore(h: Hub, steps: seq<Step>, i: nat, g: Group)
    requires i < |steps|
  {
    && steps[i].Forks? && IsRun(h, steps[..i])
    && var q := After(h, steps[..i]).queue; steps[i].position + 1 < |q| && q[steps[i].position + 1] == g
  }

  /** Why a group waits although there is a free place: its object has a child, it is about a light and one
      was about a light, create failed for it, or the loop stepped over it. */
  ghost predicate HasReason(h: Hub, steps: seq<Step>, asked: seq<Group>, created: seq<Option<nat>>,
                            instances: seq<Instance>, lights: bool, g: Group) {
    Busy(instances, g.id) || (g.light && lights) || Refused(asked, created, g) || Overtaken(h, steps, g)
  }

  /** The first `n` of these groups have one. */
  ghost predicate AllWait(h: Hub, steps: seq<Step>, asked: seq<Group>, created: seq<Option<nat>>,
                          instances: seq<Instance>, lights: bool, groups: seq<Group>, n: nat)
    requires n <= |groups|
  {
    forall k :: 0 <= k < n ==> HasReason(h, steps, asked, created, instances, lights, groups[k])
  }

  lemma MoreSteps(h: Hub, created: seq<Option<nat>>, steps: seq<Step>, more: seq<Step>)
    requires FirstServed(h, created, steps)
    ensures FirstServed(h, created, steps + more)
  {
    hide NoneBefore, Held;
  }

  lemma NoneSeen(h: Hub, created: seq<Option<nat>>, s: seq<Instance>, lights: bool)
    ensures NoneBefore(h, 0) && OnlyStarts([]) && AllWait(h, [], [], created, s, lights, h.queue, 0)
  {
  }

  lemma UnusedNext(created: seq<Option<nat>>, c: nat, s: seq<Instance>, id: nat)
    requires Unused(created, c, s) && NewPids(created)
    ensures Unused(created, c + 1, s)
    ensures c < |created| && created[c].Some? ==>
              && Unused(created, c + 1, s + [Instance(created[c].value, id)]) && created[c].value > 0
              && forall i :: 0 <= i < |s| ==> s[i].pid != created[c].value
  {
  }

  lemma StartsMore(steps: seq<Step>, k: nat, pid: nat)
    requires OnlyStarts(steps)
    ensures OnlyStarts(steps + StartOf(k, pid))
  {
  }

  lemma LaunchedIs(h: Hub, k: nat, pid: nat)
    requires k < |h.queue|
    ensures var h' := Launched(h, k, pid);
            && h'.limit == h.limit && h'.cleaned == h.cleaned && h'.forked == h.forked
            && h'.inProgress == h.inProgress + [Instance(pid, h.queue[k].id)] && h'.queue == Without(h.queue, k)
            && h'.lightsPresent == (h.lightsPresent || h.queue[k].light)
  {
  }

  lemma NoneMore(h: Hub, i: nat)
    requires i < |h.queue| && NoneBefore(h, i) && Held(h, h.queue[i])
    ensures NoneBefore(h, i + 1)
  {
    hide Held;
  }

  lemma NoneServed(h: Hub, created: seq<Option<nat>>, steps: seq<Step>)
    requires NoneBefore(h, |h.queue|)
    ensures FirstServed(h, created, steps)
  {
    hide Held;
  }

  /** The first call of create is for the first group that a child can be started for. */
  lemma FirstCall(h: Hub, i: nat, created: seq<Option<nat>>, steps: seq<Step>)
    requires i < |h.queue| && NoneBefore(h, i) && !Held(h, h.queue[i])
    requires |created| > 0 && created[0].Some? ==>
               |steps| >= 2 && steps[0] == Forks(i, created[0].value) && steps[1] == Pushes
    ensures FirstServed(h, created, steps)
  {
    hide Held;
    forall k | 0 <= k < |h.queue| && NoneBefore(h, k) && !Held(h, h.queue[k])
      ensures k == i
    {
    }
  }

  lemma FirstStart(h: Hub, i: nat, created: seq<Option<nat>>, pid: nat)
    requires i < |h.queue| && NoneBefore(h, i) && !Held(h, h.queue[i]) && |created| > 0 && created[0] == Some(pid)
    ensures FirstServed(h, created, [] + StartOf(i, pid))
  {
    hide NoneBefore, Held;
    FirstCall(h, i, created, [] + StartOf(i, pid));
  }

  lemma ReasonStays(h: Hub, steps: seq<Step>, steps': seq<Step>, asked: seq<Group>, asked': seq<Group>,
                    created: seq<Option<nat>>, s: seq<Instance>, s': seq<Instance>, lights: bool, lights': bool, g: Group)
    requires HasReason(h, steps, asked, created, s, lights, g)
    requires steps <= steps' && asked <= asked' && s <= s' && (lights ==> lights')
    ensures HasReason(h, steps', asked', created, s', lights', g)
  {
    hide IsRun, After;
    if Busy(s, g.id) {
      var k :| 0 <= k < |s| && s[k].id == g.id;
      assert s'[k].id == g.id;
    } else if Refused(asked, created, g) {
      var c :| 0 <= c < |asked| && asked[c] == g && !(c < |created| && created[c].Some?);
      assert asked'[c] == g;
    } else if Overtaken(h, steps, g) {
      var i :| 0 <= i < |steps| && StartedBefore(h, steps, i, g);
      assert steps'[i] == steps[i] && steps'[..i] == steps[..i];
      assert StartedBefore(h, steps', i, g);
    }
  }

  /** A turn of the loop that starts nothing. */
  lemma NextWaits(h: Hub, steps: seq<Step>, asked: seq<Group>, asked': seq<Group>, created: seq<Option<nat>>,
                  s: seq<Instance>, lights: bool, q: seq<Group>, seen: nat, i: nat)
    requires i < |q| && i <= seen <= |q| && AllWait(h, steps, asked, created, s, lights, q, seen)
    requires if Busy(s, q[i].id) || (q[i].light && lights) then asked' == asked
             else asked' == asked + [q[i]] && !(|asked| < |created| && created[|asked|].Some?)
    ensures AllWait(h, steps, asked', created, s, lights, q, if i == seen then i + 1 else seen)
  {
    hide HasReason, Busy, Refused, Overtaken;
    forall k | 0 <= k < seen
      ensures HasReason(h, steps, asked', created, s, lights, q[k])
    {
      ReasonStays(h, steps, steps, asked, asked', created, s, s, lights, lights, q[k]);
    }
    NewReason(h, steps, asked', created, s, lights, q[i], |asked|);
  }

  lemma NewReason(h: Hub, steps: seq<Step>, asked: seq<Group>, created: seq<Option<nat>>, s: seq<Instance>,
                  lights: bool, g: Group, c: nat)
    requires Busy(s, g.id) || (g.light && lights)
             || (c < |asked| && asked[c] == g && !(c < |created| && created[c].Some?))
    ensures HasReason(h, steps, asked, created, s, lights, g)
  {
    hide Busy, Overtaken;
  }

  /** How many groups at the head of a queue of `n` have a reason when the one at `i` has been taken out. */
  function SeenAfter(n: nat, seen: nat, i: nat): nat {
    if i >= n then n else if seen > i + 2 then (if seen - 1 <= n then seen - 1 else n) else i + 1
  }

  /** A turn that starts a child: the group behind it is stepped over, the others keep their reasons. */
  lemma NextOvertaken(h: Hub, steps: seq<Step>, q': seq<Group>, pid: nat, asked: seq<Group>,
                      asked': seq<Group>, created: seq<Option<nat>>, s: seq<Instance>, s': seq<Instance>,
                      lights: bool, lights': bool, q: seq<Group>, seen: nat, i: nat)
    requires IsRun(h, steps) && After(h, steps).queue == q && i < |q| && i <= seen <= |q| && q' == Without(q, i)
    requires asked <= asked' && s <= s' && (lights ==> lights')
    requires AllWait(h, steps, asked, created, s, lights, q, seen)
    ensures |q'| == |q| - 1
    ensures AllWait(h, steps + StartOf(i, pid), asked', created, s', lights', q', SeenAfter(|q'|, seen, i))
  {
    hide HasReason, IsRun, After, Without;
    var steps' := steps + StartOf(i, pid);
    WithoutIs(q, i);
    forall k | 0 <= k < SeenAfter(|q'|, seen, i)
      ensures HasReason(h, steps', asked', created, s', lights', q'[k])
    {
      if k < i || k + 1 < seen {
        ReasonStays(h, steps, steps', asked, asked', created, s, s', lights, lights', q[if k < i then k else k + 1]);
      } else {
        assert steps'[..|steps|] == steps;
        SteppedOver(h, steps', |steps|, asked', created, s', lights', q'[k]);
      }
    }
  }

  lemma SteppedOver(h: Hub, steps: seq<Step>, i: nat, asked: seq<Group>, created: seq<Option<nat>>, s: seq<Instance>,
                    lights: bool, g: Group)
    requires i < |steps| && StartedBefore(h, steps, i, g)
    ensures HasReason(h, steps, asked, created, s, lights, g)
  {
    hide StartedBefore;
  }

  lemma WithoutIs<T>(q: seq<T>, i: nat)
    requires i < |q|
    ensures |Without(q, i)| == |q| - 1
    ensures forall k :: 0 <= k < |q| - 1 ==> Without(q, i)[k] == q[if k < i then k else k + 1]
  {
  }

  lemma SweptStep(slots: seq<Exit>, s: seq<Instance>)
    requires slots != []
    ensures Swept(slots, s) ==
            if slots[0].pid == 0 || FindPid(s, slots[0].pid) == |s| then Swept(slots[1..], s)
            else Swept(slots[1..], Without(s, FindPid(s, slots[0].pid)))
  {
  }

  lemma MergeStep(q: seq<Group>, news: seq<Group>)
    requires news != []
    ensures var i := FindId(q, news[0].id);
            Merge(q, news) == Merge(if i == |q| then q + [news[0]] else q[i := news[0]], news[1..])
  {
  }

  lemma RunNothing(h: Hub)
    ensures IsRun(h, []) && After(h, []) == h
  {
  }

  /** The hub once the child for the group at `k` is started and listed. */
  ghost function Launched(h: Hub, k: nat, pid: nat): Hub
    requires k < |h.queue|
  {
    h.(inProgress := h.inProgress + [Instance(pid, h.queue[k].id)], queue := Without(h.queue, k),
       running := h.running + multiset{pid}, lightsPresent := h.lightsPresent || h.queue[k].light,
       log := h.log + [Leaves(h.queue[k].id)])
  }

  lemma {:induction false} RunOn(h: Hub, steps: seq<Step>, more: seq<Step>)
    requires IsRun(h, steps) && IsRun(After(h, steps), more)
    ensures IsRun(h, steps + more) && After(h, steps + more) == After(After(h, steps), more)
    decreases |steps|
  {
    hide Can, Next;
    if steps == [] {
      assert steps + more == more;
    } else {
      assert (steps + more)[1..] == steps[1..] + more;
      RunOn(Next(h, steps[0]), steps[1..], more);
    }
  }

  lemma TwoSteps(h: Hub, s: Step, t: Step)
    requires Can(h, s) && Can(Next(h, s), t)
    ensures IsRun(h, [s, t]) && After(h, [s, t]) == Next(Next(h, s), t)
  {
    hide Can, Next;
    OneStep(Next(h, s), t);
    assert [s, t][1..] == [t];
  }

  lemma OneStep(h: Hub, s: Step)
    requires Can(h, s)
    ensures IsRun(h, [s]) && After(h, [s]) == Next(h, s)
  {
    hide Can, Next;
    assert [s][1..] == [];
    assert IsRun(Next(h, s), []) && After(Next(h, s), []) == Next(h, s);
  }

  lemma LaunchRuns(h: Hub, steps: seq<Step>, now: Hub, k: nat, pid: nat)
    requires IsRun(h, steps) && After(h, steps) == now && OnePerObject(now.queue)
    requires Can(now, Forks(k, pid))
    ensures IsRun(h, steps + StartOf(k, pid))
    ensures After(h, steps + StartOf(k, pid)) == Launched(now, k, pid)
    ensures OnePerObject(Launched(now, k, pid).queue)
  {
    hide FindId;
    FindIdIs(now.queue, k);
    var forked := Fork(now, k, pid);
    assert Can(forked, Pushes);
    assert forked.forked == Some(Instance(pid, now.queue[k].id));
    assert now.forked == None && FindId(forked.queue, forked.forked.value.id) == k;
    assert Push(forked) == Launched(now, k, pid);
    var more := [Forks(k, pid), Pushes];
    TwoSteps(now, Forks(k, pid), Pushes);
    RunOn(h, steps, more);
    var q := now.queue;
    assert forall j :: 0 <= j < |Without(q, k)| ==> Without(q, k)[j] == q[if j < k then j else j + 1];
  }
}
