/** The message manager of CloudHub and the main loop that feeds it: a signal handler that
    collects ended children into one of two arrays, a main loop that swaps and drains the arrays,
    a table of slots, and a scheduler that starts one child per object.

    A run interleaves the statements of three threads of control: the handler may strike between
    any two statements of the main loop, and the manager thread runs beside both. */
module HubSpec {
  import opened Bytes
  import opened Common

  /** An ended child.  Process ids are positive; 0 marks a free slot. */
  datatype Exit = Exit(pid: nat, result: int)

  /** A group of packets to be sent, and the object that it is about. */
  datatype Group = Group(id: nat, light: bool, serial: nat)

  /** MqttMsgInstance: a child at work for an object. */
  datatype Instance = Instance(pid: nat, id: nat)

  /** Where the main loop is: about to swap the arrays, about to read the count of the one it took,
      or delivering entry `next` of `count` (about to reset the count when there is none left). */
  datatype Pc = AtSwap | AtCount | Draining(next: nat, count: nat)

  /** `forked` is a child whose instance is not in the list yet; `reaped` and `delivered` record what
      the handler collected and what reached signalChildL2, in order, `moved` the groups that were moved
      into the queue, and `log` for which object a group arrived or left the queue. */
  datatype Hub = Hub(
    limit: nat,
    second: bool,
    a0: seq<Exit>,
    a1: seq<Exit>,
    pc: Pc,
    slots: seq<Exit>,
    cleaned: bool,
    inProgress: seq<Instance>,
    forked: Option<Instance>,
    queue: seq<Group>,
    lightsPresent: bool,
    running: multiset<nat>,
    reaped: seq<Exit>,
    delivered: seq<Exit>,
    moved: seq<Group>,
    log: seq<Entry>)

  datatype Entry = Arrives(id: nat) | Leaves(id: nat)

  function ArrivalsOf(groups: seq<Group>): (r: seq<Entry>)
    ensures |r| == |groups| && forall k :: 0 <= k < |r| ==> r[k] == Arrives(groups[k].id)
  {
    seq(|groups|, k requires 0 <= k < |groups| => Arrives(groups[k].id))
  }

  // ---------------------------------------------------------------- the handler

  /** The array that the handler writes, and the one that the main loop drains. */
  function Filling(h: Hub): seq<Exit> { if h.second then h.a1 else h.a0 }
  function Drained(h: Hub): seq<Exit> { if h.second then h.a0 else h.a1 }

  function SetFilling(h: Hub, a: seq<Exit>): Hub {
    if h.second then h.(a1 := a) else h.(a0 := a)
  }

  /** max_alen. */
  function Capacity(limit: nat): nat { 2 * limit }

  /** One turn of the loop of sigchld_hdl: a child that does not fit into the array is lost. */
  function Reap(h: Hub, e: Exit): Hub {
    var h' := h.(running := h.running - multiset{e.pid}, reaped := h.reaped + [e]);
    if |Filling(h)| >= Capacity(h.limit) then h' else SetFilling(h', Filling(h) + [e])
  }

  // ---------------------------------------------------------------- the main loop

  /** The first free slot, or the number of slots. */
  function FreeSlot(slots: seq<Exit>): (i: nat)
    ensures i <= |slots|
    ensures i < |slots| ==> slots[i].pid == 0
    ensures forall k :: 0 <= k < i ==> slots[k].pid != 0
  {
    if slots == [] then 0 else if slots[0].pid == 0 then 0 else FreeSlot(slots[1..]) + 1
  }

  /** signalChildL2: a child for which there is no free slot is forgotten. */
  function Signal(slots: seq<Exit>, e: Exit): seq<Exit> {
    var i := FreeSlot(slots);
    if i == |slots| then slots else slots[i := e]
  }

  /** The next statement of the main loop. */
  function MainStep(h: Hub): Hub {
    match h.pc
    case AtSwap => h.(second := !h.second, pc := AtCount)
    case AtCount => h.(pc := Draining(0, |Drained(h)|))
    case Draining(i, n) =>
      if i < n && i < |Drained(h)| then
        var e := Drained(h)[i];
        h.(slots := Signal(h.slots, e), delivered := h.delivered + [e], pc := Draining(i + 1, n))
      else if h.second then h.(a0 := [], pc := AtSwap)
      else h.(a1 := [], pc := AtSwap)
  }

  // ---------------------------------------------------------------- the manager

  /** The first instance with this pid, or the number of instances. */
  function FindPid(s: seq<Instance>, pid: nat): (i: nat)
    ensures i <= |s|
    ensures i < |s| ==> s[i].pid == pid
    ensures forall k :: 0 <= k < i ==> s[k].pid != pid
  {
    if s == [] then 0 else if s[0].pid == pid then 0 else FindPid(s[1..], pid) + 1
  }

  /** The instances that are left when those of the first `n` slots are gone. */
  function Swept(slots: seq<Exit>, s: seq<Instance>): seq<Instance>
    decreases |slots|
  {
    if slots == [] then s
    else if slots[0].pid == 0 then Swept(slots[1..], s)
    else
      var i := FindPid(s, slots[0].pid);
      Swept(slots[1..], if i == |s| then s else Without(s, i))
  }

  function Cleared(slots: seq<Exit>): (r: seq<Exit>)
    ensures |r| == |slots| && forall k :: 0 <= k < |r| ==> r[k].pid == 0
  {
    seq(|slots|, k requires 0 <= k < |slots| => Exit(0, slots[k].result))
  }

  /** cleanCompletedMsgInstances. */
  function Clean(h: Hub): Hub {
    if h.inProgress == [] then h.(slots := Cleared(h.slots), cleaned := true)
    else h.(slots := Cleared(h.slots), cleaned := true, inProgress := Swept(h.slots, h.inProgress))
  }

  /** The first group with this object id, or the length of the queue. */
  function FindId(q: seq<Group>, id: nat): (i: nat)
    ensures i <= |q|
    ensures i < |q| ==> q[i].id == id
    ensures forall k :: 0 <= k < i ==> q[k].id != id
  {
    if q == [] then 0 else if q[0].id == id then 0 else FindId(q[1..], id) + 1
  }

  /** moveDataQueueToInternal: a group replaces the queued group of its object, or goes to the end. */
  function Merge(q: seq<Group>, news: seq<Group>): seq<Group>
    decreases |news|
  {
    if news == [] then q
    else
      var i := FindId(q, news[0].id);
      Merge(if i == |q| then q + [news[0]] else q[i := news[0]], news[1..])
  }

  predicate Busy(s: seq<Instance>, id: nat) {
    exists k :: 0 <= k < |s| && s[k].id == id
  }

  /** A group that the scheduling loop may start a child for. */
  predicate MayStart(h: Hub, k: nat) {
    && h.cleaned && h.forked == None && |h.inProgress| < h.limit && k < |h.queue|
    && !Busy(h.inProgress, h.queue[k].id) && !(h.queue[k].light && h.lightsPresent)
  }

  /** MqttMsgInstance::create: the child exists before its instance is in the list. */
  function Fork(h: Hub, k: nat, pid: nat): Hub
    requires k < |h.queue|
  {
    h.(forked := Some(Instance(pid, h.queue[k].id)), running := h.running + multiset{pid},
       lightsPresent := h.lightsPresent || h.queue[k].light)
  }

  /** push_back and erase. */
  function Push(h: Hub): Hub
    requires h.forked.Some? && FindId(h.queue, h.forked.value.id) < |h.queue|
  {
    h.(inProgress := h.inProgress + [h.forked.value], forked := None,
       queue := Without(h.queue, FindId(h.queue, h.forked.value.id)), log := h.log + [Leaves(h.forked.value.id)])
  }

  // ---------------------------------------------------------------- runs

  datatype Step =
    | Reaps(exit: Exit)
    | Main
    | Cleans
    | Moves(groups: seq<Group>)
    | Forks(position: nat, pid: nat)
    | Pushes

  /** When a step can happen.  A child is reaped once; a process id is not given out again before
      its instance is gone; the manager does nothing else between fork and push. */
  predicate Can(h: Hub, s: Step) {
    match s
    case Reaps(e) => e.pid in h.running
    case Main => true
    case Cleans => h.forked == None
    case Moves(_) => h.forked == None
    case Forks(k, pid) => MayStart(h, k) && pid > 0 && forall i :: 0 <= i < |h.inProgress| ==> h.inProgress[i].pid != pid
    case Pushes => h.forked.Some? && FindId(h.queue, h.forked.value.id) < |h.queue|
  }

  function Next(h: Hub, s: Step): Hub
    requires Can(h, s)
  {
    match s
    case Reaps(e) => Reap(h, e)
    case Main => MainStep(h)
    case Cleans => Clean(h)
    case Moves(groups) => h.(queue := Merge(h.queue, groups), moved := h.moved + groups, log := h.log + ArrivalsOf(groups))
    case Forks(k, pid) => Fork(h, k, pid)
    case Pushes => Push(h)
  }

  /** The start: empty arrays, no children; the slots are as the allocator left them. */
  predicate Started(h: Hub) {
    && h.a0 == [] && h.a1 == [] && h.pc == AtSwap && |h.slots| == h.limit && !h.cleaned
    && h.inProgress == [] && h.forked == None && h.queue == [] && !h.lightsPresent
    && h.running == multiset{} && h.reaped == [] && h.delivered == [] && h.moved == [] && h.log == []
  }

  /** A run: every step can happen where it does. */
  predicate IsRun(h: Hub, steps: seq<Step>)
    decreases |steps|
  {
    steps == [] || (Can(h, steps[0]) && IsRun(Next(h, steps[0]), steps[1..]))
  }

  function After(h: Hub, steps: seq<Step>): Hub
    requires IsRun(h, steps)
    decreases |steps|
  {
    if steps == [] then h else After(Next(h, steps[0]), steps[1..])
  }
}
