/** Crashes and restarts as steps of a run: a process dies, another one creates the clients again and
    restores their queues, and everything goes on.  (MQTT versions below 5, with the key stems told apart
    and as shipped.) */
module PahoLife {
  import opened Bytes
  import opened Common
  import opened PahoRecord
  import opened PahoQueue
  import opened PahoTheory
  import S = PahoStore
  import R = PahoRecovery

  const APART := "c5-"

  /** The process, the stores of clients that it has not created, and the stem of version 5 keys that
      the library was built with. */
  datatype Machine = Machine(world: World, disk: map<nat, map<nat, bytes>>, stem: string)

  /** `Creates` is MQTTAsync_create: the client with its store, the keys in the order in which the store
      lists them, what lies behind a buffer in memory, and what insertInOrder compares. */
  datatype Event =
    | Does(step: Step)
    | Crashes
    | Creates(client: nat, made: Client, keys: seq<nat>, beyond: bytes, rank: Command -> int)

  // ---------------------------------------------------------------- what happens

  const NOTHING := World([], [], map[], [], [], [])

  function OnDisk(m: Machine, c: nat): map<nat, bytes> {
    if c in m.disk then m.disk[c] else map[]
  }

  function Crash(m: Machine): Machine {
    var kept := set c | c in m.world.clients && m.world.clients[c].persistent;
    m.(world := NOTHING,
       disk := map c | c in m.disk.Keys + kept :: if c in kept then m.world.clients[c].store else m.disk[c])
  }

  /** The client's commands, numbered from `n` on. */
  function Numbered(s: seq<Command>, c: nat, n: nat): (r: seq<Command>)
    ensures |r| == |s|
  {
    if s == [] then []
    else if s[0].client == c then [s[0].(serial := n)] + Numbered(s[1..], c, n + 1)
    else [s[0]] + Numbered(s[1..], c, n)
  }

  /** Restored commands are accepted commands. */
  function Create(m: Machine, c: nat, made: Client, keys: seq<nat>, beyond: bytes, rank: Command -> int): Machine
    requires forall k :: k in keys ==> k in made.store
  {
    var w := m.world;
    var r := R.RestoreAll(R.Restarted(w.commands, made.seqno), made.store, keys, c, m.stem, beyond, rank);
    var q := Numbered(r.commands, c, |w.accepted|);
    m.(world := w.(commands := q, clients := w.clients[c := made.(seqno := r.seqno)],
                   accepted := w.accepted + Cards(Mine(q, c))),
       disk := if made.persistent then m.disk - {c} else m.disk)
  }

  ghost predicate CanCreate(m: Machine, c: nat, made: Client, keys: seq<nat>, rank: Command -> int) {
    && c !in m.world.clients && made.version < 5 && made.seqno == 0
    && (made.persistent ==> made.store == OnDisk(m, c) && R.Lists(keys, made.store))
    && (!made.persistent ==> keys == [])
    && (forall k :: k in keys ==> k in made.store)
    && (m.stem == APART ==> R.Orderly(rank, c, keys))
  }

  /** A step is one below version 5 that gives out no number beyond the keys. */
  ghost predicate Can(m: Machine, e: Event) {
    match e
    case Does(s) => Known(m.world.commands, m.world.clients) && S.Below5(s) && S.InKeys(Next(m.world, s))
    case Crashes => true
    case Creates(c, made, keys, _, rank) => CanCreate(m, c, made, keys, rank)
  }

  ghost function After1(m: Machine, e: Event): Machine
    requires Can(m, e)
  {
    match e
    case Does(s) => m.(world := Next(m.world, s))
    case Crashes => Crash(m)
    case Creates(c, made, keys, beyond, rank) => Create(m, c, made, keys, beyond, rank)
  }

  ghost predicate IsLife(m: Machine, es: seq<Event>)
    decreases |es|
  {
    es == [] || (Can(m, es[0]) && IsLife(After1(m, es[0]), es[1..]))
  }

  ghost function Later(m: Machine, es: seq<Event>): Machine
    requires IsLife(m, es)
    decreases |es|
  {
    if es == [] then m else Later(After1(m, es[0]), es[1..])
  }

  // ---------------------------------------------------------------- the invariant

  /** Tokens in use differ. */
  ghost predicate Apart(q: seq<Command>) {
    forall i, j :: 0 <= i < j < |q| ==> q[i].token != q[j].token || q[i].token == 0
  }

  /** A store from which a queue can be restored. */
  ghost predicate Restorable(store: map<nat, bytes>, c: nat) {
    exists q, top: nat :: IsStoreOf(store, q, top, c) && top < S.KEY_NUMBERS
  }

  ghost predicate IsStoreOf(store: map<nat, bytes>, q: seq<Command>, top: nat, c: nat) {
    R.Fits(q, top, c) && store == S.StoreOf(q) && Apart(q)
  }

  ghost predicate Good(m: Machine) {
    && m.stem == APART && Sound(m.world, []) && S.Kept(m.world) && Known(m.world.responses, m.world.clients)
    && forall c :: c in m.disk ==> Restorable(m.disk[c], c)
  }

  /** The first process of all. */
  lemma StartGood()
    ensures Good(Machine(NOTHING, map[], APART))
  {
    BootedSound(NOTHING);
  }

  // ---------------------------------------------------------------- a step

  lemma OthersKnown(s: seq<Command>, clients: map<nat, Client>, more: map<nat, Client>, c: nat)
    requires Known(s, clients) && clients.Keys <= more.Keys
    ensures Known(s, more) && Known(Others(s, c), more)
  {
    KnownOthers(s, more, c);
  }

  lemma RunAnswered(w: World, x: Command, o: Outcome)
    requires Known(w.responses, w.clients) && x.client in w.clients
    ensures Known(Run(w, x, o).responses, Run(w, x, o).clients)
  {
    hide Others, Mine, MoreToTry, NextAttempt, Tried, PersistedClient, PersistedCommand;
    OthersKnown(w.responses, w.clients, w.clients, x.client);
  }

  lemma StepAnswered(w: World, s: Step)
    requires Known(w.responses, w.clients) && Known(w.commands, w.clients)
    ensures Known(Next(w, s).responses, Next(w, s).clients)
  {
    hide Pick, Run, AssignedId, FindToken, Others, Mine;
    if s.Processes? {
      var i := Pick(w, s.blocked);
      if i < |w.commands| {
        RunAnswered(TakenOff(w, i), w.commands[i], s.outcome);
      }
    } else if s.client in w.clients {
      OthersKnown(w.responses, w.clients, w.clients, s.client);
    }
  }

  lemma DoesKeeps(m: Machine, s: Step)
    requires Good(m) && Can(m, Does(s))
    ensures Good(After1(m, Does(s)))
  {
    hide Ledger, Fifo, TokensApart, S.Kept, S.InKeys, Next, Restorable;
    NextKeeps(m.world, s);
    S.NextKeeps(m.world, s);
    StepAnswered(m.world, s);
  }

  // ---------------------------------------------------------------- a crash

  lemma {:induction false} StoredIn(s: seq<Command>, c: nat, x: Command)
    requires x in S.StoredOf(s, c)
    ensures x in s && x.client == c
  {
    assert s == [s[0]] + s[1..];
    if s[0].client == c && IsStored(s[0].body) {
      if x != s[0] {
        StoredIn(s[1..], c, x);
      }
    } else {
      StoredIn(s[1..], c, x);
    }
  }

  ghost predicate ApartFor(s: seq<Command>, c: nat) {
    forall i, j :: 0 <= i < j < |s| && s[i].client == c && s[j].client == c ==> s[i].token != s[j].token || s[i].token == 0
  }

  lemma {:induction false} StoredApart(s: seq<Command>, c: nat)
    requires ApartFor(s, c)
    ensures Apart(S.StoredOf(s, c))
  {
    if s != [] {
      StoredApart(s[1..], c);
      if s[0].client == c && IsStored(s[0].body) {
        var more := S.StoredOf(s[1..], c);
        forall j | 0 <= j < |more|
          ensures s[0].token != more[j].token || s[0].token == 0
        {
          StoredIn(s[1..], c, more[j]);
          var k :| 0 <= k < |s[1..]| && s[1..][k] == more[j];
          assert s[k + 1] == more[j];
        }
      }
    }
  }

  lemma QueueApart(w: World, c: nat)
    requires Sound(w, [])
    ensures ApartFor(w.commands, c)
  {
    hide Sound;
    var live := w.commands + w.responses;
    forall i, j | 0 <= i < j < |w.commands| && w.commands[i].client == c && w.commands[j].client == c
      ensures w.commands[i].token != w.commands[j].token || w.commands[i].token == 0
    {
      assert live[i] == w.commands[i] && live[j] == w.commands[j];
      if live[i].token != 0 {
        TokensDiffer(w, i, j);
      }
    }
  }

  /** A store in use can be restored from. */
  lemma StoreRestorable(w: World, c: nat)
    requires Sound(w, []) && S.Kept(w) && c in w.clients && w.clients[c].persistent
    ensures IsStoreOf(w.clients[c].store, S.StoredOf(w.commands, c), w.clients[c].seqno, c)
    ensures w.clients[c].seqno < S.KEY_NUMBERS
  {
    hide Sound, S.StoreOf, S.StoredOf, Apart, ApartFor;
    assert S.KeptFor(w.commands, w.clients[c], c);
    R.StoredFits(w.commands, c);
    QueueApart(w, c);
    StoredApart(w.commands, c);
  }

  lemma CrashKeeps(m: Machine)
    requires Good(m)
    ensures Good(Crash(m))
  {
    BootedSound(NOTHING);
    hide Sound, S.KeptFor, IsStoreOf;
    var m' := Crash(m);
    forall c | c in m'.disk
      ensures Restorable(m'.disk[c], c)
    {
      if c in m.world.clients && m.world.clients[c].persistent {
        StoreRestorable(m.world, c);
      }
    }
  }

  // ---------------------------------------------------------------- a creation

  lemma {:induction false} NumberedIs(s: seq<Command>, c: nat, n: nat)
    ensures var q := Numbered(s, c, n);
            && Others(q, c) == Others(s, c) && |Mine(q, c)| == |Mine(s, c)|
            && forall k :: 0 <= k < |Mine(s, c)| ==> Mine(q, c)[k] == Mine(s, c)[k].(serial := n + k)
  {
    if s != [] {
      var n' := if s[0].client == c then n + 1 else n;
      NumberedIs(s[1..], c, n');
      var q := Numbered(s, c, n);
      assert q[1..] == Numbered(s[1..], c, n');
    }
  }

  lemma InOrderPut(d: seq<Command>, x: Command, q: seq<Command>)
    requires InOrder(d + q)
    requires forall k :: 0 <= k < |d| && d[k].client == x.client ==> d[k].serial < x.serial
    requires forall k :: 0 <= k < |q| ==> q[k].client != x.client
    ensures InOrder((d + [x]) + q)
  {
    var s, t := d + q, (d + [x]) + q;
    forall i, j | 0 <= i < j < |t| && t[i].client == t[j].client && !AtHead(t[i].body) && !AtHead(t[j].body)
      ensures t[i].serial < t[j].serial
    {
      if i != |d| && j != |d| {
        var i' := if i < |d| then i else i - 1;
        var j' := if j < |d| then j else j - 1;
        assert t[i] == s[i'] && t[j] == s[j'];
      } else if j == |d| {
        assert t[i] == d[i];
      }
    }
  }

  lemma {:induction false} NumberedInOrder(d: seq<Command>, s: seq<Command>, c: nat, n: nat)
    requires InOrder(d + Others(s, c))
    requires forall k :: 0 <= k < |d| && d[k].client == c ==> d[k].serial < n
    ensures InOrder(d + Numbered(s, c, n))
    decreases |s|
  {
    hide InOrder;
    if s != [] {
      if s[0].client == c {
        var x := s[0].(serial := n);
        forall k | 0 <= k < |Others(s, c)|
          ensures Others(s, c)[k].client != c
        {
          OthersOnly(s, c, k);
        }
        InOrderPut(d, x, Others(s, c));
        NumberedInOrder(d + [x], s[1..], c, n + 1);
        assert d + ([x] + Numbered(s[1..], c, n + 1)) == (d + [x]) + Numbered(s[1..], c, n + 1);
      } else {
        var x := s[0];
        assert d + ([x] + Others(s[1..], c)) == (d + [x]) + Others(s[1..], c);
        NumberedInOrder(d + [x], s[1..], c, n);
        assert d + ([x] + Numbered(s[1..], c, n)) == (d + [x]) + Numbered(s[1..], c, n);
      }
    }
  }

  lemma {:induction false} NumberedKnown(s: seq<Command>, c: nat, n: nat, clients: map<nat, Client>)
    requires Known(Others(s, c), clients) && c in clients
    ensures Known(Numbered(s, c, n), clients)
    decreases |s|
  {
    if s != [] {
      if s[0].client == c {
        NumberedKnown(s[1..], c, n + 1, clients);
      } else {
        assert Others(s, c)[1..] == Others(s[1..], c);
        assert Others(s, c)[0] == s[0];
        NumberedKnown(s[1..], c, n, clients);
      }
    }
  }

  lemma {:induction false} NumberedPlain(s: seq<Command>, c: nat, n: nat)
    requires S.AllPlain(Others(s, c)) && S.AllPlain(Mine(s, c))
    ensures S.AllPlain(Numbered(s, c, n))
    decreases |s|
  {
    if s != [] {
      if s[0].client == c {
        assert Mine(s, c)[1..] == Mine(s[1..], c) && Mine(s, c)[0] == s[0];
        NumberedPlain(s[1..], c, n + 1);
      } else {
        assert Others(s, c)[1..] == Others(s[1..], c) && Others(s, c)[0] == s[0];
        NumberedPlain(s[1..], c, n);
      }
    }
  }

  /** What a creation has to know of the commands that were restored. */
  ghost predicate Arrived(w: World, s: seq<Command>, c: nat) {
    && Others(s, c) == w.commands && Apart(Mine(s, c))
    && forall k :: 0 <= k < |Mine(s, c)| ==> Mine(s, c)[k].client == c
  }

  /** The world with a new client and its restored commands, numbered. */
  function Joined(w: World, s: seq<Command>, c: nat, cl: Client): World {
    var q := Numbered(s, c, |w.accepted|);
    w.(commands := q, clients := w.clients[c := cl], accepted := w.accepted + Cards(Mine(q, c)))
  }

  lemma JoinedLedger(w: World, s: seq<Command>, c: nat, cl: Client)
    requires Ledger(w, []) && Arrived(w, s, c)
    ensures Ledger(Joined(w, s, c, cl), [])
    ensures Live(Joined(w, s, c, cl), []) == Live(w, []) + Bag(Mine(Numbered(s, c, |w.accepted|), c))
  {
    hide Apart, Others, Mine, Numbered;
    var w', q := Joined(w, s, c, cl), Numbered(s, c, |w.accepted|);
    NumberedIs(s, c, |w.accepted|);
    BagSplit(q, c);
    var mine := Mine(q, c);
    assert multiset(w.accepted + Cards(mine)) == multiset(w.accepted) + Bag(mine);
    forall i | 0 <= i < |w'.accepted|
      ensures w'.accepted[i].serial == i
    {
      if i >= |w.accepted| {
        assert w'.accepted[i] == CardOf(mine[i - |w.accepted|]);
      }
    }
  }

  lemma JoinedTokens(w: World, s: seq<Command>, c: nat, cl: Client)
    requires TokensApart(Live(w, [])) && Arrived(w, s, c) && c !in w.clients
    requires Known(w.commands, w.clients) && Known(w.responses, w.clients)
    ensures TokensApart(Live(w, []) + Bag(Mine(Numbered(s, c, |w.accepted|), c)))
  {
    hide Bag;
    var n := |w.accepted|;
    var mine := Mine(Numbered(s, c, n), c);
    NumberedIs(s, c, n);
    var old_, new_ := Live(w, []), Bag(mine);
    forall a | a in old_
      ensures a.client != c
    {
      LiveKnown(w, a);
    }
    forall a | a in new_
      ensures a.client == c && exists k :: 0 <= k < |mine| && CardOf(mine[k]) == a
    {
      var k := FromBag(mine, a);
    }
    forall a, b | a in old_ + new_ && b in old_ + new_ && a.client == b.client && a.token == b.token && a.token != 0
      ensures a == b
    {
      if a.client == c {
        assert a in new_ && b in new_;
        var i :| 0 <= i < |mine| && CardOf(mine[i]) == a;
        var j :| 0 <= j < |mine| && CardOf(mine[j]) == b;
        assert i == j;
      } else {
        assert a in old_ && b in old_;
      }
    }
  }

  lemma LiveKnown(w: World, a: Card)
    requires a in Live(w, []) && Known(w.commands, w.clients) && Known(w.responses, w.clients)
    ensures a.client in w.clients
  {
    assert Bag([]) == multiset{};
    if a in Bag(w.commands) {
      var k := FromBag(w.commands, a);
    } else {
      var k := FromBag(w.responses, a);
    }
  }

  lemma JoinedSound(w: World, s: seq<Command>, c: nat, cl: Client)
    requires Sound(w, []) && Arrived(w, s, c) && c !in w.clients && Known(w.responses, w.clients)
    ensures Sound(Joined(w, s, c, cl), []) && Known(w.responses, Joined(w, s, c, cl).clients)
  {
    hide Ledger, TokensApart, InOrder, Live, Apart, Others, Mine, Numbered;
    var w' := Joined(w, s, c, cl);
    JoinedLedger(w, s, c, cl);
    JoinedTokens(w, s, c, cl);
    NumberedInOrder(w.dispatched, s, c, |w.accepted|);
    OthersKnown(w.commands, w.clients, w'.clients, c);
    NumberedKnown(s, c, |w.accepted|, w'.clients);
    OthersKnown(w.responses, w.clients, w'.clients, c);
    assert |w'.accepted| >= |w.accepted|;
  }

  /** Numbers other than the serial are kept, and so is what the store depends on. */
  lemma {:induction false} NumberedStored(s: seq<Command>, c: nat, n: nat, d: nat)
    ensures R.Faces(S.StoredOf(Numbered(s, c, n), d)) == R.Faces(S.StoredOf(s, d))
    decreases |s|
  {
    if s != [] {
      var x := s[0];
      var y := if x.client == c then x.(serial := n) else x;
      var n' := if x.client == c then n + 1 else n;
      NumberedStored(s[1..], c, n', d);
      assert Numbered(s, c, n)[1..] == Numbered(s[1..], c, n') && Numbered(s, c, n)[0] == y;
      FacesCons(x, S.StoredOf(s[1..], d));
      FacesCons(y, S.StoredOf(Numbered(s[1..], c, n'), d));
    }
  }

  lemma FacesCons(x: Command, q: seq<Command>)
    ensures R.Faces([x] + q) == [R.Face(x)] + R.Faces(q)
  {
  }

  lemma SameFaces(a: seq<Command>, b: seq<Command>, n: nat)
    requires R.Faces(a) == R.Faces(b)
    ensures S.StoreOf(a) == S.StoreOf(b) && (S.Growing(a, n) <==> S.Growing(b, n))
  {
    R.StoreOfFaces(a);
    R.StoreOfFaces(b);
    assert forall k :: 0 <= k < |a| ==> a[k].seqno == R.Faces(a)[k].seqno == b[k].seqno;
  }

  lemma JoinedKept(w: World, s: seq<Command>, c: nat, cl: Client)
    requires S.Kept(w) && Arrived(w, s, c) && S.AllPlain(Mine(s, c)) && c !in w.clients
    requires cl.persistent ==> S.KeptFor(s, cl, c) && cl.seqno < S.KEY_NUMBERS
    ensures S.Kept(Joined(w, s, c, cl))
  {
    hide Apart, S.StoreOf, S.StoredOf, S.Growing, Numbered, Others, Mine, S.Plain;
    var w' := Joined(w, s, c, cl);
    NumberedPlain(s, c, |w.accepted|);
    forall d | d in w'.clients && w'.clients[d].persistent
      ensures S.KeptFor(w'.commands, w'.clients[d], d) && w'.clients[d].seqno < S.KEY_NUMBERS
    {
      NumberedStored(s, c, |w.accepted|, d);
      if d != c {
        S.StoredOthers(s, c, d);
        assert S.KeptFor(w.commands, w.clients[d], d);
      }
      SameFaces(S.StoredOf(w'.commands, d), S.StoredOf(s, d), w'.clients[d].seqno);
    }
  }

  /** What is restored is the stored queue. */
  lemma CreateArrived(m: Machine, c: nat, made: Client, keys: seq<nat>, beyond: bytes, rank: Command -> int)
      returns (q: seq<Command>, top: nat)
    requires Good(m) && CanCreate(m, c, made, keys, rank)
    ensures var r := R.RestoreAll(R.Restarted(m.world.commands, 0), made.store, keys, c, APART, beyond, rank);
            && Arrived(m.world, r.commands, c) && S.AllPlain(Mine(r.commands, c))
            && (made.persistent ==>
                  && IsStoreOf(made.store, q, top, c) && Mine(r.commands, c) == R.Faces(q)
                  && S.KeptFor(r.commands, made.(seqno := r.seqno), c) && r.seqno < S.KEY_NUMBERS)
  {
    hide Sound, S.StoreOf, S.StoredOf, S.Growing, R.Lists, R.Orderly, R.RestoreAll, Mine, Others, R.Key;
    var w := m.world;
    assert forall k :: 0 <= k < |w.commands| ==> w.commands[k].client != c by {
      SoundKnown(w);
    }
    R.OthersAll(w.commands, c);
    q, top := [], 0;
    if made.persistent {
      if c in m.disk {
        q, top :| IsStoreOf(m.disk[c], q, top, c) && top < S.KEY_NUMBERS;
      } else {
        NothingStored(c);
      }
      forall k | k in keys
        ensures !(APART <= R.Key(k))
      {
        R.StemApart(k);
      }
      R.RestoresQueue(q, top, c, w.commands, keys, APART, beyond, rank);
      assert R.Faces(q) == Mine(R.RestoreAll(R.Restarted(w.commands, 0), made.store, keys, c, APART, beyond, rank).commands, c);
    } else {
      RestoresNone(w.commands, made.store, c, APART, beyond, rank);
    }
  }

  lemma NothingStored(c: nat)
    ensures IsStoreOf(map[], [], 0, c)
  {
  }

  lemma RestoresNone(s: seq<Command>, store: map<nat, bytes>, c: nat, stem: string, beyond: bytes, rank: Command -> int)
    ensures R.RestoreAll(R.Restarted(s, 0), store, [], c, stem, beyond, rank) == R.Restarted(s, 0)
  {
  }

  lemma CreateKeeps(m: Machine, c: nat, made: Client, keys: seq<nat>, beyond: bytes, rank: Command -> int)
    requires Good(m) && CanCreate(m, c, made, keys, rank)
    ensures Good(Create(m, c, made, keys, beyond, rank))
  {
    hide Sound, S.Kept, Restorable, S.KeptFor, Arrived, S.AllPlain, Joined, R.RestoreAll, R.Lists, R.Orderly;
    var r := R.RestoreAll(R.Restarted(m.world.commands, 0), made.store, keys, c, APART, beyond, rank);
    var q, top := CreateArrived(m, c, made, keys, beyond, rank);
    JoinedSound(m.world, r.commands, c, made.(seqno := r.seqno));
    JoinedKept(m.world, r.commands, c, made.(seqno := r.seqno));
    CreateIs(m, c, made, keys, beyond, rank);
  }

  lemma CreateIs(m: Machine, c: nat, made: Client, keys: seq<nat>, beyond: bytes, rank: Command -> int)
    requires made.seqno == 0 && forall k :: k in keys ==> k in made.store
    ensures var r := R.RestoreAll(R.Restarted(m.world.commands, 0), made.store, keys, c, m.stem, beyond, rank);
            var m' := Create(m, c, made, keys, beyond, rank);
            && m'.world == Joined(m.world, r.commands, c, made.(seqno := r.seqno))
            && m'.stem == m.stem && m'.world.responses == m.world.responses
            && (forall d :: d in m'.disk ==> d in m.disk && m'.disk[d] == m.disk[d])
  {
  }

  // ---------------------------------------------------------------- lives

  lemma EventKeeps(m: Machine, e: Event)
    requires Good(m) && Can(m, e)
    ensures Good(After1(m, e))
  {
    hide Good, CanCreate, Next, S.Below5, Create, Crash;
    match e
    case Does(s) => DoesKeeps(m, s);
    case Crashes => CrashKeeps(m);
    case Creates(c, made, keys, beyond, rank) => CreateKeeps(m, c, made, keys, beyond, rank);
  }

  /** Through any number of crashes and restarts, with any steps between them, the invariants of runs and
      of the persisted copy hold. */
  lemma {:induction false} LifeKeeps(m: Machine, es: seq<Event>)
    requires Good(m) && IsLife(m, es)
    ensures Good(Later(m, es))
    decreases |es|
  {
    hide Good, Can, After1;
    if es != [] {
      EventKeeps(m, es[0]);
      LifeKeeps(After1(m, es[0]), es[1..]);
    }
  }

  /** In every life from the first process on: each command accepted since the last crash, restored ones
      included, is in one place, once; tokens in use by a client differ; and the stores mirror the queues. */
  lemma EveryLife(es: seq<Event>, i: nat)
    requires IsLife(Machine(NOTHING, map[], APART), es)
    requires i < |Later(Machine(NOTHING, map[], APART), es).world.accepted|
    ensures var v := Later(Machine(NOTHING, map[], APART), es).world;
            && Bag(v.commands)[v.accepted[i]] + Bag(v.responses)[v.accepted[i]] + Bag(v.done)[v.accepted[i]] == 1
            && S.Kept(v)
            && var live := v.commands + v.responses;
               forall j, k :: 0 <= j < k < |live| && live[j].client == live[k].client && live[j].token != 0
                 ==> live[j].token != live[k].token
  {
    hide Sound, IsLife, Later, Bag, S.Kept, Restorable;
    StartGood();
    LifeKeeps(Machine(NOTHING, map[], APART), es);
    var v := Later(Machine(NOTHING, map[], APART), es).world;
    ExactlyOnce(v, i);
    var live := v.commands + v.responses;
    forall j, k | 0 <= j < k < |live| && live[j].client == live[k].client && live[j].token != 0
      ensures live[j].token != live[k].token
    {
      TokensDiffer(v, j, k);
    }
  }

  /** Until the client is created again, its store stays as it was. */
  lemma {:induction false} DiskStays(m: Machine, es: seq<Event>, c: nat)
    requires IsLife(m, es) && c in m.disk && c !in m.world.clients
    requires forall k :: 0 <= k < |es| ==> !(es[k].Creates? && es[k].client == c)
    ensures var v := Later(m, es); c in v.disk && v.disk[c] == m.disk[c] && c !in v.world.clients
    decreases |es|
  {
    hide Next, R.RestoreAll, CanCreate;
    if es != [] {
      if es[0].Does? {
        StepClients(m.world, es[0].step);
      }
      DiskStays(After1(m, es[0]), es[1..], c);
    }
  }

  /** No step makes or forgets a client. */
  lemma StepClients(w: World, s: Step)
    requires Known(w.commands, w.clients)
    ensures Next(w, s).clients.Keys == w.clients.Keys
  {
    hide Pick, Run, AssignedId, FindToken, Others, Mine, Accept, CloseSession, CleanSession;
    if s.Processes? {
      var i := Pick(w, s.blocked);
      if i < |w.commands| {
        RunClients(TakenOff(w, i), w.commands[i], s.outcome);
      }
    } else if s.client in w.clients {
      CallClients(w, s.client);
      CallClients(WithId(w, s.client), s.client);
      CallClients(Closed(w, s.client), s.client);
      var cl := w.clients[s.client];
      CallClients(w.(clients := w.clients[s.client := cl.(shouldBeConnected := false)]), s.client);
      CallClients(w.(clients := w.clients[s.client := cl.(connected := true, state := NotInProgress)]), s.client);
      if s.Connects? {
        var cl' := cl.(shouldBeConnected := true, uris := s.uris, version := s.version);
        CallClients(w.(clients := w.clients[s.client := cl']), s.client);
      }
    }
  }

  lemma CallClients(w: World, c: nat)
    requires c in w.clients
    ensures forall token: MsgId, b: Body :: Accept(w, c, token, b).clients.Keys == w.clients.Keys
    ensures CloseSession(w, c).clients.Keys == CleanSession(w, c).clients.Keys == w.clients.Keys
  {
  }

  lemma RunClients(w: World, x: Command, o: Outcome)
    requires x.client in w.clients
    ensures Run(w, x, o).clients.Keys == w.clients.Keys
  {
    hide Others, Mine, MoreToTry, NextAttempt, Tried, PersistedClient, PersistedCommand;
  }

  /** A crash in any reachable state, then whatever other clients do, and then the client again: its
      queue is exactly what it had queued of PUBLISH, SUBSCRIBE and UNSUBSCRIBE, field for field and in
      order, for any listing of the keys if sequence numbers are compared. */
  lemma ComesBack(m: Machine, es: seq<Event>, c: nat, made: Client, keys: seq<nat>, beyond: bytes,
                  rank: Command -> int)
    requires Good(m) && c in m.world.clients && m.world.clients[c].persistent && made.persistent
    requires IsLife(Crash(m), es) && forall k :: 0 <= k < |es| ==> !(es[k].Creates? && es[k].client == c)
    requires CanCreate(Later(Crash(m), es), c, made, keys, rank)
    ensures var v := Create(Later(Crash(m), es), c, made, keys, beyond, rank);
            R.Faces(Mine(v.world.commands, c)) == R.Faces(S.StoredOf(m.world.commands, c))
  {
    hide Good, IsLife, Later, CanCreate, IsStoreOf, S.KeptFor, Arrived, S.AllPlain, R.RestoreAll, Mine, Create, S.StoredOf;
    var store := m.world.clients[c].store;
    CrashKeeps(m);
    LifeKeeps(Crash(m), es);
    DiskStays(Crash(m), es, c);
    GoodStore(m, c);
    var u := Later(Crash(m), es);
    MadeFrom(u, c, made, keys, rank);
    var q, top := CreateArrived(u, c, made, keys, beyond, rank);
    SameStoreSameQueue(store, q, top, S.StoredOf(m.world.commands, c), m.world.clients[c].seqno, c);
    CreateIs(u, c, made, keys, beyond, rank);
    var r := R.RestoreAll(R.Restarted(u.world.commands, 0), made.store, keys, c, APART, beyond, rank);
    NumberedFaces(r.commands, c, |u.world.accepted|);
    assert R.Faces(R.Faces(q)) == R.Faces(q);
  }

  lemma NumberedFaces(s: seq<Command>, c: nat, n: nat)
    ensures R.Faces(Mine(Numbered(s, c, n), c)) == R.Faces(Mine(s, c))
  {
    NumberedIs(s, c, n);
  }

  lemma GoodStore(m: Machine, c: nat)
    requires Good(m) && c in m.world.clients && m.world.clients[c].persistent
    ensures IsStoreOf(m.world.clients[c].store, S.StoredOf(m.world.commands, c), m.world.clients[c].seqno, c)
    ensures c in Crash(m).disk && Crash(m).disk[c] == m.world.clients[c].store && c !in Crash(m).world.clients
  {
    hide Sound, S.Kept, IsStoreOf;
    StoreRestorable(m.world, c);
  }

  lemma MadeFrom(m: Machine, c: nat, made: Client, keys: seq<nat>, rank: Command -> int)
    requires Good(m) && CanCreate(m, c, made, keys, rank) && made.persistent
    ensures m.stem == APART && made.seqno == 0 && made.store == OnDisk(m, c)
    ensures forall k :: k in keys ==> k in made.store
  {
  }

  /** A store is that of one queue only. */
  lemma SameStoreSameQueue(store: map<nat, bytes>, a: seq<Command>, m: nat, b: seq<Command>, n: nat, c: nat)
    requires IsStoreOf(store, a, m, c) && IsStoreOf(store, b, n, c)
    ensures R.Faces(a) == R.Faces(b)
  {
    hide S.StoreOf;
    assert R.Strict(R.Faces(a)) && R.Strict(R.Faces(b));
    forall x
      ensures x in R.Faces(a) <==> x in R.Faces(b)
    {
      if x in R.Faces(a) {
        FaceShared(a, m, b, n, c, x);
      }
      if x in R.Faces(b) {
        FaceShared(b, n, a, m, c, x);
      }
    }
    R.StrictSame(R.Faces(a), R.Faces(b));
  }

  lemma FaceShared(a: seq<Command>, m: nat, b: seq<Command>, n: nat, c: nat, x: Command)
    requires R.Fits(a, m, c) && R.Fits(b, n, c) && S.StoreOf(a) == S.StoreOf(b) && x in R.Faces(a)
    ensures x in R.Faces(b)
  {
    hide S.StoreOf, S.Growing, Record, Restore;
    var i :| 0 <= i < |R.Faces(a)| && R.Faces(a)[i] == x;
    R.InStoreOf(a, m, i);
    var k := a[i].seqno;
    var i' := R.StoreEntry(a, m, k);
    var j := R.StoreEntry(b, n, k);
    assert i' == i by {
      SameNumber(a, m, i, i');
    }
    RecordRoundTrip(a[i].token, a[i].body, []);
    RecordRoundTrip(b[j].token, b[j].body, []);
    assert R.Face(b[j]) == x;
    assert R.Faces(b)[j] == x;
  }

  lemma SameNumber(a: seq<Command>, m: nat, i: nat, j: nat)
    requires S.Growing(a, m) && i < |a| && j < |a| && a[i].seqno == a[j].seqno
    ensures i == j
  {
  }

  // ---------------------------------------------------------------- lives as shipped

  /** What was in the store of each client when this process created it. */
  ghost function Found(m: Machine, left: map<nat, map<nat, bytes>>, e: Event): map<nat, map<nat, bytes>> {
    match e
    case Does(_) => left
    case Crashes => map[]
    case Creates(c, made, _, _, _) => left[c := if made.persistent then OnDisk(m, c) else map[]]
  }

  ghost function FoundLater(m: Machine, left: map<nat, map<nat, bytes>>, es: seq<Event>): map<nat, map<nat, bytes>>
    requires IsLife(m, es)
    decreases |es|
  {
    if es == [] then left else FoundLater(After1(m, es[0]), Found(m, left, es[0]), es[1..])
  }

  ghost predicate GoodShipped(m: Machine, left: map<nat, map<nat, bytes>>) {
    && m.stem == R.SHIPPED_V5_STEM && Sound(m.world, []) && S.Held(m.world, left)
    && Known(m.world.responses, m.world.clients)
    && (forall c :: c in m.disk ==> R.Written(m.disk[c])) && forall c :: c in left ==> R.Written(left[c])
  }

  /** Whatever is in a store was written by a version below 5. */
  lemma HeldWritten(w: World, left: map<nat, map<nat, bytes>>, c: nat)
    requires S.Held(w, left) && c in w.clients && w.clients[c].persistent
    requires forall d :: d in left ==> R.Written(left[d])
    ensures R.Written(w.clients[c].store)
  {
    hide S.StoreOf, S.StoredOf, R.IsRecord;
    var q := S.StoredOf(w.commands, c);
    var store := w.clients[c].store;
    assert S.HeldFor(w.commands, w.clients[c], c, S.LeftOf(left, c));
    R.StoredFits(w.commands, c);
    R.QueueWritten(q, w.clients[c].seqno, c);
    forall k | k in store
      ensures k > 0 && R.IsRecord(store[k])
    {
      if k !in S.StoreOf(q) {
        assert k in store - S.StoreOf(q).Keys;
      }
    }
  }

  lemma {:induction false} NumberedNone(s: seq<Command>, c: nat, n: nat)
    requires forall k :: 0 <= k < |s| ==> s[k].client != c
    ensures Numbered(s, c, n) == s && Others(s, c) == s && Mine(s, c) == [] && S.StoredOf(s, c) == []
  {
    if s != [] {
      NumberedNone(s[1..], c, n);
    }
  }

  lemma ShippedDoes(m: Machine, s: Step, left: map<nat, map<nat, bytes>>)
    requires GoodShipped(m, left) && Can(m, Does(s))
    ensures GoodShipped(After1(m, Does(s)), left)
  {
    hide Ledger, Fifo, TokensApart, S.Held, S.InKeys, Next, R.Written;
    NextKeeps(m.world, s);
    S.NextHolds(m.world, s, left);
    StepAnswered(m.world, s);
  }

  lemma ShippedCrash(m: Machine, left: map<nat, map<nat, bytes>>)
    requires GoodShipped(m, left)
    ensures GoodShipped(Crash(m), map[])
  {
    BootedSound(NOTHING);
    hide Sound, S.HeldFor, R.Written;
    var m' := Crash(m);
    forall c | c in m'.disk
      ensures R.Written(m'.disk[c])
    {
      if c in m.world.clients && m.world.clients[c].persistent {
        HeldWritten(m.world, left, c);
      }
    }
  }

  /** A client created again gets no command back and numbers from 1, over the records that it had. */
  lemma ShippedCreate(m: Machine, c: nat, made: Client, keys: seq<nat>, beyond: bytes, rank: Command -> int,
                      left: map<nat, map<nat, bytes>>)
    requires GoodShipped(m, left) && CanCreate(m, c, made, keys, rank)
    ensures var m' := Create(m, c, made, keys, beyond, rank);
            && m'.world.commands == m.world.commands && m'.world.clients == m.world.clients[c := made]
            && GoodShipped(m', Found(m, left, Creates(c, made, keys, beyond, rank)))
  {
    hide Sound, S.Held, R.Written, R.Lists, R.Orderly, R.RestoreAll, Numbered, Others, Mine;
    var w := m.world;
    SoundKnown(w);
    assert forall k :: 0 <= k < |w.commands| ==> w.commands[k].client != c;
    NumberedNone(w.commands, c, |w.accepted|);
    CreateIs(m, c, made, keys, beyond, rank);
    if made.persistent {
      NothingWritten();
      R.ShippedRestoresNothing(made.store, c, R.Restarted(w.commands, 0), keys, beyond, rank);
    } else {
      RestoresNone(w.commands, made.store, c, m.stem, beyond, rank);
    }
    assert Joined(w, w.commands, c, made) == Create(m, c, made, keys, beyond, rank).world;
    JoinedSound(w, w.commands, c, made);
    JoinedHeld(w, c, made, left);
    NothingWritten();
  }

  lemma NothingWritten()
    ensures R.Written(map[])
  {
  }

  lemma JoinedHeld(w: World, c: nat, made: Client, left: map<nat, map<nat, bytes>>)
    requires S.Held(w, left) && made.version < 5 && made.seqno == 0
    requires forall k :: 0 <= k < |w.commands| ==> w.commands[k].client != c
    ensures S.Held(Joined(w, w.commands, c, made), left[c := if made.persistent then made.store else map[]])
  {
    hide S.StoreOf, S.StoredOf, S.Growing, S.Mixed, S.AllPlain, Numbered, Mine;
    NumberedNone(w.commands, c, |w.accepted|);
    MixedStart(made.store);
    var w' := Joined(w, w.commands, c, made);
    var left' := left[c := if made.persistent then made.store else map[]];
    forall d | d in w'.clients && w'.clients[d].persistent
      ensures S.HeldFor(w'.commands, w'.clients[d], d, S.LeftOf(left', d))
    {
      if d != c {
        assert S.HeldFor(w.commands, w.clients[d], d, S.LeftOf(left, d));
      }
    }
  }

  lemma MixedStart(store: map<nat, bytes>)
    ensures S.Growing([], 0) && S.Mixed(store, S.StoreOf([]), 0, store)
  {
  }

  /** The first process of all, as shipped. */
  lemma ShippedStart()
    ensures GoodShipped(Machine(NOTHING, map[], R.SHIPPED_V5_STEM), map[])
  {
    BootedSound(NOTHING);
  }

  /** As shipped, through any number of crashes and restarts: the invariants of runs hold, and each store
      has the records of its queue and, of those that it had when the client was created, all above the
      numbers given out since, unless a clean session has cleared it. */
  lemma {:induction false} ShippedLife(m: Machine, es: seq<Event>, left: map<nat, map<nat, bytes>>)
    requires GoodShipped(m, left) && IsLife(m, es)
    ensures GoodShipped(Later(m, es), FoundLater(m, left, es))
    decreases |es|
  {
    hide GoodShipped, Can, Found, Next, Create, Crash;
    if es != [] {
      ShippedEvent(m, es[0], left);
      ShippedLife(After1(m, es[0]), es[1..], Found(m, left, es[0]));
    }
  }

  lemma ShippedEvent(m: Machine, e: Event, left: map<nat, map<nat, bytes>>)
    requires GoodShipped(m, left) && Can(m, e)
    ensures GoodShipped(After1(m, e), Found(m, left, e))
  {
    hide GoodShipped, CanCreate, Next, S.Below5, Create, Crash;
    match e
    case Does(s) => ShippedDoes(m, s, left);
    case Crashes => ShippedCrash(m, left);
    case Creates(c, made, keys, beyond, rank) => ShippedCreate(m, c, made, keys, beyond, rank, left);
  }}
