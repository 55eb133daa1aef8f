/** The persisted copy of the queue, for MQTT versions below 5: in every reachable world the store
    holds exactly the records of the client's queued PUBLISH, SUBSCRIBE and UNSUBSCRIBE commands, and,
    if it was not empty when the client began to number, the old records of numbers not used again yet. */
module PahoStore {
  import opened Bytes
  import opened Common
  import opened PahoRecord
  import opened PahoQueue
  import PahoTheory

  /** Numbers below have a key of at most PERSISTENCE_MAX_KEY_LENGTH characters: PahoRecovery.KeyFits. */
  const KEY_NUMBERS: nat := 1_000_000

  /** The commands of a client that have a record, in order. */
  function StoredOf(s: seq<Command>, c: nat): seq<Command> {
    if s == [] then []
    else if s[0].client == c && IsStored(s[0].body) then [s[0]] + StoredOf(s[1..], c)
    else StoredOf(s[1..], c)
  }

  /** The store that a queue stands for. */
  function StoreOf(q: seq<Command>): map<nat, bytes> {
    if q == [] then map[]
    else var x := q[|q| - 1]; StoreOf(q[..|q| - 1])[x.seqno := Record(x.token, x.body)]
  }

  /** Sequence numbers grow along the queue, from 1 to at most `n`. */
  ghost predicate Growing(q: seq<Command>, n: nat) {
    && (forall i, j :: 0 <= i < j < |q| ==> q[i].seqno < q[j].seqno)
    && forall i :: 0 <= i < |q| ==> 0 < q[i].seqno <= n
  }

  ghost predicate KeptFor(s: seq<Command>, cl: Client, c: nat) {
    cl.version < 5 && cl.store == StoreOf(StoredOf(s, c)) && Growing(StoredOf(s, c), cl.seqno)
  }

  /** The records of numbers above `n`. */
  function Beyond(left: map<nat, bytes>, n: nat): map<nat, bytes> {
    map k | k in left && k > n :: left[k]
  }

  ghost predicate Within(a: map<nat, bytes>, b: map<nat, bytes>) {
    forall k :: k in a ==> k in b && b[k] == a[k]
  }

  /** The same over a store that held the records `left` when the client began to number: what else is in
      the store is old, and of the old records those of higher numbers are all there, unless a clean
      session has cleared the store. */
  ghost predicate HeldFor(s: seq<Command>, cl: Client, c: nat, left: map<nat, bytes>) {
    cl.version < 5 && Growing(StoredOf(s, c), cl.seqno) && Mixed(cl.store, StoreOf(StoredOf(s, c)), cl.seqno, left)
  }

  ghost predicate Mixed(store: map<nat, bytes>, queue: map<nat, bytes>, n: nat, left: map<nat, bytes>) {
    store == queue || (Within(queue, store) && Within(store - queue.Keys, left) && Within(Beyond(left, n), store))
  }

  /** Names and lengths fit the record, and only commands with a record have a number. */
  predicate Plain(x: Command) {
    BodyFits(x.body) && (!IsStored(x.body) ==> x.seqno == 0)
  }

  ghost predicate AllPlain(s: seq<Command>) {
    forall k :: 0 <= k < |s| ==> Plain(s[k])
  }

  /** Every number given out so far makes a key. */
  ghost predicate InKeys(w: World) {
    forall c :: c in w.clients && w.clients[c].persistent ==> w.clients[c].seqno < KEY_NUMBERS
  }

  /** The invariant. */
  ghost predicate Kept(w: World) {
    && AllPlain(w.commands) && InKeys(w)
    && forall c :: c in w.clients && w.clients[c].persistent ==> KeptFor(w.commands, w.clients[c], c)
  }

  function LeftOf(left: map<nat, map<nat, bytes>>, c: nat): map<nat, bytes> {
    if c in left then left[c] else map[]
  }

  /** The same where the stores were not all empty to begin with. */
  ghost predicate Held(w: World, left: map<nat, map<nat, bytes>>) {
    && AllPlain(w.commands) && InKeys(w)
    && forall c :: c in w.clients && w.clients[c].persistent ==> HeldFor(w.commands, w.clients[c], c, LeftOf(left, c))
  }

  lemma MixedOne(store: map<nat, bytes>, queue: map<nat, bytes>, n: nat)
    requires Mixed(store, queue, n, map[])
    ensures store == queue
  {
    assert forall k :: k in store && k !in queue ==> k in store - queue.Keys;
  }

  lemma HeldKept(w: World)
    ensures Held(w, map[]) <==> Kept(w)
  {
    hide StoreOf, StoredOf, Growing, AllPlain, InKeys;
    if Held(w, map[]) {
      forall c | c in w.clients && w.clients[c].persistent
        ensures KeptFor(w.commands, w.clients[c], c)
      {
        assert HeldFor(w.commands, w.clients[c], c, map[]);
        MixedOne(w.clients[c].store, StoreOf(StoredOf(w.commands, c)), w.clients[c].seqno);
      }
    }
    if Kept(w) {
      forall c | c in w.clients && w.clients[c].persistent
        ensures HeldFor(w.commands, w.clients[c], c, map[])
      {
        assert KeptFor(w.commands, w.clients[c], c);
      }
    }
  }

  // ---------------------------------------------------------------- lists

  lemma {:induction false} StoredSum(a: seq<Command>, b: seq<Command>, c: nat)
    ensures StoredOf(a + b, c) == StoredOf(a, c) + StoredOf(b, c)
  {
    if a == [] {
      assert a + b == b;
    } else {
      assert (a + b)[1..] == a[1..] + b;
      StoredSum(a[1..], b, c);
    }
  }

  lemma StoredOne(x: Command, c: nat)
    ensures StoredOf([x], c) == if x.client == c && IsStored(x.body) then [x] else []
  {
    assert [x][1..] == [];
  }

  lemma StoredWithout(s: seq<Command>, i: nat, c: nat)
    requires i < |s|
    ensures StoredOf(s, c) == StoredOf(s[..i], c) + StoredOf([s[i]], c) + StoredOf(s[i + 1..], c)
    ensures StoredOf(Without(s, i), c) == StoredOf(s[..i], c) + StoredOf(s[i + 1..], c)
  {
    hide StoredOf;
    assert s == s[..i] + [s[i]] + s[i + 1..];
    StoredSum(s[..i] + [s[i]], s[i + 1..], c);
    StoredSum(s[..i], [s[i]], c);
    StoredSum(s[..i], s[i + 1..], c);
  }

  lemma {:induction false} StoredNone(s: seq<Command>, c: nat)
    requires forall k :: 0 <= k < |s| ==> s[k].client != c
    ensures StoredOf(s, c) == []
  {
    if s != [] {
      StoredNone(s[1..], c);
    }
  }

  lemma {:induction false} StoredOthers(s: seq<Command>, c: nat, d: nat)
    ensures StoredOf(Others(s, c), d) == if d == c then [] else StoredOf(s, d)
  {
    if s != [] {
      StoredOthers(s[1..], c, d);
      if s[0].client != c {
        StoredSum([s[0]], Others(s[1..], c), d);
        StoredOne(s[0], d);
      }
    }
  }

  lemma {:induction false} OthersPlain(s: seq<Command>, c: nat)
    requires AllPlain(s)
    ensures AllPlain(Others(s, c))
  {
    if s != [] {
      OthersPlain(s[1..], c);
    }
  }

  /** Taking the oldest command off takes its record off. */
  lemma {:induction false} StoreOfTail(x: Command, q: seq<Command>, n: nat)
    requires Growing([x] + q, n)
    ensures StoreOf([x] + q) - {x.seqno} == StoreOf(q)
    decreases |q|
  {
    if q == [] {
      assert [x] + q == [x] && [x][..0] == [];
    } else {
      var m := |q| - 1;
      PrefixSum(x, q, m);
      GrowingPrefix([x] + q, |q|, n);
      StoreOfTail(x, q[..m], n);
      assert ([x] + q)[|q|] == q[m];
      assert x.seqno != q[m].seqno by {
        assert ([x] + q)[0] == x;
      }
    }
  }

  lemma PrefixSum(x: Command, q: seq<Command>, m: nat)
    requires m <= |q|
    ensures ([x] + q)[..m + 1] == [x] + q[..m]
  {
  }

  lemma GrowingPrefix(q: seq<Command>, m: nat, n: nat)
    requires Growing(q, n) && m <= |q|
    ensures Growing(q[..m], n)
  {
  }

  lemma GrowingTail(x: Command, q: seq<Command>, n: nat)
    requires Growing([x] + q, n)
    ensures Growing(q, n)
  {
    var z := [x] + q;
    assert forall i :: 0 <= i < |q| ==> q[i] == z[i + 1];
  }

  lemma {:induction false} StoreKeys(q: seq<Command>, n: nat)
    requires Growing(q, n)
    ensures 0 !in StoreOf(q)
    ensures forall k :: k in StoreOf(q) ==> k <= n
    decreases |q|
  {
    if q != [] {
      assert Growing(q[..|q| - 1], n);
      StoreKeys(q[..|q| - 1], n);
    }
  }

  // ---------------------------------------------------------------- each change keeps it

  /** A command at the end of the queue takes a number, which has to make a key. */
  lemma AddKeeps(w: World, x: Command, left: map<nat, map<nat, bytes>>)
    requires Held(w, left) && x.client in w.clients && Plain(x)
    requires AtHead(x.body) || InKeys(Add(w, x))
    ensures Held(Add(w, x), left)
  {
    hide HeldFor, Record;
    var w' := Add(w, x);
    var cl := w.clients[x.client];
    assert PersistedClient(cl, x).persistent == cl.persistent;
    var y := PersistedCommand(cl, x);
    assert Plain(y) && y.client == x.client && IsStored(y.body) == IsStored(x.body);
    forall c | c in w'.clients && w'.clients[c].persistent
      ensures HeldFor(w'.commands, w'.clients[c], c, LeftOf(left, c))
    {
      if x.client == c && !AtHead(x.body) {
        assert w'.clients[c].seqno < KEY_NUMBERS;
        PersistKeeps(w.commands, cl, x, LeftOf(left, c));
      } else {
        ApartKeeps(w.commands, w.clients[c], x, c, LeftOf(left, c));
        ApartKeeps(w.commands, w.clients[c], y, c, LeftOf(left, c));
      }
    }
  }

  /** A command without a record, or of another client, changes nothing for the client. */
  lemma ApartKeeps(s: seq<Command>, cl: Client, x: Command, c: nat, left: map<nat, bytes>)
    requires HeldFor(s, cl, c, left) && !(x.client == c && IsStored(x.body))
    ensures HeldFor([x] + s, cl, c, left) && HeldFor(s + [x], cl, c, left)
  {
    hide StoredOf, StoreOf, Growing, Mixed;
    var q := StoredOf(s, c);
    StoredOne(x, c);
    StoredSum([x], s, c);
    StoredSum(s, [x], c);
    assert [] + q == q && q + [] == q;
  }

  lemma PersistKeeps(s: seq<Command>, cl: Client, x: Command, left: map<nat, bytes>)
    requires HeldFor(s, cl, x.client, left) && cl.seqno < KEY_NUMBERS && PersistedClient(cl, x).seqno < KEY_NUMBERS
    ensures HeldFor(s + [PersistedCommand(cl, x)], PersistedClient(cl, x), x.client, left)
  {
    hide Record, StoredOf, StoreOf, Growing, Mixed;
    var q := StoredOf(s, x.client);
    var y := PersistedCommand(cl, x);
    StoredOne(y, x.client);
    StoredSum(s, [y], x.client);
    if IsStored(x.body) {
      StorePut(q, y, cl.seqno);
      MixedPut(cl.store, StoreOf(q), cl.seqno, left, Record(x.token, x.body));
    } else {
      assert q + [] == q;
      GrowingHigher(q, cl.seqno);
      MixedHigher(cl.store, StoreOf(q), cl.seqno, left);
    }
  }

  lemma StorePut(q: seq<Command>, y: Command, n: nat)
    requires Growing(q, n) && y.seqno == n + 1
    ensures Growing(q + [y], n + 1) && StoreOf(q + [y]) == StoreOf(q)[y.seqno := Record(y.token, y.body)]
  {
    hide Record;
    assert (q + [y])[..|q|] == q;
  }

  lemma GrowingHigher(q: seq<Command>, n: nat)
    requires Growing(q, n)
    ensures Growing(q, n + 1)
  {
  }

  lemma MixedPut(store: map<nat, bytes>, queue: map<nat, bytes>, n: nat, left: map<nat, bytes>, r: bytes)
    requires Mixed(store, queue, n, left)
    ensures Mixed(store[n + 1 := r], queue[n + 1 := r], n + 1, left)
  {
  }

  lemma MixedHigher(store: map<nat, bytes>, queue: map<nat, bytes>, n: nat, left: map<nat, bytes>)
    requires Mixed(store, queue, n, left)
    ensures Mixed(store, queue, n + 1, left)
  {
  }

  lemma MixedWithout(store: map<nat, bytes>, queue: map<nat, bytes>, n: nat, left: map<nat, bytes>, k: nat)
    requires Mixed(store, queue, n, left) && k <= n
    ensures Mixed(store - {k}, queue - {k}, n, left)
  {
  }

  lemma AcceptKeeps(w: World, c: nat, token: MsgId, b: Body, left: map<nat, map<nat, bytes>>)
    requires Held(w, left) && c in w.clients && BodyFits(b)
    requires AtHead(b) || InKeys(Accept(w, c, token, b))
    ensures Held(Accept(w, c, token, b), left)
  {
    hide HeldFor, LeftOf;
    var x := Command(|w.accepted|, c, token, 0, b);
    AddKeeps(w.(accepted := w.accepted + [CardOf(x)]), x, left);
  }

  lemma TakenOffKeeps(w: World, i: nat, left: map<nat, map<nat, bytes>>)
    requires Held(w, left) && i < |w.commands| && Earliest(w.commands, i) && w.commands[i].client in w.clients
    ensures Held(TakenOff(w, i), left)
  {
    hide HeldFor;
    var x := w.commands[i];
    var w' := TakenOff(w, i);
    forall c | c in w'.clients && w'.clients[c].persistent
      ensures HeldFor(w'.commands, w'.clients[c], c, LeftOf(left, c))
    {
      assert HeldFor(w.commands, w.clients[c], c, LeftOf(left, c));
      OneTakenOff(w.commands, i, w.clients[c], c, LeftOf(left, c));
    }
  }

  lemma OneTakenOff(s: seq<Command>, i: nat, cl: Client, c: nat, left: map<nat, bytes>)
    requires HeldFor(s, cl, c, left) && i < |s| && Earliest(s, i) && Plain(s[i])
    ensures s[i].client == c ==> HeldFor(Without(s, i), cl.(store := cl.store - {s[i].seqno}), c, left)
    ensures s[i].client != c ==> HeldFor(Without(s, i), cl, c, left)
  {
    hide StoreOf, Growing, StoredOf, Mixed;
    var x := s[i];
    StoredWithout(s, i, c);
    StoredOne(x, c);
    assert StoredOf(s[..i], c) + [] == StoredOf(s[..i], c);
    if x.client == c {
      StoredNone(s[..i], c);
      var q := StoredOf(s[i + 1..], c);
      assert [] + StoredOf([x], c) + q == StoredOf([x], c) + q && [] + q == q;
      if IsStored(x.body) {
        FirstTaken(x, q, cl, left);
      } else {
        StoreKeys(q, cl.seqno);
        assert StoreOf(q) - {0} == StoreOf(q);
        MixedWithout(cl.store, StoreOf(q), cl.seqno, left, 0);
      }
    }
  }

  lemma FirstTaken(x: Command, q: seq<Command>, cl: Client, left: map<nat, bytes>)
    requires Growing([x] + q, cl.seqno) && Mixed(cl.store, StoreOf([x] + q), cl.seqno, left)
    ensures Growing(q, cl.seqno) && Mixed(cl.store - {x.seqno}, StoreOf(q), cl.seqno, left)
  {
    hide StoreOf, Mixed;
    StoreOfTail(x, q, cl.seqno);
    GrowingTail(x, q, cl.seqno);
    assert ([x] + q)[0] == x;
    MixedWithout(cl.store, StoreOf([x] + q), cl.seqno, left, x.seqno);
  }

  lemma CleanSessionKeeps(w: World, c: nat, left: map<nat, map<nat, bytes>>)
    requires Held(w, left) && c in w.clients
    ensures Held(CleanSession(w, c), left)
  {
    hide StoredOf, LeftOf;
    var w' := CleanSession(w, c);
    OthersPlain(w.commands, c);
    assert StoreOf([]) == map[];
    forall d | d in w'.clients && w'.clients[d].persistent
      ensures HeldFor(w'.commands, w'.clients[d], d, LeftOf(left, d))
    {
      assert HeldFor(w.commands, w.clients[d], d, LeftOf(left, d));
      StoredOthers(w.commands, c, d);
    }
  }

  /** Changing a client in what does not concern its store. */
  predicate SameStore(a: Client, b: Client) {
    a.persistent == b.persistent && a.seqno == b.seqno && a.store == b.store && (a.version < 5 ==> b.version < 5)
  }

  lemma ClientKeeps(w: World, c: nat, cl: Client, left: map<nat, map<nat, bytes>>)
    requires Held(w, left) && c in w.clients && SameStore(w.clients[c], cl)
    ensures Held(w.(clients := w.clients[c := cl]), left)
  {
    hide StoredOf, StoreOf, Growing, Mixed, LeftOf;
  }


  lemma CloseSessionKeeps(w: World, c: nat, left: map<nat, map<nat, bytes>>)
    requires Held(w, left) && c in w.clients
    ensures Held(CloseSession(w, c), left)
  {
    hide Held, CleanSession;
    ClientKeeps(w, c, w.clients[c].(connected := false, state := NotInProgress), left);
    CleanSessionKeeps(Closed(w, c), c, left);
  }

  lemma AskDisconnectKeeps(w: World, c: nat, internal: bool, left: map<nat, map<nat, bytes>>)
    requires Held(w, left) && c in w.clients && (internal || InKeys(AskDisconnect(w, c, internal)))
    ensures Held(AskDisconnect(w, c, internal), left)
  {
    hide Held, Accept, InKeys;
    var cl := w.clients[c].(shouldBeConnected := false);
    var w' := if internal then w else w.(clients := w.clients[c := cl]);
    ClientKeeps(w, c, cl, left);
    if w.clients[c].connected { AcceptKeeps(w', c, 0, Disconnect(internal), left); }
  }

  /** The ledger does not matter. */
  lemma LedgerApart(w: World, v: World, left: map<nat, map<nat, bytes>>)
    requires Held(w, left) && v.commands == w.commands && v.clients == w.clients
    ensures Held(v, left)
  {
    hide HeldFor, Plain, LeftOf;
  }

  lemma RunConnectKeeps(w: World, x: Command, o: Outcome, left: map<nat, map<nat, bytes>>)
    requires Held(w, left) && x.client in w.clients && x.body.Connect? && Plain(x)
    ensures Held(RunConnect(w, x, o), left)
  {
    hide Held, Add, MoreToTry, NextAttempt, Tried;
    var c := x.client;
    var cl := w.clients[c];
    var a := Attempt(x.body.uri, x.body.version);
    if cl.state != NotInProgress || cl.connected {
      ClientKeeps(w, c, cl.(connect := a), left);
      LedgerApart(SetConnect(w, c, a), RunConnect(w, x, o), left);
    } else {
      var t := Tried(cl, a);
      if o.connecting && o.rc != SocketError && o.rc != PersistenceError {
        var cl' := cl.(state := InProgress, connect := t);
        ClientKeeps(w, c, cl', left);
        LedgerApart(w.(clients := w.clients[c := cl']), RunConnect(w, x, o), left);
      } else {
        var cl' := cl.(state := if o.connecting then InProgress else NotInProgress, shouldBeConnected := true);
        var w' := w.(clients := w.clients[c := cl']);
        ClientKeeps(w, c, cl', left);
        if MoreToTry(cl', t) {
          var next := NextAttempt(cl', t);
          AddKeeps(w', x.(body := Connect(next.uri, next.version)), left);
        } else {
          ClientKeeps(w', c, cl'.(connect := t), left);
          LedgerApart(SetConnect(w', c, t), RunConnect(w, x, o), left);
        }
      }
    }
  }

  lemma RunDisconnectKeeps(w: World, x: Command, o: Outcome, left: map<nat, map<nat, bytes>>)
    requires Held(w, left) && x.client in w.clients
    ensures Held(RunDisconnect(w, x, o), left)
  {
    hide Held, CloseSession;
    var c := x.client;
    var cl := w.clients[c];
    if cl.state == NotInProgress && !cl.connected {
      LedgerApart(w, Completed(w, x), left);
    } else {
      ClientKeeps(w, c, cl.(state := Disconnecting), left);
      var w' := if cl.state != NotInProgress then w.(clients := w.clients[c := cl.(state := Disconnecting)]) else w;
      CloseSessionKeeps(w', c, left);
      LedgerApart(if cl.outbound == 0 || o.timedOut then CloseSession(w', c) else w', RunDisconnect(w, x, o), left);
    }
  }

  lemma RunRequestKeeps(w: World, x: Command, o: Outcome, left: map<nat, map<nat, bytes>>)
    requires Held(w, left) && x.client in w.clients && IsStored(x.body)
    ensures Held(RunRequest(w, x, o), left)
  {
    hide Held, AskDisconnect;
    var c := x.client;
    var cl := w.clients[c].(outbound := o.outbound);
    var w' := w.(clients := w.clients[c := cl]);
    ClientKeeps(w, c, cl, left);
    AskDisconnectKeeps(w', c, true, left);
    LedgerApart(w', Completed(w', x), left);
    LedgerApart(w', Awaiting(w', x), left);
    LedgerApart(AskDisconnect(w', c, true), Completed(AskDisconnect(w', c, true), x), left);
  }

  lemma ProcessKeeps(w: World, blocked: set<nat>, o: Outcome, left: map<nat, map<nat, bytes>>)
    requires Held(w, left) && Known(w.commands, w.clients)
    ensures Held(Process(w, blocked, o), left)
  {
    hide Pick, RunConnect, RunDisconnect, RunRequest, Earliest, Eligible;
    var i := Pick(w, blocked);
    if i < |w.commands| {
      PahoTheory.PickIs(w, blocked, i);
      var x := w.commands[i];
      TakenOffKeeps(w, i, left);
      assert Plain(x);
      var w' := TakenOff(w, i);
      assert x.client in w'.clients;
      if x.body.Connect? {
        RunConnectKeeps(w', x, o, left);
      } else if x.body.Disconnect? {
        RunDisconnectKeeps(w', x, o, left);
      } else {
        RunRequestKeeps(w', x, o, left);
      }
    }
  }

  /** A step below MQTT version 5, whose names are C strings and whose lengths are C ints. */
  predicate Below5(s: Step) {
    match s
    case Connects(_, _, version) => version < 5
    case Sends(_, b, _, _) => BodyFits(b)
    case Requests(_, b, _, _) => BodyFits(b)
    case _ => true
  }

  lemma WithIdKeeps(w: World, c: nat, left: map<nat, map<nat, bytes>>)
    requires Held(w, left) && c in w.clients
    ensures Held(WithId(w, c), left)
  {
    hide Held, AssignedId;
    ClientKeeps(w, c, w.clients[c].(msgId := AssignedId(w, c)), left);
  }

  lemma CallKeeps(w: World, s: Step, left: map<nat, map<nat, bytes>>)
    requires Held(w, left) && Below5(s) && Known(w.commands, w.clients) && InKeys(Next(w, s))
    requires s.Sends? || s.Requests?
    ensures Held(Next(w, s), left)
  {
    hide Held, InKeys, AssignedId, Accept, Buffered, BodyFits, Known;
    var c := s.client;
    if c in w.clients {
      WithIdKeeps(w, c, left);
      var u := WithId(w, c);
      if Next(w, s) == Accept(w, c, 0, s.body) && !AtHead(s.body) {
        AcceptKeeps(w, c, 0, s.body, left);
      }
      if Next(w, s) == Accept(u, c, AssignedId(w, c), s.body) && !AtHead(s.body) {
        AcceptKeeps(u, c, AssignedId(w, c), s.body, left);
      }
    }
  }

  lemma ConnectKeeps(w: World, s: Step, left: map<nat, map<nat, bytes>>)
    requires Held(w, left) && Below5(s) && Known(w.commands, w.clients)
    requires s.Connects? || s.ConnAcks? || s.ConnectFails? || s.Reconnects?
    ensures Held(Next(w, s), left)
  {
    hide Held, Accept, CleanSession, CloseSession, MoreToTry, NextAttempt, Known;
    if s.client in w.clients {
      var c := s.client;
      var cl := w.clients[c];
      match s
      case Connects(_, uris, version) =>
        var cl' := cl.(shouldBeConnected := true, uris := uris, version := version);
        ClientKeeps(w, c, cl', left);
        AcceptKeeps(w.(clients := w.clients[c := cl']), c, 0, Connect(0, 0), left);
      case ConnAcks(_, clean) =>
        var cl' := cl.(connected := true, state := NotInProgress);
        ClientKeeps(w, c, cl', left);
        CleanSessionKeeps(w.(clients := w.clients[c := cl']), c, left);
      case ConnectFails(_) =>
        var next := NextAttempt(cl, cl.connect);
        ClientKeeps(w, c, cl.(connected := false, state := NotInProgress), left);
        AcceptKeeps(Closed(w, c), c, 0, Connect(next.uri, next.version), left);
        CloseSessionKeeps(w, c, left);
      case Reconnects(_) =>
        AcceptKeeps(w, c, 0, Connect(cl.connect.uri, if cl.version == 0 then 0 else cl.connect.version), left);
    }
  }

  /** Every step below version 5 that numbers its command within the keys keeps the store as described. */
  lemma NextHolds(w: World, s: Step, left: map<nat, map<nat, bytes>>)
    requires Held(w, left) && Below5(s) && Known(w.commands, w.clients) && InKeys(Next(w, s))
    ensures Held(Next(w, s), left)
  {
    hide Held, InKeys, Process, AskDisconnect, CloseSession, Send, Request, AskConnect, Connected, NextOrClose;
    hide Reconnect, Known, Below5;
    if s.Processes? {
      ProcessKeeps(w, s.blocked, s.outcome, left);
    } else if s.Sends? || s.Requests? {
      CallKeeps(w, s, left);
    } else if s.Connects? || s.ConnAcks? || s.ConnectFails? || s.Reconnects? {
      ConnectKeeps(w, s, left);
    } else if s.client in w.clients {
      match s
      case Disconnects(c) => AskDisconnectKeeps(w, c, false, left);
      case LosesConnection(c) => AskDisconnectKeeps(w, c, true, left);
      case Acks(c, token) =>
        assert Acknowledge(w, c, token).commands == w.commands;
        assert Acknowledge(w, c, token).clients == w.clients;
        LedgerApart(w, Acknowledge(w, c, token), left);
      case Closes(c) => CloseSessionKeeps(w, c, left);
      case InFlight(c, outbound) => ClientKeeps(w, c, w.clients[c].(outbound := outbound), left);
    }
  }

  /** And it keeps a store that started empty equal to the queue. */
  lemma NextKeeps(w: World, s: Step)
    requires Kept(w) && Below5(s) && Known(w.commands, w.clients) && InKeys(Next(w, s))
    ensures Kept(Next(w, s))
  {
    hide Kept, Held, Next, InKeys;
    HeldKept(w);
    NextHolds(w, s, map[]);
    HeldKept(Next(w, s));
  }

  // ---------------------------------------------------------------- runs

  /** A run below version 5 that gives out only numbers that make a key. */
  ghost predicate Run5(w: World, steps: seq<Step>)
    requires PahoTheory.Sound(w, [])
    decreases |steps|
  {
    steps == [] ||
    (var v := PahoTheory.SoundNext(w, steps[0]);
     Below5(steps[0]) && InKeys(v) && PahoTheory.Sound(v, []) && Run5(v, steps[1..]))
  }

  /** Over any run below version 5 whose numbers make keys: the store of every persistent client is the
      records of its queued commands, numbered in queue order. */
  lemma {:induction false} StoreIsQueue(w: World, steps: seq<Step>)
    requires PahoTheory.Sound(w, []) && Kept(w) && Run5(w, steps)
    ensures Kept(PahoTheory.After(w, steps))
    decreases |steps|
  {
    hide Kept, Below5, Next, PahoTheory.Sound, InKeys;
    if steps != [] {
      SoundNextIs(w, steps[0]);
      NextKeeps(w, steps[0]);
      PahoTheory.NextKeeps(w, steps[0]);
      StoreIsQueue(PahoTheory.SoundNext(w, steps[0]), steps[1..]);
    }
  }

  /** Over such a run from stores that were not empty, as a client meets them whose commands were not
      restored: the queue's records, and besides them only old ones, which are all there above the numbers
      given out unless a clean session has cleared the store. */
  lemma {:induction false} StoreHoldsQueue(w: World, steps: seq<Step>, left: map<nat, map<nat, bytes>>)
    requires PahoTheory.Sound(w, []) && Held(w, left) && Run5(w, steps)
    ensures Held(PahoTheory.After(w, steps), left)
    decreases |steps|
  {
    hide Held, Below5, Next, PahoTheory.Sound, InKeys;
    if steps != [] {
      SoundNextIs(w, steps[0]);
      NextHolds(w, steps[0], left);
      PahoTheory.NextKeeps(w, steps[0]);
      StoreHoldsQueue(PahoTheory.SoundNext(w, steps[0]), steps[1..], left);
    }
  }

  lemma SoundNextIs(w: World, s: Step)
    requires PahoTheory.Sound(w, [])
    ensures Known(w.commands, w.clients) && PahoTheory.SoundNext(w, s) == Next(w, s)
  {
    hide Next;
  }
}
