/** What every run of the asynchronous client keeps: each accepted command is in exactly one
    place, tokens in use are pairwise different, and each client's commands leave the queue in the
    order in which they were appended. */
module PahoTheory {
  import opened Bytes
  import opened Common
  import opened PahoRecord
  import opened PahoQueue

  // ---------------------------------------------------------------- bags of cards

  function Bag(s: seq<Command>): multiset<Card> {
    multiset(Cards(s))
  }

  lemma BagSum(a: seq<Command>, b: seq<Command>)
    ensures Bag(a + b) == Bag(a) + Bag(b)
  {
    assert Cards(a + b) == Cards(a) + Cards(b);
  }

  lemma BagOne(x: Command)
    ensures Bag([x]) == multiset{CardOf(x)}
  {
    assert Cards([x]) == [CardOf(x)];
  }

  lemma BagWithout(s: seq<Command>, i: nat)
    requires i < |s|
    ensures Bag(s) == Bag(Without(s, i)) + multiset{CardOf(s[i])}
  {
    hide Bag;
    assert s == s[..i] + [s[i]] + s[i + 1..];
    BagSum(s[..i] + [s[i]], s[i + 1..]);
    BagSum(s[..i], [s[i]]);
    BagSum(s[..i], s[i + 1..]);
    BagOne(s[i]);
  }

  lemma {:induction false} BagSplit(s: seq<Command>, c: nat)
    ensures Bag(s) == Bag(Mine(s, c)) + Bag(Others(s, c))
  {
    if s == [] {
      assert Cards(s) == [];
    } else {
      hide Bag;
      assert s == [s[0]] + s[1..];
      BagSum([s[0]], s[1..]);
      BagSplit(s[1..], c);
      if s[0].client == c {
        BagSum([s[0]], Mine(s[1..], c));
      } else {
        BagSum([s[0]], Others(s[1..], c));
      }
    }
  }

  lemma InBag(s: seq<Command>, k: nat)
    requires k < |s|
    ensures CardOf(s[k]) in Bag(s)
  {
    assert Cards(s)[k] == CardOf(s[k]);
  }

  lemma FromBag(s: seq<Command>, a: Card) returns (k: nat)
    requires a in Bag(s)
    ensures k < |s| && CardOf(s[k]) == a
  {
    assert a in Cards(s);
    k :| k < |Cards(s)| && Cards(s)[k] == a;
  }

  // ---------------------------------------------------------------- the invariant

  /** Every accepted command is queued, awaited, completed or in hand: once, and in one place. */
  ghost predicate Ledger(w: World, hand: seq<Command>) {
    && Bag(w.commands) + Bag(w.responses) + Bag(w.done) + Bag(hand) == multiset(w.accepted)
    && forall i :: 0 <= i < |w.accepted| ==> w.accepted[i].serial == i
  }

  ghost predicate TokensApart(m: multiset<Card>) {
    forall a, b :: a in m && b in m && a.client == b.client && a.token == b.token && a.token != 0 ==> a == b
  }

  /** Commands that are queued, awaited or in hand. */
  function Live(w: World, hand: seq<Command>): multiset<Card> {
    Bag(w.commands) + Bag(w.responses) + Bag(hand)
  }

  /** Appended commands of one client stand in the order of their acceptance. */
  ghost predicate InOrder(s: seq<Command>) {
    forall i, j :: 0 <= i < j < |s| && s[i].client == s[j].client && !AtHead(s[i].body) && !AtHead(s[j].body)
      ==> s[i].serial < s[j].serial
  }

  /** First what was sent, then what is queued. */
  ghost predicate Fifo(w: World) {
    && InOrder(w.dispatched + w.commands)
    && forall k :: 0 <= k < |w.dispatched| ==> w.dispatched[k].serial < |w.accepted|
  }

  ghost predicate Sound(w: World, hand: seq<Command>) {
    && Ledger(w, hand)
    && TokensApart(Live(w, hand))
    && Fifo(w)
    && Known(w.commands, w.clients)
  }

  // ---------------------------------------------------------------- what the invariant says

  lemma {:induction false} SerialsOnce(acc: seq<Card>, a: Card)
    requires forall i :: 0 <= i < |acc| ==> acc[i].serial == i
    ensures multiset(acc)[a] == if a.serial < |acc| && acc[a.serial] == a then 1 else 0
  {
    if acc != [] {
      var n := |acc| - 1;
      SerialsOnce(acc[..n], a);
      assert acc == acc[..n] + [acc[n]];
    }
  }

  /** A command that was accepted is in exactly one of queue, responses and completed, once. */
  lemma ExactlyOnce(w: World, i: nat)
    requires Sound(w, []) && i < |w.accepted|
    ensures Bag(w.commands)[w.accepted[i]] + Bag(w.responses)[w.accepted[i]] + Bag(w.done)[w.accepted[i]] == 1
  {
    hide InOrder, TokensApart;
    assert Bag([]) == multiset{};
    SerialsOnce(w.accepted, w.accepted[i]);
  }

  /** Two places in a client's queue and responses never hold the same non-zero token. */
  lemma TokensDiffer(w: World, i: nat, j: nat)
    requires Sound(w, [])
    requires var live := w.commands + w.responses;
             i < j < |live| && live[i].client == live[j].client && live[i].token != 0
    ensures (w.commands + w.responses)[i].token != (w.commands + w.responses)[j].token
  {
    hide InOrder;
    var live := w.commands + w.responses;
    var a, b := CardOf(live[i]), CardOf(live[j]);
    BagSum(w.commands, w.responses);
    assert Bag([]) == multiset{};
    InBag(live, i);
    InBag(live, j);
    assert a in Live(w, []) && b in Live(w, []);
    SerialsOnce(w.accepted, a);
    if a == b {
      TwiceInBag(live, i, j);
    }
  }

  lemma TwiceInBag(s: seq<Command>, i: nat, j: nat)
    requires i < j < |s| && CardOf(s[i]) == CardOf(s[j])
    ensures Bag(s)[CardOf(s[i])] >= 2
  {
    hide Bag;
    BagWithout(s, j);
    assert Without(s, j)[i] == s[i];
    InBag(Without(s, j), i);
  }

  /** A client's appended commands were sent in the order in which they were accepted. */
  lemma SentInOrder(w: World, i: nat, j: nat)
    requires Sound(w, []) && i < j < |w.dispatched|
    requires w.dispatched[i].client == w.dispatched[j].client
    requires !AtHead(w.dispatched[i].body) && !AtHead(w.dispatched[j].body)
    ensures w.dispatched[i].serial < w.dispatched[j].serial
  {
    var s := w.dispatched + w.commands;
    assert s[i] == w.dispatched[i] && s[j] == w.dispatched[j];
  }

  // ---------------------------------------------------------------- order

  lemma InOrderAppend(s: seq<Command>, x: Command)
    requires InOrder(s)
    requires forall k :: 0 <= k < |s| && s[k].client == x.client && !AtHead(s[k].body) && !AtHead(x.body)
               ==> s[k].serial < x.serial
    ensures InOrder(s + [x])
  {
  }

  lemma InOrderHead(d: seq<Command>, q: seq<Command>, x: Command)
    requires InOrder(d + q) && AtHead(x.body)
    ensures InOrder(d + ([x] + q))
  {
    var s, t := d + q, d + ([x] + q);
    forall i, j | 0 <= i < j < |t| && t[i].client == t[j].client && !AtHead(t[i].body) && !AtHead(t[j].body)
      ensures t[i].serial < t[j].serial
    {
      var i' := if i < |d| then i else i - 1;
      var j' := if j < |d| then j else j - 1;
      assert t[i] == s[i'] && t[j] == s[j'];
    }
  }

  lemma InOrderTake(d: seq<Command>, q: seq<Command>, k: nat)
    requires InOrder(d + q) && k < |q| && Earliest(q, k)
    ensures InOrder((d + [q[k]]) + Without(q, k))
  {
    var s, t := d + q, (d + [q[k]]) + Without(q, k);
    forall i, j | 0 <= i < j < |t| && t[i].client == t[j].client && !AtHead(t[i].body) && !AtHead(t[j].body)
      ensures t[i].serial < t[j].serial
    {
      var i' := Before(|d|, k, i);
      var j' := Before(|d|, k, j);
      assert t[i] == s[i'] && t[j] == s[j'];
    }
  }

  /** Where the entry at `i` stood before the entry at `n + k` was moved to `n`. */
  function Before(n: nat, k: nat, i: nat): nat {
    if i < n then i else if i == n then n + k else if i <= n + k then i - 1 else i
  }

  lemma InOrderDrop(d: seq<Command>, x: Command, q: seq<Command>)
    requires InOrder(d + ([x] + q))
    ensures InOrder(d + q)
  {
    var s, t := d + ([x] + q), d + q;
    forall i, j | 0 <= i < j < |t| && t[i].client == t[j].client && !AtHead(t[i].body) && !AtHead(t[j].body)
      ensures t[i].serial < t[j].serial
    {
      var i' := if i < |d| then i else i + 1;
      var j' := if j < |d| then j else j + 1;
      assert t[i] == s[i'] && t[j] == s[j'];
    }
  }

  lemma {:induction false} InOrderOthers(d: seq<Command>, q: seq<Command>, c: nat)
    requires InOrder(d + q)
    ensures InOrder(d + Others(q, c))
    decreases |q|
  {
    hide InOrder;
    if q != [] {
      assert q == [q[0]] + q[1..];
      if q[0].client == c {
        InOrderDrop(d, q[0], q[1..]);
        InOrderOthers(d, q[1..], c);
      } else {
        assert d + q == (d + [q[0]]) + q[1..];
        InOrderOthers(d + [q[0]], q[1..], c);
        assert d + ([q[0]] + Others(q[1..], c)) == (d + [q[0]]) + Others(q[1..], c);
      }
    }
  }

  // ---------------------------------------------------------------- each change keeps it

  /** No appended command of the client is as new. */
  ghost predicate Newest(w: World, x: Command) {
    forall k :: 0 <= k < |w.dispatched + w.commands| ==>
      var y := (w.dispatched + w.commands)[k];
      y.client == x.client && !AtHead(y.body) ==> y.serial < x.serial
  }

  lemma SerialBound(w: World, hand: seq<Command>, a: Card)
    requires Ledger(w, hand) && (a in Live(w, hand) || a in Bag(w.done))
    ensures a.serial < |w.accepted| && w.accepted[a.serial] == a
  {
    hide Bag;
    assert a in multiset(w.accepted);
    assert a in w.accepted;
  }

  /** The newest serial is the newest. */
  lemma NextIsNewest(w: World, hand: seq<Command>, x: Command)
    requires Sound(w, hand) && x.serial >= |w.accepted|
    ensures Newest(w, x)
  {
    hide InOrder, Ledger, TokensApart;
    var s := w.dispatched + w.commands;
    forall k | 0 <= k < |s|
      ensures s[k].serial < |w.accepted|
    {
      if k >= |w.dispatched| {
        InBag(w.commands, k - |w.dispatched|);
        SerialBound(w, hand, CardOf(s[k]));
      }
    }
  }

  lemma AddKeeps(w: World, x: Command, hand: seq<Command>)
    requires Sound(w, [x] + hand) && x.client in w.clients
    requires !AtHead(x.body) ==> Newest(w, x)
    ensures Sound(Add(w, x), hand)
    ensures Add(w, x).accepted == w.accepted && Add(w, x).dispatched == w.dispatched
    ensures Add(w, x).clients.Keys == w.clients.Keys
  {
    if AtHead(x.body) {
      AddHeadKeeps(w, x, hand);
    } else {
      AddLastKeeps(w, x, hand);
    }
  }

  lemma AddHeadKeeps(w: World, x: Command, hand: seq<Command>)
    requires Sound(w, [x] + hand) && x.client in w.clients && AtHead(x.body)
    ensures Sound(Add(w, x), hand)
  {
    hide Bag, TokensApart, InOrder;
    BagSum([x], hand);
    BagOne(x);
    var w' := Add(w, x);
    if w'.commands == w.commands {
      BagSum(w.done, [x]);
      ApartLess(Live(w, [x] + hand), Live(w', hand));
    } else {
      BagSum([x], w.commands);
      InOrderHead(w.dispatched, w.commands, x);
      assert Live(w', hand) == Live(w, [x] + hand);
    }
  }

  lemma AddLastKeeps(w: World, x: Command, hand: seq<Command>)
    requires Sound(w, [x] + hand) && x.client in w.clients && !AtHead(x.body) && Newest(w, x)
    ensures Sound(Add(w, x), hand)
  {
    hide Bag, TokensApart, InOrder;
    BagSum([x], hand);
    BagOne(x);
    var cl := w.clients[x.client];
    var w' := Add(w, x);
    var y := if cl.persistent then PersistedCommand(cl, x) else x;
    BagSum(w.commands, [y]);
    BagOne(y);
    assert w.dispatched + (w.commands + [y]) == (w.dispatched + w.commands) + [y];
    assert InOrder((w.dispatched + w.commands) + [y]) by {
      InOrderAppend(w.dispatched + w.commands, y);
    }
    assert Live(w', hand) == Live(w, [x] + hand);
  }

  lemma ApartLess(m: multiset<Card>, n: multiset<Card>)
    requires TokensApart(m) && n <= m
    ensures TokensApart(n)
  {
    assert forall a :: a in n ==> a in m;
  }

  /** The token of a new command: none, or one that assignMsgId found free. */
  ghost predicate FreshToken(w: World, hand: seq<Command>, c: nat, token: MsgId) {
    token == 0 || (hand == [] && !Taken(w, c, token))
  }

  lemma AcceptKeeps(w: World, c: nat, token: MsgId, b: Body, hand: seq<Command>)
    requires Sound(w, hand) && c in w.clients && FreshToken(w, hand, c, token)
    ensures Sound(Accept(w, c, token, b), hand)
    ensures Accept(w, c, token, b).clients.Keys == w.clients.Keys
    ensures Accept(w, c, token, b).dispatched == w.dispatched
  {
    hide Bag, InOrder;
    var x := Command(|w.accepted|, c, token, 0, b);
    var w1 := w.(accepted := w.accepted + [CardOf(x)]);
    NextIsNewest(w, hand, x);
    BagSum([x], hand);
    BagOne(x);
    assert Live(w1, [x] + hand) == Live(w, hand) + multiset{CardOf(x)};
    forall a | a in Live(w, hand) && a.client == c && a.token == token && token != 0
      ensures false
    {
      FreshTokenMeans(w, c, token, a);
    }
    assert TokensApart(Live(w1, [x] + hand));
    assert Ledger(w1, [x] + hand);
    assert Newest(w1, x);
    AddKeeps(w1, x, hand);
  }

  lemma FreshTokenMeans(w: World, c: nat, token: MsgId, a: Card)
    requires !Taken(w, c, token) && a in Live(w, []) && a.client == c
    ensures a.token != token
  {
    assert Bag([]) == multiset{};
    if a in Bag(w.commands) {
      var k := FromBag(w.commands, a);
    } else {
      var k := FromBag(w.responses, a);
    }
  }

  lemma TakenOffKeeps(w: World, i: nat)
    requires Sound(w, []) && i < |w.commands| && Earliest(w.commands, i)
    ensures Sound(TakenOff(w, i), [w.commands[i]])
    ensures TakenOff(w, i).clients.Keys == w.clients.Keys
  {
    hide InOrder, TokensApart, Earliest;
    var x := w.commands[i];
    var w' := TakenOff(w, i);
    BagWithout(w.commands, i);
    BagOne(x);
    assert Bag([]) == multiset{};
    assert Live(w', [x]) == Live(w, []);
    InOrderTake(w.dispatched, w.commands, i);
    InBag(w.commands, i);
    SerialBound(w, [], CardOf(x));
  }

  lemma CompletedKeeps(w: World, x: Command, y: Command, hand: seq<Command>)
    requires Sound(w, [x] + hand) && CardOf(y) == CardOf(x)
    ensures Sound(Completed(w, y), hand)
  {
    hide Bag, InOrder, TokensApart;
    BagSum([x], hand);
    BagOne(x);
    BagOne(y);
    BagSum(w.done, [y]);
    ApartLess(Live(w, [x] + hand), Live(w, hand));
  }

  lemma AwaitingKeeps(w: World, x: Command)
    requires Sound(w, [x])
    ensures Sound(Awaiting(w, x), [])
  {
    hide InOrder, TokensApart;
    BagSum(w.responses, [x]);
    assert Bag([]) == multiset{};
    assert Live(Awaiting(w, x), []) == Live(w, [x]);
  }

  lemma KnownOthers(s: seq<Command>, clients: map<nat, Client>, c: nat)
    requires Known(s, clients)
    ensures Known(Others(s, c), clients)
  {
    if s != [] {
      assert Known(s[1..], clients);
      KnownOthers(s[1..], clients, c);
    }
  }

  lemma RemovedKeeps(w: World, c: nat, hand: seq<Command>)
    requires Sound(w, hand)
    ensures Sound(Removed(w, c), hand)
  {
    hide Bag, InOrder, TokensApart, Known;
    var w' := Removed(w, c);
    BagSplit(w.commands, c);
    BagSplit(w.responses, c);
    BagSum(w.done + Mine(w.responses, c), Mine(w.commands, c));
    BagSum(w.done, Mine(w.responses, c));
    ApartLess(Live(w, hand), Live(w', hand));
    InOrderOthers(w.dispatched, w.commands, c);
    KnownOthers(w.commands, w.clients, c);
  }

  /** Nothing of a client is left behind. */
  lemma {:induction false} OthersOnly(s: seq<Command>, c: nat, k: nat)
    requires k < |Others(s, c)|
    ensures Others(s, c)[k].client != c
  {
    if s[0].client != c {
      if k > 0 {
        OthersOnly(s[1..], c, k - 1);
      }
    } else {
      OthersOnly(s[1..], c, k);
    }
  }

  /** Changing clients other than by forgetting one keeps it. */
  lemma ClientsKeep(w: World, clients: map<nat, Client>, hand: seq<Command>)
    requires Sound(w, hand) && w.clients.Keys <= clients.Keys
    ensures Sound(w.(clients := clients), hand)
  {
    hide Bag, InOrder, TokensApart;
    assert Live(w.(clients := clients), hand) == Live(w, hand);
  }

  lemma AcknowledgeKeeps(w: World, c: nat, token: nat)
    requires Sound(w, [])
    ensures Sound(Acknowledge(w, c, token), [])
  {
    hide Bag, InOrder, TokensApart, FindToken;
    var i := FindToken(w.responses, c, token);
    if i < |w.responses| {
      var x := w.responses[i];
      var w' := Acknowledge(w, c, token);
      BagWithout(w.responses, i);
      BagOne(x);
      BagSum(w.done, [x]);
      ApartLess(Live(w, []), Live(w', []));
    }
  }

  // ---------------------------------------------------------------- which command is picked

  /** The client has a command before `i`. */
  predicate Seen(s: seq<Command>, i: nat, c: nat)
    requires i <= |s|
  {
    exists k :: 0 <= k < i && s[k].client == c
  }

  lemma SeenNext(s: seq<Command>, i: nat, c: nat)
    requires i < |s|
    ensures Seen(s, i + 1, c) <==> Seen(s, i, c) || s[i].client == c
  {
  }

  /** No earliest command before `i` may be sent. */
  predicate PassedOver(s: seq<Command>, clients: map<nat, Client>, blocked: set<nat>, i: nat)
    requires i <= |s| && Known(s, clients)
  {
    forall k :: 0 <= k < i && Earliest(s, k) ==> !Eligible(clients, s[k], blocked)
  }

  lemma PassedOverNext(s: seq<Command>, clients: map<nat, Client>, blocked: set<nat>, i: nat)
    requires i < |s| && Known(s, clients) && PassedOver(s, clients, blocked, i)
    requires Earliest(s, i) ==> !Eligible(clients, s[i], blocked)
    ensures PassedOver(s, clients, blocked, i + 1)
  {
    hide Earliest, Eligible;
  }

  /** The clients passed over so far. */
  ghost predicate AllSeen(s: seq<Command>, i: nat, ignored: set<nat>)
    requires i <= |s|
  {
    forall c :: c in ignored <==> Seen(s, i, c)
  }

  lemma AllSeenNext(s: seq<Command>, i: nat, ignored: set<nat>)
    requires i < |s| && AllSeen(s, i, ignored)
    ensures AllSeen(s, i + 1, ignored + {s[i].client})
    ensures s[i].client in ignored <==> !Earliest(s, i)
  {
    assert s[i].client in ignored <==> Seen(s, i, s[i].client);
    forall c
      ensures c in ignored + {s[i].client} <==> Seen(s, i + 1, c)
    {
      SeenNext(s, i, c);
      assert c in ignored <==> Seen(s, i, c);
    }
  }

  lemma {:induction false} PickFromIs(s: seq<Command>, clients: map<nat, Client>, blocked: set<nat>, ignored: set<nat>, i: nat)
    requires i <= |s| && Known(s, clients)
    requires AllSeen(s, i, ignored) && PassedOver(s, clients, blocked, i)
    ensures var r := PickFrom(s, clients, blocked, ignored, i);
            PassedOver(s, clients, blocked, r) && (r < |s| ==> Earliest(s, r) && Eligible(clients, s[r], blocked))
    decreases |s| - i
  {
    hide Eligible, Earliest, AllSeen, PassedOver;
    if i < |s| {
      AllSeenNext(s, i, ignored);
      if s[i].client in ignored {
        PassedOverNext(s, clients, blocked, i);
        assert ignored + {s[i].client} == ignored;
        PickFromIs(s, clients, blocked, ignored, i + 1);
      } else if !Eligible(clients, s[i], blocked) {
        PassedOverNext(s, clients, blocked, i);
        PickFromIs(s, clients, blocked, ignored + {s[i].client}, i + 1);
      }
    }
  }

  /** The command picked is the first that is its client's earliest and may be sent; none is picked
      only if no client's earliest command may be sent.  No client waits for another's. */
  lemma PickIs(w: World, blocked: set<nat>, i: nat)
    requires Known(w.commands, w.clients) && i <= |w.commands|
    ensures i == Pick(w, blocked) <==>
            && (i < |w.commands| ==> Earliest(w.commands, i) && Eligible(w.clients, w.commands[i], blocked))
            && forall k :: 0 <= k < i && Earliest(w.commands, k) ==> !Eligible(w.clients, w.commands[k], blocked)
  {
    hide Eligible, PickFrom, Earliest;
    assert AllSeen(w.commands, 0, {});
    PickFromIs(w.commands, w.clients, blocked, {}, 0);
  }

  // ---------------------------------------------------------------- runs

  lemma FreeIdKeeps(w: World, c: nat, start: MsgId, id: MsgId, fuel: nat)
    ensures var r := Search(w, c, start, id, fuel); r == 0 || !Taken(w, c, r)
    decreases fuel
  {
    if Taken(w, c, id) && !(Succ(id) == start || fuel == 0) {
      FreeIdKeeps(w, c, start, Succ(id), fuel - 1);
    }
  }

  lemma WithIdKeeps(w: World, c: nat)
    requires Sound(w, []) && c in w.clients
    ensures Sound(WithId(w, c), []) && FreshToken(WithId(w, c), [], c, AssignedId(w, c))
    ensures WithId(w, c).clients.Keys == w.clients.Keys
  {
    hide Ledger, Fifo, TokensApart;
    var start := w.clients[c].msgId;
    FreeIdKeeps(w, c, start, Succ(start), MAX_MSG_ID - 1);
    ClientsKeep(w, WithId(w, c).clients, []);
  }

  lemma SendKeeps(w: World, c: nat, b: Body, goodName: bool, goodOptions: bool)
    requires Sound(w, []) && c in w.clients && b.Publish?
    ensures Sound(Send(w, c, b, goodName, goodOptions), [])
  {
    hide Sound, Taken, AssignedId, Accept, WithId, Buffered;
    if b.qos > 0 {
      WithIdKeeps(w, c);
      AcceptKeeps(WithId(w, c), c, AssignedId(w, c), b, []);
    } else {
      AcceptKeeps(w, c, 0, b, []);
    }
  }

  lemma RequestKeeps(w: World, c: nat, b: Body, goodArguments: bool, goodOptions: bool)
    requires Sound(w, []) && c in w.clients && (b.Subscribe? || b.Unsubscribe?)
    ensures Sound(Request(w, c, b, goodArguments, goodOptions), [])
  {
    hide Sound, Taken, AssignedId, Accept, WithId;
    WithIdKeeps(w, c);
    AcceptKeeps(WithId(w, c), c, AssignedId(w, c), b, []);
  }

  lemma AskDisconnectKeeps(w: World, c: nat, internal: bool, hand: seq<Command>)
    requires Sound(w, hand) && c in w.clients
    ensures Sound(AskDisconnect(w, c, internal), hand)
  {
    hide Ledger, Fifo, TokensApart, Accept;
    var cl := w.clients[c];
    var clients := w.clients[c := cl.(shouldBeConnected := false)];
    ClientsKeep(w, clients, hand);
    AcceptKeeps(w, c, 0, Disconnect(internal), hand);
    AcceptKeeps(w.(clients := clients), c, 0, Disconnect(internal), hand);
  }

  lemma AskConnectKeeps(w: World, c: nat, uris: nat, version: nat)
    requires Sound(w, []) && c in w.clients
    ensures Sound(AskConnect(w, c, uris, version), [])
  {
    hide Ledger, Fifo, TokensApart, Accept;
    var cl := w.clients[c].(shouldBeConnected := true, uris := uris, version := version);
    var clients := w.clients[c := cl];
    ClientsKeep(w, clients, []);
    AcceptKeeps(w.(clients := clients), c, 0, Connect(0, 0), []);
  }

  lemma CleanSessionKeeps(w: World, c: nat, hand: seq<Command>)
    requires Sound(w, hand) && c in w.clients
    ensures Sound(CleanSession(w, c), hand)
  {
    hide Ledger, Fifo, TokensApart, Removed;
    var clients := w.clients[c := w.clients[c].(store := map[], outbound := 0, msgId := 0)];
    ClientsKeep(w, clients, hand);
    RemovedKeeps(w.(clients := clients), c, hand);
  }

  lemma CloseSessionKeeps(w: World, c: nat, hand: seq<Command>)
    requires Sound(w, hand) && c in w.clients
    ensures Sound(CloseSession(w, c), hand)
  {
    hide Ledger, Fifo, TokensApart, CleanSession;
    ClientsKeep(w, Closed(w, c).clients, hand);
    CleanSessionKeeps(Closed(w, c), c, hand);
  }

  lemma RunConnectKeeps(w: World, x: Command, o: Outcome)
    requires Sound(w, [x]) && x.client in w.clients && x.body.Connect?
    ensures Sound(RunConnect(w, x, o), [])
  {
    hide Ledger, Fifo, TokensApart, Add, Completed, MoreToTry, NextAttempt, Tried;
    var c := x.client;
    var cl := w.clients[c];
    var a := Attempt(x.body.uri, x.body.version);
    assert [x] + [] == [x];
    if cl.state != NotInProgress || cl.connected {
      ClientsKeep(w, SetConnect(w, c, a).clients, [x]);
      CompletedKeeps(SetConnect(w, c, a), x, x, []);
    } else {
      var t := Tried(cl, a);
      var tried := x.(body := Connect(t.uri, t.version));
      if o.connecting && o.rc != SocketError && o.rc != PersistenceError {
        var clients := w.clients[c := cl.(state := InProgress, connect := t)];
        ClientsKeep(w, clients, [x]);
        CompletedKeeps(w.(clients := clients), x, tried, []);
      } else {
        var cl' := cl.(state := if o.connecting then InProgress else NotInProgress, shouldBeConnected := true);
        var w' := w.(clients := w.clients[c := cl']);
        ClientsKeep(w, w'.clients, [x]);
        if MoreToTry(cl', t) {
          var n := NextAttempt(cl', t);
          var again := x.(body := Connect(n.uri, n.version));
          SameCardKeeps(w', x, again);
          AddKeeps(w', again, []);
        } else {
          ClientsKeep(w', SetConnect(w', c, t).clients, [x]);
          CompletedKeeps(SetConnect(w', c, t), x, tried, []);
        }
      }
    }
  }

  lemma SameCardKeeps(w: World, x: Command, y: Command)
    requires Sound(w, [x]) && CardOf(x) == CardOf(y)
    ensures Sound(w, [y] + [])
  {
    hide Bag, InOrder, TokensApart;
    BagOne(x);
    BagOne(y);
    assert [y] + [] == [y];
    assert Live(w, [y]) == Live(w, [x]);
  }

  lemma RunDisconnectKeeps(w: World, x: Command, o: Outcome)
    requires Sound(w, [x]) && x.client in w.clients
    ensures Sound(RunDisconnect(w, x, o), [])
  {
    hide Ledger, Fifo, TokensApart, Completed, CloseSession;
    var c := x.client;
    var cl := w.clients[c];
    assert [x] + [] == [x];
    if cl.state == NotInProgress && !cl.connected {
      CompletedKeeps(w, x, x, []);
    } else {
      var w' := if cl.state != NotInProgress then w.(clients := w.clients[c := cl.(state := Disconnecting)]) else w;
      ClientsKeep(w, w'.clients, [x]);
      CloseSessionKeeps(w', c, [x]);
      CompletedKeeps(w', x, x, []);
      CompletedKeeps(CloseSession(w', c), x, x, []);
    }
  }

  lemma RunRequestKeeps(w: World, x: Command, o: Outcome)
    requires Sound(w, [x]) && x.client in w.clients && IsStored(x.body)
    ensures Sound(RunRequest(w, x, o), [])
  {
    hide Ledger, Fifo, TokensApart, Completed, AskDisconnect, Awaiting;
    var c := x.client;
    var w' := w.(clients := w.clients[c := w.clients[c].(outbound := o.outbound)]);
    ClientsKeep(w, w'.clients, [x]);
    assert [x] + [] == [x];
    AskDisconnectKeeps(w', c, true, [x]);
    CompletedKeeps(AskDisconnect(w', c, true), x, x, []);
    CompletedKeeps(w', x, x, []);
    AwaitingKeeps(w', x);
  }

  lemma ProcessKeeps(w: World, blocked: set<nat>, o: Outcome)
    requires Sound(w, [])
    ensures Sound(Process(w, blocked, o), [])
  {
    hide Ledger, Fifo, TokensApart, Pick, TakenOff, RunConnect, RunDisconnect, RunRequest, Earliest, Eligible;
    var i := Pick(w, blocked);
    if i < |w.commands| {
      PickIs(w, blocked, i);
      var x := w.commands[i];
      TakenOffKeeps(w, i);
      var w' := TakenOff(w, i);
      if x.body.Connect? {
        RunConnectKeeps(w', x, o);
      } else if x.body.Disconnect? {
        RunDisconnectKeeps(w', x, o);
      } else {
        RunRequestKeeps(w', x, o);
      }
    }
  }

  lemma NextOrCloseKeeps(w: World, c: nat)
    requires Sound(w, []) && c in w.clients
    ensures Sound(NextOrClose(w, c), [])
  {
    hide Ledger, Fifo, TokensApart, Accept, CloseSession, MoreToTry, NextAttempt;
    var cl := w.clients[c];
    var n := NextAttempt(cl, cl.connect);
    ClientsKeep(w, Closed(w, c).clients, []);
    AcceptKeeps(Closed(w, c), c, 0, Connect(n.uri, n.version), []);
    CloseSessionKeeps(w, c, []);
  }

  lemma ConnectedKeeps(w: World, c: nat, clean: bool)
    requires Sound(w, []) && c in w.clients
    ensures Sound(Connected(w, c, clean), [])
  {
    hide Ledger, Fifo, TokensApart, CleanSession;
    var w' := w.(clients := w.clients[c := w.clients[c].(connected := true, state := NotInProgress)]);
    ClientsKeep(w, w'.clients, []);
    CleanSessionKeeps(w', c, []);
  }

  lemma SoundKnown(w: World)
    requires Sound(w, [])
    ensures Known(w.commands, w.clients)
  {
  }

  /** One step from a sound world. */
  ghost function SoundNext(w: World, s: Step): World
    requires Sound(w, [])
  {
    Next(w, s)
  }

  /** Every step keeps the invariant. */
  lemma NextKeeps(w: World, s: Step)
    requires Sound(w, [])
    ensures Sound(SoundNext(w, s), [])
  {
    hide Ledger, Fifo, TokensApart, Process, Send, Request, AskDisconnect, AskConnect, Acknowledge, Connected;
    hide NextOrClose, CloseSession, Accept;
    if s.Processes? {
      ProcessKeeps(w, s.blocked, s.outcome);
    } else if s.client in w.clients {
      match s
      case Sends(c, b, goodName, goodOptions) =>
        if b.Publish? {
          SendKeeps(w, c, b, goodName, goodOptions);
        }
      case Requests(c, b, goodArguments, goodOptions) =>
        if b.Subscribe? || b.Unsubscribe? {
          RequestKeeps(w, c, b, goodArguments, goodOptions);
        }
      case Disconnects(c) => AskDisconnectKeeps(w, c, false, []);
      case LosesConnection(c) => AskDisconnectKeeps(w, c, true, []);
      case Connects(c, uris, version) => AskConnectKeeps(w, c, uris, version);
      case Acks(c, token) => AcknowledgeKeeps(w, c, token);
      case ConnAcks(c, clean) => ConnectedKeeps(w, c, clean);
      case ConnectFails(c) => NextOrCloseKeeps(w, c);
      case Reconnects(c) =>
        var cl := w.clients[c];
        AcceptKeeps(w, c, 0, Connect(cl.connect.uri, if cl.version == 0 then 0 else cl.connect.version), []);
      case Closes(c) => CloseSessionKeeps(w, c, []);
      case InFlight(c, outbound) =>
        ClientsKeep(w, w.clients[c := w.clients[c].(outbound := outbound)], []);
    }
  }

  /** The world after a run. */
  ghost function After(w: World, steps: seq<Step>): World
    requires Sound(w, [])
    ensures Sound(After(w, steps), [])
    decreases |steps|
  {
    hide *;
    if steps == [] then w
    else
      NextKeeps(w, steps[0]);
      After(SoundNext(w, steps[0]), steps[1..])
  }

  /** A process that has just started: clients, and what was restored for them. */
  ghost predicate Booted(w: World) {
    && w.responses == [] && w.done == [] && w.dispatched == [] && w.accepted == Cards(w.commands)
    && (forall k :: 0 <= k < |w.commands| ==> w.commands[k].serial == k && w.commands[k].client in w.clients)
    && (forall i, j :: 0 <= i < j < |w.commands| && w.commands[i].client == w.commands[j].client
          ==> w.commands[i].token != w.commands[j].token || w.commands[i].token == 0)
  }

  lemma BootedTokens(w: World)
    requires Booted(w)
    ensures TokensApart(Bag(w.commands))
  {
    hide Bag;
    forall a, b | a in Bag(w.commands) && b in Bag(w.commands) && a.client == b.client && a.token == b.token
                  && a.token != 0
      ensures a == b
    {
      var i := FromBag(w.commands, a);
      var j := FromBag(w.commands, b);
      assert i == j;
    }
  }

  lemma BootedSound(w: World)
    requires Booted(w)
    ensures Sound(w, [])
  {
    hide TokensApart;
    BootedTokens(w);
    assert Bag([]) == multiset{};
    assert w.dispatched + w.commands == w.commands;
    assert Live(w, []) == Bag(w.commands) by { hide Bag; }
    assert InOrder(w.commands);
    hide InOrder;
    assert Ledger(w, []);
  }

  /** Over any run from a started process, every accepted command is in exactly one of queued,
      awaiting its response and completed, once; and no two tokens in use by a client are the same. */
  lemma ExactlyOnceCompletion(w: World, steps: seq<Step>, i: nat)
    requires Sound(w, []) && i < |After(w, steps).accepted|
    ensures var v := After(w, steps);
            Bag(v.commands)[v.accepted[i]] + Bag(v.responses)[v.accepted[i]] + Bag(v.done)[v.accepted[i]] == 1
    ensures var v := After(w, steps);
            var live := v.commands + v.responses;
            forall j, k :: 0 <= j < k < |live| && live[j].client == live[k].client && live[j].token != 0
              ==> live[j].token != live[k].token
  {
    hide Sound, After, Bag;
    var v := After(w, steps);
    ExactlyOnce(v, i);
    var live := v.commands + v.responses;
    forall j, k | 0 <= j < k < |live| && live[j].client == live[k].client && live[j].token != 0
      ensures live[j].token != live[k].token
    {
      TokensDiffer(v, j, k);
    }
  }

  /** Over any run, a client's appended commands are sent in the order of their acceptance. */
  lemma FifoPerClient(w: World, steps: seq<Step>, i: nat, j: nat)
    requires Sound(w, []) && i < j < |After(w, steps).dispatched|
    requires var d := After(w, steps).dispatched;
             d[i].client == d[j].client && !AtHead(d[i].body) && !AtHead(d[j].body)
    ensures var d := After(w, steps).dispatched; d[i].serial < d[j].serial
  {
    hide Sound, After;
    SentInOrder(After(w, steps), i, j);
  }
}
