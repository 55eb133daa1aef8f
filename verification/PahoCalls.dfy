/** What a caller can rely on: which calls are taken, how much is buffered, when a command is sent, and how a
    client comes to be connected. */
module PahoCalls {
  import opened Common
  import PahoIds
  import opened PahoRecord
  import opened PahoQueue
  import opened PahoTheory

  // ---------------------------------------------------------------- which calls are taken

  /** Nothing that a caller could notice has happened, but that an id may have been used up. */
  ghost predicate Refused(u: World, v: World, c: nat) {
    && v.accepted == u.accepted && v.commands == u.commands && v.responses == u.responses && v.done == u.done
    && v.dispatched == u.dispatched && c in u.clients && c in v.clients
    && v.clients == u.clients[c := u.clients[c].(msgId := v.clients[c].msgId)]
  }

  /** The command is accepted and stands at the end of the queue. */
  ghost predicate Appended(u: World, v: World, c: nat, b: Body, x: Command) {
    && v.accepted == u.accepted + [Card(|u.accepted|, c, x.token)]
    && x.serial == |u.accepted| && x.client == c && x.body == b
    && v.commands == u.commands + [x] && v.responses == u.responses && v.done == u.done
    && v.dispatched == u.dispatched && c in u.clients && c in v.clients
    && var cl := v.clients[c];
    && v.clients == u.clients[c := u.clients[c].(msgId := cl.msgId, seqno := cl.seqno, store := cl.store)]
  }

  /** How many PUBLISH commands of the client are queued. */
  ghost function Waiting(s: seq<Command>, c: nat): nat {
    |set k | 0 <= k < |s| && s[k].client == c && s[k].body.Publish?|
  }

  lemma {:induction false} BufferedSum(a: seq<Command>, b: seq<Command>, c: nat)
    ensures Buffered(a + b, c) == Buffered(a, c) + Buffered(b, c)
  {
    if a == [] {
      assert a + b == b;
    } else {
      assert (a + b)[1..] == a[1..] + b;
      BufferedSum(a[1..], b, c);
    }
  }

  lemma {:induction false} BufferedIs(s: seq<Command>, c: nat)
    ensures Buffered(s, c) == Waiting(s, c)
    decreases |s|
  {
    if s != [] {
      var n := |s| - 1;
      BufferedIs(s[..n], c);
      BufferedSum(s[..n], [s[n]], c);
      assert s == s[..n] + [s[n]] && [s[n]][1..] == [];
      var before := set k | 0 <= k < |s[..n]| && s[..n][k].client == c && s[..n][k].body.Publish?;
      var whole := set k | 0 <= k < |s| && s[k].client == c && s[k].body.Publish?;
      assert whole == if s[n].client == c && s[n].body.Publish? then before + {n} else before;
    }
  }

  /** The id is in use: in the queue, whoever's it is, or by a command of the client that waits. */
  ghost predicate InUse(u: World, c: nat, id: nat) {
    || (exists x :: x in u.commands && x.token == id)
    || exists x :: x in u.responses && x.client == c && x.token == id
  }

  /** There is an id other than the last one given out that is not in use. */
  ghost predicate IdLeft(u: World, c: nat)
    requires c in u.clients
  {
    exists id :: 1 <= id <= 65535 && id != u.clients[c].msgId && !InUse(u, c, id)
  }

  lemma InUseIs(u: World, c: nat, id: nat)
    ensures InUse(u, c, id) <==> Taken(u, c, id)
  {
    if TokenQueued(u.commands, id) {
      var k :| 0 <= k < |u.commands| && u.commands[k].token == id;
      assert u.commands[k] in u.commands;
    }
    if TokenAwaited(u.responses, c, id) {
      var k :| 0 <= k < |u.responses| && u.responses[k].client == c && u.responses[k].token == id;
      assert u.responses[k] in u.responses;
    }
  }

  lemma IdLeftIs(u: World, c: nat)
    requires c in u.clients
    ensures AssignedId(u, c) != 0 <==> IdLeft(u, c)
    ensures AssignedId(u, c) != 0 ==> 1 <= AssignedId(u, c) <= 65535 && !InUse(u, c, AssignedId(u, c))
  {
    hide Taken, InUse, Search, PahoIds.Rank, PahoIds.Nth, Succ;
    var start, r := u.clients[c].msgId, AssignedId(u, c);
    PahoIds.NthFirst(start);
    PahoIds.SearchIs(u, c, start, 1);
    InUseIs(u, c, r);
    if r == 0 {
      forall id | 1 <= id <= 65535 && id != start ensures InUse(u, c, id) {
        PahoIds.RankIs(start, id);
        assert Taken(u, c, PahoIds.Nth(start, PahoIds.Rank(start, id)));
        InUseIs(u, c, id);
      }
    }
  }

  lemma AcceptTakes(w: World, c: nat, token: MsgId, b: Body)
    requires c in w.clients && IsStored(b)
    ensures var v := Accept(w, c, token, b);
            && |v.commands| > 0 && var x := v.commands[|v.commands| - 1];
            && x.token == token && Appended(w, v, c, b, x) && v.clients[c].msgId == w.clients[c].msgId
  {
  }

  /** MQTTAsync_send takes a message exactly if the client is connected or may buffer while it is not, the
      arguments are right, its buffer is not full, and for QoS 1 and 2 there is an id left; the message then
      stands at the end of the queue, with an id that was not in use, or 0 for QoS 0.  Otherwise nothing
      happens but that an id may be used up. */
  lemma SendTakes(u: World, c: nat, b: Body, goodName: bool, goodOptions: bool)
    requires Sound(u, []) && c in u.clients && b.Publish?
    ensures var cl, v := u.clients[c], SoundNext(u, Sends(c, b, goodName, goodOptions));
            if && (cl.connected || (cl.buffersOffline && cl.shouldBeConnected))
               && goodName && goodOptions && 0 <= b.qos <= 2
               && (cl.maxBuffered == None || Waiting(u.commands, c) < cl.maxBuffered.value)
               && (b.qos == 0 || IdLeft(u, c))
            then
              && v.commands != [] && var x := v.commands[|v.commands| - 1];
              && Appended(u, v, c, b, x)
              && v.clients[c].msgId == (if b.qos == 0 then cl.msgId else x.token)
              && if b.qos == 0 then x.token == 0 else 1 <= x.token <= 65535 && !InUse(u, c, x.token)
            else Refused(u, v, c)
  {
    hide Sound, AssignedId, IdLeft, InUse, Accept, Buffered, Waiting;
    SoundKnown(u);
    IdLeftIs(u, c);
    BufferedIs(u.commands, c);
    AcceptTakes(u, c, 0, b);
    AcceptTakes(WithId(u, c), c, AssignedId(u, c), b);
    assert u.clients == u.clients[c := u.clients[c]];
  }

  /** MQTTAsync_subscribeMany and MQTTAsync_unsubscribeMany take a request exactly if the client is connected,
      the arguments are right and there is an id left. */
  lemma RequestTakes(u: World, c: nat, b: Body, goodArguments: bool, goodOptions: bool)
    requires Sound(u, []) && c in u.clients && (b.Subscribe? || b.Unsubscribe?)
    ensures var v := SoundNext(u, Requests(c, b, goodArguments, goodOptions));
            if u.clients[c].connected && goodArguments && goodOptions && IdLeft(u, c)
            then
              && v.commands != [] && var x := v.commands[|v.commands| - 1];
              && Appended(u, v, c, b, x) && v.clients[c].msgId == x.token
              && 1 <= x.token <= 65535 && !InUse(u, c, x.token)
            else Refused(u, v, c)
  {
    hide Sound, AssignedId, IdLeft, InUse, Accept;
    SoundKnown(u);
    IdLeftIs(u, c);
    AcceptTakes(WithId(u, c), c, AssignedId(u, c), b);
    assert u.clients == u.clients[c := u.clients[c]];
  }

  // ---------------------------------------------------------------- how much is buffered

  lemma BufferedWithout(s: seq<Command>, i: nat, c: nat)
    requires i < |s|
    ensures Buffered(Without(s, i), c) <= Buffered(s, c)
  {
    BufferedSum(s[..i], s[i + 1..], c);
    BufferedSum([s[i]], s[i + 1..], c);
    BufferedSum(s[..i], [s[i]] + s[i + 1..], c);
    assert s == s[..i] + ([s[i]] + s[i + 1..]);
  }

  lemma {:induction false} BufferedOthers(s: seq<Command>, d: nat, c: nat)
    ensures Buffered(Others(s, d), c) <= Buffered(s, c)
  {
    if s != [] {
      BufferedOthers(s[1..], d, c);
      assert ([s[0]] + Others(s[1..], d))[1..] == Others(s[1..], d);
    }
  }

  /** The limits are kept, and no limit changes. */
  ghost predicate Bounded(w: World) {
    forall c :: c in w.clients && w.clients[c].maxBuffered.Some? ==>
      Buffered(w.commands, c) <= w.clients[c].maxBuffered.value
  }

  ghost predicate Shrinks(u: World, v: World) {
    && v.clients.Keys == u.clients.Keys
    && (forall c :: c in u.clients ==> v.clients[c].maxBuffered == u.clients[c].maxBuffered)
    && forall c :: Buffered(v.commands, c) <= Buffered(u.commands, c)
  }

  lemma ShrinksThen(u: World, v: World, w: World)
    requires Shrinks(u, v) && Shrinks(v, w)
    ensures Shrinks(u, w)
  {
    hide Buffered;
    forall c ensures Buffered(w.commands, c) <= Buffered(u.commands, c) {
      assert Buffered(v.commands, c) <= Buffered(u.commands, c);
    }
  }

  lemma ShrinksBounded(u: World, v: World)
    requires Bounded(u) && Shrinks(u, v)
    ensures Bounded(v)
  {
    hide Buffered;
    forall c | c in v.clients && v.clients[c].maxBuffered.Some?
      ensures Buffered(v.commands, c) <= v.clients[c].maxBuffered.value
    {
      assert Buffered(v.commands, c) <= Buffered(u.commands, c);
    }
  }

  /** A command that is not a PUBLISH takes no room. */
  lemma AcceptShrinks(w: World, c: nat, token: MsgId, b: Body)
    requires c in w.clients && !b.Publish?
    ensures Shrinks(w, Accept(w, c, token, b))
  {
    var v := Accept(w, c, token, b);
    AddShrinks(w.(accepted := w.accepted + [Card(|w.accepted|, c, token)]), Command(|w.accepted|, c, token, 0, b));
  }

  lemma AddShrinks(w: World, x: Command)
    requires x.client in w.clients && !x.body.Publish?
    ensures Shrinks(w, Add(w, x))
  {
    forall c ensures Buffered(Add(w, x).commands, c) <= Buffered(w.commands, c) {
      var y := PersistedCommand(w.clients[x.client], x);
      BufferedSum(w.commands, [y], c);
      BufferedSum(w.commands, [x], c);
      BufferedSum([x], w.commands, c);
      assert Buffered([x], c) == Buffered([y], c) == 0;
    }
  }

  /** One that is a PUBLISH takes one place. */
  lemma PublishFills(w: World, c: nat, token: MsgId, b: Body, d: nat)
    requires c in w.clients && b.Publish?
    ensures var v := Accept(w, c, token, b);
            && v.clients.Keys == w.clients.Keys
            && (forall e :: e in w.clients ==> v.clients[e].maxBuffered == w.clients[e].maxBuffered)
            && Buffered(v.commands, d) == Buffered(w.commands, d) + if d == c then 1 else 0
  {
    var v := Accept(w, c, token, b);
    var x := v.commands[|v.commands| - 1];
    assert v.commands == w.commands + [x];
    BufferedSum(w.commands, [x], d);
    assert [x][1..] == [];
  }

  lemma SendBounded(u: World, c: nat, b: Body, goodName: bool, goodOptions: bool)
    requires Bounded(u) && c in u.clients && b.Publish?
    ensures Bounded(Send(u, c, b, goodName, goodOptions))
  {
    hide Buffered, AssignedId;
    var v := Send(u, c, b, goodName, goodOptions);
    var w := if b.qos > 0 then WithId(u, c) else u;
    forall d | d in v.clients && v.clients[d].maxBuffered.Some?
      ensures Buffered(v.commands, d) <= v.clients[d].maxBuffered.value
    {
      PublishFills(w, c, if b.qos > 0 then AssignedId(u, c) else 0, b, d);
    }
  }

  lemma RemovedShrinks(w: World, c: nat)
    ensures Shrinks(w, Removed(w, c))
  {
    hide Buffered;
    forall d ensures Buffered(Removed(w, c).commands, d) <= Buffered(w.commands, d) {
      BufferedOthers(w.commands, c, d);
    }
  }

  lemma CleanShrinks(w: World, c: nat)
    requires c in w.clients
    ensures Shrinks(w, CleanSession(w, c))
  {
    hide Buffered, Removed;
    var w' := w.(clients := w.clients[c := w.clients[c].(store := map[], outbound := 0, msgId := 0)]);
    RemovedShrinks(w', c);
    ShrinksThen(w, w', CleanSession(w, c));
  }

  lemma CloseShrinks(w: World, c: nat)
    requires c in w.clients
    ensures Shrinks(w, CloseSession(w, c))
  {
    hide Buffered, CleanSession;
    CleanShrinks(Closed(w, c), c);
    if w.clients[c].forgetful { ShrinksThen(w, Closed(w, c), CloseSession(w, c)); }
  }

  lemma TakenOffShrinks(w: World, i: nat)
    requires i < |w.commands| && w.commands[i].client in w.clients
    ensures Shrinks(w, TakenOff(w, i))
  {
    hide Buffered;
    forall c ensures Buffered(TakenOff(w, i).commands, c) <= Buffered(w.commands, c) {
      BufferedWithout(w.commands, i, c);
    }
  }

  function GivenUp(cl: Client): Client {
    cl.(state := Disconnecting)
  }

  lemma RunShrinks(w: World, x: Command, o: Outcome)
    requires x.client in w.clients
    ensures Shrinks(w, Run(w, x, o))
  {
    hide Buffered, CloseSession, Accept, Add, MoreToTry, NextAttempt, Tried, Shrinks;
    if x.body.Connect? {
      ConnectShrinks(w, x, o);
    } else if x.body.Disconnect? {
      var cl := w.clients[x.client];
      var w' := if cl.state == NotInProgress then w else w.(clients := w.clients[x.client := GivenUp(cl)]);
      SameShrinks(w, w');
      CloseShrinks(w', x.client);
      ShrinksThen(w, w', CloseSession(w', x.client));
      SameShrinks(CloseSession(w', x.client), Completed(CloseSession(w', x.client), x));
      SameShrinks(w', Completed(w', x));
      SameShrinks(w, Completed(w, x));
      ShrinksThen(w, w', Completed(w', x));
      ShrinksThen(w, CloseSession(w', x.client), Completed(CloseSession(w', x.client), x));
    } else {
      var w' := w.(clients := w.clients[x.client := w.clients[x.client].(outbound := o.outbound)]);
      SameShrinks(w, w');
      AcceptShrinks(w', x.client, 0, Disconnect(true));
      var u := AskDisconnect(w', x.client, true);
      SameShrinks(w', w');
      ShrinksThen(w, w', u);
      SameShrinks(u, Completed(u, x));
      ShrinksThen(w, u, Completed(u, x));
      SameShrinks(w, Completed(w', x));
      SameShrinks(w, Awaiting(w', x));
    }
  }

  lemma SameShrinks(u: World, v: World)
    requires v.commands == u.commands && v.clients.Keys == u.clients.Keys
    requires forall c :: c in u.clients ==> v.clients[c].maxBuffered == u.clients[c].maxBuffered
    ensures Shrinks(u, v)
  {
  }

  lemma ConnectShrinks(w: World, x: Command, o: Outcome)
    requires x.client in w.clients && x.body.Connect?
    ensures Shrinks(w, RunConnect(w, x, o))
  {
    hide Buffered, Add, MoreToTry, NextAttempt, Tried, Shrinks;
    var c, v := x.client, RunConnect(w, x, o);
    var cl := w.clients[c];
    var cl' := cl.(state := if o.connecting then InProgress else NotInProgress, shouldBeConnected := true);
    var w' := w.(clients := w.clients[c := cl']);
    var t := Tried(cl, Attempt(x.body.uri, x.body.version));
    var n := NextAttempt(cl', t);
    if v == Add(w', x.(body := Connect(n.uri, n.version))) {
      SameShrinks(w, w');
      AddShrinks(w', x.(body := Connect(n.uri, n.version)));
      ShrinksThen(w, w', v);
    } else {
      SameShrinks(w, v);
    }
  }

  /** Every step keeps within the limit that each client has set for its buffered messages. */
  lemma NextBounded(u: World, s: Step)
    requires Sound(u, []) && Bounded(u)
    ensures Bounded(SoundNext(u, s))
  {
    SoundKnown(u);
    hide Sound, Bounded, Shrinks, Buffered, Run, TakenOff, Pick, CloseSession, CleanSession, Accept, AssignedId;
    hide MoreToTry, NextAttempt, Send;
    var v := SoundNext(u, s);
    SameShrinks(u, u);
    if s.Processes? {
      var i := Pick(u, s.blocked);
      if i < |u.commands| {
        var w := TakenOff(u, i);
        assert u.commands[i].client in w.clients by { TakenOffShrinks(u, i); StillThere(u, i); }
        TakenOffShrinks(u, i);
        RunShrinks(w, u.commands[i], s.outcome);
        ShrinksThen(u, w, v);
      }
      ShrinksBounded(u, v);
    } else if s.client in u.clients {
      if s.Sends? && s.body.Publish? {
        SendBounded(u, s.client, s.body, s.goodName, s.goodOptions);
      } else {
        CallShrinks(u, s);
        ShrinksBounded(u, v);
      }
    }
  }

  lemma StillThere(u: World, i: nat)
    requires i < |u.commands| && u.commands[i].client in u.clients
    ensures u.commands[i].client in TakenOff(u, i).clients
  {
  }

  lemma CallShrinks(u: World, s: Step)
    requires Known(u.commands, u.clients) && !s.Processes? && s.client in u.clients && !(s.Sends? && s.body.Publish?)
    ensures Shrinks(u, Next(u, s))
  {
    hide Shrinks, Buffered, CloseSession, CleanSession, Accept, AssignedId, MoreToTry, NextAttempt;
    var c := s.client;
    var cl := u.clients[c];
    SameShrinks(u, u);
    match s
    case Sends(_, _, _, _) =>
    case Requests(_, b, _, _) =>
      SameShrinks(u, WithId(u, c));
      if b.Subscribe? || b.Unsubscribe? {
        AcceptShrinks(WithId(u, c), c, AssignedId(u, c), b);
        ShrinksThen(u, WithId(u, c), Accept(WithId(u, c), c, AssignedId(u, c), b));
      }
    case Disconnects(_) =>
      var w := u.(clients := u.clients[c := cl.(shouldBeConnected := false)]);
      SameShrinks(u, w);
      AcceptShrinks(w, c, 0, Disconnect(false));
      ShrinksThen(u, w, Accept(w, c, 0, Disconnect(false)));
    case LosesConnection(_) => AcceptShrinks(u, c, 0, Disconnect(true));
    case Connects(_, uris, version) =>
      var w := u.(clients := u.clients[c := cl.(shouldBeConnected := true, uris := uris, version := version)]);
      SameShrinks(u, w);
      AcceptShrinks(w, c, 0, Connect(0, 0));
      ShrinksThen(u, w, Accept(w, c, 0, Connect(0, 0)));
    case Acks(_, token) => SameShrinks(u, Acknowledge(u, c, token));
    case ConnAcks(_, clean) =>
      var w := u.(clients := u.clients[c := cl.(connected := true, state := NotInProgress)]);
      SameShrinks(u, w);
      CleanShrinks(w, c);
      ShrinksThen(u, w, CleanSession(w, c));
    case ConnectFails(_) =>
      var n := NextAttempt(cl, cl.connect);
      SameShrinks(u, Closed(u, c));
      AcceptShrinks(Closed(u, c), c, 0, Connect(n.uri, n.version));
      ShrinksThen(u, Closed(u, c), Accept(Closed(u, c), c, 0, Connect(n.uri, n.version)));
      CloseShrinks(u, c);
    case Reconnects(_) =>
      AcceptShrinks(u, c, 0, Connect(cl.connect.uri, if cl.version == 0 then 0 else cl.connect.version));
    case Closes(_) => CloseShrinks(u, c);
    case InFlight(_, _) => SameShrinks(u, Next(u, s));
  }

  /** Over every run: no client ever has more messages queued than it may buffer. */
  lemma {:induction false} NeverMoreThanAllowed(w: World, steps: seq<Step>, c: nat)
    requires Sound(w, []) && Bounded(w)
    ensures var v := After(w, steps);
            && Bounded(v)
            && (c in v.clients && v.clients[c].maxBuffered.Some? ==>
                  Waiting(v.commands, c) <= v.clients[c].maxBuffered.value)
    decreases |steps|
  {
    hide Sound, Waiting, Buffered, SoundNext;
    if steps == [] {
      BufferedIs(w.commands, c);
    } else {
      NextKeeps(w, steps[0]);
      NextBounded(w, steps[0]);
      NeverMoreThanAllowed(SoundNext(w, steps[0]), steps[1..], c);
    }
  }

  // ---------------------------------------------------------------- the other calls

  /** The command is accepted and stands at the head of the queue, or is done with at once because one of its
      kind and client stands there. */
  ghost predicate PutFirst(u: World, v: World, c: nat, b: Body) {
    var x := Command(|u.accepted|, c, 0, 0, b);
    var double := && u.commands != [] && u.commands[0].client == c
                  && ((b.Connect? && u.commands[0].body.Connect?) || (b.Disconnect? && u.commands[0].body.Disconnect?));
    && v.accepted == u.accepted + [Card(|u.accepted|, c, 0)]
    && v.commands == (if double then u.commands else [x] + u.commands)
    && v.done == (if double then u.done + [x] else u.done)
    && v.responses == u.responses && v.dispatched == u.dispatched
  }

  /** A lost connection is closed before anything else is sent; a disconnect that the caller asks for waits its
      turn; and neither does anything to a client that is not connected, but that it is not to be connected again. */
  lemma DisconnectTakes(u: World, c: nat)
    requires Sound(u, []) && c in u.clients
    ensures var cl, v := u.clients[c], SoundNext(u, LosesConnection(c));
            if cl.connected then PutFirst(u, v, c, Disconnect(true)) && v.clients == u.clients else v == u
    ensures var cl, v := u.clients[c], SoundNext(u, Disconnects(c));
            && c in v.clients && !v.clients[c].shouldBeConnected
            && if cl.connected
               then v.commands != [] && Asked(u, v, c, v.commands[|v.commands| - 1])
               else
                 && v.commands == u.commands && v.accepted == u.accepted
                 && v.responses == u.responses && v.done == u.done
  {
    hide Sound;
    SoundKnown(u);
  }

  ghost predicate Asked(u: World, v: World, c: nat, x: Command) {
    && v.accepted == u.accepted + [Card(|u.accepted|, c, 0)] && v.commands == u.commands + [x]
    && x.client == c && x.body == Disconnect(false) && x.serial == |u.accepted| && x.token == 0
    && v.responses == u.responses && v.done == u.done && v.dispatched == u.dispatched
  }

  /** A connect goes before everything else, starts with the first URI, and is to be kept up; a reconnect takes
      the URI that was connected to, with its versions from the first. */
  lemma ConnectTakes(u: World, c: nat, uris: nat, version: nat)
    requires Sound(u, []) && c in u.clients
    ensures var v := SoundNext(u, Connects(c, uris, version));
            && PutFirst(u, v, c, Connect(0, 0))
            && v.clients == u.clients[c := u.clients[c].(shouldBeConnected := true, uris := uris, version := version)]
    ensures var cl, v := u.clients[c], SoundNext(u, Reconnects(c));
            && PutFirst(u, v, c, Connect(cl.connect.uri, if cl.version == 0 then 0 else cl.connect.version))
            && v.clients == u.clients
  {
    hide Sound;
    SoundKnown(u);
  }

  // ---------------------------------------------------------------- when a command is sent

  /** What it takes to be sent: CONNECT and DISCONNECT need nothing; the others need a connection that is neither
      being made nor closed, a socket without a pending write, and room among the messages in flight: there are
      never 65534, and from version 5 on, QoS 0 apart, no more than the client allows. */
  predicate Ready(cl: Client, b: Body, writing: bool) {
    match b
    case Connect(_, _) => true
    case Disconnect(_) => true
    case Publish(_, _, qos, _) => Open(cl, writing) && (cl.version < 5 || qos <= 0 || cl.outbound < cl.maxInflight)
    case _ => Open(cl, writing) && (cl.version < 5 || cl.outbound < cl.maxInflight)
  }

  predicate Open(cl: Client, writing: bool) {
    cl.connected && cl.state == NotInProgress && !writing && cl.outbound < 65534
  }

  /** The first of its client's commands, and ready. */
  ghost predicate First(u: World, blocked: set<nat>, k: nat)
    requires Known(u.commands, u.clients)
  {
    && k < |u.commands|
    && (forall j :: 0 <= j < k ==> u.commands[j].client != u.commands[k].client)
    && var x := u.commands[k]; Ready(u.clients[x.client], x.body, x.client in blocked)
  }

  lemma ReadyIs(clients: map<nat, Client>, x: Command, blocked: set<nat>)
    requires x.client in clients
    ensures Eligible(clients, x, blocked) <==> Ready(clients[x.client], x.body, x.client in blocked)
  {
  }

  /** The command that is to be sent next: the first in the queue that is the first of its client and ready. */
  ghost predicate IsNext(u: World, blocked: set<nat>, k: nat)
    requires Known(u.commands, u.clients)
  {
    First(u, blocked, k) && forall j: nat :: j < k ==> !First(u, blocked, j)
  }

  lemma PickIsNext(u: World, blocked: set<nat>)
    requires Known(u.commands, u.clients)
    ensures var i := Pick(u, blocked);
            if i < |u.commands| then IsNext(u, blocked, i) else forall k: nat :: !First(u, blocked, k)
  {
    hide Eligible, Ready, PickFrom;
    var i := Pick(u, blocked);
    PickIs(u, blocked, i);
    forall k: nat | k < |u.commands|
      ensures First(u, blocked, k) <==> Earliest(u.commands, k) && Eligible(u.clients, u.commands[k], blocked)
    {
      ReadyIs(u.clients, u.commands[k], blocked);
    }
  }

  /** One dispatch sends the first command in the queue that is the first of its client and ready; if there is
      none it does nothing. */
  lemma Dispatches(u: World, blocked: set<nat>, o: Outcome, k: nat)
    requires Sound(u, []) && Known(u.commands, u.clients)
    ensures var v := SoundNext(u, Processes(blocked, o));
            && ((forall j: nat :: !First(u, blocked, j)) ==> v == u)
            && (IsNext(u, blocked, k) ==> v.dispatched == u.dispatched + [u.commands[k]])
  {
    hide Sound, Run, TakenOff, First, Pick;
    PickIsNext(u, blocked);
    var i := Pick(u, blocked);
    if i < |u.commands| {
      TakenOffSends(u, i);
      RunSends(TakenOff(u, i), u.commands[i], o);
    }
    if IsNext(u, blocked, k) {
      assert i < |u.commands|;
      assert !(k < i) && !(i < k);
    }
  }

  lemma TakenOffSends(u: World, i: nat)
    requires i < |u.commands| && u.commands[i].client in u.clients
    ensures TakenOff(u, i).dispatched == u.dispatched + [u.commands[i]]
    ensures u.commands[i].client in TakenOff(u, i).clients
  {
  }

  lemma RunSends(w: World, x: Command, o: Outcome)
    requires x.client in w.clients
    ensures Run(w, x, o).dispatched == w.dispatched
  {
    hide MoreToTry, NextAttempt, Tried, Accept, CloseSession, Add;
    var cl := w.clients[x.client];
    if x.body.Connect? {
      var cl' := cl.(state := if o.connecting then InProgress else NotInProgress, shouldBeConnected := true);
      var n := NextAttempt(cl', Tried(cl, Attempt(x.body.uri, x.body.version)));
      AddSends(w.(clients := w.clients[x.client := cl']), x.(body := Connect(n.uri, n.version)));
    } else if x.body.Disconnect? {
      CloseSends(if cl.state == NotInProgress then w else w.(clients := w.clients[x.client := GivenUp(cl)]), x.client);
    } else {
      AcceptSends(w.(clients := w.clients[x.client := cl.(outbound := o.outbound)]), x.client, 0, Disconnect(true));
    }
  }

  lemma AddSends(w: World, x: Command)
    requires x.client in w.clients
    ensures Add(w, x).dispatched == w.dispatched
  {
  }

  lemma AcceptSends(w: World, c: nat, token: MsgId, b: Body)
    requires c in w.clients
    ensures Accept(w, c, token, b).dispatched == w.dispatched
  {
  }

  lemma CloseSends(w: World, c: nat)
    requires c in w.clients
    ensures CloseSession(w, c).dispatched == w.dispatched
  {
  }

  // ---------------------------------------------------------------- how a client comes to be connected

  /** The step sends a CONNECT of the client, and a connect is under way afterwards. */
  ghost predicate Starts(u: World, s: Step, c: nat) {
    && s.Processes? && s.outcome.connecting && Known(u.commands, u.clients)
    && var i := Pick(u, s.blocked);
    && i < |u.commands| && u.commands[i].client == c && u.commands[i].body.Connect?
  }

  /** The server has accepted the connection. */
  predicate Accepts(s: Step, c: nat) {
    s.ConnAcks? && s.client == c
  }

  /** A client becomes connected only by a CONNACK while a connect is under way, and a connect comes to be
      under way only by sending a CONNECT while there is neither one nor a connection. */
  lemma StepConnects(u: World, s: Step, c: nat)
    requires Sound(u, []) && c in u.clients
    ensures var v := SoundNext(u, s);
            && c in v.clients
            && (v.clients[c].connected && !u.clients[c].connected ==> Accepts(s, c) && u.clients[c].state == InProgress)
            && (v.clients[c].state == InProgress && u.clients[c].state != InProgress ==>
                  Starts(u, s, c) && u.clients[c].state == NotInProgress && !u.clients[c].connected)
  {
    SoundKnown(u);
    hide Sound, Pick, AssignedId, Buffered, MoreToTry, NextAttempt, Tried, Others, Mine, Record;
    if s.Processes? && Pick(u, s.blocked) < |u.commands| {
      hide Next;
      var i := Pick(u, s.blocked);
      RunConnects(u, i, s.outcome, c);
      ProcessIs(u, s, i);
    } else if s.Processes? {
    } else if s.client in u.clients {
      CallConnects(u, s, c);
    }
  }

  lemma ProcessIs(u: World, s: Step, i: nat)
    requires Sound(u, []) && s.Processes? && Known(u.commands, u.clients) && i == Pick(u, s.blocked) < |u.commands|
    ensures SoundNext(u, s) == Run(TakenOff(u, i), u.commands[i], s.outcome)
  {
    hide Sound, Pick, TakenOff, Run;
  }

  /** Nothing about the connection of the client has changed, or it was closed. */
  predicate Quieter(u: World, v: World, c: nat)
    requires c in u.clients
  {
    && c in v.clients
    && (v.clients[c].connected ==> u.clients[c].connected)
    && (v.clients[c].state == InProgress ==> u.clients[c].state == InProgress)
  }

  lemma RunConnects(u: World, i: nat, o: Outcome, c: nat)
    requires c in u.clients && Known(u.commands, u.clients) && i < |u.commands|
    ensures var v := Run(TakenOff(u, i), u.commands[i], o);
            && c in v.clients
            && (v.clients[c].connected ==> u.clients[c].connected)
            && (v.clients[c].state == InProgress && u.clients[c].state != InProgress ==>
                  && u.commands[i].client == c && u.commands[i].body.Connect? && o.connecting
                  && u.clients[c].state == NotInProgress && !u.clients[c].connected)
  {
    hide MoreToTry, NextAttempt, Tried, Add, Accept, CloseSession, Without;
    var x, w := u.commands[i], TakenOff(u, i);
    var cl := w.clients[x.client];
    if x.body.Connect? {
      var cl' := cl.(state := if o.connecting then InProgress else NotInProgress, shouldBeConnected := true);
      var w' := w.(clients := w.clients[x.client := cl']);
      var n := NextAttempt(cl', Tried(cl, Attempt(x.body.uri, x.body.version)));
      AddQuiet(w', x.(body := Connect(n.uri, n.version)), c);
    } else if x.body.Disconnect? {
      var w' := if cl.state == NotInProgress then w else w.(clients := w.clients[x.client := GivenUp(cl)]);
      CloseQuiet(w', x.client, c);
    } else {
      AcceptQuiet(w.(clients := w.clients[x.client := cl.(outbound := o.outbound)]), x.client, 0, Disconnect(true), c);
    }
  }

  lemma AddQuiet(w: World, x: Command, c: nat)
    requires c in w.clients && x.client in w.clients
    ensures Quieter(w, Add(w, x), c)
  {
    hide Record;
  }

  lemma AcceptQuiet(w: World, d: nat, token: MsgId, b: Body, c: nat)
    requires c in w.clients && d in w.clients
    ensures Quieter(w, Accept(w, d, token, b), c)
  {
    hide Add;
    var x := Command(|w.accepted|, d, token, 0, b);
    AddQuiet(w.(accepted := w.accepted + [CardOf(x)]), x, c);
  }

  lemma CloseQuiet(w: World, d: nat, c: nat)
    requires c in w.clients && d in w.clients
    ensures Quieter(w, CloseSession(w, d), c)
    ensures d in CloseSession(w, d).clients && !CloseSession(w, d).clients[d].connected
    ensures CloseSession(w, d).clients[d].state == NotInProgress
  {
    hide Others, Mine;
  }

  lemma CallConnects(u: World, s: Step, c: nat)
    requires c in u.clients && Known(u.commands, u.clients) && !s.Processes? && s.client in u.clients
    ensures var v := Next(u, s);
            && c in v.clients
            && (v.clients[c].connected && !u.clients[c].connected ==> Accepts(s, c) && u.clients[c].state == InProgress)
            && (v.clients[c].state == InProgress ==> u.clients[c].state == InProgress)
  {
    hide Accept, CloseSession, AssignedId, Buffered, MoreToTry, NextAttempt, Others, Mine, FindToken;
    var d := s.client;
    var cl := u.clients[d];
    match s
    case Sends(_, b, _, _) =>
      AcceptQuiet(u, d, 0, b, c);
      AcceptQuiet(WithId(u, d), d, AssignedId(u, d), b, c);
    case Requests(_, b, _, _) => AcceptQuiet(WithId(u, d), d, AssignedId(u, d), b, c);
    case Disconnects(_) =>
      AcceptQuiet(u.(clients := u.clients[d := cl.(shouldBeConnected := false)]), d, 0, Disconnect(false), c);
    case LosesConnection(_) => AcceptQuiet(u, d, 0, Disconnect(true), c);
    case Connects(_, uris, version) =>
      var cl' := cl.(shouldBeConnected := true, uris := uris, version := version);
      AcceptQuiet(u.(clients := u.clients[d := cl']), d, 0, Connect(0, 0), c);
    case Acks(_, _) =>
    case ConnAcks(_, _) =>
    case ConnectFails(_) =>
      var n := NextAttempt(cl, cl.connect);
      AcceptQuiet(Closed(u, d), d, 0, Connect(n.uri, n.version), c);
      CloseQuiet(u, d, c);
    case Reconnects(_) =>
      AcceptQuiet(u, d, 0, Connect(cl.connect.uri, if cl.version == 0 then 0 else cl.connect.version), c);
    case Closes(_) => CloseQuiet(u, d, c);
    case InFlight(_, _) =>
  }

  /** A CONNACK while a connect is under way makes the client connected, and the connect is over; and with a
      session to forget nothing of the client is left.  At any other time it does nothing. */
  lemma AcceptedConnects(u: World, c: nat, clean: bool)
    requires Sound(u, []) && c in u.clients
    ensures var v := SoundNext(u, ConnAcks(c, clean));
            if u.clients[c].state != InProgress then v == u
            else
              && c in v.clients && v.clients[c].connected && v.clients[c].state == NotInProgress
              && if clean then Nothing(v, c)
                 else v.commands == u.commands && v.responses == u.responses && v.done == u.done
  {
    hide Sound, Others, Mine;
    SoundKnown(u);
    NothingLeft(u.(clients := u.clients[c := u.clients[c].(connected := true, state := NotInProgress)]), c);
  }

  /** Nothing of the client is queued, awaited, stored or in flight. */
  ghost predicate Nothing(v: World, c: nat) {
    && c in v.clients && v.clients[c].store == map[] && v.clients[c].outbound == 0 && v.clients[c].msgId == 0
    && (forall x :: x in v.commands ==> x.client != c)
    && forall x :: x in v.responses ==> x.client != c
  }

  lemma NothingLeft(w: World, c: nat)
    requires c in w.clients
    ensures Nothing(CleanSession(w, c), c)
  {
    forall k | 0 <= k < |Others(w.responses, c)| ensures Others(w.responses, c)[k].client != c {
      OthersOnly(w.responses, c, k);
    }
    forall k | 0 <= k < |Others(w.commands, c)| ensures Others(w.commands, c)[k].client != c {
      OthersOnly(w.commands, c, k);
    }
  }

  /** Closing: the client is not connected, no connect is under way, and a session that is not to be kept is
      forgotten; one that is kept stays as it is. */
  lemma CloseCloses(u: World, c: nat)
    requires Sound(u, []) && c in u.clients
    ensures var v := SoundNext(u, Closes(c));
            && c in v.clients && !v.clients[c].connected && v.clients[c].state == NotInProgress
            && if u.clients[c].forgetful then Nothing(v, c)
               else v.commands == u.commands && v.responses == u.responses && v.done == u.done
  {
    hide Sound, Others, Mine;
    SoundKnown(u);
    NothingLeft(Closed(u, c), c);
  }

  /** Sending a DISCONNECT closes the client exactly if nothing is in flight or it has waited long enough; else
      it leaves the connection open, and a connect under way is given up.  In either case it is done with. */
  lemma DisconnectSent(u: World, blocked: set<nat>, o: Outcome)
    requires Sound(u, []) && Known(u.commands, u.clients) && Pick(u, blocked) < |u.commands|
    requires u.commands[Pick(u, blocked)].body.Disconnect?
    ensures var x, v := u.commands[Pick(u, blocked)], SoundNext(u, Processes(blocked, o));
            var cl, cl' := u.clients[x.client], v.clients[x.client];
            && v.done != [] && v.done[|v.done| - 1] == x
            && if cl.outbound == 0 || o.timedOut || (cl.state == NotInProgress && !cl.connected)
               then !cl'.connected && cl'.state == NotInProgress
               else
                 && cl'.connected == cl.connected
                 && cl'.state == if cl.state == NotInProgress then NotInProgress else Disconnecting
  {
    hide Sound, Pick, CloseSession, Without;
    var i := Pick(u, blocked);
    var w := TakenOff(u, i);
    var x := u.commands[i];
    var cl := w.clients[x.client];
    var w' := if cl.state == NotInProgress then w else w.(clients := w.clients[x.client := GivenUp(cl)]);
    CloseQuiet(w', x.client, x.client);
  }

  ghost predicate StartsAt(w: World, steps: seq<Step>, i: nat, c: nat)
    requires Sound(w, []) && i < |steps|
  {
    Starts(After(w, steps[..i]), steps[i], c)
  }

  lemma StartsLater(w: World, steps: seq<Step>, i: nat, c: nat)
    requires Sound(w, []) && steps != [] && Sound(SoundNext(w, steps[0]), []) && i < |steps| - 1
    requires StartsAt(SoundNext(w, steps[0]), steps[1..], i, c)
    ensures StartsAt(w, steps, i + 1, c)
  {
    hide Sound, Starts, SoundNext;
    assert steps[..i + 1][1..] == steps[1..][..i] && steps[..i + 1][0] == steps[0];
  }

  /** Over every run: a client that was not connected and is connected now has sent a CONNECT that got a connect
      under way, unless one was under way already, and after that a CONNACK has accepted it. */
  lemma {:induction false} ConnectedByHandshake(w: World, steps: seq<Step>, c: nat)
    requires Sound(w, []) && c in w.clients && !w.clients[c].connected
    requires c in After(w, steps).clients && After(w, steps).clients[c].connected
    ensures exists j :: 0 <= j < |steps| && Accepts(steps[j], c) &&
              (w.clients[c].state == InProgress || exists i :: 0 <= i < j && StartsAt(w, steps, i, c))
    decreases |steps|
  {
    hide Sound, SoundNext, Starts, Accepts;
    NextKeeps(w, steps[0]);
    StepConnects(w, steps[0], c);
    var v := SoundNext(w, steps[0]);
    if v.clients[c].connected {
      assert Accepts(steps[0], c);
    } else {
      ConnectedByHandshake(v, steps[1..], c);
      var j :| 0 <= j < |steps[1..]| && Accepts(steps[1..][j], c) &&
        (v.clients[c].state == InProgress || exists i :: 0 <= i < j && StartsAt(v, steps[1..], i, c));
      assert steps[j + 1] == steps[1..][j];
      if w.clients[c].state != InProgress {
        if v.clients[c].state == InProgress {
          assert steps[..0] == [];
          assert StartsAt(w, steps, 0, c);
        } else {
          var i :| 0 <= i < j && StartsAt(v, steps[1..], i, c);
          StartsLater(w, steps, i, c);
        }
      }
    }
  }
}
