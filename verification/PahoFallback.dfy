/** The attempts of one connect: which URIs and versions are tried, in which order, when every
    attempt fails. */
module PahoFallback {
  import opened Bytes
  import opened Common
  import opened PahoRecord
  import opened PahoQueue
  import PahoTheory

  /** Versions that a connect attempt can carry: for the default, 0 before the first try. */
  predicate Reachable(cl: Client, a: Attempt) {
    cl.version == 0 ==> a.version == 0 || a.version == 3 || a.version == 4
  }

  /** Everything tried from `a` on, as long as each attempt fails and there is more to try. */
  function Attempts(cl: Client, a: Attempt): seq<Attempt>
    requires Reachable(cl, a)
    decreases if a.uri < cl.uris then cl.uris - a.uri else 0, if a.version == 0 then 2 else if a.version == 4 then 1 else 0
  {
    var t := Tried(cl, a);
    [t] + if MoreToTry(cl, t) then Attempts(cl, NextAttempt(cl, t)) else []
  }

  /** From URI `u` on: each once per version, 3.1.1 before 3.1 for the default. */
  function Plan(cl: Client, u: nat): seq<Attempt>
    decreases if u < cl.uris then cl.uris - u else 0
  {
    (if cl.version == 0 then [Attempt(u, 4), Attempt(u, 3)] else [Attempt(u, cl.version)])
    + if u + 1 < cl.uris then Plan(cl, u + 1) else []
  }

  lemma AttemptsNext(cl: Client, a: Attempt)
    requires Reachable(cl, a)
    ensures var t := Tried(cl, a);
            Attempts(cl, a) == [t] + if MoreToTry(cl, t) then Attempts(cl, NextAttempt(cl, t)) else []
  {
  }

  /** What is tried is the plan: from the first URI for a connect, from the last one tried for a
      reconnect.  With no list of URIs, index 0 stands for the one the client was created with. */
  lemma {:induction false} AttemptsFollowPlan(cl: Client, a: Attempt)
    requires cl.version == 0 ==> a.version == 0
    ensures Attempts(cl, a) == Plan(cl, a.uri)
    decreases if a.uri < cl.uris then cl.uris - a.uri else 0
  {
    hide Attempts, Plan;
    var u := a.uri;
    var rest := if u + 1 < cl.uris then Plan(cl, u + 1) else [];
    PlanNext(cl, u);
    AttemptsNext(cl, a);
    if u + 1 < cl.uris {
      AttemptsFollowPlan(cl, Attempt(u + 1, if cl.version == 0 then 0 else cl.version));
    }
    if cl.version == 0 {
      AttemptsNext(cl, Attempt(u, 4));
      assert [Attempt(u, 4)] + ([Attempt(u, 3)] + rest) == [Attempt(u, 4), Attempt(u, 3)] + rest;
    }
  }

  lemma PlanNext(cl: Client, u: nat)
    ensures Plan(cl, u) ==
            (if cl.version == 0 then [Attempt(u, 4), Attempt(u, 3)] else [Attempt(u, cl.version)])
            + if u + 1 < cl.uris then Plan(cl, u + 1) else []
  {
  }

  /** How many attempts `n` URIs are good for. */
  function Total(cl: Client, n: nat): nat {
    if cl.version == 0 then 2 * n else n
  }

  /** The i-th attempt from URI `u` on. */
  function Planned(cl: Client, u: nat, i: nat): Attempt {
    if cl.version == 0 then Attempt(u + i / 2, if i % 2 == 0 then 4 else 3) else Attempt(u + i, cl.version)
  }

  lemma {:induction false} PlanLength(cl: Client, u: nat)
    ensures |Plan(cl, u)| == Total(cl, if u < cl.uris then cl.uris - u else 1)
    decreases if u < cl.uris then cl.uris - u else 0
  {
    if u + 1 < cl.uris {
      PlanLength(cl, u + 1);
    }
  }

  /** The plan, entry by entry. */
  lemma {:induction false} PlanIs(cl: Client, u: nat, i: nat)
    requires i < |Plan(cl, u)|
    ensures Plan(cl, u)[i] == Planned(cl, u, i)
    decreases if u < cl.uris then cl.uris - u else 0
  {
    var n := Total(cl, 1);
    if i >= n {
      assert Plan(cl, u)[i] == Plan(cl, u + 1)[i - n];
      PlanIs(cl, u + 1, i - n);
    }
  }

  /** A connect whose attempts all fail tries every URI in order, once per version, and stops. */
  lemma EveryUriOncePerVersion(cl: Client)
    ensures var tried, n := Attempts(cl, Attempt(0, 0)), if cl.uris == 0 then 1 else cl.uris;
            && |tried| == Total(cl, n)
            && forall i :: 0 <= i < |tried| ==>
                 tried[i] == if cl.version == 0 then Attempt(i / 2, if i % 2 == 0 then 4 else 3) else Attempt(i, cl.version)
  {
    hide Attempts, Plan;
    AttemptsFollowPlan(cl, Attempt(0, 0));
    PlanLength(cl, 0);
    forall i | 0 <= i < |Plan(cl, 0)|
      ensures Plan(cl, 0)[i] == Planned(cl, 0, i)
    {
      PlanIs(cl, 0, i);
    }
  }

  // ---------------------------------------------------------------- the two places where failures surface

  /** An outcome that fails the attempt at once, in processCommand. */
  predicate AtOnce(o: Outcome) {
    !o.connecting || o.rc == SocketError || o.rc == PersistenceError
  }

  /** The world after the attempt of CONNECT command `x` has failed: at once, or later in nextOrClose. */
  function Failed(w: World, x: Command, o: Outcome): World
    requires x.client in w.clients && x.body.Connect?
  {
    if AtOnce(o) then RunConnect(w, x, o) else NextOrClose(RunConnect(w, x, o), x.client)
  }

  /** Wherever the failure surfaces, the next attempt heads the queue, or there is none left and the
      queue holds no new command: both places enumerate the same attempts.  The client is free for the
      next attempt unless the protocol layer reports an error and yet leaves a connect under way. */
  lemma FailureGoesOn(w: World, x: Command, o: Outcome)
    requires x.client in w.clients && x.body.Connect?
    requires var cl := w.clients[x.client]; cl.state == NotInProgress && !cl.connected
    requires w.commands == [] || w.commands[0].client != x.client || !w.commands[0].body.Connect?
    ensures var cl := w.clients[x.client];
            var t := Tried(cl, Attempt(x.body.uri, x.body.version));
            var w' := Failed(w, x, o);
            if MoreToTry(cl, t) then
              && |w'.commands| == |w.commands| + 1 && w'.commands[1..] == w.commands
              && w'.commands[0].client == x.client
              && w'.commands[0].body == Connect(NextAttempt(cl, t).uri, NextAttempt(cl, t).version)
            else
              w'.commands == if !AtOnce(o) && cl.forgetful then Others(w.commands, x.client) else w.commands
    ensures var w' := Failed(w, x, o);
            && w'.clients.Keys == w.clients.Keys
            && SameTarget(w.clients[x.client], w'.clients[x.client])
            && !w'.clients[x.client].connected
            && (w'.clients[x.client].state == NotInProgress <==> !(o.connecting && AtOnce(o)))
  {
    hide Others, Mine;
    var cl := w.clients[x.client];
    var t := Tried(cl, Attempt(x.body.uri, x.body.version));
    var v := RunConnect(w, x, o);
    assert AtOnce(o) || v.clients[x.client].connect == t;
  }

  // ---------------------------------------------------------------- runs

  predicate SameTarget(a: Client, b: Client) {
    a.uris == b.uris && a.version == b.version
  }

  lemma {:induction false} AttemptsSame(a: Client, b: Client, t: Attempt)
    requires Reachable(a, t) && SameTarget(a, b)
    ensures Attempts(a, t) == Attempts(b, t)
    decreases if t.uri < a.uris then a.uris - t.uri else 0, if t.version == 0 then 2 else if t.version == 4 then 1 else 0
  {
    hide Attempts;
    AttemptsNext(a, t);
    AttemptsNext(b, t);
    if MoreToTry(a, Tried(a, t)) {
      AttemptsSame(a, b, NextAttempt(a, Tried(a, t)));
    }
  }

  // ---------------------------------------------------------------- lists of one client

  lemma MineOne(x: Command, c: nat)
    ensures Mine([x], c) == if x.client == c then [x] else []
  {
    assert [x][1..] == [];
  }

  lemma {:induction false} MineOthers(s: seq<Command>, d: nat, c: nat)
    ensures Mine(Others(s, d), c) == if c == d then [] else Mine(s, c)
  {
    if s != [] {
      MineOthers(s[1..], d, c);
      if s[0].client != d {
        MineSum([s[0]], Others(s[1..], d), c);
        MineOne(s[0], c);
      }
    }
  }

  lemma {:induction false} NoneOfMine(s: seq<Command>, c: nat)
    requires forall k :: 0 <= k < |s| ==> s[k].client != c
    ensures Mine(s, c) == []
  {
    if s != [] {
      NoneOfMine(s[1..], c);
    }
  }

  /** Taking out the earliest command of a client. */
  lemma MineWithout(s: seq<Command>, i: nat, c: nat)
    requires i < |s| && Earliest(s, i)
    ensures s[i].client == c ==> Mine(s, c) == [s[i]] + Mine(Without(s, i), c)
    ensures s[i].client != c ==> Mine(Without(s, i), c) == Mine(s, c)
  {
    hide Mine;
    assert s == s[..i] + [s[i]] + s[i + 1..];
    MineSum(s[..i] + [s[i]], s[i + 1..], c);
    MineSum(s[..i], [s[i]], c);
    MineSum(s[..i], s[i + 1..], c);
    MineOne(s[i], c);
    if s[i].client == c {
      NoneOfMine(s[..i], c);
    }
    assert Mine(s[..i], c) + [] == Mine(s[..i], c);
  }

  // ---------------------------------------------------------------- runs

  /** Where a connect is: its next attempt is queued, an attempt is under way, or it is over. */
  datatype Phase = Queued(next: Attempt) | UnderWay(now: Attempt) | Over

  function PhaseOf(cl: Client, mine: seq<Command>): Phase {
    if cl.state != NotInProgress then UnderWay(cl.connect)
    else if mine != [] && mine[0].body.Connect? then Queued(Attempt(mine[0].body.uri, mine[0].body.version))
    else Over
  }

  /** What is left to try. */
  function Rest(cl: Client, ph: Phase): seq<Attempt>
    requires ph.Queued? ==> Reachable(cl, ph.next)
    requires ph.UnderWay? ==> Reachable(cl, ph.now)
  {
    match ph
    case Queued(a) => Attempts(cl, a)
    case UnderWay(t) => if MoreToTry(cl, t) then Attempts(cl, NextAttempt(cl, t)) else []
    case Over => []
  }

  predicate AllStored(s: seq<Command>) {
    forall k :: 0 <= k < |s| ==> IsStored(s[k].body)
  }

  /** The client is not connected; behind its CONNECT, if that is queued, there are only PUBLISH, SUBSCRIBE
      and UNSUBSCRIBE commands. */
  ghost predicate Trying(cl: Client, mine: seq<Command>) {
    && !cl.connected && cl.state != Disconnecting
    && match PhaseOf(cl, mine)
       case Queued(a) => AllStored(mine[1..]) && Reachable(cl, a)
       case UnderWay(t) => AllStored(mine) && Reachable(cl, t) && (cl.version == 0 ==> t.version != 0)
       case Over => AllStored(mine)
  }

  /** The attempt that a step makes for the client. */
  function Tries(w: World, c: nat, s: Step): seq<Attempt>
    requires Known(w.commands, w.clients)
  {
    if s.Processes? && Pick(w, s.blocked) < |w.commands| then
      var x := w.commands[Pick(w, s.blocked)];
      if x.client == c && x.body.Connect? && w.clients[c].state == NotInProgress && !w.clients[c].connected
      then [Tried(w.clients[c], Attempt(x.body.uri, x.body.version))] else []
    else []
  }

  /** An error leaves nothing under way. */
  predicate Clean(o: Outcome) {
    !(o.connecting && AtOnce(o))
  }

  /** Any step of other clients, and what can happen to a client none of whose attempts succeeds: no second
      connect, no CONNACK, no closing from outside, and a failure only of an attempt that is under way. */
  predicate Failing(w: World, c: nat, s: Step)
    requires Known(w.commands, w.clients) && c in w.clients
  {
    match s
    case Processes(blocked, o) =>
      var i := Pick(w, blocked); i < |w.commands| && w.commands[i].client == c ==> Clean(o)
    case ConnectFails(d) => d == c ==> w.clients[c].state == InProgress
    case Connects(d, _, _) => d != c
    case ConnAcks(d, _) => d != c
    case Reconnects(d) => d != c
    case Closes(d) => d != c
    case _ => true
  }

  // ---------------------------------------------------------------- steps of other clients

  predicate Same(w: World, v: World, c: nat) {
    && c in w.clients && c in v.clients && v.clients[c] == w.clients[c] && Mine(v.commands, c) == Mine(w.commands, c)
  }

  lemma AddApart(w: World, x: Command, c: nat)
    requires x.client in w.clients && c in w.clients && x.client != c
    ensures Same(w, Add(w, x), c)
  {
    hide Mine, PersistedClient;
    var y := PersistedCommand(w.clients[x.client], x);
    MineOne(x, c);
    MineOne(y, c);
    MineSum([x], w.commands, c);
    MineSum(w.commands, [x], c);
    MineSum(w.commands, [y], c);
    assert [] + Mine(w.commands, c) == Mine(w.commands, c) == Mine(w.commands, c) + [];
  }

  lemma AcceptApart(w: World, d: nat, token: MsgId, b: Body, c: nat)
    requires d in w.clients && c in w.clients && d != c
    ensures Same(w, Accept(w, d, token, b), c)
  {
    hide Mine, Add;
    var x := Command(|w.accepted|, d, token, 0, b);
    AddApart(w.(accepted := w.accepted + [CardOf(x)]), x, c);
  }

  lemma CleanApart(w: World, d: nat, c: nat)
    requires d in w.clients && c in w.clients && d != c
    ensures Same(w, CleanSession(w, d), c) && Same(w, CloseSession(w, d), c)
  {
    hide Mine, Others;
    MineOthers(w.commands, d, c);
  }

  lemma RunApart(w: World, x: Command, o: Outcome, c: nat)
    requires x.client in w.clients && c in w.clients && x.client != c
    ensures Same(w, Run(w, x, o), c)
  {
    hide Mine, Add, Accept, CloseSession, CleanSession, MoreToTry, NextAttempt, Tried;
    var d := x.client;
    var cl := w.clients[d];
    if x.body.Connect? {
      var t := Tried(cl, Attempt(x.body.uri, x.body.version));
      var cl' := cl.(state := if o.connecting then InProgress else NotInProgress, shouldBeConnected := true);
      var next := NextAttempt(cl', t);
      AddApart(w.(clients := w.clients[d := cl']), x.(body := Connect(next.uri, next.version)), c);
    } else if x.body.Disconnect? {
      CleanApart(w, d, c);
      CleanApart(w.(clients := w.clients[d := cl.(state := Disconnecting)]), d, c);
    } else {
      AcceptApart(w.(clients := w.clients[d := cl.(outbound := o.outbound)]), d, 0, Disconnect(true), c);
    }
  }

  lemma TakenOffApart(w: World, i: nat, c: nat)
    requires i < |w.commands| && Earliest(w.commands, i) && w.commands[i].client in w.clients && c in w.clients
    requires w.commands[i].client != c
    ensures Same(w, TakenOff(w, i), c)
  {
    hide Mine;
    MineWithout(w.commands, i, c);
  }

  /** A step that is not the client's changes nothing for it. */
  lemma StepApart(w: World, s: Step, c: nat)
    requires Known(w.commands, w.clients) && c in w.clients
    requires s.Processes? ==> Pick(w, s.blocked) == |w.commands| || w.commands[Pick(w, s.blocked)].client != c
    requires !s.Processes? ==> s.client != c
    ensures Same(w, Next(w, s), c)
  {
    hide Mine, Pick, Run, Accept, CloseSession, CleanSession, AssignedId, FindToken, MoreToTry, NextAttempt;
    if s.Processes? {
      var i := Pick(w, s.blocked);
      if i < |w.commands| {
        PahoTheory.PickIs(w, s.blocked, i);
        TakenOffApart(w, i, c);
        RunApart(TakenOff(w, i), w.commands[i], s.outcome, c);
      }
    } else if s.client in w.clients {
      CallApart(w, s, c);
    }
  }

  lemma CallApart(w: World, s: Step, c: nat)
    requires Known(w.commands, w.clients) && c in w.clients && !s.Processes? && s.client in w.clients && s.client != c
    ensures Same(w, Next(w, s), c)
  {
    hide Mine, Accept, CloseSession, CleanSession, AssignedId, FindToken, MoreToTry, NextAttempt, Buffered;
    var d := s.client;
    var cl := w.clients[d];
    match s
    case Sends(_, b, _, _) =>
      AcceptApart(w, d, 0, b, c);
      AcceptApart(WithId(w, d), d, AssignedId(w, d), b, c);
    case Requests(_, b, _, _) => AcceptApart(WithId(w, d), d, AssignedId(w, d), b, c);
    case Disconnects(_) =>
      AcceptApart(w.(clients := w.clients[d := cl.(shouldBeConnected := false)]), d, 0, Disconnect(false), c);
    case LosesConnection(_) => AcceptApart(w, d, 0, Disconnect(true), c);
    case Connects(_, uris, version) =>
      var cl' := cl.(shouldBeConnected := true, uris := uris, version := version);
      AcceptApart(w.(clients := w.clients[d := cl']), d, 0, Connect(0, 0), c);
    case ConnAcks(_, _) =>
      CleanApart(w.(clients := w.clients[d := cl.(connected := true, state := NotInProgress)]), d, c);
    case ConnectFails(_) =>
      var next := NextAttempt(cl, cl.connect);
      AcceptApart(Closed(w, d), d, 0, Connect(next.uri, next.version), c);
      CleanApart(w, d, c);
    case Reconnects(_) =>
      AcceptApart(w, d, 0, Connect(cl.connect.uri, if cl.version == 0 then 0 else cl.connect.version), c);
    case Closes(_) => CleanApart(w, d, c);
    case _ =>
  }

  // ---------------------------------------------------------------- steps of the client

  /** What one step has to leave of a failing connect. */
  ghost predicate GoesOn(w: World, v: World, c: nat, tried: seq<Attempt>)
    requires c in w.clients && Trying(w.clients[c], Mine(w.commands, c))
  {
    && c in v.clients && SameTarget(w.clients[c], v.clients[c]) && Trying(v.clients[c], Mine(v.commands, c))
    && Rest(w.clients[c], PhaseOf(w.clients[c], Mine(w.commands, c)))
       == tried + Rest(v.clients[c], PhaseOf(v.clients[c], Mine(v.commands, c)))
  }

  lemma SameGoesOn(w: World, v: World, c: nat)
    requires Same(w, v, c) && Trying(w.clients[c], Mine(w.commands, c))
    ensures GoesOn(w, v, c, [])
  {
    hide Mine, Attempts, MoreToTry, NextAttempt, AllStored;
    var r := Rest(v.clients[c], PhaseOf(v.clients[c], Mine(v.commands, c)));
    assert [] + r == r;
  }

  /** A change of the client that does not concern its connects, and more stored commands. */
  lemma MoreStored(w: World, v: World, c: nat, more: seq<Command>)
    requires c in w.clients && Trying(w.clients[c], Mine(w.commands, c)) && c in v.clients
    requires var a, b := w.clients[c], v.clients[c];
             SameTarget(a, b) && b.connected == a.connected && b.state == a.state && b.connect == a.connect
    requires Mine(v.commands, c) == Mine(w.commands, c) + more && AllStored(more)
    ensures GoesOn(w, v, c, [])
  {
    hide Mine, Attempts, MoreToTry, NextAttempt;
    var a, b := w.clients[c], v.clients[c];
    var mine := Mine(w.commands, c);
    var ph := PhaseOf(a, mine);
    assert mine != [] ==> (mine + more)[0] == mine[0] && (mine + more)[1..] == mine[1..] + more;
    assert PhaseOf(b, mine + more) == ph;
    SameRest(a, b, ph);
    assert [] + Rest(b, ph) == Rest(b, ph);
  }

  lemma SameRest(a: Client, b: Client, ph: Phase)
    requires SameTarget(a, b)
    requires ph.Queued? ==> Reachable(a, ph.next)
    requires ph.UnderWay? ==> Reachable(a, ph.now)
    ensures Rest(a, ph) == Rest(b, ph)
  {
    hide Attempts;
    match ph
    case Queued(t) => AttemptsSame(a, b, t);
    case UnderWay(t) => if MoreToTry(a, t) { AttemptsSame(a, b, NextAttempt(a, t)); }
    case Over =>
  }

  /** The attempt that is queued is made and fails at once, or gets under way. */
  lemma AttemptGoesOn(w: World, i: nat, c: nat, o: Outcome)
    requires i < |w.commands| && Earliest(w.commands, i) && w.commands[i].client == c && c in w.clients
    requires Trying(w.clients[c], Mine(w.commands, c)) && w.commands[i].body.Connect? && Clean(o)
    ensures var x := w.commands[i];
            && w.clients[c].state == NotInProgress
            && GoesOn(w, RunConnect(TakenOff(w, i), x, o), c,
                      [Tried(w.clients[c], Attempt(x.body.uri, x.body.version))])
  {
    hide Mine, Attempts, Trying, RunConnect;
    var x := w.commands[i];
    var u := TakenOff(w, i);
    MineWithout(w.commands, i, c);
    var rest := Mine(u.commands, c);
    ConnectIsNext(w.clients[c], x, rest);
    AttemptNow(u, x, rest, o);
    var v := RunConnect(u, x, o);
    AttemptsNext(w.clients[c], Attempt(x.body.uri, x.body.version));
    SameRest(w.clients[c], v.clients[c], PhaseOf(v.clients[c], Mine(v.commands, c)));
  }

  lemma ConnectIsNext(cl: Client, x: Command, rest: seq<Command>)
    requires Trying(cl, [x] + rest) && x.body.Connect?
    ensures cl.state == NotInProgress && !cl.connected && AllStored(rest)
    ensures var a := Attempt(x.body.uri, x.body.version); PhaseOf(cl, [x] + rest) == Queued(a) && Reachable(cl, a)
  {
    assert ([x] + rest)[0] == x && ([x] + rest)[1..] == rest;
  }

  lemma AttemptNow(u: World, x: Command, rest: seq<Command>, o: Outcome)
    requires x.client in u.clients && x.body.Connect? && Clean(o)
    requires rest == Mine(u.commands, x.client) && AllStored(rest)
    requires var cl := u.clients[x.client];
             cl.state == NotInProgress && !cl.connected && Reachable(cl, Attempt(x.body.uri, x.body.version))
    ensures var c, v := x.client, RunConnect(u, x, o);
            var cl := u.clients[c];
            var t := Tried(cl, Attempt(x.body.uri, x.body.version));
            && c in v.clients && SameTarget(cl, v.clients[c]) && Trying(v.clients[c], Mine(v.commands, c))
            && PhaseOf(v.clients[c], Mine(v.commands, c))
               == if !AtOnce(o) then UnderWay(t) else if MoreToTry(cl, t) then Queued(NextAttempt(cl, t)) else Over
  {
    hide Mine;
    var c, v := x.client, RunConnect(u, x, o);
    var cl := u.clients[c];
    var t := Tried(cl, Attempt(x.body.uri, x.body.version));
    var next := NextAttempt(cl, t);
    if AtOnce(o) && MoreToTry(cl, t) {
      var y := x.(body := Connect(next.uri, next.version));
      if u.commands != [] {
        FirstIsMine(u.commands, c);
      }
      assert v.commands == [y] + u.commands;
      MineSum([y], u.commands, c);
      MineOne(y, c);
      assert ([y] + rest)[1..] == rest;
    }
  }

  lemma FirstIsMine(s: seq<Command>, c: nat)
    requires s != []
    ensures s[0].client == c ==> Mine(s, c) != [] && Mine(s, c)[0] == s[0]
  {
  }

  /** The attempt that is under way fails. */
  lemma FailureOfAttempt(w: World, c: nat)
    requires c in w.clients && Trying(w.clients[c], Mine(w.commands, c)) && w.clients[c].state == InProgress
    ensures GoesOn(w, NextOrClose(w, c), c, [])
  {
    hide Mine, Others, Attempts;
    var cl := w.clients[c];
    var t := cl.connect;
    var v := NextOrClose(w, c);
    var mine := Mine(w.commands, c);
    MineOthers(w.commands, c, c);
    if MoreToTry(cl, t) {
      var next := NextAttempt(cl, t);
      var y := Command(|w.accepted|, c, 0, 0, Connect(next.uri, next.version));
      if w.commands != [] {
        FirstIsMine(w.commands, c);
      }
      assert v.commands == [y] + w.commands;
      MineSum([y], w.commands, c);
      MineOne(y, c);
      assert ([y] + mine)[1..] == mine;
    }
    var ph := PhaseOf(v.clients[c], Mine(v.commands, c));
    assert ph == if MoreToTry(cl, t) then Queued(NextAttempt(cl, t)) else Over;
    SameRest(cl, v.clients[c], ph);
    assert [] + Rest(v.clients[c], ph) == Rest(v.clients[c], ph);
  }

  /** Its own calls put stored commands behind the others, if anything. */
  lemma CallGoesOn(w: World, c: nat, s: Step)
    requires Known(w.commands, w.clients) && c in w.clients && Trying(w.clients[c], Mine(w.commands, c))
    requires !s.Processes? && s.client == c && Failing(w, c, s) && !s.ConnectFails?
    ensures GoesOn(w, Next(w, s), c, [])
  {
    hide Mine, Trying, Attempts, AssignedId, FindToken, Buffered;
    assert !w.clients[c].connected by { TryingMeans(w.clients[c], Mine(w.commands, c)); }
    var v := Next(w, s);
    var mine := Mine(w.commands, c);
    assert mine + [] == mine;
    if v.commands == w.commands {
      MoreStored(w, v, c, []);
    } else {
      var y := v.commands[|w.commands|];
      assert v.commands == w.commands + [y] && y.client == c && IsStored(y.body);
      MineSum(w.commands, [y], c);
      MineOne(y, c);
      MoreStored(w, v, c, [y]);
    }
  }

  lemma TryingMeans(cl: Client, mine: seq<Command>)
    requires Trying(cl, mine)
    ensures !cl.connected
  {
  }

  lemma StepGoesOn(w: World, c: nat, s: Step)
    requires Known(w.commands, w.clients) && c in w.clients && Trying(w.clients[c], Mine(w.commands, c))
    requires Failing(w, c, s)
    ensures GoesOn(w, Next(w, s), c, Tries(w, c, s))
  {
    hide Mine, Trying, GoesOn, Pick, RunConnect, TakenOff, NextOrClose, Tried;
    if s.Processes? && Pick(w, s.blocked) < |w.commands| && w.commands[Pick(w, s.blocked)].client == c {
      var i := Pick(w, s.blocked);
      PahoTheory.PickIs(w, s.blocked, i);
      TryingMeans(w.clients[c], Mine(w.commands, c));
      MineWithout(w.commands, i, c);
      OnlyConnect(w.clients, c, w.commands[i], Mine(Without(w.commands, i), c), s.blocked);
      AttemptGoesOn(w, i, c, s.outcome);
    } else if s.Processes? || s.client != c {
      StepApart(w, s, c);
      SameGoesOn(w, Next(w, s), c);
    } else if s.ConnectFails? {
      FailureOfAttempt(w, c);
    } else {
      CallGoesOn(w, c, s);
    }
  }

  /** Nothing but its CONNECT can be sent for a client that is not connected. */
  lemma OnlyConnect(clients: map<nat, Client>, c: nat, x: Command, rest: seq<Command>, blocked: set<nat>)
    requires c in clients && Trying(clients[c], [x] + rest) && x.client == c && Eligible(clients, x, blocked)
    ensures x.body.Connect?
  {
    assert ([x] + rest)[0] == x;
  }

  // ---------------------------------------------------------------- whole runs

  ghost predicate FailingRun(w: World, c: nat, steps: seq<Step>)
    requires PahoTheory.Sound(w, []) && c in w.clients
    decreases |steps|
  {
    steps == [] ||
    (Failing(w, c, steps[0]) &&
     var v := PahoTheory.SoundNext(w, steps[0]);
     PahoTheory.Sound(v, []) && c in v.clients && FailingRun(v, c, steps[1..]))
  }

  /** The attempts that a run makes for the client. */
  ghost function Made(w: World, c: nat, steps: seq<Step>): seq<Attempt>
    requires PahoTheory.Sound(w, [])
    decreases |steps|
  {
    if steps == [] then []
    else
      PahoTheory.NextKeeps(w, steps[0]);
      Tries(w, c, steps[0]) + Made(PahoTheory.SoundNext(w, steps[0]), c, steps[1..])
  }

  lemma GoesOnThen(w: World, v: World, u: World, c: nat, a: seq<Attempt>, b: seq<Attempt>)
    requires c in w.clients && Trying(w.clients[c], Mine(w.commands, c))
    requires GoesOn(w, v, c, a) && GoesOn(v, u, c, b)
    ensures GoesOn(w, u, c, a + b)
  {
    hide Mine, Rest, PhaseOf;
    var r := Rest(u.clients[c], PhaseOf(u.clients[c], Mine(u.commands, c)));
    assert a + (b + r) == (a + b) + r;
  }

  lemma {:induction false} RestTried(w: World, c: nat, steps: seq<Step>)
    requires PahoTheory.Sound(w, []) && c in w.clients && Trying(w.clients[c], Mine(w.commands, c))
    requires FailingRun(w, c, steps)
    ensures GoesOn(w, PahoTheory.After(w, steps), c, Made(w, c, steps))
    decreases |steps|
  {
    hide Mine, Trying, Failing, Tries, PahoTheory.Sound, Next;
    if steps == [] {
      SameGoesOn(w, w, c);
    } else {
      PahoTheory.SoundKnown(w);
      PahoTheory.NextKeeps(w, steps[0]);
      var v := PahoTheory.SoundNext(w, steps[0]);
      StepGoesOn(w, c, steps[0]);
      RestTried(v, c, steps[1..]);
      GoesOnThen(w, v, PahoTheory.After(w, steps), c, Tries(w, c, steps[0]), Made(v, c, steps[1..]));
    }
  }

  /** Where MQTTAsync_connect leaves a client that is not connected and has no connect under way. */
  lemma ConnectStarts(w: World, c: nat, uris: nat, version: nat)
    requires c in w.clients && !w.clients[c].connected && w.clients[c].state == NotInProgress
    requires AllStored(Mine(w.commands, c))
    ensures var v := AskConnect(w, c, uris, version);
            && Trying(v.clients[c], Mine(v.commands, c))
            && PhaseOf(v.clients[c], Mine(v.commands, c)) == Queued(Attempt(0, 0))
  {
    hide Mine;
    var x := Command(|w.accepted|, c, 0, 0, Connect(0, 0));
    if w.commands != [] {
      FirstIsMine(w.commands, c);
    }
    MineSum([x], w.commands, c);
    MineOne(x, c);
    assert ([x] + Mine(w.commands, c))[1..] == Mine(w.commands, c);
  }

  /** The property that the fallback is for, over runs: from the CONNECT that MQTTAsync_connect queues, with
      every attempt failing, now at once and now later, and with any steps of other clients and any sending,
      asking and acknowledging of this one between them: the attempts made, and after them those that the
      queued CONNECT or the attempt under way leads to, are the plan - every URI in order, once per version. */
  lemma FailingConnect(w: World, c: nat, steps: seq<Step>)
    requires PahoTheory.Sound(w, []) && c in w.clients && Trying(w.clients[c], Mine(w.commands, c))
    requires PhaseOf(w.clients[c], Mine(w.commands, c)) == Queued(Attempt(0, 0)) && FailingRun(w, c, steps)
    ensures var v := PahoTheory.After(w, steps);
            && c in v.clients && Trying(v.clients[c], Mine(v.commands, c))
            && var ph := PhaseOf(v.clients[c], Mine(v.commands, c));
               && Plan(w.clients[c], 0) == Made(w, c, steps) + Rest(v.clients[c], ph)
               && (ph.Over? ==> Made(w, c, steps) == Plan(w.clients[c], 0))
               && (Made(w, c, steps) == Plan(w.clients[c], 0) ==>
                     forall k :: 0 <= k < |v.commands| && v.commands[k].client == c ==> !v.commands[k].body.Connect?)
  {
    hide Mine, Attempts, Plan, Made, PahoTheory.After, FailingRun, PahoTheory.Sound;
    RestTried(w, c, steps);
    var v := PahoTheory.After(w, steps);
    var cl, mine := v.clients[c], Mine(v.commands, c);
    AttemptsFollowPlan(w.clients[c], Attempt(0, 0));
    var made, rest := Made(w, c, steps), Rest(cl, PhaseOf(cl, mine));
    assert made + [] == made;
    if made == Plan(w.clients[c], 0) {
      assert |rest| == 0;
      if PhaseOf(cl, mine).Queued? {
        AttemptsNext(cl, PhaseOf(cl, mine).next);
      }
      forall k | 0 <= k < |v.commands| && v.commands[k].client == c
        ensures !v.commands[k].body.Connect?
      {
        MineIn(v.commands, c, v.commands[k]);
      }
    }
  }

  /** If the protocol layer reports an error and leaves a connect under way, the plan breaks off: the
      CONNECT put back for the next attempt is completed by the turn that takes it, without being tried. */
  lemma BreaksOff(w: World, x: Command, o: Outcome, next: Outcome)
    requires x.client in w.clients && x.body.Connect? && !Clean(o)
    requires w.clients[x.client].state == NotInProgress && !w.clients[x.client].connected
    requires MoreToTry(w.clients[x.client], Tried(w.clients[x.client], Attempt(x.body.uri, x.body.version)))
    requires w.commands == [] || w.commands[0].client != x.client || !w.commands[0].body.Connect?
    ensures var v := RunConnect(w, x, o);
            && v.commands != [] && v.commands[0].client == x.client && v.commands[0].body.Connect?
            && var u := RunConnect(TakenOff(v, 0), v.commands[0], next);
               && u.commands == w.commands && u.done == v.done + [v.commands[0]]
  {
  }
}
