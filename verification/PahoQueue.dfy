/** The command queue, the response lists and the per-client state of the asynchronous client, and
    what each step does to them.

    A step is what one thread does while it holds the library's mutexes.  What sockets, the
    protocol layer and clocks answer is a parameter of the step. */
module PahoQueue {
  import opened Bytes
  import opened Common
  import opened PahoRecord

  /** MQTTAsync_queuedCommand.  `serial` numbers the commands in the order in which they were
      accepted and stands for the pointer that tells them apart. */
  datatype Command = Command(serial: nat, client: nat, token: MsgId, seqno: nat, body: Body)

  datatype ConnectState = NotInProgress | InProgress | Disconnecting

  /** The URI and the version of a connect attempt. */
  datatype Attempt = Attempt(uri: nat, version: nat)

  /** What the engine reads and writes of MQTTAsyncs and Clients.  `store` holds the records of
      the client's commands by sequence number; its keys are the command stem and that number. */
  datatype Client = Client(
    connected: bool,
    state: ConnectState,
    version: nat,
    forgetful: bool,
    msgId: MsgId,
    outbound: nat,
    maxInflight: nat,
    buffersOffline: bool,
    maxBuffered: Option<nat>,
    shouldBeConnected: bool,
    persistent: bool,
    seqno: nat,
    store: map<nat, bytes>,
    uris: nat,
    connect: Attempt)

  /** What identifies a command for its caller. */
  datatype Card = Card(serial: nat, client: nat, token: MsgId)

  /** The global state.  The response lists of all clients are one sequence, whose entries name
      their client.  The last three fields are a ledger: every command accepted, every command
      done with, and every command taken off the queue to be sent, each in order.  Of a command done
      with that has a token the callback has been called, if it has one, and the memory is freed; a
      CONNECT is done with when it is under way, before its callback, and a second CONNECT or internal
      DISCONNECT at the head is freed without one. */
  datatype World = World(
    commands: seq<Command>,
    responses: seq<Command>,
    clients: map<nat, Client>,
    accepted: seq<Card>,
    done: seq<Command>,
    dispatched: seq<Command>)

  function CardOf(c: Command): Card {
    Card(c.serial, c.client, c.token)
  }

  function Cards(s: seq<Command>): (r: seq<Card>)
    ensures |r| == |s| && forall k :: 0 <= k < |s| ==> r[k] == CardOf(s[k])
  {
    seq(|s|, k requires 0 <= k < |s| => CardOf(s[k]))
  }

  // ---------------------------------------------------------------- lists

  /** The commands of one client, in order. */
  function Mine(s: seq<Command>, c: nat): seq<Command> {
    if s == [] then []
    else if s[0].client == c then [s[0]] + Mine(s[1..], c)
    else Mine(s[1..], c)
  }

  /** The commands of the other clients, in order. */
  function Others(s: seq<Command>, c: nat): seq<Command> {
    if s == [] then []
    else if s[0].client != c then [s[0]] + Others(s[1..], c)
    else Others(s[1..], c)
  }

  /** The first command of the client with this token: its index, or the length if there is none. */
  function FindToken(s: seq<Command>, c: nat, token: nat): (i: nat)
    ensures i <= |s|
    ensures i < |s| ==> s[i].client == c && s[i].token == token
    ensures forall k :: 0 <= k < i ==> !(s[k].client == c && s[k].token == token)
  {
    if s == [] then 0
    else if s[0].client == c && s[0].token == token then 0
    else FindToken(s[1..], c, token) + 1
  }

  lemma {:induction false} MineSum(a: seq<Command>, b: seq<Command>, c: nat)
    ensures Mine(a + b, c) == Mine(a, c) + Mine(b, c)
  {
    if a == [] {
      assert a + b == b;
    } else {
      assert (a + b)[1..] == a[1..] + b;
      MineSum(a[1..], b, c);
    }
  }

  lemma {:induction false} MineIn(s: seq<Command>, c: nat, x: Command)
    ensures x in Mine(s, c) <==> x in s && x.client == c
  {
    if s != [] {
      assert s == [s[0]] + s[1..];
      MineIn(s[1..], c, x);
    }
  }

  // ---------------------------------------------------------------- adding commands

  /** CONNECT and internal DISCONNECT go to the head of the queue. */
  predicate AtHead(b: Body) {
    b.Connect? || (b.Disconnect? && b.internal)
  }

  /** persistCommand: the next sequence number, and a record for the commands that have one. */
  function PersistedClient(cl: Client, cmd: Command): Client {
    var n := (cl.seqno + 1) % 0x1_0000_0000;
    if IsStored(cmd.body)
    then cl.(seqno := n, store := cl.store[n := Record(cmd.token, cmd.body)])
    else cl.(seqno := n)
  }

  function PersistedCommand(cl: Client, cmd: Command): Command {
    if IsStored(cmd.body) then cmd.(seqno := (cl.seqno + 1) % 0x1_0000_0000) else cmd
  }

  /** MQTTAsync_addCommand. */
  function Add(w: World, cmd: Command): World
    requires cmd.client in w.clients
  {
    var cl := w.clients[cmd.client];
    if AtHead(cmd.body) then
      if w.commands != [] && w.commands[0].client == cmd.client
         && TypeCode(w.commands[0].body) == TypeCode(cmd.body)
      then w.(done := w.done + [cmd])
      else w.(commands := [cmd] + w.commands)
    else if cl.persistent then
      w.(commands := w.commands + [PersistedCommand(cl, cmd)],
         clients := w.clients[cmd.client := PersistedClient(cl, cmd)])
    else w.(commands := w.commands + [cmd])
  }

  /** A new command. */
  function Accept(w: World, c: nat, token: MsgId, b: Body): World
    requires c in w.clients
  {
    var cmd := Command(|w.accepted|, c, token, 0, b);
    Add(w.(accepted := w.accepted + [CardOf(cmd)]), cmd)
  }

  // ---------------------------------------------------------------- message ids

  predicate TokenQueued(s: seq<Command>, token: nat) {
    exists k :: 0 <= k < |s| && s[k].token == token
  }

  predicate TokenAwaited(s: seq<Command>, c: nat, token: nat) {
    exists k :: 0 <= k < |s| && s[k].client == c && s[k].token == token
  }

  /** An id that assignMsgId steps over: one in the queue, whoever's it is, or awaited by the client. */
  predicate Taken(w: World, c: nat, id: nat) {
    TokenQueued(w.commands, id) || TokenAwaited(w.responses, c, id)
  }

  function Succ(id: MsgId): MsgId {
    if id == MAX_MSG_ID then 1 else id + 1
  }

  /** assignMsgId from candidate `id`, for at most `fuel` further candidates: the first free one, or
      0 once the search is back at `start`. */
  function Search(w: World, c: nat, start: MsgId, id: MsgId, fuel: nat): MsgId
    decreases fuel
  {
    if !Taken(w, c, id) then id
    else if Succ(id) == start || fuel == 0 then 0
    else Search(w, c, start, Succ(id), fuel - 1)
  }

  /** The search stops: it can come back to where it started, or some id is free. */
  predicate SearchStops(w: World, c: nat, start: MsgId) {
    start != 0 || exists id :: 1 <= id <= MAX_MSG_ID && !Taken(w, c, id)
  }

  /** assignMsgId: 0 stands for "no more message ids". */
  function AssignedId(w: World, c: nat): MsgId
    requires c in w.clients
  {
    var start := w.clients[c].msgId;
    Search(w, c, start, Succ(start), MAX_MSG_ID - 1)
  }

  function WithId(w: World, c: nat): World
    requires c in w.clients
  {
    var id := AssignedId(w, c);
    if id == 0 then w else w.(clients := w.clients[c := w.clients[c].(msgId := id)])
  }

  // ---------------------------------------------------------------- the client's calls

  function Buffered(s: seq<Command>, c: nat): nat {
    if s == [] then 0
    else Buffered(s[1..], c) + if s[0].client == c && s[0].body.Publish? then 1 else 0
  }

  /** MQTTAsync_send; `goodName` and `goodOptions` are the checks of its other arguments. */
  function Send(w: World, c: nat, b: Body, goodName: bool, goodOptions: bool): World
    requires c in w.clients && b.Publish?
  {
    var cl := w.clients[c];
    if !cl.connected && !(cl.buffersOffline && cl.shouldBeConnected) then w
    else if !goodName || b.qos < 0 || b.qos > 2 then w
    else if b.qos > 0 && AssignedId(w, c) == 0 then w
    else
      var w' := if b.qos > 0 then WithId(w, c) else w;
      var id := if b.qos > 0 then AssignedId(w, c) else 0;
      if (cl.maxBuffered.Some? && Buffered(w.commands, c) >= cl.maxBuffered.value) || !goodOptions then w'
      else Accept(w', c, id, b)
  }

  /** MQTTAsync_subscribeMany and MQTTAsync_unsubscribeMany. */
  function Request(w: World, c: nat, b: Body, goodArguments: bool, goodOptions: bool): World
    requires c in w.clients && (b.Subscribe? || b.Unsubscribe?)
  {
    var id := AssignedId(w, c);
    if !w.clients[c].connected || !goodArguments || id == 0 then w
    else if !goodOptions then WithId(w, c)
    else Accept(WithId(w, c), c, id, b)
  }

  /** MQTTAsync_disconnect1. */
  function AskDisconnect(w: World, c: nat, internal: bool): World
    requires c in w.clients
  {
    var cl := w.clients[c];
    var w' := if internal then w else w.(clients := w.clients[c := cl.(shouldBeConnected := false)]);
    if !cl.connected then w' else Accept(w', c, 0, Disconnect(internal))
  }

  /** MQTTAsync_connect, once its checks are passed, with the number of server URIs and the version
      (0 for the default) of its options. */
  function AskConnect(w: World, c: nat, uris: nat, version: nat): World
    requires c in w.clients
  {
    var cl := w.clients[c].(shouldBeConnected := true, uris := uris, version := version);
    Accept(w.(clients := w.clients[c := cl]), c, 0, Connect(0, 0))
  }

  // ---------------------------------------------------------------- processCommand: which command

  /** The first command of its client. */
  predicate Earliest(s: seq<Command>, i: nat)
    requires i < |s|
  {
    forall k :: 0 <= k < i ==> s[k].client != s[i].client
  }

  /** The conditions under which a command may be sent now; `blocked` are the clients with a socket
      write pending. */
  predicate Eligible(clients: map<nat, Client>, cmd: Command, blocked: set<nat>)
    requires cmd.client in clients
  {
    var cl := clients[cmd.client];
    && (cmd.body.Connect? || cmd.body.Disconnect?
        || (cl.connected && cl.state == NotInProgress && cmd.client !in blocked))
    && !(IsStored(cmd.body) && cl.outbound >= MAX_MSG_ID - 1)
    && !(cl.version >= 5 && IsStored(cmd.body) && (cmd.body.Publish? ==> cmd.body.qos > 0)
         && cl.outbound >= cl.maxInflight)
  }

  predicate Known(s: seq<Command>, clients: map<nat, Client>) {
    forall k :: 0 <= k < |s| ==> s[k].client in clients
  }

  /** The loop of processCommand from `i` on, with the clients passed over so far. */
  function PickFrom(s: seq<Command>, clients: map<nat, Client>, blocked: set<nat>, ignored: set<nat>, i: nat): (r: nat)
    requires i <= |s| && Known(s, clients)
    ensures i <= r <= |s|
    decreases |s| - i
  {
    if i == |s| then i
    else if s[i].client in ignored then PickFrom(s, clients, blocked, ignored, i + 1)
    else if Eligible(clients, s[i], blocked) then i
    else PickFrom(s, clients, blocked, ignored + {s[i].client}, i + 1)
  }

  /** The index of the command to send, or the length of the queue if there is none. */
  function Pick(w: World, blocked: set<nat>): (i: nat)
    requires Known(w.commands, w.clients)
    ensures i <= |w.commands|
  {
    PickFrom(w.commands, w.clients, blocked, {}, 0)
  }

  // ---------------------------------------------------------------- processCommand: what becomes of it

  datatype Rc = Complete | Interrupted | SocketError | PersistenceError

  /** What the protocol layer and the clock answer: its return code, the number of messages in
      flight afterwards, whether a connect is now under way, and whether a disconnect has waited
      long enough. */
  datatype Outcome = Outcome(rc: Rc, outbound: nat, connecting: bool, timedOut: bool)

  /** Off the queue, out of the store and into the ledger. */
  function TakenOff(w: World, i: nat): World
    requires i < |w.commands| && w.commands[i].client in w.clients
  {
    var cmd := w.commands[i];
    var cl := w.clients[cmd.client];
    var cl' := if cl.persistent then cl.(store := cl.store - {cmd.seqno}) else cl;
    w.(commands := Without(w.commands, i),
       clients := w.clients[cmd.client := cl'],
       dispatched := w.dispatched + [cmd])
  }

  function Completed(w: World, cmd: Command): World {
    w.(done := w.done + [cmd])
  }

  function Awaiting(w: World, cmd: Command): World {
    w.(responses := w.responses + [cmd])
  }

  /** MQTTAsync_removeResponsesAndCommands. */
  function Removed(w: World, c: nat): World {
    w.(commands := Others(w.commands, c),
       responses := Others(w.responses, c),
       done := w.done + Mine(w.responses, c) + Mine(w.commands, c))
  }

  /** MQTTAsync_cleanSession: clearing the store, the messages in flight and the id counter, then
      everything the client has outstanding. */
  function CleanSession(w: World, c: nat): World
    requires c in w.clients
  {
    Removed(w.(clients := w.clients[c := w.clients[c].(store := map[], outbound := 0, msgId := 0)]), c)
  }

  function Closed(w: World, c: nat): World
    requires c in w.clients
  {
    w.(clients := w.clients[c := w.clients[c].(connected := false, state := NotInProgress)])
  }

  /** MQTTAsync_closeSession; `forgetful` stands for a clean session, or an expiry of 0 in version 5. */
  function CloseSession(w: World, c: nat): World
    requires c in w.clients
  {
    var w' := Closed(w, c);
    if w.clients[c].forgetful then CleanSession(w', c) else w'
  }

  /** MQTTAsync_checkConn: there is another attempt to make. */
  predicate MoreToTry(cl: Client, a: Attempt) {
    a.uri + 1 < cl.uris || (a.version == 4 && cl.version == 0)
  }

  /** What a failed attempt is put back as: after 3.1 the next URI, from the default version again. */
  function NextAttempt(cl: Client, a: Attempt): Attempt {
    if cl.version == 0 then
      if a.version == 3 then Attempt(a.uri + 1, 0) else a
    else Attempt(a.uri + 1, a.version)
  }

  /** The version of an attempt: 3.1.1 and then 3.1 for the default, else the client's. */
  function Tried(cl: Client, a: Attempt): Attempt {
    if cl.version == 0 then
      if a.version == 0 then Attempt(a.uri, 4)
      else if a.version == 4 then Attempt(a.uri, 3)
      else a
    else Attempt(a.uri, cl.version)
  }

  function SetConnect(w: World, c: nat, a: Attempt): World
    requires c in w.clients
  {
    w.(clients := w.clients[c := w.clients[c].(connect := a)])
  }

  /** CONNECT. */
  function RunConnect(w: World, cmd: Command, o: Outcome): World
    requires cmd.client in w.clients && cmd.body.Connect?
  {
    var c := cmd.client;
    var cl := w.clients[c];
    var a := Attempt(cmd.body.uri, cmd.body.version);
    if cl.state != NotInProgress || cl.connected then Completed(SetConnect(w, c, a), cmd)
    else
      var t := Tried(cl, a);
      var tried := cmd.(body := Connect(t.uri, t.version));
      if o.connecting && o.rc != SocketError && o.rc != PersistenceError then
        var cl' := cl.(state := InProgress, connect := t);
        Completed(w.(clients := w.clients[c := cl']), tried)
      else
        var cl' := cl.(state := if o.connecting then InProgress else NotInProgress, shouldBeConnected := true);
        var w' := w.(clients := w.clients[c := cl']);
        if MoreToTry(cl', t) then
          var n := NextAttempt(cl', t);
          Add(w', cmd.(body := Connect(n.uri, n.version)))
        else Completed(SetConnect(w', c, t), tried)
  }

  /** DISCONNECT, with checkDisconnect. */
  function RunDisconnect(w: World, cmd: Command, o: Outcome): World
    requires cmd.client in w.clients
  {
    var c := cmd.client;
    var cl := w.clients[c];
    if cl.state == NotInProgress && !cl.connected then Completed(w, cmd)
    else
      var w' := if cl.state != NotInProgress then w.(clients := w.clients[c := cl.(state := Disconnecting)]) else w;
      Completed(if cl.outbound == 0 || o.timedOut then CloseSession(w', c) else w', cmd)
  }

  /** PUBLISH, SUBSCRIBE and UNSUBSCRIBE. */
  function RunRequest(w: World, cmd: Command, o: Outcome): World
    requires cmd.client in w.clients && IsStored(cmd.body)
  {
    var c := cmd.client;
    var w' := w.(clients := w.clients[c := w.clients[c].(outbound := o.outbound)]);
    if o.rc == SocketError || o.rc == PersistenceError then Completed(AskDisconnect(w', c, true), cmd)
    else if cmd.body.Publish? && cmd.body.qos == 0 && o.rc != Interrupted then Completed(w', cmd)
    else Awaiting(w', cmd)
  }

  function Run(w: World, cmd: Command, o: Outcome): World
    requires cmd.client in w.clients
  {
    if cmd.body.Connect? then RunConnect(w, cmd, o)
    else if cmd.body.Disconnect? then RunDisconnect(w, cmd, o)
    else RunRequest(w, cmd, o)
  }

  /** MQTTAsync_processCommand. */
  function Process(w: World, blocked: set<nat>, o: Outcome): World
    requires Known(w.commands, w.clients)
  {
    var i := Pick(w, blocked);
    if i == |w.commands| then w else Run(TakenOff(w, i), w.commands[i], o)
  }

  // ---------------------------------------------------------------- what the network brings

  /** An acknowledgement takes the first response that waits for its id. */
  function Acknowledge(w: World, c: nat, token: nat): World {
    var i := FindToken(w.responses, c, token);
    if i == |w.responses| then w
    else w.(responses := Without(w.responses, i), done := w.done + [w.responses[i]])
  }

  /** A CONNACK that accepts the connection, with or without a session to forget. */
  function Connected(w: World, c: nat, clean: bool): World
    requires c in w.clients
  {
    if w.clients[c].state != InProgress then w
    else
      var w' := w.(clients := w.clients[c := w.clients[c].(connected := true, state := NotInProgress)]);
      if clean then CleanSession(w', c) else w'
  }

  /** nextOrClose: a connect that failed after it was under way. */
  function NextOrClose(w: World, c: nat): World
    requires c in w.clients
  {
    var cl := w.clients[c];
    if MoreToTry(cl, cl.connect) then
      var n := NextAttempt(cl, cl.connect);
      Accept(Closed(w, c), c, 0, Connect(n.uri, n.version))
    else CloseSession(w, c)
  }

  /** MQTTAsync_reconnect and the automatic retry: the last connect again, its versions restarted. */
  function Reconnect(w: World, c: nat): World
    requires c in w.clients
  {
    var cl := w.clients[c];
    Accept(w, c, 0, Connect(cl.connect.uri, if cl.version == 0 then 0 else cl.connect.version))
  }

  // ---------------------------------------------------------------- runs

  datatype Step =
    | Sends(client: nat, body: Body, goodName: bool, goodOptions: bool)
    | Requests(client: nat, body: Body, goodArguments: bool, goodOptions: bool)
    | Disconnects(client: nat)
    | LosesConnection(client: nat)
    | Connects(client: nat, uris: nat, version: nat)
    | Processes(blocked: set<nat>, outcome: Outcome)
    | Acks(client: nat, token: nat)
    | ConnAcks(client: nat, clean: bool)
    | ConnectFails(client: nat)
    | Reconnects(client: nat)
    | Closes(client: nat)
    | InFlight(client: nat, outbound: nat)

  /** One step.  A call for a client that does not exist does nothing. */
  function Next(w: World, s: Step): World
    requires Known(w.commands, w.clients)
  {
    if s.Processes? then Process(w, s.blocked, s.outcome)
    else if s.client !in w.clients then w
    else
      match s
      case Sends(c, b, goodName, goodOptions) => if b.Publish? then Send(w, c, b, goodName, goodOptions) else w
      case Requests(c, b, goodArguments, goodOptions) =>
        if b.Subscribe? || b.Unsubscribe? then Request(w, c, b, goodArguments, goodOptions) else w
      case Disconnects(c) => AskDisconnect(w, c, false)
      case LosesConnection(c) => AskDisconnect(w, c, true)
      case Connects(c, uris, version) => AskConnect(w, c, uris, version)
      case Acks(c, token) => Acknowledge(w, c, token)
      case ConnAcks(c, clean) => Connected(w, c, clean)
      case ConnectFails(c) => NextOrClose(w, c)
      case Reconnects(c) => Reconnect(w, c)
      case Closes(c) => CloseSession(w, c)
      case InFlight(c, outbound) => w.(clients := w.clients[c := w.clients[c].(outbound := outbound)])
  }
}
