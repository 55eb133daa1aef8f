/** The engine itself: the queue, the response lists and the clients, updated in place by the
    loops of MQTTAsync.c.  Every method does to the state what the function of its name in
    PahoQueue and PahoRecovery says. */
module PahoEngine {
  import opened Bytes
  import opened Common
  import opened PahoRecord
  import opened PahoQueue
  import opened PahoRecovery
  import PahoIds
  import PahoTheory

  // ---------------------------------------------------------------- records

  function Joined(bufs: seq<bytes>): bytes {
    if bufs == [] then [] else Joined(bufs[..|bufs| - 1]) + bufs[|bufs| - 1]
  }

  lemma JoinedNext(bufs: seq<bytes>, b: bytes)
    ensures Joined(bufs + [b]) == Joined(bufs) + b
  {
    assert (bufs + [b])[..|bufs|] == bufs;
  }

  /** The buffers that persistCommand hands to the store, one for each field. */
  method RecordBuffers(token: int32, b: Body) returns (bufs: seq<bytes>)
    requires IsStored(b)
    ensures Joined(bufs) == Record(token, b)
  {
    hide IntBytes;
    bufs := [];
    assert Joined(bufs) == [];
    bufs := Put(bufs, IntBytes(TypeCode(b)));
    bufs := Put(bufs, IntBytes(token));
    ghost var head := IntBytes(TypeCode(b)) + IntBytes(token);
    assert Joined(bufs) == head;
    match b
    case Publish(name, payload, qos, retained) =>
      bufs := Put(bufs, Terminated(name));
      bufs := Put(bufs, IntBytes(AsInt(|payload|)));
      bufs := Put(bufs, payload);
      bufs := Put(bufs, IntBytes(qos));
      bufs := Put(bufs, IntBytes(retained));
      Five(head, Terminated(name), IntBytes(AsInt(|payload|)), payload, IntBytes(qos), IntBytes(retained));
    case Subscribe(topics) =>
      bufs := Put(bufs, IntBytes(AsInt(|topics|)));
      bufs := PutTopics(bufs, topics);
    case Unsubscribe(names) =>
      bufs := Put(bufs, IntBytes(AsInt(|names|)));
      bufs := PutNames(bufs, names);
  }

  /** Its loop over the topics of a SUBSCRIBE. */
  method PutTopics(bufs: seq<bytes>, topics: seq<Topic>) returns (r: seq<bytes>)
    ensures Joined(r) == Joined(bufs) + TopicsBytes(topics)
  {
    hide IntBytes, Joined, TopicsBytes;
    r := bufs;
    assert topics[0..] == topics;
    for i := 0 to |topics|
      invariant Joined(bufs) + TopicsBytes(topics) == Joined(r) + TopicsBytes(topics[i..])
    {
      TopicsNext(Joined(r), topics, i);
      r := Put(r, Terminated(topics[i].name));
      r := Put(r, IntBytes(topics[i].qos));
    }
    assert topics[|topics|..] == [];
    NothingLeft();
    assert Joined(r) + [] == Joined(r);
  }

  /** And over the names of an UNSUBSCRIBE. */
  method PutNames(bufs: seq<bytes>, names: seq<bytes>) returns (r: seq<bytes>)
    ensures Joined(r) == Joined(bufs) + NamesBytes(names)
  {
    hide IntBytes, Joined, NamesBytes;
    r := bufs;
    assert names[0..] == names;
    for i := 0 to |names|
      invariant Joined(bufs) + NamesBytes(names) == Joined(r) + NamesBytes(names[i..])
    {
      NamesNext(Joined(r), names, i);
      r := Put(r, Terminated(names[i]));
    }
    assert names[|names|..] == [];
    NothingLeft();
    assert Joined(r) + [] == Joined(r);
  }

  lemma NothingLeft()
    ensures TopicsBytes([]) == [] && NamesBytes([]) == []
  {
  }

  method Put(bufs: seq<bytes>, b: bytes) returns (r: seq<bytes>)
    ensures r == bufs + [b] && Joined(r) == Joined(bufs) + b
  {
    JoinedNext(bufs, b);
    r := bufs + [b];
  }

  lemma Five(h: bytes, a: bytes, b: bytes, c: bytes, d: bytes, e: bytes)
    ensures h + a + b + c + d + e == h + (a + b + c + d + e)
  {
  }

  lemma TopicsNext(done: bytes, topics: seq<Topic>, i: nat)
    requires i < |topics|
    ensures done + TopicsBytes(topics[i..]) ==
            (done + Terminated(topics[i].name) + IntBytes(topics[i].qos)) + TopicsBytes(topics[i + 1..])
  {
    hide IntBytes, Terminated;
    assert topics[i..][1..] == topics[i + 1..];
  }

  lemma NamesNext(done: bytes, names: seq<bytes>, i: nat)
    requires i < |names|
    ensures done + NamesBytes(names[i..]) == (done + Terminated(names[i])) + NamesBytes(names[i + 1..])
  {
    hide Terminated;
    assert names[i..][1..] == names[i + 1..];
  }

  /** strlen, as far as it moves the pointer. */
  method SkipString(m: bytes, p: nat) returns (e: nat)
    ensures e == NulAt(m, p)
  {
    e := p;
    while At(m, e) != 0
      invariant p <= e && NulAt(m, e) == NulAt(m, p)
      invariant e > p ==> e <= |m|
      decreases |m| - e
    {
      e := e + 1;
    }
  }

  /** The loop of restoreCommand over the topics of a SUBSCRIBE. */
  method RestoreTopics(m: bytes, p: nat, count: nat, v5: bool) returns (topics: seq<Topic>, ptr: nat)
    ensures Cursor(topics, ptr) == ReadTopics(m, p, count, v5)
  {
    hide IntAt, StringAt, NulAt;
    topics, ptr := [], p;
    ghost var goal := ReadTopics(m, p, count, v5);
    assert topics + goal.value == goal.value;
    for i := 0 to count
      invariant var more := ReadTopics(m, ptr, count - i, v5); goal == Cursor(topics + more.value, more.at)
    {
      var end := SkipString(m, ptr);
      var name := StringAt(m, ptr);
      var qos := if v5 then 0 else IntAt(m, end + 1);
      ghost var rest := ReadTopics(m, if v5 then end + 1 + OPTIONS_SIZE else end + 5, count - i - 1, v5).value;
      assert topics + ([Topic(name, qos)] + rest) == (topics + [Topic(name, qos)]) + rest;
      ptr := if v5 then end + 1 + OPTIONS_SIZE else end + 5;
      topics := topics + [Topic(name, qos)];
    }
    assert topics + [] == topics;
  }

  /** The loop over the topics of an UNSUBSCRIBE. */
  method RestoreNames(m: bytes, p: nat, count: nat) returns (names: seq<bytes>, ptr: nat)
    ensures Cursor(names, ptr) == ReadNames(m, p, count)
  {
    hide StringAt, NulAt;
    names, ptr := [], p;
    ghost var goal := ReadNames(m, p, count);
    assert names + goal.value == goal.value;
    for i := 0 to count
      invariant var more := ReadNames(m, ptr, count - i); goal == Cursor(names + more.value, more.at)
    {
      var end := SkipString(m, ptr);
      var name := StringAt(m, ptr);
      ghost var rest := ReadNames(m, end + 1, count - i - 1).value;
      assert names + ([name] + rest) == (names + [name]) + rest;
      ptr := end + 1;
      names := names + [name];
    }
    assert names + [] == names;
  }

  /** restoreCommand. */
  method RestoreCommand(m: bytes, length: nat, v5: bool) returns (r: Restored)
    ensures r == Restore(m, length, v5)
  {
    hide IntAt, StringAt, NulAt, ReadTopics, ReadNames;
    var code := IntAt(m, 0);
    var token := IntAt(m, 4);
    var ptr: nat := 8;
    var body: Body;
    if code == 8 {
      var topics;
      topics, ptr := RestoreTopics(m, 12, NotNegative(IntAt(m, ptr)), v5);
      body := Subscribe(topics);
    } else if code == 10 {
      var names;
      names, ptr := RestoreNames(m, 12, NotNegative(IntAt(m, ptr)));
      body := Unsubscribe(names);
    } else if code == 3 {
      var end := SkipString(m, ptr);
      var name := StringAt(m, ptr);
      ptr := end + 1;
      var payloadlen := NotNegative(IntAt(m, ptr));
      ptr := ptr + 4;
      var payload := Slice(m, ptr, ptr + payloadlen);
      ptr := ptr + payloadlen;
      var qos := IntAt(m, ptr);
      ptr := ptr + 4;
      var retained := IntAt(m, ptr);
      ptr := ptr + 4;
      body := Publish(name, payload, qos, retained);
    } else {
      return Rejected;
    }
    if !v5 {
      return Accepted(token, body);
    }
    return if length <= ptr then Rejected else NeedsProperties;
  }

  // ---------------------------------------------------------------- loops over lists

  /** ListFindItem with cmdMessageIDCompare on the queue. */
  method HasToken(s: seq<Command>, token: nat) returns (found: bool)
    ensures found == TokenQueued(s, token)
  {
    for i := 0 to |s|
      invariant forall k :: 0 <= k < i ==> s[k].token != token
    {
      if s[i].token == token {
        return true;
      }
    }
    return false;
  }

  /** The same on a client's responses. */
  method AwaitsToken(s: seq<Command>, c: nat, token: nat) returns (found: bool)
    ensures found == TokenAwaited(s, c, token)
  {
    for i := 0 to |s|
      invariant forall k :: 0 <= k < i ==> !(s[k].client == c && s[k].token == token)
    {
      if s[i].client == c && s[i].token == token {
        return true;
      }
    }
    return false;
  }

  /** MQTTAsync_countBufferedMessages. */
  method CountBuffered(s: seq<Command>, c: nat) returns (count: nat)
    ensures count == Buffered(s, c)
  {
    count := 0;
    assert s[0..] == s;
    for i := 0 to |s|
      invariant count + Buffered(s[i..], c) == Buffered(s, c)
    {
      assert s[i..][1..] == s[i + 1..];
      if s[i].client == c && s[i].body.Publish? {
        count := count + 1;
      }
    }
    assert s[|s|..] == [];
  }

  /** The two loops of removeResponsesAndCommands: which commands go, and which stay. */
  method Sift(s: seq<Command>, c: nat) returns (gone: seq<Command>, left: seq<Command>)
    ensures gone == Mine(s, c) && left == Others(s, c)
  {
    gone, left := [], [];
    assert s[0..] == s;
    assert [] + Mine(s, c) == Mine(s, c) && [] + Others(s, c) == Others(s, c);
    for i := 0 to |s|
      invariant gone + Mine(s[i..], c) == Mine(s, c)
      invariant left + Others(s[i..], c) == Others(s, c)
    {
      SiftNext(gone, left, s[i..], c);
      assert s[i..][1..] == s[i + 1..];
      if s[i].client == c {
        gone := gone + [s[i]];
      } else {
        left := left + [s[i]];
      }
    }
    assert s[|s|..] == [] && gone + [] == gone && left + [] == left;
  }

  lemma SiftNext(gone: seq<Command>, left: seq<Command>, s: seq<Command>, c: nat)
    requires s != []
    ensures gone + Mine(s, c) == (if s[0].client == c then gone + [s[0]] else gone) + Mine(s[1..], c)
    ensures left + Others(s, c) == (if s[0].client == c then left else left + [s[0]]) + Others(s[1..], c)
  {
    assert gone + ([s[0]] + Mine(s[1..], c)) == gone + [s[0]] + Mine(s[1..], c);
    assert left + ([s[0]] + Others(s[1..], c)) == left + [s[0]] + Others(s[1..], c);
  }

  /** The loop over the responses when an acknowledgement arrives. */
  method FindResponse(s: seq<Command>, c: nat, token: nat) returns (i: nat)
    ensures i == FindToken(s, c, token)
  {
    i := 0;
    assert s[0..] == s;
    while i < |s|
      invariant i <= |s| && FindToken(s, c, token) == i + FindToken(s[i..], c, token)
    {
      assert s[i..][1..] == s[i + 1..];
      if s[i].client == c && s[i].token == token {
        return;
      }
      i := i + 1;
    }
    assert s[i..] == [];
  }

  /** MQTTPersistence_insertInOrder; `rank` is what it compares. */
  method InsertInOrder(s: seq<Command>, x: Command, rank: Command -> int) returns (r: seq<Command>)
    ensures r == Insert(s, x, rank)
  {
    var i := 0;
    assert s[0..] == s;
    while i < |s| && rank(x) >= rank(s[i])
      invariant i <= |s| && InsertAt(s, x, rank) == i + InsertAt(s[i..], x, rank)
    {
      assert s[i..][1..] == s[i + 1..];
      i := i + 1;
    }
    r := s[..i] + [x] + s[i..];
  }

  /** The version to try. */
  method PickVersion(cl: Client, a: Attempt) returns (t: Attempt)
    ensures t == Tried(cl, a)
  {
    t := a;
    if cl.version == 0 {
      if a.version == 0 {
        t := t.(version := 4);
      } else if a.version == 4 {
        t := t.(version := 3);
      }
    } else {
      t := t.(version := cl.version);
    }
  }

  /** One record of the store, as a command of the client. */
  method RestoreRecord(store: map<nat, bytes>, n: nat, c: nat, v5stem: string, beyond: bytes) returns (r: Option<Command>)
    requires n in store
    ensures r == RestoreOne(store, n, c, v5stem, beyond)
  {
    hide Restore;
    var key := Key(n);
    var buffer := store[n];
    var v5 := v5stem <= key;
    var restored := RestoreCommand(buffer + beyond, |buffer|, v5);
    if restored.Accepted? {
      return Some(Command(0, c, AsId(restored.token), Atoi(AfterDash(key)), restored.body));
    }
    return None;
  }

  // ---------------------------------------------------------------- the engine

  class Engine {
    var commands: seq<Command>
    var responses: seq<Command>
    var clients: map<nat, Client>
    var accepted: seq<Card>
    var done: seq<Command>
    var dispatched: seq<Command>

    ghost function State(): World
      reads this
    {
      World(commands, responses, clients, accepted, done, dispatched)
    }

    /** A process that has just started, with its clients. */
    constructor (clients: map<nat, Client>)
      ensures State() == World([], [], clients, [], [], [])
      ensures PahoTheory.Sound(State(), [])
    {
      commands, responses := [], [];
      this.clients := clients;
      accepted, done, dispatched := [], [], [];
      new;
      assert PahoTheory.Booted(State()) by {
        assert Cards([]) == [];
      }
      PahoTheory.BootedSound(State());
    }

    /** persistCommand; the store concatenates the buffers. */
    method PersistCommand(cmd: Command) returns (cmd': Command)
      requires cmd.client in clients
      modifies this`clients
      ensures cmd' == PersistedCommand(old(clients)[cmd.client], cmd)
      ensures clients == old(clients)[cmd.client := PersistedClient(old(clients)[cmd.client], cmd)]
    {
      hide Record;
      var cl := clients[cmd.client];
      var seqno := (cl.seqno + 1) % 0x1_0000_0000;
      cl := cl.(seqno := seqno);
      cmd' := cmd;
      if IsStored(cmd.body) {
        var bufs := RecordBuffers(cmd.token, cmd.body);
        cl := cl.(store := cl.store[seqno := Joined(bufs)]);
        cmd' := cmd.(seqno := seqno);
      }
      clients := clients[cmd.client := cl];
    }

    /** unpersistCommand. */
    method UnpersistCommand(cmd: Command)
      requires cmd.client in clients
      modifies this`clients
      ensures clients ==
              old(clients)[cmd.client := old(clients)[cmd.client].(store := old(clients)[cmd.client].store - {cmd.seqno})]
    {
      var cl := clients[cmd.client];
      clients := clients[cmd.client := cl.(store := cl.store - {cmd.seqno})];
    }

    /** MQTTAsync_addCommand. */
    method AddCommand(cmd: Command)
      requires cmd.client in clients
      modifies this
      ensures State() == Add(old(State()), cmd)
    {
      hide PersistedClient, PersistedCommand;
      if AtHead(cmd.body) {
        if commands != [] && commands[0].client == cmd.client && TypeCode(commands[0].body) == TypeCode(cmd.body) {
          done := done + [cmd];
        } else {
          commands := [cmd] + commands;
        }
      } else {
        commands := commands + [cmd];
        if clients[cmd.client].persistent {
          var cmd' := PersistCommand(cmd);
          commands := commands[..|commands| - 1] + [cmd'];
        }
      }
    }

    /** A new command, filled in by the API functions, goes to addCommand. */
    method Submit(c: nat, token: MsgId, body: Body)
      requires c in clients
      modifies this
      ensures State() == Accept(old(State()), c, token, body)
    {
      hide Add;
      var cmd := Command(|accepted|, c, token, 0, body);
      accepted := accepted + [CardOf(cmd)];
      AddCommand(cmd);
    }
  
    // -------------------------------------------------------------- message ids and calls

    /** MQTTAsync_assignMsgId.  It has to be able to stop: see PahoIds.SearchHangs. */
    method AssignMsgId(c: nat) returns (msgid: MsgId)
      requires c in clients && SearchStops(State(), c, clients[c].msgId)
      modifies this`clients
      ensures msgid == AssignedId(old(State()), c) && State() == WithId(old(State()), c)
    {
      hide Search, SearchStops, PahoIds.Nth;
      var start := clients[c].msgId;
      ghost var w := State();
      ghost var k := 1;
      msgid := Succ(start);
      PahoIds.NthFirst(start);
      var queued := HasToken(commands, msgid);
      var awaited := AwaitsToken(responses, c, msgid);
      while queued || awaited
        invariant 0 < k <= MAX_MSG_ID && (start > 0 ==> k < MAX_MSG_ID)
        invariant clients == old(clients) && msgid == PahoIds.Nth(start, k)
        invariant queued == TokenQueued(commands, msgid) && awaited == TokenAwaited(responses, c, msgid)
        invariant forall i :: 1 <= i < k ==> Taken(w, c, PahoIds.Nth(start, i))
        invariant Search(w, c, start, msgid, MAX_MSG_ID - k) == AssignedId(w, c)
        decreases MAX_MSG_ID - k
      {
        assert Taken(w, c, msgid);
        SearchOn(w, c, start, msgid, MAX_MSG_ID - k);
        PahoIds.NthStep(start, k);
        msgid := Succ(msgid);
        if msgid == start {
          return 0;
        }
        if k == MAX_MSG_ID {
          AllTaken(w, c, start);
        }
        if k + 1 == MAX_MSG_ID {
          PahoIds.NthBack(start, k + 1);
        }
        k := k + 1;
        queued := HasToken(commands, msgid);
        awaited := AwaitsToken(responses, c, msgid);
      }
      SearchOn(w, c, start, msgid, MAX_MSG_ID - k);
      if msgid != 0 {
        clients := clients[c := clients[c].(msgId := msgid)];
      }
    }

    /** MQTTAsync_send. */
    method Publish(c: nat, body: Body, goodName: bool, goodOptions: bool)
      requires c in clients && body.Publish?
      requires body.qos > 0 ==> SearchStops(State(), c, clients[c].msgId)
      modifies this
      ensures State() == Send(old(State()), c, body, goodName, goodOptions)
    {
      hide Accept, AssignedId, SearchStops, Buffered;
      var cl := clients[c];
      if !cl.connected && !(cl.buffersOffline && cl.shouldBeConnected) {
        return;
      }
      if !goodName || body.qos < 0 || body.qos > 2 {
        return;
      }
      var msgid: MsgId := 0;
      if body.qos > 0 {
        msgid := AssignMsgId(c);
        if msgid == 0 {
          return;
        }
      }
      var buffered := CountBuffered(commands, c);
      if (cl.maxBuffered.Some? && buffered >= cl.maxBuffered.value) || !goodOptions {
        return;
      }
      Submit(c, msgid, body);
    }

    /** MQTTAsync_subscribeMany and MQTTAsync_unsubscribeMany. */
    method AskServer(c: nat, body: Body, goodArguments: bool, goodOptions: bool)
      requires c in clients && (body.Subscribe? || body.Unsubscribe?)
      requires SearchStops(State(), c, clients[c].msgId)
      modifies this
      ensures State() == Request(old(State()), c, body, goodArguments, goodOptions)
    {
      hide Accept, AssignedId, SearchStops;
      if !clients[c].connected || !goodArguments {
        return;
      }
      var msgid := AssignMsgId(c);
      if msgid == 0 || !goodOptions {
        return;
      }
      Submit(c, msgid, body);
    }

    /** MQTTAsync_disconnect1. */
    method Disconnect1(c: nat, internal: bool)
      requires c in clients
      modifies this
      ensures State() == AskDisconnect(old(State()), c, internal)
    {
      hide Accept;
      if !internal {
        clients := clients[c := clients[c].(shouldBeConnected := false)];
      }
      if clients[c].connected {
        Submit(c, 0, Disconnect(internal));
      }
    }

    /** The end of MQTTAsync_connect. */
    method ConnectServer(c: nat, uris: nat, version: nat)
      requires c in clients
      modifies this
      ensures State() == AskConnect(old(State()), c, uris, version)
    {
      hide Accept;
      clients := clients[c := clients[c].(shouldBeConnected := true, uris := uris, version := version)];
      Submit(c, 0, Connect(0, 0));
    }

    // -------------------------------------------------------------- closing

    /** removeResponsesAndCommands: each loop completes what it takes out, in order. */
    method RemoveResponsesAndCommands(c: nat)
      modifies this
      ensures State() == Removed(old(State()), c)
    {
      var gone, left := Sift(responses, c);
      done := done + gone;
      responses := left;
      gone, left := Sift(commands, c);
      done := done + gone;
      commands := left;
    }

    /** MQTTAsync_cleanSession. */
    method ForgetSession(c: nat)
      requires c in clients
      modifies this
      ensures State() == CleanSession(old(State()), c)
    {
      hide Removed;
      clients := clients[c := clients[c].(store := map[], outbound := 0, msgId := 0)];
      RemoveResponsesAndCommands(c);
    }

    /** MQTTAsync_closeSession, with closeOnly. */
    method Close(c: nat)
      requires c in clients
      modifies this
      ensures State() == CloseSession(old(State()), c)
    {
      hide CleanSession;
      var forgetful := clients[c].forgetful;
      clients := clients[c := clients[c].(connected := false, state := NotInProgress)];
      if forgetful {
        ForgetSession(c);
      }
    }

    // -------------------------------------------------------------- processCommand

    /** The loop that looks for a command: once a client is passed over, so is all it has queued. */
    method NextCommand(blocked: set<nat>) returns (i: nat)
      requires Known(commands, clients)
      ensures i == Pick(State(), blocked)
    {
      hide Eligible;
      var ignored: set<nat> := {};
      i := 0;
      while i < |commands|
        invariant i <= |commands|
        invariant PickFrom(commands, clients, blocked, ignored, i) == Pick(State(), blocked)
      {
        var cmd := commands[i];
        if cmd.client !in ignored {
          if Eligible(clients, cmd, blocked) {
            return;
          }
          ignored := ignored + {cmd.client};
        }
        i := i + 1;
      }
    }

    /** The part of processCommand for CONNECT. */
    method StartConnect(cmd: Command, o: Outcome)
      requires cmd.client in clients && cmd.body.Connect?
      modifies this
      ensures State() == RunConnect(old(State()), cmd, o)
    {
      hide Add, MoreToTry, NextAttempt, Tried;
      var c := cmd.client;
      var cl := clients[c];
      var attempt := Attempt(cmd.body.uri, cmd.body.version);
      if cl.state != NotInProgress || cl.connected {
        clients := clients[c := cl.(connect := attempt)];
        done := done + [cmd];
        return;
      }
      attempt := PickVersion(cl, attempt);
      var tried := cmd.(body := Connect(attempt.uri, attempt.version));
      cl := cl.(state := if o.connecting then InProgress else NotInProgress);
      var failed := !o.connecting || o.rc == SocketError || o.rc == PersistenceError;
      if !failed {
        clients := clients[c := cl.(connect := attempt)];
        done := done + [tried];
        return;
      }
      cl := cl.(shouldBeConnected := true);
      clients := clients[c := cl];
      if MoreToTry(cl, attempt) {
        var next := NextAttempt(cl, attempt);
        AddCommand(cmd.(body := Connect(next.uri, next.version)));
      } else {
        clients := clients[c := cl.(connect := attempt)];
        done := done + [tried];
      }
    }

    /** The part for DISCONNECT, with checkDisconnect. */
    method StartDisconnect(cmd: Command, o: Outcome)
      requires cmd.client in clients
      modifies this
      ensures State() == RunDisconnect(old(State()), cmd, o)
    {
      hide CloseSession;
      var c := cmd.client;
      if clients[c].state != NotInProgress || clients[c].connected {
        if clients[c].state != NotInProgress {
          clients := clients[c := clients[c].(state := Disconnecting)];
        }
        if clients[c].outbound == 0 || o.timedOut {
          Close(c);
        }
      }
      done := done + [cmd];
    }

    /** The part for PUBLISH, SUBSCRIBE and UNSUBSCRIBE. */
    method StartRequest(cmd: Command, o: Outcome)
      requires cmd.client in clients && IsStored(cmd.body)
      modifies this
      ensures State() == RunRequest(old(State()), cmd, o)
    {
      hide AskDisconnect;
      var c := cmd.client;
      clients := clients[c := clients[c].(outbound := o.outbound)];
      if o.rc == SocketError || o.rc == PersistenceError {
        Disconnect1(c, true);
        done := done + [cmd];
      } else if cmd.body.Publish? && cmd.body.qos == 0 && o.rc != Interrupted {
        done := done + [cmd];
      } else {
        responses := responses + [cmd];
      }
    }

    /** MQTTAsync_processCommand. */
    method ProcessCommand(blocked: set<nat>, o: Outcome)
      requires Known(commands, clients)
      modifies this
      ensures State() == Process(old(State()), blocked, o)
    {
      hide Pick, RunConnect, RunDisconnect, RunRequest;
      var i := NextCommand(blocked);
      if i == |commands| {
        return;
      }
      var cmd := commands[i];
      commands := commands[..i] + commands[i + 1..];
      dispatched := dispatched + [cmd];
      assert clients[cmd.client := clients[cmd.client]] == clients;
      if clients[cmd.client].persistent {
        UnpersistCommand(cmd);
      }
      assert State() == TakenOff(old(State()), i);
      if cmd.body.Connect? {
        StartConnect(cmd, o);
      } else if cmd.body.Disconnect? {
        StartDisconnect(cmd, o);
      } else {
        StartRequest(cmd, o);
      }
    }

    // -------------------------------------------------------------- what the network brings

    /** A SUBACK, UNSUBACK, PUBACK or PUBCOMP. */
    method Ack(c: nat, token: nat)
      modifies this
      ensures State() == Acknowledge(old(State()), c, token)
    {
      var i := FindResponse(responses, c, token);
      if i < |responses| {
        done := done + [responses[i]];
        responses := responses[..i] + responses[i + 1..];
      }
    }

    /** MQTTAsync_completeConnection. */
    method CompleteConnection(c: nat, clean: bool)
      requires c in clients
      modifies this
      ensures State() == Connected(old(State()), c, clean)
    {
      hide CleanSession;
      if clients[c].state == InProgress {
        clients := clients[c := clients[c].(connected := true, state := NotInProgress)];
        if clean {
          ForgetSession(c);
        }
      }
    }

    /** nextOrClose. */
    method TryNextOrClose(c: nat)
      requires c in clients
      modifies this
      ensures State() == NextOrClose(old(State()), c)
    {
      hide Accept, CloseSession;
      var cl := clients[c];
      if MoreToTry(cl, cl.connect) {
        var next := NextAttempt(cl, cl.connect);
        clients := clients[c := cl.(connected := false, state := NotInProgress)];
        Submit(c, 0, Connect(next.uri, next.version));
      } else {
        Close(c);
      }
    }

    /** restoreCommands, for the keys that the store lists and those whose record it fails to give;
        `beyond` is what lies behind a buffer, `rank` what insertInOrder compares. */
    method RestoreCommands(c: nat, keys: seq<nat>, broken: set<nat>, v5stem: string, beyond: bytes, rank: Command -> int)
      requires c in clients && forall k :: k in keys ==> k in clients[c].store
      modifies this`commands, this`clients
      ensures var start := Restarted(old(commands), old(clients)[c].seqno);
              var r := RestoreAll(start, old(clients)[c].store, Reached(keys, broken), c, v5stem, beyond, rank);
              commands == r.commands && clients == old(clients)[c := old(clients)[c].(seqno := r.seqno)]
    {
      hide RestoreAll, Reached, RestoreOne, WithRestored;
      var store := clients[c].store;
      ghost var r, left := Restarted(commands, clients[c].seqno), keys;
      ghost var end := RestoreAll(r, store, Reached(keys, broken), c, v5stem, beyond, rank);
      Renumbered(clients, c, clients[c].seqno);
      var i := 0;
      while i < |keys| && keys[i] !in broken
        invariant i <= |keys| && left == keys[i..] && forall k :: k in left ==> k in store
        invariant commands == r.commands && clients == old(clients)[c := old(clients)[c].(seqno := r.seqno)]
        invariant end == RestoreAll(r, store, Reached(left, broken), c, v5stem, beyond, rank)
      {
        assert left[0] == keys[i] && left[1..] == keys[i + 1..];
        ReachedNext(left, broken);
        RestoreNext(r, store, Reached(left, broken), c, v5stem, beyond, rank);
        r := WithRestored(r, RestoreOne(store, keys[i], c, v5stem, beyond), rank);
        Renumbered(old(clients), c, r.seqno);
        RestoreKey(keys[i], c, store, v5stem, beyond, rank);
        i, left := i + 1, left[1..];
      }
      ReachedNext(left, broken);
      RestoreNext(r, store, [], c, v5stem, beyond, rank);
    }

    /** One turn of that loop. */
    method RestoreKey(k: nat, c: nat, store: map<nat, bytes>, v5stem: string, beyond: bytes, rank: Command -> int)
      requires c in clients && k in store
      modifies this`commands, this`clients
      ensures var one := RestoreOne(store, k, c, v5stem, beyond);
              var r := WithRestored(Restarted(old(commands), old(clients)[c].seqno), one, rank);
              commands == r.commands && clients == old(clients)[c := old(clients)[c].(seqno := r.seqno)]
    {
      hide RestoreOne, Insert;
      Renumbered(clients, c, clients[c].seqno);
      var r := RestoreRecord(store, k, c, v5stem, beyond);
      if r.Some? {
        commands := InsertInOrder(commands, r.value, rank);
        clients := clients[c := clients[c].(seqno := Max(clients[c].seqno, r.value.seqno))];
      }
    }
  }

  /** Giving a client a number overrides the one it had. */
  lemma Renumbered(clients: map<nat, Client>, c: nat, n: nat)
    requires c in clients
    ensures clients[c := clients[c].(seqno := clients[c].seqno)] == clients
    ensures forall m: nat :: clients[c := clients[c].(seqno := m)][c := clients[c].(seqno := n)]
                             == clients[c := clients[c].(seqno := n)]
  {
    assert clients[c].(seqno := clients[c].seqno) == clients[c];
  }

  lemma ReachedNext(keys: seq<nat>, broken: set<nat>)
    ensures Reached(keys, broken) ==
            if keys == [] || keys[0] in broken then [] else [keys[0]] + Reached(keys[1..], broken)
  {
  }

  lemma RestoreNext(r: Restarted, store: map<nat, bytes>, keys: seq<nat>, c: nat, v5stem: string, beyond: bytes,
                    rank: Command -> int)
    requires forall k :: k in keys ==> k in store
    ensures RestoreAll(r, store, keys, c, v5stem, beyond, rank) ==
            if keys == [] then r
            else
              assert keys[0] in keys;
              RestoreAll(WithRestored(r, RestoreOne(store, keys[0], c, v5stem, beyond), rank), store, keys[1..], c,
                         v5stem, beyond, rank)
  {
  }

  lemma SearchOn(w: World, c: nat, start: MsgId, id: MsgId, fuel: nat)
    ensures !Taken(w, c, id) ==> Search(w, c, start, id, fuel) == id
    ensures Taken(w, c, id) && (Succ(id) == start || fuel == 0) ==> Search(w, c, start, id, fuel) == 0
    ensures Taken(w, c, id) && Succ(id) != start && fuel > 0 ==>
              Search(w, c, start, id, fuel) == Search(w, c, start, Succ(id), fuel - 1)
  {
  }

  /** A search that has tried everything has met its start. */
  lemma AllTaken(w: World, c: nat, start: MsgId)
    requires SearchStops(w, c, start)
    requires forall i :: 1 <= i <= MAX_MSG_ID ==> Taken(w, c, PahoIds.Nth(start, i))
    ensures start > 0
  {
    hide Taken;
    if start == 0 {
      forall id: nat | 1 <= id <= MAX_MSG_ID
        ensures Taken(w, c, id)
      {
        assert PahoIds.Nth(0, id) == id;
      }
    }
  }
}
