/** Which commands wait for the server, and how each of them gets its end. */
module PahoAnswers {
  import opened Bytes
  import opened Common
  import opened PahoRecord
  import opened PahoQueue
  import opened PahoTheory

  /** The server answers a PUBLISH of QoS 1 or 2, a SUBSCRIBE and an UNSUBSCRIBE. */
  predicate Answered(b: Body) {
    b.Subscribe? || b.Unsubscribe? || (b.Publish? && b.qos != 0)
  }

  /** The session of the client was forgotten in this step: by a CONNACK that says that the server has none, or
      because it is not to be kept.  Nothing of the client is left. */
  ghost predicate SessionCleaned(u: World, s: Step, v: World, c: nat) {
    && c in u.clients && c in v.clients && (u.clients[c].forgetful || s == ConnAcks(c, true))
    && v.clients[c].store == map[] && v.clients[c].outbound == 0 && v.clients[c].msgId == 0
    && (forall k :: 0 <= k < |v.responses| ==> v.responses[k].client != c)
    && forall k :: 0 <= k < |v.commands| ==> v.commands[k].client != c
  }

  /** The step acknowledges a command that was waiting. */
  ghost predicate Acknowledged(u: World, s: Step, x: Command) {
    s == Acks(x.client, x.token) && x in u.responses
  }

  /** The step tried to send the command, and that failed. */
  ghost predicate SendingFailed(u: World, s: Step, x: Command) {
    && s.Processes? && (s.outcome.rc == SocketError || s.outcome.rc == PersistenceError)
    && Known(u.commands, u.clients)
    && Pick(u, s.blocked) < |u.commands| && u.commands[Pick(u, s.blocked)] == x
  }

  /** The ends that a command with an answer can have. */
  ghost predicate Ends(u: World, s: Step, v: World, x: Command) {
    Acknowledged(u, s, x) || SessionCleaned(u, s, v, x.client) || SendingFailed(u, s, x)
  }

  /** What a step adds to the commands done with. */
  ghost predicate AddsOnly(u: World, s: Step, v: World) {
    && u.done <= v.done
    && forall k :: |u.done| <= k < |v.done| && Answered(v.done[k].body) ==> Ends(u, s, v, v.done[k])
  }

  lemma NothingAdded(u: World, s: Step, v: World)
    requires v.done == u.done
    ensures AddsOnly(u, s, v)
  {
  }

  lemma OneAdded(u: World, s: Step, v: World, x: Command)
    requires v.done == u.done + [x] && (Answered(x.body) ==> Ends(u, s, v, x))
    ensures AddsOnly(u, s, v)
  {
  }

  lemma AcceptAdds(w: World, c: nat, token: MsgId, b: Body)
    requires c in w.clients
    ensures w.done <= Accept(w, c, token, b).done
    ensures !AtHead(b) ==> Accept(w, c, token, b).done == w.done
    ensures forall k :: |w.done| <= k < |Accept(w, c, token, b).done| ==>
              !Answered(Accept(w, c, token, b).done[k].body)
  {
  }

  /** What is done with in the course of forgetting a session is the client's. */
  lemma CleanAdds(w: World, c: nat)
    requires c in w.clients
    ensures var v := CleanSession(w, c);
            && w.done <= v.done
            && (forall k :: |w.done| <= k < |v.done| ==> v.done[k].client == c)
            && c in v.clients && v.clients[c].store == map[] && v.clients[c].outbound == 0 && v.clients[c].msgId == 0
            && (forall k :: 0 <= k < |v.responses| ==> v.responses[k].client != c)
            && forall k :: 0 <= k < |v.commands| ==> v.commands[k].client != c
  {
    MineOnly(w.responses, c);
    MineOnly(w.commands, c);
    forall k | 0 <= k < |Others(w.responses, c)|
      ensures Others(w.responses, c)[k].client != c
    {
      OthersOnly(w.responses, c, k);
    }
    forall k | 0 <= k < |Others(w.commands, c)|
      ensures Others(w.commands, c)[k].client != c
    {
      OthersOnly(w.commands, c, k);
    }
  }

  lemma {:induction false} MineOnly(s: seq<Command>, c: nat)
    ensures forall k :: 0 <= k < |Mine(s, c)| ==> Mine(s, c)[k].client == c
  {
    if s != [] {
      MineOnly(s[1..], c);
    }
  }

  lemma CloseAdds(u: World, s: Step, w: World, c: nat)
    requires c in u.clients && c in w.clients && w.clients[c].forgetful == u.clients[c].forgetful && w.done == u.done
    ensures AddsOnly(u, s, CloseSession(w, c))
  {
    hide CleanSession;
    CleanAdds(Closed(w, c), c);
  }

  lemma RequestAdds(u: World, s: Step, i: nat)
    requires s.Processes? && Known(u.commands, u.clients) && i == Pick(u, s.blocked) < |u.commands|
    requires IsStored(u.commands[i].body)
    ensures AddsOnly(u, s, Run(TakenOff(u, i), u.commands[i], s.outcome))
  {
    hide Accept;
    var x := u.commands[i];
    var w := TakenOff(u, i);
    var w' := w.(clients := w.clients[x.client := w.clients[x.client].(outbound := s.outcome.outbound)]);
    AcceptAdds(w', x.client, 0, Disconnect(true));
  }

  lemma ConnectAdds(u: World, s: Step, i: nat)
    requires s.Processes? && Known(u.commands, u.clients) && i < |u.commands| && u.commands[i].body.Connect?
    ensures AddsOnly(u, s, Run(TakenOff(u, i), u.commands[i], s.outcome))
  {
    hide MoreToTry, NextAttempt, Tried;
  }

  lemma DisconnectAdds(u: World, s: Step, i: nat)
    requires s.Processes? && Known(u.commands, u.clients) && i < |u.commands| && u.commands[i].body.Disconnect?
    ensures AddsOnly(u, s, Run(TakenOff(u, i), u.commands[i], s.outcome))
  {
    hide CloseSession;
    var x := u.commands[i];
    var w := TakenOff(u, i);
    var cl := w.clients[x.client];
    var w' := if cl.state != NotInProgress then w.(clients := w.clients[x.client := cl.(state := Disconnecting)]) else w;
    CloseAdds(u, s, w', x.client);
  }

  lemma CallAdds(u: World, s: Step)
    requires Known(u.commands, u.clients) && !s.Processes? && s.client in u.clients
    ensures AddsOnly(u, s, Next(u, s))
  {
    hide Accept, CloseSession, CleanSession, AssignedId, Buffered, MoreToTry, NextAttempt;
    var c := s.client;
    var cl := u.clients[c];
    match s
    case Sends(_, b, _, _) =>
      AcceptAdds(u, c, 0, b);
      AcceptAdds(WithId(u, c), c, AssignedId(u, c), b);
    case Requests(_, b, _, _) => AcceptAdds(WithId(u, c), c, AssignedId(u, c), b);
    case Disconnects(_) =>
      AcceptAdds(u.(clients := u.clients[c := cl.(shouldBeConnected := false)]), c, 0, Disconnect(false));
    case LosesConnection(_) => AcceptAdds(u, c, 0, Disconnect(true));
    case Connects(_, uris, version) =>
      var cl' := cl.(shouldBeConnected := true, uris := uris, version := version);
      AcceptAdds(u.(clients := u.clients[c := cl']), c, 0, Connect(0, 0));
    case Acks(_, token) => AckAdds(u, c, token);
    case ConnAcks(_, clean) => CleanAdds(u.(clients := u.clients[c := cl.(connected := true, state := NotInProgress)]), c);
    case ConnectFails(_) =>
      var next := NextAttempt(cl, cl.connect);
      AcceptAdds(Closed(u, c), c, 0, Connect(next.uri, next.version));
      CloseAdds(u, s, u, c);
    case Reconnects(_) => AcceptAdds(u, c, 0, Connect(cl.connect.uri, if cl.version == 0 then 0 else cl.connect.version));
    case Closes(_) => CloseAdds(u, s, u, c);
    case InFlight(_, _) =>
  }

  lemma AckAdds(u: World, c: nat, token: nat)
    requires c in u.clients
    ensures AddsOnly(u, Acks(c, token), Acknowledge(u, c, token))
  {
    var i := FindToken(u.responses, c, token);
    if i < |u.responses| {
      assert u.responses[i] in u.responses;
      OneAdded(u, Acks(c, token), Acknowledge(u, c, token), u.responses[i]);
    }
  }

  /** Every step: a command with an answer is done with only in one of the three ways. */
  lemma NextAdds(u: World, s: Step)
    requires Sound(u, [])
    ensures AddsOnly(u, s, SoundNext(u, s))
  {
    SoundKnown(u);
    hide Sound, AddsOnly, Run, TakenOff, Send, Request, AskDisconnect, AskConnect, Acknowledge, Connected, NextOrClose;
    hide Reconnect, CloseSession, Pick;
    NothingAdded(u, s, u);
    if s.Processes? {
      var i := Pick(u, s.blocked);
      if i < |u.commands| {
        if u.commands[i].body.Connect? {
          ConnectAdds(u, s, i);
        } else if u.commands[i].body.Disconnect? {
          DisconnectAdds(u, s, i);
        } else {
          RequestAdds(u, s, i);
        }
      }
    } else if s.client in u.clients {
      CallAdds(u, s);
    }
  }

  /** Step `i` of a run was the end of the command. */
  ghost predicate EndedAt(w: World, steps: seq<Step>, i: nat, x: Command)
    requires Sound(w, []) && i < |steps|
  {
    var u := After(w, steps[..i]);
    Ends(u, steps[i], SoundNext(u, steps[i]), x)
  }

  /** Over every run: a PUBLISH of QoS 1 or 2, a SUBSCRIBE or an UNSUBSCRIBE is done with only because it was
      acknowledged while it waited, because its session was forgotten, or because sending it failed. */
  lemma {:induction false} DoneOnlyWhenAnswered(w: World, steps: seq<Step>, k: nat)
    requires Sound(w, [])
    requires |w.done| <= k < |After(w, steps).done| && Answered(After(w, steps).done[k].body)
    ensures w.done <= After(w, steps).done
    ensures exists i :: 0 <= i < |steps| && EndedAt(w, steps, i, After(w, steps).done[k])
    decreases |steps|
  {
    hide Sound, Ends, SoundNext;
    NextKeeps(w, steps[0]);
    NextAdds(w, steps[0]);
    var v := SoundNext(w, steps[0]);
    DoneGrows(v, steps[1..]);
    var x := After(w, steps).done[k];
    if k < |v.done| {
      assert x == v.done[k];
      assert steps[..0] == [];
      assert EndedAt(w, steps, 0, x);
    } else {
      DoneOnlyWhenAnswered(v, steps[1..], k);
      var i :| 0 <= i < |steps[1..]| && EndedAt(v, steps[1..], i, x);
      assert steps[..i + 1][1..] == steps[1..][..i] && steps[..i + 1][0] == steps[0];
      assert EndedAt(w, steps, i + 1, x);
    }
  }

  lemma {:induction false} DoneGrows(w: World, steps: seq<Step>)
    requires Sound(w, [])
    ensures w.done <= After(w, steps).done
    decreases |steps|
  {
    hide Sound, Ends, SoundNext;
    if steps != [] {
      NextKeeps(w, steps[0]);
      NextAdds(w, steps[0]);
      DoneGrows(SoundNext(w, steps[0]), steps[1..]);
    }
  }

  // ---------------------------------------------------------------- where a command goes when it is sent

  /** The outcome of sending a stored command: a PUBLISH of QoS 0 is done with when it is written; every other
      one, and it too while it is not written yet, waits behind those that wait already; and a failure ends any
      of them and asks for the connection to be closed. */
  lemma WhereSentGoes(u: World, blocked: set<nat>, o: Outcome)
    requires Sound(u, []) && Known(u.commands, u.clients) && Pick(u, blocked) < |u.commands|
    requires IsStored(u.commands[Pick(u, blocked)].body)
    ensures var i := Pick(u, blocked);
            var x, v := u.commands[i], SoundNext(u, Processes(blocked, o));
            && (o.rc == Complete && Answered(x.body) ==>
                  v.responses == u.responses + [x] && v.done == u.done && v.commands == Without(u.commands, i))
            && (o.rc == Complete && !Answered(x.body) ==>
                  v.responses == u.responses && v.done == u.done + [x] && v.commands == Without(u.commands, i))
            && (o.rc == Interrupted ==>
                  v.responses == u.responses + [x] && v.done == u.done && v.commands == Without(u.commands, i))
            && (o.rc == SocketError || o.rc == PersistenceError ==>
                  && v.responses == u.responses && |v.done| > 0 && v.done[|v.done| - 1] == x
                  && (!u.clients[x.client].connected ==> v.commands == Without(u.commands, i))
                  && (u.clients[x.client].connected ==>
                        v.commands != [] && v.commands[0].client == x.client && v.commands[0].body.Disconnect?))
  {
    hide Pick, Sound, Without;
    var i := Pick(u, blocked);
    var w := TakenOff(u, i);
    assert w.commands == Without(u.commands, i);
  }

  /** The step takes the command off the queue to send it. */
  ghost predicate Sent(u: World, s: Step, x: Command) {
    && s.Processes? && Known(u.commands, u.clients)
    && Pick(u, s.blocked) < |u.commands| && u.commands[Pick(u, s.blocked)] == x
  }

  /** Until its end a command waits: in the queue until it is sent, then for its answer. */
  ghost predicate WaitsOn(u: World, s: Step, v: World, x: Command) {
    && (x in u.responses ==>
          x in v.responses || (x in v.done && (Acknowledged(u, s, x) || SessionCleaned(u, s, v, x.client))))
    && (x in u.commands ==> x in v.commands || Sent(u, s, x) || SessionCleaned(u, s, v, x.client))
  }

  lemma OthersStay(s: seq<Command>, c: nat, x: Command)
    ensures x in s && x.client != c ==> x in Others(s, c)
  {
    if s != [] {
      OthersStay(s[1..], c, x);
      assert s == [s[0]] + s[1..];
    }
  }

  lemma AcceptWaits(w: World, c: nat, token: MsgId, b: Body, x: Command)
    requires c in w.clients
    ensures x in w.commands ==> x in Accept(w, c, token, b).commands
    ensures Accept(w, c, token, b).responses == w.responses
  {
  }

  lemma CleanWaits(u: World, s: Step, w: World, c: nat, x: Command)
    requires c in u.clients && c in w.clients && w.commands == u.commands && w.responses == u.responses
    requires u.clients[c].forgetful || s == ConnAcks(c, true)
    ensures WaitsOn(u, s, CleanSession(w, c), x)
  {
    CleanAdds(w, c);
    OthersStay(w.commands, c, x);
    OthersStay(w.responses, c, x);
    MineIn(w.responses, c, x);
  }

  lemma CloseWaits(u: World, s: Step, w: World, c: nat, x: Command)
    requires c in u.clients && c in w.clients && w.commands == u.commands && w.responses == u.responses
    requires w.clients[c].forgetful == u.clients[c].forgetful
    ensures WaitsOn(u, s, CloseSession(w, c), x)
  {
    hide CleanSession;
    if u.clients[c].forgetful {
      CleanWaits(u, s, Closed(w, c), c, x);
    }
  }

  lemma TakenOffWaits(u: World, i: nat, x: Command)
    requires i < |u.commands| && u.commands[i].client in u.clients
    ensures x in u.commands && x != u.commands[i] ==> x in TakenOff(u, i).commands
  {
    if x in u.commands && x != u.commands[i] {
      var k :| 0 <= k < |u.commands| && u.commands[k] == x;
      assert Without(u.commands, i)[if k < i then k else k - 1] == x;
    }
  }

  lemma RunWaits(u: World, s: Step, i: nat, x: Command)
    requires s.Processes? && Known(u.commands, u.clients) && i == Pick(u, s.blocked) < |u.commands|
    ensures WaitsOn(u, s, Run(TakenOff(u, i), u.commands[i], s.outcome), x)
  {
    hide Accept, CloseSession, MoreToTry, NextAttempt, Tried, Pick, Without;
    var y := u.commands[i];
    var w := TakenOff(u, i);
    TakenOffWaits(u, i, x);
    var cl := w.clients[y.client];
    if y.body.Disconnect? {
      var w' := if cl.state != NotInProgress then w.(clients := w.clients[y.client := cl.(state := Disconnecting)]) else w;
      ClosedWaits(u, s, w, w', y.client, x);
    } else if !y.body.Connect? {
      AcceptWaits(w.(clients := w.clients[y.client := cl.(outbound := s.outcome.outbound)]), y.client, 0, Disconnect(true), x);
    }
  }

  lemma ClosedWaits(u: World, s: Step, w: World, w': World, c: nat, x: Command)
    requires c in u.clients && c in w'.clients && w'.commands == w.commands && w'.responses == u.responses
    requires w'.clients[c].forgetful == u.clients[c].forgetful
    requires x in u.commands ==> x in w.commands || Sent(u, s, x)
    ensures WaitsOn(u, s, CloseSession(w', c), x)
  {
    hide CleanSession;
    if u.clients[c].forgetful {
      CleanAdds(Closed(w', c), c);
      OthersStay(w.commands, c, x);
      OthersStay(w.responses, c, x);
      MineIn(w.responses, c, x);
      CleanDone(Closed(w', c), c, x);
    }
  }

  lemma CleanDone(w: World, c: nat, x: Command)
    requires c in w.clients
    ensures x in w.responses && x.client == c ==> x in CleanSession(w, c).done
    ensures x.client != c && x in w.commands ==> x in CleanSession(w, c).commands
    ensures x.client != c && x in w.responses ==> x in CleanSession(w, c).responses
  {
    OthersStay(w.commands, c, x);
    OthersStay(w.responses, c, x);
    MineIn(w.responses, c, x);
  }

  lemma AckWaits(u: World, c: nat, token: nat, x: Command)
    ensures WaitsOn(u, Acks(c, token), Acknowledge(u, c, token), x)
  {
    var i := FindToken(u.responses, c, token);
    if i < |u.responses| && x in u.responses {
      var k :| 0 <= k < |u.responses| && u.responses[k] == x;
      if k != i {
        assert Without(u.responses, i)[if k < i then k else k - 1] == x;
      }
    }
  }

  lemma CallWaits(u: World, s: Step, x: Command)
    requires Known(u.commands, u.clients) && !s.Processes? && s.client in u.clients
    ensures WaitsOn(u, s, Next(u, s), x)
  {
    hide Accept, CloseSession, CleanSession, AssignedId, Buffered, MoreToTry, NextAttempt, Acknowledge;
    var c := s.client;
    var cl := u.clients[c];
    match s
    case Sends(_, b, _, _) =>
      AcceptWaits(u, c, 0, b, x);
      AcceptWaits(WithId(u, c), c, AssignedId(u, c), b, x);
    case Requests(_, b, _, _) => AcceptWaits(WithId(u, c), c, AssignedId(u, c), b, x);
    case Disconnects(_) =>
      AcceptWaits(u.(clients := u.clients[c := cl.(shouldBeConnected := false)]), c, 0, Disconnect(false), x);
    case LosesConnection(_) => AcceptWaits(u, c, 0, Disconnect(true), x);
    case Connects(_, uris, version) =>
      var cl' := cl.(shouldBeConnected := true, uris := uris, version := version);
      AcceptWaits(u.(clients := u.clients[c := cl']), c, 0, Connect(0, 0), x);
    case Acks(_, token) => AckWaits(u, c, token, x);
    case ConnAcks(_, clean) =>
      if clean {
        CleanWaits(u, s, u.(clients := u.clients[c := cl.(connected := true, state := NotInProgress)]), c, x);
      }
    case ConnectFails(_) =>
      var next := NextAttempt(cl, cl.connect);
      AcceptWaits(Closed(u, c), c, 0, Connect(next.uri, next.version), x);
      CloseWaits(u, s, u, c, x);
    case Reconnects(_) =>
      AcceptWaits(u, c, 0, Connect(cl.connect.uri, if cl.version == 0 then 0 else cl.connect.version), x);
    case Closes(_) => CloseWaits(u, s, u, c, x);
    case InFlight(_, _) =>
  }

  /** Every step: nothing that is queued or waits is lost. */
  lemma NothingLost(u: World, s: Step, x: Command)
    requires Sound(u, [])
    ensures WaitsOn(u, s, SoundNext(u, s), x)
  {
    SoundKnown(u);
    hide Sound, WaitsOn, Run, TakenOff, Send, Request, AskDisconnect, AskConnect, Acknowledge, Connected, NextOrClose;
    hide Reconnect, CloseSession, Pick;
    SameWaits(u, s, x);
    if s.Processes? {
      var i := Pick(u, s.blocked);
      if i < |u.commands| {
        RunWaits(u, s, i, x);
      }
    } else if s.client in u.clients {
      CallWaits(u, s, x);
    }
  }

  lemma SameWaits(u: World, s: Step, x: Command)
    ensures WaitsOn(u, s, u, x)
  {
  }

  /** An acknowledgement ends the first command of the client that waits under its id, and no other. */
  lemma AckEnds(u: World, c: nat, token: nat, i: nat)
    requires Sound(u, []) && c in u.clients && i < |u.responses|
    requires u.responses[i].client == c && u.responses[i].token == token
    requires forall k :: 0 <= k < i ==> !(u.responses[k].client == c && u.responses[k].token == token)
    ensures var v := SoundNext(u, Acks(c, token));
            && v.responses == Without(u.responses, i) && v.done == u.done + [u.responses[i]]
            && v.commands == u.commands && v.clients == u.clients
  {
    hide Sound, Without;
    SoundKnown(u);
    assert FindToken(u.responses, c, token) == i;
  }
}
