# Verification model

Dafny models of the parts of the SBC platform that carry its hardest guarantees, and proofs about them. The
code that changes state in place is written as classes and loops and proved against functions; what the system
promises is proved about those functions, over all inputs and all runs. Check with `dafny verify dfyconfig.toml`.

* **MQTT client engine** (Paho): the command queue, the response lists, message ids, the persisted copy and the
  connect attempts. `PahoQueue` is the state machine, `PahoEngine` the loops over the mutable state, `PahoTheory`
  the invariant of every run, `PahoStore`, `PahoRecord` and `PahoRecovery` the persisted copy and crash recovery,
  `PahoAnswers` which commands wait for the server, `PahoCalls` which calls are taken and when commands are sent,
  `PahoLife` crashes and restarts as steps of a run, `PahoIds` the search for an id, `PahoFallback` the attempts.
  The engine keeps its queues as sequences; `LinkedList` is the linked list on its own, with its walks.
* **JSON**: `JsonReader` and `JsonPrinter` work on cursors and a growing buffer (`JsonBuffer`) and compute the
  functions of `JsonSpec`; `JsonText` is a grammar of spellings that the reader is proved exact for, `JsonLayout`
  the layout of what is printed; `JsonTheory` has the round trips, `JsonTree` the sibling links and `Utf8` the
  character codecs.
* **Demangler**: `DemangleSpec` is the grammar as a table of entries with their effects on the printed text, and
  what a run of an entry is; `DemangleParser` the parsing functions over the mutable state, each of which does a
  run of its entry and terminates by (remaining input, rank); `DemangleTheory` what holds of every run,
  `DemangleNames` the texts that whole names print, from the Itanium C++ ABI alone, and `DemangleShipped` where
  the shipped code agrees with the grammar and where it does not end.
* **CloudHub**: `HubSpec` and `HubTheory` interleave the signal handler, the main loop and the manager thread
  statement by statement; `HubImpl` has their arrays, lists and loops; `HubSampling` and `HubProcessor` the
  grouping of packets upstream.
* **Text and codecs**: `LineReader`, `IntText`, `Glob`, `Base64` and `MqttPacket`.

The network, clocks, child processes, `pread` and `create` are parameters or steps that can have any result.

## Where the code departs from what is written about it

The models follow the code; the lemmas named here say exactly how far the intended property holds.

* MQTTPersistence.h:45,47 give the command keys of both protocol versions the stem "c-", so records of versions
  below 5 are never restored (`PahoRecovery.ShippedRecovery`; with stems told apart, `PahoRecovery.CrashRecovery`).
* MQTTPersistence.c:359-373 compares the field of another record type, which is 0 in every restored command, where
  the copy at MQTTAsync.c:910-924 compares sequence numbers: commands come back in the order in which the store
  lists its keys, right if and only if that is growing (`PahoRecovery.LinkedRecovery`, `PahoRecovery.ListedBackwards`).
* MQTTAsync.c:653 has room for a key of eight characters, and MQTTAsync.c:767-770 prints any number into it: from
  1000000 on a key does not fit (`PahoRecovery.KeyFits`), and sending that many messages gets there
  (`PahoRecovery.NumbersRunOut`). What is proved about the store is about runs that give out no such number.
* As shipped, a client created again numbers from 1 over the records that it had, and overwrites them one by one
  (`PahoLife.ShippedCreate`, `PahoLife.ShippedLife`).
* MQTTAsync.c:1608-1625 puts the CONNECT back after an error; were a connect still under way then, it would be
  completed untried (`PahoFallback.BreaksOff`). Running out of memory aside,
  the protocol layer leaves none (MQTTProtocolOut.c:117-153).
* MQTTAsync.c:3161-3171 has no exit when no id was assigned yet and all are taken (`PahoIds.SearchHangs`).
* ccan_json.c:1182 prints U+001F as it is and ccan_json.c:869 refuses to read it (`JsonTheory.SameTreeIff`).
* demangle.cc:609-617 takes negative lengths although the comment at 608 says positive: a number below -1 where a
  source name is tried (`DemangleShipped.SameNameIff`, `DemangleShipped.MovesForwardIff`). On "_ZNn2E" it never ends
  (`DemangleShipped.NeverParsed`); without such a place it agrees with the grammar (`DemangleShipped.SafeAnswer`).
* demangle.cc:709-723 consumes a B behind the last ABI tag (`DemangleTheory.AbiTagsEnd`).
* vlog_is_on.cc:75-102 misses matches of patterns that end in two stars (`Glob.ExactIff`).
* mqttMsgManager.cpp:292 erases an element and then advances, which skips the one behind it and runs past the end
  when the last one goes; `HubImpl.Manager.Schedule` lets the iterator stand anywhere in that case.

## Model

| member | source | states |
|---|---|---|
| `PahoTheory.ExactlyOnceCompletion` | sbc-platform/lib/paho.mqtt.c/src/MQTTAsync.c:1579-1655 | Over any run of calls, dispatches, acknowledgements, closings and lost connections from a sound world: every accepted command is in exactly one of queue, responses and completed, once; and non-zero tokens of a client in queue and responses are pairwise different |
| `PahoTheory.FifoPerClient` | sbc-platform/lib/paho.mqtt.c/src/MQTTAsync.c:1002-1009 | Over any run, a client's appended commands are dispatched in the order in which they were accepted |
| `PahoTheory.PickIs` | sbc-platform/lib/paho.mqtt.c/src/MQTTAsync.c:1332-1359 | The index picked is the first command that is its client's earliest and eligible, and none is picked if and only if no client's earliest command is eligible: one client never blocks another |
| `PahoTheory.NextKeeps` | sbc-platform/lib/paho.mqtt.c/src/MQTTAsync.c:1317-1662 | Every step keeps the invariant: one place per accepted command, different tokens, order per client |
| `PahoTheory.ExactlyOnce` | sbc-platform/lib/paho.mqtt.c/src/MQTTAsync.c:1838-1930 | In a sound world an accepted command is in one place, once |
| `PahoTheory.TokensDiffer` | sbc-platform/lib/paho.mqtt.c/src/MQTTAsync.c:3131-3178 | Two places of the queue and the responses of one client never hold the same non-zero token |
| `PahoTheory.SentInOrder` | sbc-platform/lib/paho.mqtt.c/src/MQTTAsync.c:1332-1373 | What was dispatched for a client is in order of acceptance, CONNECT and internal DISCONNECT apart |
| `PahoTheory.OthersOnly` | sbc-platform/lib/paho.mqtt.c/src/MQTTAsync.c:1885-1927 | Nothing of a client is left when its commands are taken out |
| `PahoTheory.BootedSound` | sbc-platform/lib/paho.mqtt.c/src/MQTTAsync.c:927-976 | A process that starts with restored commands satisfies the invariant if their tokens differ; PahoLife derives that for restored queues |
| `PahoAnswers.DoneOnlyWhenAnswered` | sbc-platform/lib/paho.mqtt.c/src/MQTTAsync.c:1579-1655 | Over any run: a PUBLISH of QoS 1 or 2, a SUBSCRIBE or an UNSUBSCRIBE is completed only by an acknowledgement that finds it among the responses, by its session being forgotten, or because sending it failed |
| `PahoAnswers.WhereSentGoes` | sbc-platform/lib/paho.mqtt.c/src/MQTTAsync.c:1579-1655 | Where sending leaves a stored command: a QoS 0 PUBLISH that is written is completed, every other one waits behind the responses, as does any that is interrupted; an error completes it and puts a DISCONNECT at the head of a connected client's queue |
| `PahoAnswers.NothingLost` | sbc-platform/lib/paho.mqtt.c/src/MQTTAsync.c:1317-1662 | In every step a queued command stays queued unless it is sent or its session is forgotten, and one that waits keeps waiting unless it is acknowledged or its session is forgotten |
| `PahoAnswers.AckEnds` | sbc-platform/lib/paho.mqtt.c/src/MQTTAsync.c:3747-3795 | An acknowledgement completes the first response with its client and id, and touches nothing else |
| `PahoAnswers.NextAdds` | sbc-platform/lib/paho.mqtt.c/src/MQTTAsync.c:1317-1662 | What one step completes, by the same three ways |
| `PahoCalls.SendTakes` | sbc-platform/lib/paho.mqtt.c/src/MQTTAsync.c:3389-3456 | A message is taken exactly if the client is connected or may buffer while it is not, the arguments are right, fewer messages are queued than it may buffer, and for QoS 1 and 2 an id is left; it then stands at the end of the queue with an id from 1 to 65535 that was not in use, or 0 for QoS 0; otherwise nothing changes but the last id |
| `PahoCalls.RequestTakes` | sbc-platform/lib/paho.mqtt.c/src/MQTTAsync.c:3181-3278 | A subscribe or unsubscribe is taken exactly if the client is connected, the arguments are right and an id is left |
| `PahoCalls.ConnectTakes` | sbc-platform/lib/paho.mqtt.c/src/MQTTAsync.c:3022-3041 | A connect goes to the head of the queue with the first URI and no version tried yet, unless a CONNECT of the client stands there; a reconnect the same with the URI connected to |
| `PahoCalls.DisconnectTakes` | sbc-platform/lib/paho.mqtt.c/src/MQTTAsync.c:3044-3089 | A lost connection is closed before anything else is sent, a disconnect asked for waits its turn, and a client that is not connected has nothing queued |
| `PahoCalls.NeverMoreThanAllowed` | sbc-platform/lib/paho.mqtt.c/src/MQTTAsync.c:3373-3456 | Over every run: no client ever has more messages queued than its limit |
| `PahoCalls.Dispatches` | sbc-platform/lib/paho.mqtt.c/src/MQTTAsync.c:1332-1359 | A dispatch sends the first command that is the first of its client and ready, and without one changes nothing; ready is CONNECT and DISCONNECT always, and any other only on an idle open connection without a pending write, with fewer than 65534 messages in flight, and from version 5 on, QoS 0 apart, fewer than the client allows |
| `PahoCalls.ConnectedByHandshake` | sbc-platform/lib/paho.mqtt.c/src/MQTTAsync.c:1380-1442 | Over every run: a client comes to be connected only by a CONNACK, and before that by a CONNECT sent that got a connect under way, unless one was under way at the start |
| `PahoCalls.StepConnects` | sbc-platform/lib/paho.mqtt.c/src/MQTTAsync.c:2012-2056 | The same of one step: nothing else makes a client connected or gets a connect under way |
| `PahoCalls.AcceptedConnects` | sbc-platform/lib/paho.mqtt.c/src/MQTTAsync.c:2012-2056 | A CONNACK connects a client whose connect is under way and does nothing otherwise; with a session to forget nothing of the client is left |
| `PahoCalls.CloseCloses` | sbc-platform/lib/paho.mqtt.c/src/MQTTAsync.c:2585-2595 | Closing leaves the client unconnected with no connect under way, and nothing of a session that is not kept |
| `PahoCalls.DisconnectSent` | sbc-platform/lib/paho.mqtt.c/src/MQTTAsync.c:1547-1577 | Sending a DISCONNECT closes the client exactly if nothing is in flight or it has waited long enough; it is done with in either case |
| `PahoIds.AssignedIs` | sbc-platform/lib/paho.mqtt.c/src/MQTTAsync.c:3144-3178 | assignMsgId returns the first free id after the last one, going round from 65535 to 1; it returns 0 exactly if all ids other than the last one are taken, and never the last one itself |
| `PahoIds.SearchHangs` | sbc-platform/lib/paho.mqtt.c/src/MQTTAsync.c:3161-3171 | From any start the loop has an exit - a free candidate, or the start itself - exactly under the condition that PahoIds.AssignedIs requires: an id was assigned before, or one is free |
| `PahoIds.NthBack` | sbc-platform/lib/paho.mqtt.c/src/MQTTAsync.c:3161-3171 | The search meets its start after all other ids and not before, and never if it starts from 0 |
| `PahoRecord.RecordRoundTrip` | sbc-platform/lib/paho.mqtt.c/src/MQTTAsync.c:645-907 | restoreCommand undoes persistCommand below version 5: type, token and every field, whatever bytes lie behind the buffer |
| `PahoRecord.PublishRecordIs` | sbc-platform/lib/paho.mqtt.c/src/MQTTAsync.c:725-755 | The record of a PUBLISH by position: 3, token, destination and NUL, length of the payload, payload, QoS, retained flag, integers of four bytes, lowest first |
| `PahoRecord.SubscribeRecordIs` | sbc-platform/lib/paho.mqtt.c/src/MQTTAsync.c:660-700 | The record of a SUBSCRIBE: 8, token, number of topics, and each topic in its place with a NUL and its QoS |
| `PahoRecord.UnsubscribeRecordIs` | sbc-platform/lib/paho.mqtt.c/src/MQTTAsync.c:702-723 | The record of an UNSUBSCRIBE: 10, token, number of topics, and each topic in its place with a NUL |
| `PahoRecord.WrongVersionRejected` | sbc-platform/lib/paho.mqtt.c/src/MQTTAsync.c:789-907 | A record written below version 5 and read as one of version 5 is rejected, whatever it holds |
| `PahoRecord.TopicsRead` | sbc-platform/lib/paho.mqtt.c/src/MQTTAsync.c:823-850 | The loop over the topics of a SUBSCRIBE reads back every name and QoS and ends behind the last |
| `PahoRecord.NamesRead` | sbc-platform/lib/paho.mqtt.c/src/MQTTAsync.c:852-869 | The same for UNSUBSCRIBE |
| `PahoRecord.StringRead` | sbc-platform/lib/paho.mqtt.c/src/MQTTAsync.c:823-829 | A NUL-terminated string in memory is read back, with its end |
| `PahoRecord.IntRead` | sbc-platform/lib/paho.mqtt.c/src/MQTTAsync.c:802-806 | A C int in memory is read back, sign included |
| `PahoStore.StoreIsQueue` | sbc-platform/lib/paho.mqtt.c/src/MQTTAsync.c:980-1020 | Over any run below version 5 whose sequence numbers make keys: the store of every client holds exactly the records of its queued PUBLISH, SUBSCRIBE and UNSUBSCRIBE commands, under strictly growing sequence numbers |
| `PahoStore.NextKeeps` | sbc-platform/lib/paho.mqtt.c/src/MQTTAsync.c:1367-1373 | Every step below version 5 whose number makes a key keeps the store equal to the queue |
| `PahoStore.StoreHoldsQueue` | sbc-platform/lib/paho.mqtt.c/src/MQTTAsync.c:645-786 | The same from stores that were not empty, as clients meet them whose commands were not restored: besides the queue's records there are only old ones, and all of those above the numbers given out, unless a clean session has cleared the store |
| `PahoStore.NextHolds` | sbc-platform/lib/paho.mqtt.c/src/MQTTAsync.c:1367-1373 | Every step keeps that |
| `PahoStore.StoreOfTail` | sbc-platform/lib/paho.mqtt.c/src/MQTTAsync.c:631-642 | Taking a command off the queue and its record out of the store leaves the store of the shorter queue |
| `PahoRecovery.CrashRecovery` | sbc-platform/lib/paho.mqtt.c/src/MQTTAsync.c:927-976 | With the key stems of the two versions told apart: after any run below version 5 whose numbers make keys, and beside commands of other clients, restoring rebuilds the client's stored queue field for field and in order, and the store still matches it; from the keys in any order where sequence numbers are compared, and from keys in growing order with the comparison that is linked |
| `PahoRecovery.LinkedRecovery` | sbc-platform/lib/paho.mqtt.c/src/MQTTPersistence.c:359-373 | With the comparison as linked: the restored commands stand in the order in which the store lists the keys, and that is the stored queue if and only if the keys are listed in growing order |
| `PahoRecovery.BlindOrder` | sbc-platform/lib/paho.mqtt.c/src/MQTTPersistence.c:359-373 | Where all restored commands compare equal each goes behind the ones before: they come in the order of the keys |
| `PahoRecovery.InTurnRight` | sbc-platform/lib/paho.mqtt.c/src/MQTTAsync.c:927-976 | Commands read in the order of the keys are the stored queue if and only if the keys are sorted |
| `PahoRecovery.ListedBackwards` | sbc-platform/lib/paho.mqtt.c/src/MQTTPersistence.c:359-373 | Two keys listed as c-2, c-1 come back in the wrong order with the comparison as linked |
| `PahoRecovery.ShippedRecovery` | sbc-platform/lib/paho.mqtt.c/src/MQTTPersistence.h:45-47 | With the stems as shipped, nothing is restored, so recovery below version 5 is right if and only if the store was empty |
| `PahoRecovery.ShippedRestoresNothing` | sbc-platform/lib/paho.mqtt.c/src/MQTTAsync.c:927-976 | With equal stems every record is read as version 5 and dropped |
| `PahoRecovery.RestoresQueue` | sbc-platform/lib/paho.mqtt.c/src/MQTTAsync.c:927-976 | Restoring a listing of the keys of a queue's store gives that queue back and numbers that go on behind it, under the same condition on comparison and order |
| `PahoRecovery.StemApart` | sbc-platform/lib/paho.mqtt.c/src/MQTTPersistence.h:45-47 | "c5-" is a stem that no key of version below 5 starts with |
| `PahoRecovery.KeyFits` | sbc-platform/lib/paho.mqtt.c/src/MQTTAsync.c:767-770 | A key fits its buffer if and only if its number is below 1000000 |
| `PahoRecovery.NumbersRunOut` | sbc-platform/lib/paho.mqtt.c/src/MQTTAsync.c:645-786 | Nothing stops a client there: n messages sent take n numbers, for every n that a 32-bit counter can count |
| `PahoRecovery.KeyNumber` | sbc-platform/lib/paho.mqtt.c/src/MQTTAsync.c:959 | The sequence number is read back from the key that sprintf made of it |
| `PahoRecovery.AtoiDecimal` | sbc-platform/lib/paho.mqtt.c/src/MQTTAsync.c:959 | atoi inverts "%u" |
| `PahoFallback.FailingConnect` | sbc-platform/lib/paho.mqtt.c/src/MQTTAsync.c:1380-1442 | Over runs, from the CONNECT that connect queues and with every attempt failing, at once or later, whatever other clients do and whatever this one sends, asks and has acknowledged meanwhile: the attempts made, followed by those that the queued CONNECT or the attempt under way leads to, are every URI in order, once per version (3.1.1 then 3.1 for the default, else the fixed one); once all are made the client has no CONNECT queued |
| `PahoFallback.RestTried` | sbc-platform/lib/paho.mqtt.c/src/MQTTAsync.c:1665-1692 | The same from any point of a connect: each attempt made is the first of what was left, and nothing else is taken away |
| `PahoFallback.StepGoesOn` | sbc-platform/lib/paho.mqtt.c/src/MQTTAsync.c:1317-1442 | Any one step, of this client or another, leaves of the connect what it has to |
| `PahoFallback.ConnectStarts` | sbc-platform/lib/paho.mqtt.c/src/MQTTAsync.c:3022-3041 | A connect of a client that is not connected starts with its first attempt queued |
| `PahoFallback.BreaksOff` | sbc-platform/lib/paho.mqtt.c/src/MQTTAsync.c:1608-1625 | If the protocol layer reports an error and leaves a connect under way, the CONNECT put back is completed without being tried |
| `PahoLife.LifeKeeps` | sbc-platform/lib/paho.mqtt.c/src/MQTTAsync.c:475-604 | Through any number of crashes and re-creations of clients, with any steps between them whose numbers make keys, the invariants of runs hold and every store that was left behind can be restored from |
| `PahoLife.EveryLife` | sbc-platform/lib/paho.mqtt.c/src/MQTTAsync.c:475-604 | In every life from the first process on: each command accepted since the last crash, restored ones included, is in one place, once; tokens in use by a client differ; the stores mirror the queues |
| `PahoLife.ComesBack` | sbc-platform/lib/paho.mqtt.c/src/MQTTAsync.c:927-976 | After a crash in any such state and whatever other clients do, creating the client again gives back exactly what it had queued of the stored kinds, field for field and in order |
| `PahoLife.CreateKeeps` | sbc-platform/lib/paho.mqtt.c/src/MQTTAsync.c:475-604 | Creating a client and restoring its commands, numbered behind those accepted, keeps the invariants; that the restored tokens differ is derived from the state that was stored |
| `PahoLife.CrashKeeps` | sbc-platform/lib/paho.mqtt.c/src/MQTTAsync.c:927-976 | A crash leaves no command and every store as it was, and that is a good state |
| `PahoLife.StartGood` | sbc-platform/lib/paho.mqtt.c/src/MQTTAsync.c:475-595 | The first process of all is a good state |
| `PahoLife.SameStoreSameQueue` | sbc-platform/lib/paho.mqtt.c/src/MQTTAsync.c:645-786 | A store is that of one queue only |
| `PahoLife.ShippedLife` | sbc-platform/lib/paho.mqtt.c/src/MQTTPersistence.h:45-47 | As shipped, through any number of crashes and re-creations: the invariants of runs hold, and each store has the records of its queue and, of those found when the client was created, only these and all above the numbers given out since, unless a clean session has cleared it |
| `PahoLife.ShippedCreate` | sbc-platform/lib/paho.mqtt.c/src/MQTTAsync.c:475-604 | As shipped a client created again gets no command back and numbers from 1 over the records that it had |
| `PahoLife.ShippedStart` | sbc-platform/lib/paho.mqtt.c/src/MQTTAsync.c:475-604 | So it is from the first process on |
| `PahoFallback.EveryUriOncePerVersion` | sbc-platform/lib/paho.mqtt.c/src/MQTTAsync.c:463-472 | The plan of these attempts in full: every URI in order, once per version |
| `PahoFallback.AttemptsFollowPlan` | sbc-platform/lib/paho.mqtt.c/src/MQTTAsync.c:1414-1422 | From any URI on, trying while checkConn allows is that plan |
| `PahoFallback.PlanIs` | sbc-platform/lib/paho.mqtt.c/src/MQTTAsync.c:1665-1692 | The plan entry by entry |
| `PahoFallback.FailureGoesOn` | sbc-platform/lib/paho.mqtt.c/src/MQTTAsync.c:1608-1625 | Whether a failure surfaces in processCommand or in nextOrClose, the next attempt heads the queue, or no attempt is left and no command is added; nothing is under way then |
| `PahoEngine.Engine.constructor` | sbc-platform/lib/paho.mqtt.c/src/MQTTAsync.c:475-595 | A started engine is the empty world, which satisfies the invariant |
| `PahoEngine.RecordBuffers` | sbc-platform/lib/paho.mqtt.c/src/MQTTAsync.c:645-786 | The buffers built for the store join to the record that PahoRecord.RecordRoundTrip is about |
| `PahoEngine.RestoreCommand` | sbc-platform/lib/paho.mqtt.c/src/MQTTAsync.c:789-907 | The reading loops compute what the round trip is proved about |
| `PahoEngine.Engine.PersistCommand` | sbc-platform/lib/paho.mqtt.c/src/MQTTAsync.c:645-786 | Sequence number and record; the new store is tied to the old one |
| `PahoEngine.Engine.AddCommand` | sbc-platform/lib/paho.mqtt.c/src/MQTTAsync.c:980-1020 | Head or end of the queue, with or without a record; the whole new state |
| `PahoEngine.Engine.AssignMsgId` | sbc-platform/lib/paho.mqtt.c/src/MQTTAsync.c:3144-3178 | The searching loop finds the id that PahoIds.AssignedIs characterises and remembers it |
| `PahoEngine.Engine.Publish` | sbc-platform/lib/paho.mqtt.c/src/MQTTAsync.c:3389-3456 | Checks, buffer limit, id and enqueue in one step; the whole new state |
| `PahoEngine.Engine.AskServer` | sbc-platform/lib/paho.mqtt.c/src/MQTTAsync.c:3181-3278 | The same for SUBSCRIBE and UNSUBSCRIBE |
| `PahoEngine.Engine.Disconnect1` | sbc-platform/lib/paho.mqtt.c/src/MQTTAsync.c:3044-3089 | Is the step Disconnects of the state machine: DISCONNECT, at the head of the queue when internal |
| `PahoEngine.Engine.ConnectServer` | sbc-platform/lib/paho.mqtt.c/src/MQTTAsync.c:3022-3041 | Is the step Connects: the URIs, the version and a CONNECT at the head |
| `PahoEngine.Engine.NextCommand` | sbc-platform/lib/paho.mqtt.c/src/MQTTAsync.c:1332-1359 | The scanning loop with its list of ignored clients finds the command of PahoTheory.PickIs |
| `PahoEngine.Engine.ProcessCommand` | sbc-platform/lib/paho.mqtt.c/src/MQTTAsync.c:1317-1662 | Off the queue and out of the store, then where PahoAnswers.WhereSentGoes says, or to another attempt; the whole new state |
| `PahoEngine.Engine.StartConnect` | sbc-platform/lib/paho.mqtt.c/src/MQTTAsync.c:1380-1442 | The part for CONNECT |
| `PahoEngine.Engine.StartDisconnect` | sbc-platform/lib/paho.mqtt.c/src/MQTTAsync.c:1547-1577 | The part for DISCONNECT |
| `PahoEngine.Engine.StartRequest` | sbc-platform/lib/paho.mqtt.c/src/MQTTAsync.c:1443-1546 | The part for the stored kinds, of which PahoAnswers.DoneOnlyWhenAnswered and PahoAnswers.WhereSentGoes say where each of them goes |
| `PahoEngine.Engine.Ack` | sbc-platform/lib/paho.mqtt.c/src/MQTTAsync.c:3747-3795 | The first response of the client with the id is taken out and completed |
| `PahoEngine.Engine.CompleteConnection` | sbc-platform/lib/paho.mqtt.c/src/MQTTAsync.c:2012-2056 | A CONNACK: connected, with the session forgotten if it was to be |
| `PahoEngine.Engine.TryNextOrClose` | sbc-platform/lib/paho.mqtt.c/src/MQTTAsync.c:1665-1721 | Is the step ConnectFails: the next attempt at the head of the queue, or the session closed |
| `PahoEngine.Engine.RemoveResponsesAndCommands` | sbc-platform/lib/paho.mqtt.c/src/MQTTAsync.c:1838-1930 | Both loops: all of the client's commands completed, in order, and all others kept in order |
| `PahoEngine.Engine.ForgetSession` | sbc-platform/lib/paho.mqtt.c/src/MQTTAsync.c:2611-2634 | Store, messages in flight, id counter, responses and commands go |
| `PahoEngine.Engine.Close` | sbc-platform/lib/paho.mqtt.c/src/MQTTAsync.c:2585-2595 | Is the step Closes: the session is forgotten if it is a clean one |
| `PahoEngine.Engine.RestoreCommands` | sbc-platform/lib/paho.mqtt.c/src/MQTTAsync.c:927-976 | The loop over the keys, which a failing pget ends, computes RestoreAll, which CrashRecovery and LinkedRecovery are about |
| `PahoEngine.InsertInOrder` | sbc-platform/lib/paho.mqtt.c/src/MQTTPersistence.c:359-373 | Before the first command that what is compared puts higher; the comparison is a parameter |
| `PahoEngine.CountBuffered` | sbc-platform/lib/paho.mqtt.c/src/MQTTAsync.c:3373-3386 | The number of PUBLISH commands a client has queued |
| `LinkedList.List.constructor` | sbc-platform/lib/paho.mqtt.c/src/LinkedList.c:42-61 | An empty list satisfies the representation invariant: first, last, prev, next and count describe one sequence, current is null or in it |
| `LinkedList.List.AppendNoMalloc` | sbc-platform/lib/paho.mqtt.c/src/LinkedList.c:72-84 | The sequence grows by the element at its end; contents and current are kept |
| `LinkedList.List.Append` | sbc-platform/lib/paho.mqtt.c/src/LinkedList.c:93-97 | The same with a new element |
| `LinkedList.List.Insert` | sbc-platform/lib/paho.mqtt.c/src/LinkedList.c:108-129 | The sequence grows by a new element before the given one, or at the end for NULL |
| `LinkedList.List.FindItem` | sbc-platform/lib/paho.mqtt.c/src/LinkedList.c:152-187 | NULL exactly if nothing matches; else the remembered element if it matches, otherwise the first match |
| `LinkedList.List.Unlink` | sbc-platform/lib/paho.mqtt.c/src/LinkedList.c:199-258 | Removes the element found and nothing else; the remembered position moves on exactly if it was removed. Detaching and removing by content pointer are its cases |
| `LinkedList.List.UnlinkElement` | sbc-platform/lib/paho.mqtt.c/src/LinkedList.c:208-232 | Relinking around one element leaves the sequence without it |
| `LinkedList.List.DetachHead` | sbc-platform/lib/paho.mqtt.c/src/LinkedList.c:266-284 | The first element goes; NULL and no change on an empty list |
| `LinkedList.List.PopTail` | sbc-platform/lib/paho.mqtt.c/src/LinkedList.c:304-322 | The last element goes; NULL and no change on an empty list |
| `LinkedList.List.RemoveDone` | sbc-platform/lib/paho.mqtt.c/src/MQTTAsync.c:1136-1156 | Deleting while walking by the remembered position leaves exactly the filtered list in order |
| `LinkedList.List.RemoveMine` | sbc-platform/lib/paho.mqtt.c/src/MQTTAsync.c:1885-1927 | Deleting while walking by a saved successor, which restarts at the head behind the end, leaves exactly the filtered list in order |
| `LinkedList.KeptIs` | sbc-platform/lib/paho.mqtt.c/src/MQTTAsync.c:1136-1156 | What stays are just the elements the filter does not hold of, at strictly growing positions |
| `LinkedList.NextLinkedWithout` | sbc-platform/lib/paho.mqtt.c/src/LinkedList.c:206-214 | Relinking one neighbour is enough for the forward links |
| `LinkedList.PrevLinkedWithout` | sbc-platform/lib/paho.mqtt.c/src/LinkedList.c:211-214 | The same for the backward links |
| `JsonTheory.SameTreeIff` | sbc-platform/lib/libjsonparse/src/ccan_json.c:625-1225 | Printing, compactly or with any white-space indent, and reading back gives the same tree if and only if its strings and keys are valid UTF-8 without U+001F and its numbers are numbers (RFC 8259, section 7) |
| `JsonTheory.RoundTrip` | sbc-platform/lib/libjsonparse/src/ccan_json.c:363-407 | For every tree: the text is read back as the tree's normal form if no string or key holds U+001F, and is refused otherwise |
| `JsonTheory.ReadPrintRead` | sbc-platform/lib/libjsonparse/src/ccan_json.c:363-407 | Reading, printing in either style and reading again gives the same tree, or fails if the first reading held U+001F |
| `JsonTheory.UnitSeparatorLost` | sbc-platform/lib/libjsonparse/src/ccan_json.c:1182-1192 | The smallest lost text: "\u001F" is read, printed as it is, and refused |
| `JsonTheory.NormalFixed` | sbc-platform/lib/libjsonparse/src/ccan_json.c:1157-1209 | Normal forms are well-formed, and a tree is its own normal form exactly if it is well-formed |
| `JsonTheory.MeaningWellFormed` | sbc-platform/lib/libjsonparse/src/ccan_json.c:625-966 | Whatever is read is well-formed |
| `JsonTheory.RepairedFixed` | sbc-platform/lib/libjsonparse/src/ccan_json.c:1163-1181 | The printed form of a string is valid UTF-8, and the string itself exactly if that was valid |
| `JsonText.DecodeExact` | sbc-platform/lib/libjsonparse/src/ccan_json.c:363-379 | json_decode accepts exactly the texts of a grammar of spellings with the characters of RFC 8259, section 2, as its own literals, and returns what they spell |
| `JsonText.SpellsOnce` | sbc-platform/lib/libjsonparse/src/ccan_json.c:625-793 | That grammar is unambiguous |
| `JsonText.PiecesFound` | sbc-platform/lib/libjsonparse/src/ccan_json.c:795-908 | What the reader takes for the rest of a string literal spells what it returns |
| `JsonText.PiecesRead` | sbc-platform/lib/libjsonparse/src/ccan_json.c:795-908 | Every spelling of a string literal is read as what it denotes |
| `JsonText.ValueReads` | sbc-platform/lib/libjsonparse/src/ccan_json.c:625-793 | Every spelling of a value is read, up to what follows it |
| `JsonText.ValueFound` | sbc-platform/lib/libjsonparse/src/ccan_json.c:625-793 | What is read as a value was a spelling of it |
| `JsonText.NumberReads` | sbc-platform/lib/libjsonparse/src/ccan_json.c:920-966 | A number lexeme is read whole where nothing that continues it follows |
| `JsonLayout.CompactIsTight` | sbc-platform/lib/libjsonparse/src/ccan_json.c:976-1080 | The compact text of every value, character by character: brackets, commas and colons and no white space outside strings |
| `JsonLayout.IndentedIsOnLines` | sbc-platform/lib/libjsonparse/src/ccan_json.c:1003-1106 | The indented text: one element or member a line, indented by its depth, ": " behind a key, "," at the end of all lines but the last, and empty arrays and objects closed at once |
| `JsonLayout.NumeralIs` | sbc-platform/lib/libjsonparse/src/ccan_json.c:920-966 | What is taken for a number is exactly a number of RFC 8259, section 6 |
| `JsonLayout.PiecesChosen` | sbc-platform/lib/libjsonparse/src/ccan_json.c:1108-1225 | Which spelling is printed for each character: the two-character escapes, \u where ASCII is asked for, the character itself otherwise |
| `JsonReader.JsonDecode` | sbc-platform/lib/libjsonparse/src/ccan_json.c:363-379 | The reader computes the decoding that JsonText.DecodeExact ties to RFC 8259; every character is read inside the text or at its terminator |
| `JsonReader.JsonValidate` | sbc-platform/lib/libjsonparse/src/ccan_json.c:435-448 | Validating without building accepts exactly what decoding accepts |
| `JsonReader.ParseValue` | sbc-platform/lib/libjsonparse/src/ccan_json.c:625-693 | Cursor and value of parse_value |
| `JsonReader.ParseArray` | sbc-platform/lib/libjsonparse/src/ccan_json.c:695-737 | Cursor and value of the array loop |
| `JsonReader.ParseObject` | sbc-platform/lib/libjsonparse/src/ccan_json.c:739-793 | Cursor and value of the object loop |
| `JsonReader.ParseString` | sbc-platform/lib/libjsonparse/src/ccan_json.c:795-908 | Cursor and text; at most four bytes are written per turn |
| `JsonReader.ParseUnicode` | sbc-platform/lib/libjsonparse/src/ccan_json.c:841-864 | \u escapes and surrogate pairs |
| `JsonReader.ParseNumber` | sbc-platform/lib/libjsonparse/src/ccan_json.c:920-966 | The lexeme, by the phases of parse_number |
| `JsonReader.ParseHex16` | sbc-platform/lib/libjsonparse/src/ccan_json.c:1270-1297 | Four hexadecimal digits or no movement |
| `JsonReader.ValidateChar` | sbc-platform/lib/libjsonparse/src/ccan_json.c:153-205 | The branches of utf8_validate_cz return the length that Utf8.ValidateExact is about |
| `JsonReader.ValidateText` | sbc-platform/lib/libjsonparse/src/ccan_json.c:208-219 | The validating loop |
| `JsonReader.WriteUtf8` | sbc-platform/lib/libjsonparse/src/ccan_json.c:267-296 | The branches of utf8_write_char write the encoding |
| `JsonPrinter.JsonStringify` | sbc-platform/lib/libjsonparse/src/ccan_json.c:396-407 | The buffer holds the text that JsonLayout.CompactIsTight and JsonLayout.IndentedIsOnLines describe, and a terminator |
| `JsonPrinter.EmitText` | sbc-platform/lib/libjsonparse/src/ccan_json.c:1108-1225 | The string printed; fourteen free bytes are enough for a character and the closing quote |
| `JsonPrinter.EmitOne` | sbc-platform/lib/libjsonparse/src/ccan_json.c:1124-1212 | One turn of that loop writes at most twelve bytes |
| `JsonPrinter.EmitValue` | sbc-platform/lib/libjsonparse/src/ccan_json.c:976-1001 | Compact printing |
| `JsonPrinter.EmitArray` | sbc-platform/lib/libjsonparse/src/ccan_json.c:1030-1041 | The loop over elements |
| `JsonPrinter.EmitObject` | sbc-platform/lib/libjsonparse/src/ccan_json.c:1067-1080 | The loop over members |
| `JsonPrinter.EmitValueIndented` | sbc-platform/lib/libjsonparse/src/ccan_json.c:1003-1028 | Indented printing |
| `JsonPrinter.EmitArrayIndented` | sbc-platform/lib/libjsonparse/src/ccan_json.c:1043-1065 | Its loop over elements |
| `JsonPrinter.EmitObjectIndented` | sbc-platform/lib/libjsonparse/src/ccan_json.c:1082-1106 | Its loop over members |
| `JsonPrinter.EmitNumber` | sbc-platform/lib/libjsonparse/src/ccan_json.c:1227-1242 | The lexeme, or null if it is not a JSON number |
| `JsonPrinter.WriteHex16` | sbc-platform/lib/libjsonparse/src/ccan_json.c:1303-1313 | Four digits |
| `JsonBuffer.Buffer.Grow` | sbc-platform/lib/libjsonparse/src/ccan_json.c:73-87 | Doubling until there is room keeps the contents and does not overshoot by more than that |
| `JsonBuffer.Buffer.Put` | sbc-platform/lib/libjsonparse/src/ccan_json.c:89-105 | The contents grow by the text |
| `JsonBuffer.Buffer.Finish` | sbc-platform/lib/libjsonparse/src/ccan_json.c:107-112 | The terminator always has a place |
| `JsonTree.AppendNode` | sbc-platform/lib/libjsonparse/src/ccan_json.c:538-549 | The children, by their links, are the old ones and the new one behind them |
| `JsonTree.PrependNode` | sbc-platform/lib/libjsonparse/src/ccan_json.c:551-562 | The same in front |
| `JsonTree.RemoveFromParent` | sbc-platform/lib/libjsonparse/src/ccan_json.c:603-623 | The children are the old ones without this one, which is left unlinked |
| `JsonTree.FamilyIsUnique` | sbc-platform/lib/libjsonparse/src/ccan_json.c:538-623 | The links decide the sequence of children |
| `JsonTree.CheckChildren` | sbc-platform/lib/libjsonparse/src/ccan_json.c:1337-1378 | The walk of one level ends whatever the links are, and it finds fault exactly when they describe no sequence of children with the right keys |
| `JsonTree.JsonCheck` | sbc-platform/lib/libjsonparse/src/ccan_json.c:1315-1384 | json_check ends on any tree whose parents form no cycle and accepts exactly the sound ones: at every level a family of children with the right keys, valid tags, and texts that are valid UTF-8 |
| `JsonTree.CheckTree` | sbc-platform/lib/libjsonparse/src/ccan_json.c:1337-1378 | Its part for arrays and objects, with the recursion |
| `JsonTree.SaneIs` | sbc-platform/lib/libjsonparse/src/ccan_json.c:1337-1378 | That soundness is the one of any sequence that the links describe |
| `JsonTree.PassOne` | sbc-platform/lib/libjsonparse/src/ccan_json.c:1353-1364 | The checks of one turn exclude coming back to a child passed before |
| `Utf8.ValidateExact` | sbc-platform/lib/libjsonparse/src/ccan_json.c:153-205 | utf8_validate_cz returns n > 0 exactly when the first n bytes encode a scalar value (RFC 3629, section 4) |
| `Utf8.CharacterIs` | sbc-platform/lib/libjsonparse/src/ccan_json.c:153-205 | The same against the byte ranges of RFC 3629, section 4 |
| `Utf8.WrittenMeans` | sbc-platform/lib/libjsonparse/src/ccan_json.c:267-296 | The bits of the bytes written, by RFC 3629, section 3 |
| `Utf8.SurrogatesMean` | sbc-platform/lib/libjsonparse/src/ccan_json.c:304-328 | The pair and the scalar value as numbers (section 2.1 of RFC 2781) |
| `Utf8.HexDigitsMean` | sbc-platform/lib/libjsonparse/src/ccan_json.c:1270-1313 | The value of each hexadecimal digit, and which characters are digits |
| `Utf8.HexMeans` | sbc-platform/lib/libjsonparse/src/ccan_json.c:1270-1297 | Four hexadecimal digits denote their number |
| `Utf8.WrittenIsRead` | sbc-platform/lib/libjsonparse/src/ccan_json.c:228-296 | What is written for a scalar value is valid, of its length, and read back |
| `Utf8.ReadIsWritten` | sbc-platform/lib/libjsonparse/src/ccan_json.c:228-296 | Valid bytes are what is written for the scalar value read from them |
| `Utf8.SurrogatesInvert` | sbc-platform/lib/libjsonparse/src/ccan_json.c:304-328 | Splitting into a surrogate pair and joining |
| `Utf8.SurrogatesOnto` | sbc-platform/lib/libjsonparse/src/ccan_json.c:304-328 | Joining and splitting |
| `Utf8.HexInverts` | sbc-platform/lib/libjsonparse/src/ccan_json.c:1270-1313 | Four digits written are read back |
| `Utf8.HexOnto` | sbc-platform/lib/libjsonparse/src/ccan_json.c:1270-1313 | Four digits read are written back, up to the case of letters |
| `DemangleTheory.Deterministic` | sbc-platform/lib/glog/src/demangle.cc:462-501 | A run of any entry of the grammar table is a function of the state it starts in: outcome, cursor and output |
| `DemangleTheory.SameRun` | sbc-platform/lib/glog/src/demangle.cc:462-501 | The same by induction on the heights of two runs |
| `DemangleTheory.RunKeeps` | sbc-platform/lib/glog/src/demangle.cc:462-481 | Every run: a failure rewinds all but the output bytes, append is restored, nothing is written at or beyond out_size, and with append off the output is left alone |
| `DemangleTheory.RunKept` | sbc-platform/lib/glog/src/demangle.cc:272-401 | The same by induction on the height of the run |
| `DemangleTheory.AcceptedIsDerivable` | sbc-platform/lib/glog/src/demangle.cc:483-1300 | Whatever a parsing function consumes, the context-free reading of the grammar derives (Itanium C++ ABI, section 5.1) |
| `DemangleTheory.AcceptedName` | sbc-platform/lib/glog/src/demangle.cc:1304-1322 | An accepted name is a mangled name of the grammar and then nothing, a clone suffix or a version suffix |
| `DemangleTheory.FunctionText` | sbc-platform/lib/glog/src/demangle.cc:490-501 | A function prints its name and then "()", whatever its parameter types are |
| `DemangleTheory.BareFunctionText` | sbc-platform/lib/glog/src/demangle.cc:1029-1039 | Parameter types print nothing but "()" |
| `DemangleTheory.AbiTagsEnd` | sbc-platform/lib/glog/src/demangle.cc:709-723 | ABI tags end behind the last tag, and one character later if a stray B stands there |
| `DemangleTheory.TopDeterministic` | sbc-platform/lib/glog/src/demangle.cc:1304-1322 | The parse of a whole name is a function of its start |
| `DemangleNames.MemberPrints` | sbc-platform/lib/glog/src/demangle.cc:551-617 | For every nested name - source names, anonymous namespaces, abbreviated substitutions, template arguments, constructors, destructors, operators, conversions, in any number - and every list of builtin parameter types: the name is accepted and prints its parts with "::" between them and "()", with the texts of the Itanium C++ ABI, in the grammar and in the shipped parser alike; marks of cloned functions behind it are dropped, and a version is printed |
| `DemangleNames.VariablePrints` | sbc-platform/lib/glog/src/demangle.cc:490-501 | The same without parameter types and "()" |
| `DemangleNames.FunctionPrints` | sbc-platform/lib/glog/src/demangle.cc:507-541 | The same for functions and operators outside of classes, and in std |
| `DemangleNames.ClonesRead` | sbc-platform/lib/glog/src/demangle.cc:305-325 | Any marks of clones - a dot and letters, a dot and digits, again and again - are taken for a clone suffix |
| `DemangleNames.ClonesFound` | sbc-platform/lib/glog/src/demangle.cc:305-325 | Nothing else is |
| `DemangleNames.OperatorText` | sbc-platform/lib/glog/src/demangle.cc:728-771 | An operator of a class prints the class, "::" and the text of its code, for each code of section 5.1.3 of the Itanium C++ ABI |
| `DemangleNames.ConstructorText` | sbc-platform/lib/glog/src/demangle.cc:889-897 | A constructor prints the class twice |
| `DemangleNames.DestructorText` | sbc-platform/lib/glog/src/demangle.cc:899-908 | A destructor prints the class, "::~" and the class |
| `DemangleNames.FooPlus` | sbc-platform/lib/glog/src/demangle.cc:728-771 | "_ZN3FooplEi" prints "Foo::operator+()", in a buffer that this just fits |
| `DemangleNames.OperatorSays` | sbc-platform/lib/glog/src/demangle.cc:728-771 | Where the code of an operator stands, an operator name is accepted and prints its text, from any state with room |
| `DemangleNames.ComponentSays` | sbc-platform/lib/glog/src/demangle.cc:889-910 | So does every other part of a nested name: constructor, destructor, substitution, conversion, source name |
| `DemangleNames.OperatorsAgree` | sbc-platform/lib/glog/src/demangle.cc:55-107 | The table of the code has the codes of the Itanium C++ ABI in this order, and says their texts |
| `DemangleNames.SubstitutionsAgree` | sbc-platform/lib/glog/src/demangle.cc:135-146 | The same for the abbreviated substitutions |
| `DemangleNames.TypesAgree` | sbc-platform/lib/glog/src/demangle.cc:109-132 | The same for the builtin types |
| `DemangleNames.OneAnswer` | sbc-platform/lib/glog/src/demangle.cc:1326-1354 | There is one answer to a name, so these are the texts that Demangle leaves in the buffer |
| `DemangleShipped.SafeAnswer` | sbc-platform/lib/glog/src/demangle.cc:1326-1354 | If no source name can be tried, by the context-free grammar, where a number below -1 stands, the shipped parser ends and gives the answer and the text of the grammar |
| `DemangleShipped.SafeNameAgrees` | sbc-platform/lib/glog/src/demangle.cc:1304-1322 | The same of whole runs |
| `DemangleShipped.RunIsShipped` | sbc-platform/lib/glog/src/demangle.cc:483-1300 | The same of every entry of the table, by induction on the run |
| `DemangleShipped.SameNameIff` | sbc-platform/lib/glog/src/demangle.cc:609-617 | The shipped source name is the one of the grammar if and only if its number is not below -1, as long as the cursor stays inside the string |
| `DemangleShipped.MovesForwardIff` | sbc-platform/lib/glog/src/demangle.cc:694-706 | A shipped source name moves forward if and only if its number has more characters than it takes back |
| `DemangleShipped.GrammarMovesForward` | sbc-platform/lib/glog/src/demangle.cc:609-617 | A source name of the grammar always does |
| `DemangleShipped.NegativeLengthGoesForward` | sbc-platform/lib/glog/src/demangle.cc:694-706 | "n0002" has the length -2 and moves forward |
| `DemangleShipped.NegativeLengthStepsBack` | sbc-platform/lib/glog/src/demangle.cc:694-706 | In "_Zn4" the source name sends the cursor back to the start |
| `DemangleShipped.PrefixNeverEnds` | sbc-platform/lib/glog/src/demangle.cc:576-595 | Where a number leads back to itself, the shipped parsing of a prefix never ends |
| `DemangleShipped.NestedNeverEnds` | sbc-platform/lib/glog/src/demangle.cc:551-563 | So the shipped parser never gets through "_ZN" with such a number behind it |
| `DemangleShipped.NeverParsed` | sbc-platform/lib/glog/src/demangle.cc:1304-1322 | "_ZNn2E" is such a name: no parse of it ends |
| `DemangleParser.Demangle` | sbc-platform/lib/glog/src/demangle.cc:1326-1354 | True exactly if the whole name parses and its text fits, which then stands in the buffer; nothing is written beyond out_size; and on the names of SafeAnswer this is what the shipped code does |
| `DemangleParser.State.ParseTopLevelMangledName` | sbc-platform/lib/glog/src/demangle.cc:1304-1322 | The suffixes, and the frame of the output |
| `DemangleParser.State.Append` | sbc-platform/lib/glog/src/demangle.cc:272-286 | Characters as they fit, one free for the NUL, and the overflow flag |
| `DemangleParser.State.MaybeAppendWithLength` | sbc-platform/lib/glog/src/demangle.cc:329-345 | The space between two <, and the remembered identifier |
| `DemangleParser.State.ParseNumber` | sbc-platform/lib/glog/src/demangle.cc:637-659 | The number, in 32 bits; a failure may have consumed an n |
| `DemangleParser.State.ParseIdentifier` | sbc-platform/lib/glog/src/demangle.cc:694-706 | The identifier of that length, or no change |
| `DemangleParser.State.ParseMangledName` | sbc-platform/lib/glog/src/demangle.cc:483-485 | Did exactly a run of the table's entry for it; a failure may have consumed the _Z |
| `DemangleParser.State.ParseEncoding` | sbc-platform/lib/glog/src/demangle.cc:490-501 | Did exactly a run of the table's entry for it; success moves the cursor forward and keeps append and nest level, failure leaves all but the output bytes as they were |
| `DemangleParser.State.ParseName` | sbc-platform/lib/glog/src/demangle.cc:507-524 | Did exactly a run of the table's entry for it; success moves the cursor forward and keeps append and nest level, failure leaves all but the output bytes as they were |
| `DemangleParser.State.ParseUnscopedName` | sbc-platform/lib/glog/src/demangle.cc:528-541 | Did exactly a run of the table's entry for it; success moves the cursor forward and keeps append and nest level, failure leaves all but the output bytes as they were |
| `DemangleParser.State.ParseUnscopedTemplateName` | sbc-platform/lib/glog/src/demangle.cc:545-547 | Did exactly a run of the table's entry for it; success moves the cursor forward and keeps append and nest level, failure leaves all but the output bytes as they were |
| `DemangleParser.State.ParseNestedName` | sbc-platform/lib/glog/src/demangle.cc:551-563 | Did exactly a run of the table's entry for it; success moves the cursor forward and keeps append and nest level, failure leaves all but the output bytes as they were; the nest level is restored |
| `DemangleParser.State.ParsePrefix` | sbc-platform/lib/glog/src/demangle.cc:576-595 | Did exactly a run of the table's entry for it; always succeeds, possibly on nothing |
| `DemangleParser.State.ParseUnqualifiedName` | sbc-platform/lib/glog/src/demangle.cc:601-606 | Did exactly a run of the table's entry for it; success moves the cursor forward and keeps append and nest level, failure leaves all but the output bytes as they were |
| `DemangleParser.State.ParseSourceName` | sbc-platform/lib/glog/src/demangle.cc:609-617 | Did exactly a run of the table's entry for it; success moves the cursor forward and keeps append and nest level, failure leaves all but the output bytes as they were |
| `DemangleParser.State.ParseLocalSourceName` | sbc-platform/lib/glog/src/demangle.cc:624-632 | Did exactly a run of the table's entry for it; success moves the cursor forward and keeps append and nest level, failure leaves all but the output bytes as they were |
| `DemangleParser.State.ParseFloatNumber` | sbc-platform/lib/glog/src/demangle.cc:663-675 | Did exactly a run of the table's entry for it; success moves the cursor forward and keeps append and nest level, failure leaves all but the output bytes as they were |
| `DemangleParser.State.ParseSeqId` | sbc-platform/lib/glog/src/demangle.cc:679-691 | Did exactly a run of the table's entry for it; success moves the cursor forward and keeps append and nest level, failure leaves all but the output bytes as they were |
| `DemangleParser.State.ParseAbiTags` | sbc-platform/lib/glog/src/demangle.cc:709-718 | Did exactly a run of the table's entry for it; success moves the cursor forward and keeps append and nest level, failure leaves all but the output bytes as they were; output is off inside |
| `DemangleParser.State.ParseAbiTag` | sbc-platform/lib/glog/src/demangle.cc:721-723 | Did exactly a run of the table's entry for it; a failure may have consumed the B |
| `DemangleParser.State.ParseOperatorName` | sbc-platform/lib/glog/src/demangle.cc:728-771 | Did exactly a run of the table's entry for it; success moves the cursor forward and keeps append and nest level, failure leaves all but the output bytes as they were; its texts are those of DemangleNames.OperatorSays |
| `DemangleParser.State.ParseSpecialName` | sbc-platform/lib/glog/src/demangle.cc:791-850 | Did exactly a run of the table's entry for it; success moves the cursor forward and keeps append and nest level, failure leaves all but the output bytes as they were |
| `DemangleParser.State.ParseCallOffset` | sbc-platform/lib/glog/src/demangle.cc:854-869 | Did exactly a run of the table's entry for it; success moves the cursor forward and keeps append and nest level, failure leaves all but the output bytes as they were |
| `DemangleParser.State.ParseNVOffset` | sbc-platform/lib/glog/src/demangle.cc:872-874 | Did exactly a run of the table's entry for it; a failure may have consumed an n |
| `DemangleParser.State.ParseVOffset` | sbc-platform/lib/glog/src/demangle.cc:877-885 | Did exactly a run of the table's entry for it; success moves the cursor forward and keeps append and nest level, failure leaves all but the output bytes as they were |
| `DemangleParser.State.ParseCtorDtorName` | sbc-platform/lib/glog/src/demangle.cc:889-910 | Did exactly a run of the table's entry for it; success moves the cursor forward and keeps append and nest level, failure leaves all but the output bytes as they were; prints the name remembered in the buffer |
| `DemangleParser.State.ParseType` | sbc-platform/lib/glog/src/demangle.cc:932-983 | Did exactly a run of the table's entry for it; success moves the cursor forward and keeps append and nest level, failure leaves all but the output bytes as they were |
| `DemangleParser.State.ParseCVQualifiers` | sbc-platform/lib/glog/src/demangle.cc:988-994 | Did exactly a run of the table's entry for it; success moves the cursor forward and keeps append and nest level, failure leaves all but the output bytes as they were |
| `DemangleParser.State.ParseBuiltinType` | sbc-platform/lib/glog/src/demangle.cc:998-1014 | Did exactly a run of the table's entry for it; success moves the cursor forward and keeps append and nest level, failure leaves all but the output bytes as they were |
| `DemangleParser.State.ParseFunctionType` | sbc-platform/lib/glog/src/demangle.cc:1017-1026 | Did exactly a run of the table's entry for it; success moves the cursor forward and keeps append and nest level, failure leaves all but the output bytes as they were |
| `DemangleParser.State.ParseBareFunctionType` | sbc-platform/lib/glog/src/demangle.cc:1029-1039 | Did exactly a run of the table's entry for it; success moves the cursor forward and keeps append and nest level, failure leaves all but the output bytes as they were |
| `DemangleParser.State.ParseClassEnumType` | sbc-platform/lib/glog/src/demangle.cc:1042-1044 | Did exactly a run of the table's entry for it; success moves the cursor forward and keeps append and nest level, failure leaves all but the output bytes as they were |
| `DemangleParser.State.ParseArrayType` | sbc-platform/lib/glog/src/demangle.cc:1048-1062 | Did exactly a run of the table's entry for it; success moves the cursor forward and keeps append and nest level, failure leaves all but the output bytes as they were |
| `DemangleParser.State.ParsePointerToMemberType` | sbc-platform/lib/glog/src/demangle.cc:1065-1073 | Did exactly a run of the table's entry for it; success moves the cursor forward and keeps append and nest level, failure leaves all but the output bytes as they were |
| `DemangleParser.State.ParseTemplateParam` | sbc-platform/lib/glog/src/demangle.cc:1077-1091 | Did exactly a run of the table's entry for it; success moves the cursor forward and keeps append and nest level, failure leaves all but the output bytes as they were |
| `DemangleParser.State.ParseTemplateTemplateParam` | sbc-platform/lib/glog/src/demangle.cc:1096-1099 | Did exactly a run of the table's entry for it; success moves the cursor forward and keeps append and nest level, failure leaves all but the output bytes as they were |
| `DemangleParser.State.ParseTemplateArgs` | sbc-platform/lib/glog/src/demangle.cc:1102-1114 | Did exactly a run of the table's entry for it; success moves the cursor forward and keeps append and nest level, failure leaves all but the output bytes as they were; output is off inside |
| `DemangleParser.State.ParseTemplateArg` | sbc-platform/lib/glog/src/demangle.cc:1121-1142 | Did exactly a run of the table's entry for it; success moves the cursor forward and keeps append and nest level, failure leaves all but the output bytes as they were |
| `DemangleParser.State.ParseExpression` | sbc-platform/lib/glog/src/demangle.cc:1153-1198 | Did exactly a run of the table's entry for it; success moves the cursor forward and keeps append and nest level, failure leaves all but the output bytes as they were |
| `DemangleParser.State.ParseExprPrimary` | sbc-platform/lib/glog/src/demangle.cc:1205-1234 | Did exactly a run of the table's entry for it; success moves the cursor forward and keeps append and nest level, failure leaves all but the output bytes as they were |
| `DemangleParser.State.ParseLocalName` | sbc-platform/lib/glog/src/demangle.cc:1239-1254 | Did exactly a run of the table's entry for it; success moves the cursor forward and keeps append and nest level, failure leaves all but the output bytes as they were |
| `DemangleParser.State.ParseDiscriminator` | sbc-platform/lib/glog/src/demangle.cc:1257-1264 | Did exactly a run of the table's entry for it; success moves the cursor forward and keeps append and nest level, failure leaves all but the output bytes as they were |
| `DemangleParser.State.ParseSubstitution` | sbc-platform/lib/glog/src/demangle.cc:1269-1300 | Did exactly a run of the table's entry for it; success moves the cursor forward and keeps append and nest level, failure leaves all but the output bytes as they were; its texts are those of DemangleNames.ComponentSays |
| `HubTheory.NoExitLost` | sbc-platform/src/CloudHub/main.cpp:37-163 | Over every interleaving of the handler with the statements of the main loop and the manager: what was reaped is what was delivered and what is still on its way, in order, once; the array is never full when a child ends; a free slot exists for every delivery; and a cleanup removes exactly the instances whose children wait in slots |
| `HubTheory.EverythingDelivered` | sbc-platform/src/CloudHub/main.cpp:131-163 | A bounded number of statements of the main loop, however the handler and the manager strike between them, delivers all that had been reaped: as many as children were on their way, and four |
| `HubTheory.SchedulerInvariant` | sbc-platform/src/CloudHub/mqttMsgManager.cpp:264-301 | Over every run: at most maxParallelInstances children, no two for the same object; one queued group per object, the latest moved for it, and the objects in the order in which they first arrived since each was last taken out of the queue |
| `HubTheory.OneLightEver` | sbc-platform/src/CloudHub/mqttMsgManager.cpp:257-292 | Over every run: a child for a group about lights is started at most once, and exactly if the flag is set at the end |
| `HubTheory.SinceIs` | sbc-platform/src/CloudHub/mqttMsgManager.cpp:173-208 | That first arrival is the one after which the object was not taken out, and before which every arrival was |
| `HubTheory.ArrayHasRoom` | sbc-platform/src/CloudHub/main.cpp:42-70 | When a child ends the array that is being filled holds fewer than maxParallelInstances |
| `HubTheory.SlotExists` | sbc-platform/src/CloudHub/mqttMsgManager.cpp:159-170 | A delivery finds a free slot |
| `HubTheory.CleanRemoves` | sbc-platform/src/CloudHub/mqttMsgManager.cpp:211-243 | The next cleanup removes the instance of every child in a slot, leaves the others in their order and frees all slots |
| `HubTheory.MergeIs` | sbc-platform/src/CloudHub/mqttMsgManager.cpp:173-208 | Moving groups in leaves one group per object: the latest moved, in the place of the first arrival |
| `HubTheory.NextKeeps` | sbc-platform/src/CloudHub/mqttMsgManager.cpp:260-303 | Every step keeps the invariant |
| `HubTheory.WhatCanHappen` | sbc-platform/src/CloudHub/mqttMsgManager.cpp:264-301 | When each step can happen: in particular a child is started exactly for a group that is neither about an object being sent nor a second light, behind a cleanup, with fewer children than allowed at work |
| `HubTheory.ReapIs` | sbc-platform/src/CloudHub/main.cpp:42-70 | The handler keeps a child unless the array being filled, with room for twice as many as may run, is full |
| `HubTheory.TheStart` | sbc-platform/src/CloudHub/main.cpp:15-24 | Runs start with everything empty, and with slots as the allocator left them |
| `HubTheory.SweptPids` | sbc-platform/src/CloudHub/mqttMsgManager.cpp:222-240 | Sweeping takes out exactly the children in the slots |
| `HubImpl.Collector.Collect` | sbc-platform/src/CloudHub/main.cpp:42-70 | One turn of the handler: the child goes to the array that is being filled, if it has room |
| `HubImpl.Collector.Swap` | sbc-platform/src/CloudHub/main.cpp:143-154 | gSigQueue changes over and nothing else |
| `HubImpl.Collector.ResetCount` | sbc-platform/src/CloudHub/main.cpp:159-162 | The count of the drained array becomes 0, the other array is untouched |
| `HubImpl.Manager.SignalChildL2` | sbc-platform/src/CloudHub/mqttMsgManager.cpp:159-170 | The first free slot takes the child; without one it is forgotten |
| `HubImpl.Manager.CleanCompletedMsgInstances` | sbc-platform/src/CloudHub/mqttMsgManager.cpp:211-243 | All slots are freed and the instances of their children erased; slots only, if no instance is listed |
| `HubImpl.Manager.MoveDataQueueToInternal` | sbc-platform/src/CloudHub/mqttMsgManager.cpp:173-208 | The nested loops compute the merge of HubTheory.MergeIs |
| `HubImpl.Manager.Schedule` | sbc-platform/src/CloudHub/mqttMsgManager.cpp:273-299 | Whenever there is room, the first group that is neither busy nor a light kept back is started if its child can be created; at the end the limit is reached, or every group still queued is busy, a light kept back, refused by create, or was skipped behind an erase. The loop is a run of forks and pushes of the model, so it keeps its invariant |
| `HubSampling.StreamIsWindows` | sbc-platform/src/CloudHub/clusterDataProcessor.cpp:122-156 | For every stream of packets and every object of a configured type: the groups sent and the open one are the groups of its windows, in order |
| `HubSampling.WindowsCover` | sbc-platform/src/CloudHub/clusterDataProcessor.cpp:122-156 | One after the other, the windows are the packets: none is lost or moved |
| `HubSampling.WindowsSplit` | sbc-platform/src/CloudHub/clusterDataProcessor.cpp:123-154 | Every packet of a window is within the interval of its first, and the first of the next window is not |
| `HubSampling.GroupOfIs` | sbc-platform/src/CloudHub/clusterDataGroup.cpp:41-55 | The group of a window holds exactly its sampled packets and expires one interval after the first |
| `HubSampling.SampledIs` | sbc-platform/src/CloudHub/clusterDataGroup.cpp:41-55 | The i-th sample is the packet at position i times k, as long as there is one |
| `HubSampling.TimesAreNumbers` | sbc-platform/src/CloudHub/clusterRawPkt.h:28-44 | On normalised times += and > are addition and comparison of milliseconds |
| `HubSampling.NotNumbers` | sbc-platform/src/CloudHub/clusterRawPkt.h:38-43 | On times that are not normalised they are not |
| `HubSampling.BeyondIs` | sbc-platform/src/CloudHub/clusterDataGroup.cpp:33-38 | With normalised times a packet is too late exactly if it is more than the interval after the first |
| `HubProcessor.DataProcessor.Handle` | sbc-platform/src/CloudHub/clusterDataProcessor.cpp:122-156 | One turn of the loop on the map of open groups and the queue, as Feed says |
| `HubProcessor.DataProcessor.HandOn` | sbc-platform/src/CloudHub/clusterDataProcessor.cpp:128-132 | The group is queued and no longer open |
| `HubProcessor.DataGroup.PushBack` | sbc-platform/src/CloudHub/clusterDataGroup.cpp:41-55 | Counter, items and expiry time |
| `LineReader.ReadLines` | sbc-platform/lib/glog/src/symbolize.cc:406-444 | Reading until the first false returns the newline-terminated lines of the file in order, up to the first that does not fit with its newline |
| `LineReader.Reader.ReadLine` | sbc-platform/lib/glog/src/symbolize.cc:406-444 | Exactly if the next line and its newline fit into the buffer it is returned, and the unread text is what follows it |
| `LineReader.FittingIs` | sbc-platform/lib/glog/src/symbolize.cc:406-444 | That is a prefix of all lines, and all of them if and only if every line fits |
| `LineReader.LinesAreText` | sbc-platform/lib/glog/src/symbolize.cc:400-444 | The lines, each with its newline, and the remainder are the text |
| `LineReader.LinesAreLines` | sbc-platform/lib/glog/src/symbolize.cc:460-463 | No line and no remainder holds a newline |
| `LineReader.Reader.ReadFromOffset` | sbc-platform/lib/glog/src/symbolize.cc:144-164 | As much as was asked and the file has, whatever the short reads |
| `LineReader.Reader.Fill` | sbc-platform/lib/glog/src/symbolize.cc:406-434 | Afterwards the buffer holds a newline, or all it can hold of the unread text |
| `IntText.ItoaR` | sbc-platform/lib/glog/src/symbolize.cc:670-729 | The text and a NUL if they fit, an empty buffer otherwise; nothing beyond sz is written |
| `IntText.HexRoundTrip` | sbc-platform/lib/glog/src/symbolize.cc:484-498 | Every word written in base 16, padded or not, is read back by GetHex, which stops behind it |
| `IntText.DecimalMeans` | sbc-platform/lib/glog/src/symbolize.cc:683-714 | A decimal text stands for the number, down to the most negative one |
| `IntText.NumeralLength` | sbc-platform/lib/glog/src/symbolize.cc:700-714 | At least the padding, and no leading zero beyond it |
| `IntText.GetHex` | sbc-platform/lib/glog/src/symbolize.cc:484-498 | The leading hexadecimal digits, their value modulo 2^64 |
| `IntText.WriteDigits` | sbc-platform/lib/glog/src/symbolize.cc:700-714 | The digits, lowest first, exactly if they fit |
| `IntText.ReverseDigits` | sbc-platform/lib/glog/src/symbolize.cc:723-727 | The digits reversed in place |
| `Glob.ExactIff` | sbc-platform/lib/glog/src/vlog_is_on.cc:75-102 | The matcher agrees with the meaning of * and ? on all texts without * if and only if the pattern does not end in two stars; a text that shows it otherwise |
| `Glob.Sound` | sbc-platform/lib/glog/src/vlog_is_on.cc:75-102 | A match found is a match, for every pattern and text |
| `Glob.Complete` | sbc-platform/lib/glog/src/vlog_is_on.cc:75-102 | On texts without *, every match is found unless the pattern ends in two stars |
| `Glob.TwoStarsNeedMore` | sbc-platform/lib/glog/src/vlog_is_on.cc:88-98 | Such a pattern only matches texts longer than its plain characters |
| `Glob.SafeFNMatch` | sbc-platform/lib/glog/src/vlog_is_on.cc:75-102 | The loop and its recursion compute the matcher of these lemmas, and end |
| `Base64.RoundTrip` | sbc-platform/lib/paho.mqtt.c/src/Base64.c:100-235 | Decoding what was encoded gives the bytes back (RFC 4648, section 4) |
| `Base64.EncodeInto` | sbc-platform/lib/paho.mqtt.c/src/Base64.c:179-235 | Into a buffer of any size: the whole groups of the text that fit, the number written, and a NUL where there is room |
| `Base64.DecodeInto` | sbc-platform/lib/paho.mqtt.c/src/Base64.c:100-177 | Into a buffer of any size: the decoded bytes as far as they fit, and a NUL where there is room |
| `Base64.EncodeLengthIs` | sbc-platform/lib/paho.mqtt.c/src/Base64.c:250-253 | The encoded length is exact for every input below 2^30 bytes |
| `Base64.EncodeLengthWraps` | sbc-platform/lib/paho.mqtt.c/src/Base64.c:250-253 | For the first one beyond, it is 0 |
| `Base64.DecodeLengthIs` | sbc-platform/lib/paho.mqtt.c/src/Base64.c:239-248 | The decoded length of an encoded text is exact |
| `MqttPacket.FrameRoundTrip` | sbc-platform/lib/paho.mqtt.c/src/MQTTPacket.c:785-828 | A PUBLISH frame below version 5 is read back as what was sent, whatever follows it (MQTT 3.1.1, section 3.3) |
| `MqttPacket.FrameIs` | sbc-platform/lib/paho.mqtt.c/src/MQTTPacket.c:785-828 | The frame on the wire: the first byte is 48 + 8 dup + 2 QoS + retain, then the remaining length, then the body (MQTT 3.1.1, section 3.3) |
| `MqttPacket.BodyIs` | sbc-platform/lib/paho.mqtt.c/src/MQTTPacket.c:785-828 | The body by position: the length of the topic, high byte first, the topic, the id, high byte first, for QoS 1 and 2, and the payload |
| `MqttPacket.LengthBytesAre` | sbc-platform/lib/paho.mqtt.c/src/MQTTPacket.c:277-293 | The bytes of the remaining length, for each of its four ranges (MQTT 3.1.1, section 2.2.3) |
| `MqttPacket.TypeDecides` | sbc-platform/lib/paho.mqtt.c/src/MQTTPacket.c:190-207 | A packet is read as a PUBLISH only if its first byte is 48 to 63; types without a reader are refused |
| `MqttPacket.PublishIs` | sbc-platform/lib/paho.mqtt.c/src/MQTTPacket.c:524-560 | What is read from a body, by position |
| `MqttPacket.BodyRoundTrip` | sbc-platform/lib/paho.mqtt.c/src/MQTTPacket.c:524-560 | The body alone |
| `MqttPacket.LengthRoundTrip` | sbc-platform/lib/paho.mqtt.c/src/MQTTPacket.c:277-328 | The remaining length is read back if it is below 2^28 and refused otherwise (MQTT 3.1.1, section 2.2.3) |
| `MqttPacket.LengthSizeIs` | sbc-platform/lib/paho.mqtt.c/src/MQTTPacket.c:929-942 | VBIlen is the number of bytes written exactly for values below 2^28 |
| `MqttPacket.EncodeLength` | sbc-platform/lib/paho.mqtt.c/src/MQTTPacket.c:277-293 | The encoding loop |
| `MqttPacket.DecodeLength` | sbc-platform/lib/paho.mqtt.c/src/MQTTPacket.c:302-328 | The decoding loop |
| `MqttPacket.StringRoundTrip` | sbc-platform/lib/paho.mqtt.c/src/MQTTPacket.c:357-375 | A string comes back exactly if its length fits into two bytes |
| `MqttPacket.IntRoundTrip` | sbc-platform/lib/paho.mqtt.c/src/MQTTPacket.c:336-342 | A two-byte integer comes back modulo 65536 |
| `MqttPacket.HeaderRoundTrip` | sbc-platform/lib/paho.mqtt.c/src/MQTTPacket.c:794-797 | The bit fields of the header byte |

## Left out

- DemangleParser.State.ParseIdentifier: a source name with a length below -1 is refused; the shipped code moves the cursor back, after which parsing need not end. `DemangleShipped` has that step; a cursor before the start of the string, which is undefined in the code, is a failure there.
- DemangleParser.State.AppendPreviousName: reads beyond the output buffer, which the shipped code makes when the remembered name was cut off, give NUL here.
- DemangleParser.State.ParseSourceName: numbers wrap at 32 bits and the nest level at 16, as two's complement; in the shipped code signed overflow is undefined.
- DemangleParser.Demangle: the branch for Windows.
- PahoRecovery.LinkedRecovery: what the linked comparison reads of commands that were not restored is any number; of restored commands it is 0, and those are all that the client has queued.
- PahoStore.StoreIsQueue: what is overwritten behind a key that does not fit its buffer; the store is a map.
- PahoLife.LifeKeeps: a client that is created again is one that the process has not. Destroying a client is left out.
- PahoFallback.FailingConnect: that a queued CONNECT is taken at all is up to the dispatching thread.
- PahoEngine.Engine.CompleteConnection: sending again the messages in flight after a CONNACK.
- Base64.DecodeInto: bytes of 128 and more give no value here; in the shipped code, where char is signed, they index in front of the table.
- JsonPrinter.EmitNumber: the text that "%.16g" gives is taken as it is.
- PahoEngine.Engine.AssignMsgId: requires that the search stops; `PahoIds.SearchHangs` shows that it must. The state machine takes such a search to return 0.
- PahoEngine.Engine.RemoveResponsesAndCommands: callbacks that call the library again while it works.
- LinkedList.List.Remove: what is freed stays allocated here; the list sizes in bytes are not counted.
- LinkedList.List.RemoveDone: whether a socket has writes pending does not change during the walk.
- The response lists of all clients are one sequence whose entries name their client.
- MQTT version 5 properties in records and packets, and what the MQTTProtocol functions do beyond their return codes.
- MQTTAsync_writeComplete, whose comparison at MQTTAsync.c:1238-1243 always picks the first response: partial writes of QoS 0 messages.
- Threads inside the MQTT library: an API call, a dispatch or a received packet is one step under its mutex.
- JsonTree.JsonCheck: trees whose parents form a cycle, which the recursion follows for ever. The union in a node is separate fields.
- JsonReader.ParseNumber: strtod; a number is its lexeme.
- JsonPrinter.EmitText: invalid UTF-8 is replaced by U+FFFD, as in a build without assertions.
- JsonBuffer.Buffer.Grow: running out of memory, here as everywhere else.
- The trees of JsonReader are values; building them from linked nodes is JsonTree's AppendNode, child by child.
- HubTheory.NoExitLost: no process id is given out again before its instance is cleaned up, and the handler strikes between statements, not inside one.
- HubImpl.Manager.Schedule: which groups are about lights only sets a flag that is never reset; a child that cannot be created leaves its group queued, although the message printed says that it is dropped.
- HubSampling.StreamIsWindows: packets that cannot be parsed and objects of unknown type are dropped before this point.
- LineReader.Reader.ReadLine: calls after the first false.
- MqttPacket.ReadFrame: of other packets only the type decides here, not what their readers do with the body; the payload length of a PUBLISH is computed and not checked, as in the code.
- DemangleNames.MemberPrints: names with other template arguments or parameter types than builtin ones; what they print is given by the runs of the grammar alone.
- ELF and /proc parsing, logging, configuration, UDP, JWT and the Heap and Log modules.
