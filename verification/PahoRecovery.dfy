/** Restoring the queue after a crash (MQTT versions below 5).

    The two stems of the store's command keys are the same text in MQTTPersistence.h, so that every
    record is taken for one of version 5.  The stem of version 5 is a parameter here: `SHIPPED_V5_STEM`
    is the one in the header; any stem that is not the start of a key, such as "c5-", tells them apart.

    MQTTPersistence_insertInOrder compares a field of another kind of record, which in a command lies in
    a callback and is 0 in a restored one.  What is compared is a parameter too: `BySeqno` is what is
    meant, `Blind` is what is linked. */
module PahoRecovery {
  import opened Bytes
  import opened Common
  import opened PahoRecord
  import opened PahoQueue
  import opened PahoStore

  const COMMAND_STEM := "c-"
  const SHIPPED_V5_STEM := "c-"

  // ---------------------------------------------------------------- keys

  function Digit(d: nat): char
    requires d < 10
  {
    '0' + d as char
  }

  /** sprintf with "%u". */
  function Decimal(n: nat): string {
    if n < 10 then [Digit(n)] else Decimal(n / 10) + [Digit(n % 10)]
  }

  /** The key of a record written below version 5. */
  function Key(n: nat): string {
    COMMAND_STEM + Decimal(n)
  }

  /** atoi on digits. */
  function Atoi(s: string): nat {
    if s == [] then 0
    else var c := s[|s| - 1]; Atoi(s[..|s| - 1]) * 10 + if '0' <= c <= '9' then (c - '0') as nat else 0
  }

  /** What follows the first dash. */
  function AfterDash(s: string): string {
    if s == [] then [] else if s[0] == '-' then s[1..] else AfterDash(s[1..])
  }

  lemma {:induction false} AtoiDecimal(n: nat)
    ensures Atoi(Decimal(n)) == n
  {
    if n < 10 {
      assert Decimal(n)[..0] == [];
    } else {
      AtoiDecimal(n / 10);
      assert Decimal(n)[..|Decimal(n)| - 1] == Decimal(n / 10);
    }
  }

  lemma KeyNumber(n: nat)
    ensures Atoi(AfterDash(Key(n))) == n
  {
    var k := Key(n);
    assert k[0] == 'c' && k[1..][0] == '-' && k[1..][1..] == Decimal(n);
    assert AfterDash(k) == AfterDash(k[1..]) == Decimal(n);
    AtoiDecimal(n);
  }

  /** PERSISTENCE_MAX_KEY_LENGTH: a key has this many characters at most, and a NUL. */
  const MAX_KEY_LENGTH := 8

  /** From number 1000000 on a key no longer fits its buffer. */
  lemma KeyFits(n: nat)
    ensures |Key(n)| <= MAX_KEY_LENGTH <==> n < KEY_NUMBERS
    ensures |Key(1_000_000)| == MAX_KEY_LENGTH + 1
  {
    DecimalFits(n, 6);
    DecimalFits(1_000_000, 6);
    DecimalFits(1_000_000, 7);
    assert Power10(6) == 1_000_000 && Power10(7) == 10_000_000;
  }

  function Power10(d: nat): nat {
    if d == 0 then 1 else 10 * Power10(d - 1)
  }

  lemma {:induction false} DecimalFits(n: nat, d: nat)
    requires d > 0
    ensures |Decimal(n)| <= d <==> n < Power10(d)
  {
    if d == 1 {
      assert Power10(1) == 10;
    } else if n < 10 {
      PowerGrows(d);
    } else {
      DecimalFits(n / 10, d - 1);
      assert n / 10 < Power10(d - 1) <==> n < 10 * Power10(d - 1);
    }
  }

  lemma {:induction false} PowerGrows(d: nat)
    requires d > 0
    ensures Power10(d) >= 10
  {
    if d > 1 {
      PowerGrows(d - 1);
    }
  }

  /** `n` messages sent by a connected client that has not bounded its buffer take `n` numbers: nothing
      stops a client from numbering a command beyond the keys. */
  lemma {:induction false} NumbersRunOut(w: World, c: nat, b: Body, n: nat)
    requires PahoTheory.Sound(w, []) && c in w.clients && b.Publish? && b.qos == 0
    requires var cl := w.clients[c];
             cl.connected && cl.persistent && cl.maxBuffered == None && cl.seqno + n < 0x1_0000_0000
    ensures var v := PahoTheory.After(w, seq(n, _ => Sends(c, b, true, true)));
            c in v.clients && v.clients[c].seqno == w.clients[c].seqno + n
    decreases n
  {
    hide PahoTheory.Sound, Buffered;
    if n > 0 {
      var s := Sends(c, b, true, true);
      var steps := seq(n, _ => s);
      assert steps[0] == s && steps[1..] == seq(n - 1, _ => s);
      PahoTheory.NextKeeps(w, s);
      SoundNextIs(w, s);
      OneSent(w, c, b);
      NumbersRunOut(PahoTheory.SoundNext(w, s), c, b, n - 1);
    }
  }

  lemma OneSent(w: World, c: nat, b: Body)
    requires Known(w.commands, w.clients) && c in w.clients && b.Publish? && b.qos == 0
    requires var cl := w.clients[c];
             cl.connected && cl.persistent && cl.maxBuffered == None && cl.seqno + 1 < 0x1_0000_0000
    ensures var v := Next(w, Sends(c, b, true, true));
            c in v.clients && v.clients[c].seqno == w.clients[c].seqno + 1 && v.clients[c].maxBuffered == None
            && v.clients[c].connected && v.clients[c].persistent
  {
    hide Buffered, AssignedId;
  }

  // ---------------------------------------------------------------- restoring

  /** insertInOrder: before the first command with a higher rank. */
  function InsertAt(s: seq<Command>, x: Command, rank: Command -> int): (i: nat)
    ensures i <= |s|
    ensures forall k :: 0 <= k < i ==> rank(s[k]) <= rank(x)
    ensures i < |s| ==> rank(x) < rank(s[i])
  {
    if s == [] then 0
    else if rank(x) < rank(s[0]) then 0
    else InsertAt(s[1..], x, rank) + 1
  }

  function Insert(s: seq<Command>, x: Command, rank: Command -> int): seq<Command> {
    var i := InsertAt(s, x, rank);
    s[..i] + [x] + s[i..]
  }

  /** Sequence numbers are compared. */
  ghost predicate BySeqno(rank: Command -> int) {
    forall x :: rank(x) == x.seqno
  }

  /** What is compared is 0 in all restored commands, and these are all that the client has queued. */
  ghost predicate Blind(rank: Command -> int, c: nat) {
    forall x: Command :: x.client == c ==> rank(x) == 0
  }

  function AsId(t: int32): MsgId {
    if 0 <= t <= MAX_MSG_ID then t else 0
  }

  /** What the reader makes of the record of sequence number `n`, with `beyond` behind it in memory. */
  function RestoreOne(store: map<nat, bytes>, n: nat, c: nat, v5stem: string, beyond: bytes): (x: Option<Command>)
    requires n in store
    ensures x.Some? ==> x.value.client == c
  {
    match Restore(store[n] + beyond, |store[n]|, v5stem <= Key(n))
    case Accepted(token, body) => Some(Command(0, c, AsId(token), Atoi(AfterDash(Key(n))), body))
    case _ => None
  }

  function Max(a: nat, b: nat): nat { if a < b then b else a }

  datatype Restarted = Restarted(commands: seq<Command>, seqno: nat)

  function WithRestored(r: Restarted, x: Option<Command>, rank: Command -> int): Restarted {
    match x
    case None => r
    case Some(y) => Restarted(Insert(r.commands, y, rank), Max(r.seqno, y.seqno))
  }

  /** restoreCommands, for the keys in the order in which the store lists them. */
  function RestoreAll(r: Restarted, store: map<nat, bytes>, keys: seq<nat>, c: nat, v5stem: string, beyond: bytes,
                      rank: Command -> int): Restarted
    requires forall k :: k in keys ==> k in store
    decreases |keys|
  {
    if keys == [] then r
    else RestoreAll(WithRestored(r, RestoreOne(store, keys[0], c, v5stem, beyond), rank), store, keys[1..], c, v5stem,
                    beyond, rank)
  }

  /** The keys that are read: the first whose record the store fails to give ends the loop. */
  function Reached(keys: seq<nat>, broken: set<nat>): (r: seq<nat>)
    ensures r <= keys && (forall k :: k in r ==> k !in broken)
    ensures |r| < |keys| ==> keys[|r|] in broken
  {
    if keys == [] || keys[0] in broken then [] else [keys[0]] + Reached(keys[1..], broken)
  }

  /** A listing of the store's keys, in any order. */
  ghost predicate Lists(keys: seq<nat>, store: map<nat, bytes>) {
    multiset(keys) == multiset(store.Keys)
  }

  /** What identifies a restored command: all but its address. */
  function Face(x: Command): Command {
    x.(serial := 0)
  }

  function Faces(s: seq<Command>): (r: seq<Command>)
    ensures |r| == |s| && forall k :: 0 <= k < |s| ==> r[k] == Face(s[k])
  {
    seq(|s|, k requires 0 <= k < |s| => Face(s[k]))
  }

  // ---------------------------------------------------------------- with the stems told apart

  /** The entry of the queue with a given number. */
  ghost predicate IsEntry(q: seq<Command>, x: Command) {
    exists i :: 0 <= i < |q| && x == Face(q[i])
  }

  lemma {:induction false} StoreEntry(q: seq<Command>, n: nat, k: nat) returns (i: nat)
    requires Growing(q, n) && k in StoreOf(q)
    ensures i < |q| && q[i].seqno == k && StoreOf(q)[k] == Record(q[i].token, q[i].body)
    decreases |q|
  {
    hide Record;
    var m := |q| - 1;
    if k == q[m].seqno {
      i := m;
    } else {
      GrowingPrefix(q, m, n);
      i := StoreEntry(q[..m], n, k);
    }
  }

  /** A record read below version 5 is the queued command again. */
  lemma RestoredEntry(q: seq<Command>, n: nat, k: nat, c: nat, v5stem: string, beyond: bytes)
    requires Growing(q, n) && k in StoreOf(q) && !(v5stem <= Key(k))
    requires forall i :: 0 <= i < |q| ==> q[i].client == c && IsStored(q[i].body) && BodyFits(q[i].body)
    ensures RestoreOne(StoreOf(q), k, c, v5stem, beyond).Some?
    ensures IsEntry(q, RestoreOne(StoreOf(q), k, c, v5stem, beyond).value)
    ensures RestoreOne(StoreOf(q), k, c, v5stem, beyond).value.seqno == k
  {
    hide Record, Restore, Key, Atoi, AfterDash, StoreOf, Growing;
    var i := StoreEntry(q, n, k);
    RecordRoundTrip(q[i].token, q[i].body, beyond);
    KeyNumber(k);
    assert RestoreOne(StoreOf(q), k, c, v5stem, beyond).value == Face(q[i]);
  }

  /** Whatever stands before a command of the client has no higher number. */
  ghost predicate Led(s: seq<Command>, c: nat) {
    forall i, j :: 0 <= i < j < |s| && s[j].client == c ==>
      s[i].seqno <= s[j].seqno && (s[i].client == c ==> s[i].seqno < s[j].seqno)
  }

  ghost predicate Strict(s: seq<Command>) {
    forall i, j :: 0 <= i < j < |s| ==> s[i].seqno < s[j].seqno
  }

  ghost predicate HasNumber(s: seq<Command>, k: nat) {
    exists i :: 0 <= i < |s| && s[i].seqno == k
  }

  lemma InsertLed(s: seq<Command>, x: Command, c: nat, rank: Command -> int)
    requires BySeqno(rank) && Led(s, c) && x.client == c
    requires forall i :: 0 <= i < |s| && s[i].client == c ==> s[i].seqno != x.seqno
    ensures Led(Insert(s, x, rank), c)
  {
    var p := InsertAt(s, x, rank);
    var t := Insert(s, x, rank);
    forall i, j | 0 <= i < j < |t| && t[j].client == c
      ensures t[i].seqno <= t[j].seqno && (t[i].client == c ==> t[i].seqno < t[j].seqno)
    {
      if j < p {
        assert t[i] == s[i] && t[j] == s[j];
      } else if j == p {
        assert t[i] == s[i] && t[j] == x;
      } else {
        assert t[j] == s[j - 1];
        if i == p {
          assert x.seqno < s[p].seqno;
        } else {
          assert t[i] == s[if i < p then i else i - 1];
        }
      }
    }
  }

  lemma {:induction false} OthersSum(a: seq<Command>, b: seq<Command>, c: nat)
    ensures Others(a + b, c) == Others(a, c) + Others(b, c)
  {
    if a == [] {
      assert a + b == b;
    } else {
      assert (a + b)[1..] == a[1..] + b;
      OthersSum(a[1..], b, c);
    }
  }

  lemma InsertMine(s: seq<Command>, x: Command, rank: Command -> int)
    ensures var i := InsertAt(s, x, rank);
            && Mine(s, x.client) == Mine(s[..i], x.client) + Mine(s[i..], x.client)
            && Mine(Insert(s, x, rank), x.client) == Mine(s[..i], x.client) + [x] + Mine(s[i..], x.client)
    ensures Others(Insert(s, x, rank), x.client) == Others(s, x.client)
  {
    var i := InsertAt(s, x, rank);
    assert s == s[..i] + s[i..];
    MineSum(s[..i], s[i..], x.client);
    MineSum(s[..i] + [x], s[i..], x.client);
    MineSum(s[..i], [x], x.client);
    OthersSum(s[..i], s[i..], x.client);
    OthersSum(s[..i] + [x], s[i..], x.client);
    OthersSum(s[..i], [x], x.client);
    assert Mine([x], x.client) == [x] && Others([x], x.client) == [] by {
      assert [x][1..] == [];
    }
    assert Others(s[..i], x.client) + [] == Others(s[..i], x.client);
  }

  lemma {:induction false} MineStrict(s: seq<Command>, c: nat)
    requires Led(s, c)
    ensures Strict(Mine(s, c))
  {
    if s != [] {
      assert Led(s[1..], c);
      MineStrict(s[1..], c);
      if s[0].client == c {
        var more := Mine(s[1..], c);
        forall j | 0 <= j < |more|
          ensures s[0].seqno < more[j].seqno
        {
          MineIn(s[1..], c, more[j]);
          var k :| 0 <= k < |s[1..]| && s[1..][k] == more[j];
          assert s[k + 1] == more[j];
        }
      }
    }
  }

  /** Strictly numbered lists of the same commands are the same list. */
  lemma {:induction false} StrictSame(a: seq<Command>, b: seq<Command>)
    requires Strict(a) && Strict(b) && forall x :: x in a <==> x in b
    ensures a == b
    decreases |a|
  {
    if a == [] {
      SomeIn(b);
    } else {
      assert a[0] in b;
      assert b[0] in a;
      var i :| 0 <= i < |b| && b[i] == a[0];
      var j :| 0 <= j < |a| && a[j] == b[0];
      assert i == 0;
      NotInTail(a);
      NotInTail(b);
      forall x
        ensures x in a[1..] <==> x in b[1..]
      {
        assert x in a <==> x == a[0] || x in a[1..];
        assert x in b <==> x == b[0] || x in b[1..];
      }
      StrictSame(a[1..], b[1..]);
    }
  }

  lemma SomeIn(b: seq<Command>)
    ensures b != [] ==> exists x :: x in b
  {
    if b != [] {
      assert b[0] in b;
    }
  }

  lemma NotInTail(a: seq<Command>)
    requires a != [] && Strict(a)
    ensures a[0] !in a[1..]
  {
  }

  /** What has been restored of queue `q` once the keys in `done` are through. */
  ghost predicate Part(s: seq<Command>, q: seq<Command>, c: nat, done: seq<nat>) {
    && Led(s, c)
    && (forall x :: x in Mine(s, c) ==> IsEntry(q, x) && x.seqno in done)
    && forall k :: k in done ==> HasNumber(Mine(s, c), k)
  }

  lemma PartNext(s: seq<Command>, q: seq<Command>, c: nat, done: seq<nat>, x: Command, rank: Command -> int)
    requires BySeqno(rank) && Part(s, q, c, done) && IsEntry(q, x) && x.client == c && x.seqno !in done
    ensures Part(Insert(s, x, rank), q, c, done + [x.seqno])
  {
    hide Led, IsEntry, Insert, InsertAt, Mine;
    forall i | 0 <= i < |s| && s[i].client == c
      ensures s[i].seqno != x.seqno
    {
      MineIn(s, c, s[i]);
    }
    InsertLed(s, x, c, rank);
    InsertMine(s, x, rank);
    var i := InsertAt(s, x, rank);
    var a, b := Mine(s[..i], c), Mine(s[i..], c);
    forall k | k in done + [x.seqno]
      ensures HasNumber(Mine(Insert(s, x, rank), c), k)
    {
      NumberInserted(a, b, x, k);
    }
  }

  lemma NumberInserted(a: seq<Command>, b: seq<Command>, x: Command, k: nat)
    requires HasNumber(a + b, k) || x.seqno == k
    ensures HasNumber(a + [x] + b, k)
  {
    var t := a + [x] + b;
    if x.seqno == k {
      assert t[|a|] == x;
    } else {
      var i :| 0 <= i < |a + b| && (a + b)[i].seqno == k;
      assert t[if i < |a| then i else i + 1] == (a + b)[i];
    }
  }

  /** What the restored queue has to be like. */
  ghost predicate Fits(q: seq<Command>, n: nat, c: nat) {
    && Growing(q, n)
    && forall i :: 0 <= i < |q| ==> q[i].client == c && IsStored(q[i].body) && BodyFits(q[i].body)
  }

  lemma {:induction false} RestoreParts(r: Restarted, q: seq<Command>, n: nat, done: seq<nat>, keys: seq<nat>, c: nat,
                                        v5stem: string, beyond: bytes, rank: Command -> int)
    requires BySeqno(rank) && Fits(q, n, c) && Lists(done + keys, StoreOf(q)) && Part(r.commands, q, c, done)
    requires forall k :: k in keys ==> k in StoreOf(q) && !(v5stem <= Key(k))
    ensures var r' := RestoreAll(r, StoreOf(q), keys, c, v5stem, beyond, rank);
            Part(r'.commands, q, c, done + keys) && Others(r'.commands, c) == Others(r.commands, c)
    decreases |keys|
  {
    hide Part, Lists, StoreOf, Insert, Key, RestoreOne, Others, Growing;
    if keys == [] {
      assert done + keys == done;
    } else {
      var k := keys[0];
      assert k in keys;
      RestoredEntry(q, n, k, c, v5stem, beyond);
      var x := RestoreOne(StoreOf(q), k, c, v5stem, beyond).value;
      assert x.client == c;
      assert done + keys == (done + [k]) + keys[1..];
      ListedOnce(done, keys, StoreOf(q));
      PartNext(r.commands, q, c, done, x, rank);
      InsertMine(r.commands, x, rank);
      RestoreParts(Restarted(Insert(r.commands, x, rank), Max(r.seqno, k)), q, n, done + [k], keys[1..], c, v5stem, beyond,
                   rank);
    }
  }

  /** The client's number is the highest of those restored. */
  lemma {:induction false} RestoredNumber(r: Restarted, q: seq<Command>, n: nat, keys: seq<nat>, c: nat,
                                          v5stem: string, beyond: bytes, rank: Command -> int)
    requires Fits(q, n, c) && forall k :: k in keys ==> k in StoreOf(q) && !(v5stem <= Key(k))
    ensures var r' := RestoreAll(r, StoreOf(q), keys, c, v5stem, beyond, rank);
            r.seqno <= r'.seqno <= Max(r.seqno, n) && forall k :: k in keys ==> k <= r'.seqno
    decreases |keys|
  {
    hide StoreOf, Insert, Key, RestoreOne, Growing;
    if keys != [] {
      var k := keys[0];
      assert k in keys;
      RestoredEntry(q, n, k, c, v5stem, beyond);
      StoreKeys(q, n);
      var r1 := WithRestored(r, RestoreOne(StoreOf(q), k, c, v5stem, beyond), rank);
      assert r1.seqno == Max(r.seqno, k) <= Max(r.seqno, n);
      RestoredNumber(r1, q, n, keys[1..], c, v5stem, beyond, rank);
      assert forall j :: j in keys ==> j == k || j in keys[1..];
    }
  }

  lemma ListedOnce(done: seq<nat>, keys: seq<nat>, store: map<nat, bytes>)
    requires Lists(done + keys, store) && keys != []
    ensures keys[0] !in done
  {
    var k := keys[0];
    assert done + keys == done + [k] + keys[1..];
    assert multiset(store.Keys)[k] <= 1;
    assert multiset(done + keys) == multiset(done) + multiset([k]) + multiset(keys[1..]);
  }

  lemma {:induction false} StoredIsMine(s: seq<Command>, c: nat)
    requires forall x :: x in Mine(s, c) ==> IsStored(x.body)
    ensures StoredOf(s, c) == Mine(s, c)
  {
    if s != [] {
      assert s[0].client == c ==> s[0] in Mine(s, c);
      assert forall x :: x in Mine(s[1..], c) ==> x in Mine(s, c);
      StoredIsMine(s[1..], c);
    }
  }

  lemma {:induction false} OthersAll(s: seq<Command>, c: nat)
    requires forall k :: 0 <= k < |s| ==> s[k].client != c
    ensures Others(s, c) == s && Mine(s, c) == []
  {
    if s != [] {
      OthersAll(s[1..], c);
    }
  }

  lemma {:induction false} StoredFits(s: seq<Command>, c: nat)
    requires AllPlain(s)
    ensures forall i :: 0 <= i < |StoredOf(s, c)| ==>
              StoredOf(s, c)[i].client == c && IsStored(StoredOf(s, c)[i].body) && BodyFits(StoredOf(s, c)[i].body)
  {
    if s != [] {
      StoredFits(s[1..], c);
    }
  }

  lemma {:induction false} StoreOfFaces(q: seq<Command>)
    ensures StoreOf(Faces(q)) == StoreOf(q)
    decreases |q|
  {
    hide Record;
    if q != [] {
      var m := |q| - 1;
      assert Faces(q)[..m] == Faces(q[..m]);
      StoreOfFaces(q[..m]);
    }
  }

  lemma EntryInFaces(q: seq<Command>, x: Command)
    ensures IsEntry(q, x) <==> x in Faces(q)
  {
    if IsEntry(q, x) {
      var i :| 0 <= i < |q| && x == Face(q[i]);
      assert Faces(q)[i] == x;
    }
  }

  lemma {:induction false} InStoreOf(q: seq<Command>, n: nat, i: nat)
    requires Growing(q, n) && i < |q|
    ensures q[i].seqno in StoreOf(q)
    decreases |q|
  {
    hide Record;
    if i < |q| - 1 {
      GrowingPrefix(q, |q| - 1, n);
      InStoreOf(q[..|q| - 1], n, i);
    }
  }

  lemma QueuedListed(q: seq<Command>, n: nat, keys: seq<nat>, i: nat)
    requires Growing(q, n) && Lists(keys, StoreOf(q)) && i < |q|
    ensures q[i].seqno in keys
  {
    hide StoreOf, Growing;
    InStoreOf(q, n, i);
    assert q[i].seqno in multiset(StoreOf(q).Keys);
    assert q[i].seqno in multiset(keys);
  }

  lemma FaceRestored(q: seq<Command>, n: nat, m: seq<Command>, keys: seq<nat>, x: Command)
    requires Growing(q, n) && Lists(keys, StoreOf(q)) && x in Faces(q)
    requires forall y :: y in m ==> IsEntry(q, y)
    requires forall k :: k in keys ==> HasNumber(m, k)
    ensures x in m
  {
    hide StoreOf;
    var i :| 0 <= i < |Faces(q)| && Faces(q)[i] == x;
    QueuedListed(q, n, keys, i);
    var p :| 0 <= p < |m| && m[p].seqno == q[i].seqno;
    assert m[p] in m && IsEntry(q, m[p]);
    var j :| 0 <= j < |q| && m[p] == Face(q[j]);
    assert i == j;
  }

  /** "c5-" is such a stem. */
  lemma StemApart(n: nat)
    ensures !("c5-" <= Key(n))
  {
    assert Key(n)[1] == '-';
  }

  // ---------------------------------------------------------------- with the linked comparison

  /** What the records of the keys are restored to, in the order of the keys. */
  function InTurn(store: map<nat, bytes>, keys: seq<nat>, c: nat, v5stem: string, beyond: bytes): seq<Command>
    requires forall k :: k in keys ==> k in store
  {
    if keys == [] then []
    else
      (match RestoreOne(store, keys[0], c, v5stem, beyond)
       case None => []
       case Some(x) => [x])
      + InTurn(store, keys[1..], c, v5stem, beyond)
  }

  /** The client's commands stand before every command of positive rank. */
  ghost predicate Front(s: seq<Command>, c: nat, rank: Command -> int) {
    forall i, j :: 0 <= i < j < |s| && s[j].client == c ==> rank(s[i]) <= 0
  }

  lemma InsertFront(s: seq<Command>, x: Command, c: nat, rank: Command -> int)
    requires Blind(rank, c) && x.client == c && Front(s, c, rank)
    ensures Front(Insert(s, x, rank), c, rank)
    ensures Mine(Insert(s, x, rank), c) == Mine(s, c) + [x]
  {
    var p := InsertAt(s, x, rank);
    var t := Insert(s, x, rank);
    assert forall j :: p <= j < |s| ==> s[j].client != c;
    forall i, j | 0 <= i < j < |t| && t[j].client == c
      ensures rank(t[i]) <= 0
    {
      assert j <= p && t[i] == s[i];
    }
    InsertMine(s, x, rank);
    OthersAll(s[p..], c);
    assert Mine(s[..p], c) + [x] + [] == Mine(s[..p], c) + [] + [x];
  }

  /** Among commands of equal rank each goes behind the others: they come in the order of the keys. */
  lemma {:induction false} BlindOrder(r: Restarted, store: map<nat, bytes>, keys: seq<nat>, c: nat, v5stem: string,
                                      beyond: bytes, rank: Command -> int)
    requires Blind(rank, c) && Front(r.commands, c, rank) && forall k :: k in keys ==> k in store
    ensures var r' := RestoreAll(r, store, keys, c, v5stem, beyond, rank);
            && Mine(r'.commands, c) == Mine(r.commands, c) + InTurn(store, keys, c, v5stem, beyond)
            && Others(r'.commands, c) == Others(r.commands, c)
    decreases |keys|
  {
    hide Front, Insert, InsertAt, Mine, Others, Restore, RestoreOne, Key, Blind;
    if keys == [] {
      assert Mine(r.commands, c) + [] == Mine(r.commands, c);
    } else {
      assert keys[0] in keys;
      match RestoreOne(store, keys[0], c, v5stem, beyond)
      case None =>
        BlindOrder(r, store, keys[1..], c, v5stem, beyond, rank);
        assert [] + InTurn(store, keys[1..], c, v5stem, beyond) == InTurn(store, keys[1..], c, v5stem, beyond);
      case Some(x) =>
        InsertFront(r.commands, x, c, rank);
        InsertMine(r.commands, x, rank);
        var r1 := Restarted(Insert(r.commands, x, rank), Max(r.seqno, x.seqno));
        BlindOrder(r1, store, keys[1..], c, v5stem, beyond, rank);
        var more := InTurn(store, keys[1..], c, v5stem, beyond);
        assert Mine(r.commands, c) + [x] + more == Mine(r.commands, c) + ([x] + more);
    }
  }

  ghost predicate Sorted(keys: seq<nat>) {
    forall i, j :: 0 <= i < j < |keys| ==> keys[i] < keys[j]
  }

  lemma {:induction false} InTurnIs(q: seq<Command>, n: nat, keys: seq<nat>, c: nat, v5stem: string, beyond: bytes)
    requires Fits(q, n, c) && forall k :: k in keys ==> k in StoreOf(q) && !(v5stem <= Key(k))
    ensures var t := InTurn(StoreOf(q), keys, c, v5stem, beyond);
            |t| == |keys| && forall i :: 0 <= i < |keys| ==> t[i].seqno == keys[i] && IsEntry(q, t[i])
    decreases |keys|
  {
    hide StoreOf, Key, RestoreOne, IsEntry, Growing;
    if keys != [] {
      assert keys[0] in keys;
      RestoredEntry(q, n, keys[0], c, v5stem, beyond);
      InTurnIs(q, n, keys[1..], c, v5stem, beyond);
    }
  }

  /** The restored queue is the stored one exactly if the store lists its keys in growing order. */
  lemma InTurnRight(q: seq<Command>, n: nat, keys: seq<nat>, c: nat, v5stem: string, beyond: bytes)
    requires Fits(q, n, c) && Lists(keys, StoreOf(q))
    requires forall k :: k in keys ==> k in StoreOf(q) && !(v5stem <= Key(k))
    ensures InTurn(StoreOf(q), keys, c, v5stem, beyond) == Faces(q) <==> Sorted(keys)
  {
    hide StoreOf, Key, InTurn;
    var t := InTurn(StoreOf(q), keys, c, v5stem, beyond);
    InTurnIs(q, n, keys, c, v5stem, beyond);
    if t == Faces(q) {
      assert forall i :: 0 <= i < |keys| ==> keys[i] == q[i].seqno;
    }
    if Sorted(keys) {
      assert Strict(t) && Strict(Faces(q));
      forall x
        ensures x in t <==> x in Faces(q)
      {
        if x in t {
          EntryInFaces(q, x);
        }
        if x in Faces(q) {
          assert forall k :: k in keys ==> HasNumber(t, k);
          FaceRestored(q, n, t, keys, x);
        }
      }
      StrictSame(t, Faces(q));
    }
  }

  /** With sequence numbers compared, the queue comes back right for any order of keys. */
  lemma NumbersRight(q: seq<Command>, n: nat, c: nat, others: seq<Command>, keys: seq<nat>, v5stem: string, beyond: bytes,
                     rank: Command -> int)
    requires BySeqno(rank) && Fits(q, n, c) && Lists(keys, StoreOf(q))
    requires forall k :: k in keys ==> k in StoreOf(q) && !(v5stem <= Key(k))
    requires forall k :: 0 <= k < |others| ==> others[k].client != c
    ensures var r := RestoreAll(Restarted(others, 0), StoreOf(q), keys, c, v5stem, beyond, rank);
            Mine(r.commands, c) == Faces(q) && Others(r.commands, c) == others
  {
    hide StoreOf, Key, Others, Mine, RestoreAll;
    var r := RestoreAll(Restarted(others, 0), StoreOf(q), keys, c, v5stem, beyond, rank);
    OthersAll(others, c);
    assert [] + keys == keys;
    RestoreParts(Restarted(others, 0), q, n, [], keys, c, v5stem, beyond, rank);
    var m := Mine(r.commands, c);
    MineStrict(r.commands, c);
    forall x
      ensures x in m <==> x in Faces(q)
    {
      if x in m {
        EntryInFaces(q, x);
      }
      if x in Faces(q) {
        FaceRestored(q, n, m, keys, x);
      }
    }
    StrictSame(m, Faces(q));
  }

  /** The comparison and the order of the keys go together. */
  ghost predicate Orderly(rank: Command -> int, c: nat, keys: seq<nat>) {
    BySeqno(rank) || (Blind(rank, c) && Sorted(keys))
  }

  /** With the stems told apart, restoring rebuilds the client's stored queue: field for field, in
      order, behind, before and between whatever other clients have queued. */
  lemma RestoresQueue(q: seq<Command>, n: nat, c: nat, others: seq<Command>, keys: seq<nat>, v5stem: string, beyond: bytes,
                      rank: Command -> int)
    requires Orderly(rank, c, keys) && Fits(q, n, c) && Lists(keys, StoreOf(q))
    requires forall k :: k in keys ==> k in StoreOf(q) && !(v5stem <= Key(k))
    requires forall k :: 0 <= k < |others| ==> others[k].client != c
    ensures var r := RestoreAll(Restarted(others, 0), StoreOf(q), keys, c, v5stem, beyond, rank);
            && StoredOf(r.commands, c) == Mine(r.commands, c) == Faces(q)
            && Others(r.commands, c) == others
            && r.seqno <= n && Growing(Faces(q), r.seqno) && StoreOf(Faces(q)) == StoreOf(q)
  {
    hide StoreOf, Key, Others, Mine, StoredOf, RestoreAll, BySeqno, Blind, Sorted, InTurn;
    var r := RestoreAll(Restarted(others, 0), StoreOf(q), keys, c, v5stem, beyond, rank);
    if BySeqno(rank) {
      NumbersRight(q, n, c, others, keys, v5stem, beyond, rank);
    } else {
      OthersAll(others, c);
      BlindOrder(Restarted(others, 0), StoreOf(q), keys, c, v5stem, beyond, rank);
      var t := InTurn(StoreOf(q), keys, c, v5stem, beyond);
      assert [] + t == t;
      InTurnRight(q, n, keys, c, v5stem, beyond);
    }
    RestoredNumber(Restarted(others, 0), q, n, keys, c, v5stem, beyond, rank);
    assert forall x :: x in Mine(r.commands, c) ==> IsStored(x.body);
    StoredIsMine(r.commands, c);
    StoreOfFaces(q);
    forall i | 0 <= i < |q|
      ensures q[i].seqno <= r.seqno
    {
      QueuedListed(q, n, keys, i);
    }
  }

  /** The property that the store is for, with the stems told apart: after any run below version 5 and
      a crash, restoring a persistent client, from its keys in any order if sequence numbers are compared
      and from keys in growing order as linked, rebuilds exactly its queued PUBLISH, SUBSCRIBE and
      UNSUBSCRIBE commands, and the store again mirrors the queue. */
  lemma CrashRecovery(w: World, steps: seq<Step>, c: nat, others: seq<Command>, keys: seq<nat>, v5stem: string,
                      beyond: bytes, rank: Command -> int)
    requires Orderly(rank, c, keys) && PahoTheory.Sound(w, []) && Kept(w) && Run5(w, steps)
    requires var v := PahoTheory.After(w, steps);
             && c in v.clients && v.clients[c].persistent && Lists(keys, v.clients[c].store)
             && (forall k :: k in keys ==> k in v.clients[c].store)
             && forall k :: k in v.clients[c].store ==> !(v5stem <= Key(k))
    requires forall k :: 0 <= k < |others| ==> others[k].client != c
    ensures var v := PahoTheory.After(w, steps);
            var r := RestoreAll(Restarted(others, 0), v.clients[c].store, keys, c, v5stem, beyond, rank);
            && Mine(r.commands, c) == Faces(StoredOf(v.commands, c)) && Others(r.commands, c) == others
            && KeptFor(r.commands, v.clients[c].(seqno := r.seqno), c)
  {
    hide Orderly, StoreOf, Growing, RestoreAll, Lists, Key, StoredOf, Faces, Mine, Others, PahoTheory.After, PahoTheory.Sound, Run5;
    StoreIsQueue(w, steps);
    var v := PahoTheory.After(w, steps);
    var cl := v.clients[c];
    assert KeptFor(v.commands, cl, c);
    StoredFits(v.commands, c);
    RestoresQueue(StoredOf(v.commands, c), cl.seqno, c, others, keys, v5stem, beyond, rank);
  }

  /** With the stems told apart, but the comparison as linked: the client's commands come back in the
      order in which the store lists the keys, which is right if and only if that order is growing. */
  lemma LinkedRecovery(w: World, steps: seq<Step>, c: nat, others: seq<Command>, keys: seq<nat>, v5stem: string,
                       beyond: bytes, rank: Command -> int)
    requires Blind(rank, c) && PahoTheory.Sound(w, []) && Kept(w) && Run5(w, steps)
    requires var v := PahoTheory.After(w, steps);
             && c in v.clients && v.clients[c].persistent && Lists(keys, v.clients[c].store)
             && (forall k :: k in keys ==> k in v.clients[c].store)
             && forall k :: k in v.clients[c].store ==> !(v5stem <= Key(k))
    requires forall k :: 0 <= k < |others| ==> others[k].client != c
    ensures var v := PahoTheory.After(w, steps);
            var r := RestoreAll(Restarted(others, 0), v.clients[c].store, keys, c, v5stem, beyond, rank);
            && Mine(r.commands, c) == InTurn(v.clients[c].store, keys, c, v5stem, beyond)
            && Others(r.commands, c) == others
            && (Mine(r.commands, c) == Faces(StoredOf(v.commands, c)) <==> Sorted(keys))
  {
    hide StoreOf, Growing, RestoreAll, InTurn, Lists, Key, StoredOf, Faces, Mine, Others, PahoTheory.After;
    hide PahoTheory.Sound, Run5, Blind, Sorted;
    StoreIsQueue(w, steps);
    var v := PahoTheory.After(w, steps);
    var cl := v.clients[c];
    assert KeptFor(v.commands, cl, c);
    StoredFits(v.commands, c);
    OthersAll(others, c);
    BlindOrder(Restarted(others, 0), cl.store, keys, c, v5stem, beyond, rank);
    var t := InTurn(cl.store, keys, c, v5stem, beyond);
    assert [] + t == t;
    InTurnRight(StoredOf(v.commands, c), cl.seqno, keys, c, v5stem, beyond);
  }

  /** Two commands whose keys are listed as "c-2" and "c-1" come back in the wrong order. */
  lemma ListedBackwards(beyond: bytes, rank: Command -> int)
    requires Blind(rank, 0)
    ensures var q := [Command(0, 0, 1, 1, Unsubscribe([])), Command(1, 0, 2, 2, Unsubscribe([]))];
            && Fits(q, 2, 0) && Lists([2, 1], StoreOf(q)) && 1 in StoreOf(q) && 2 in StoreOf(q)
            && Mine(RestoreAll(Restarted([], 0), StoreOf(q), [2, 1], 0, "c5-", beyond, rank).commands, 0)
               == [Face(q[1]), Face(q[0])]
  {
    hide StoreOf, RestoreAll, Lists, Mine, Face;
    var q := [Command(0, 0, 1, 1, Unsubscribe([])), Command(1, 0, 2, 2, Unsubscribe([]))];
    Backwards(q, beyond, rank);
  }

  lemma Backwards(q: seq<Command>, beyond: bytes, rank: Command -> int)
    requires Blind(rank, 0) && Fits(q, 2, 0) && |q| == 2 && q[0].seqno == 1 && q[1].seqno == 2
    ensures Lists([2, 1], StoreOf(q)) && 1 in StoreOf(q) && 2 in StoreOf(q)
    ensures Mine(RestoreAll(Restarted([], 0), StoreOf(q), [2, 1], 0, "c5-", beyond, rank).commands, 0)
            == [Face(q[1]), Face(q[0])]
  {
    hide StoreOf, InTurn, RestoreAll, RestoreOne, Lists, Key, Blind, Insert;
    TwoKeys(q);
    var t := InTurn(StoreOf(q), [2, 1], 0, "c5-", beyond);
    StemApart(1);
    StemApart(2);
    BlindOrder(Restarted([], 0), StoreOf(q), [2, 1], 0, "c5-", beyond, rank);
    InTurnIs(q, 2, [2, 1], 0, "c5-", beyond);
    assert [] + t == t == [t[0], t[1]];
  }

  lemma TwoKeys(q: seq<Command>)
    requires |q| == 2 && q[0].seqno == 1 && q[1].seqno == 2
    ensures StoreOf(q).Keys == {1, 2} && Lists([2, 1], StoreOf(q))
  {
    hide Record;
    assert q[..1][..0] == [];
    assert StoreOf(q[..1]).Keys == {1};
    assert StoreOf(q).Keys == {1, 2};
    assert multiset([2, 1]) == multiset({1, 2});
  }

  // ---------------------------------------------------------------- as shipped

  /** Every record was written below version 5, by a client that numbers from 1. */
  ghost predicate Written(store: map<nat, bytes>) {
    forall k :: k in store ==> k > 0 && IsRecord(store[k])
  }

  ghost predicate IsRecord(r: bytes) {
    exists token: MsgId, body :: IsStored(body) && BodyFits(body) && r == Record(token, body)
  }

  /** As shipped, no record is restored: each is read as version 5 and rejected. */
  lemma {:induction false} ShippedRestoresNothing(store: map<nat, bytes>, c: nat, r: Restarted, keys: seq<nat>,
                                                  beyond: bytes, rank: Command -> int)
    requires Written(store) && forall k :: k in keys ==> k in store
    ensures RestoreAll(r, store, keys, c, SHIPPED_V5_STEM, beyond, rank) == r
    decreases |keys|
  {
    hide Decimal, Record, Restore;
    if keys != [] {
      var k := keys[0];
      assert SHIPPED_V5_STEM <= Key(k);
      var token: MsgId, body :| IsStored(body) && BodyFits(body) && store[k] == Record(token, body);
      WrongVersionRejected(token, body, beyond);
      ShippedRestoresNothing(store, c, r, keys[1..], beyond, rank);
    }
  }

  lemma QueueWritten(q: seq<Command>, n: nat, c: nat)
    requires Fits(q, n, c)
    ensures Written(StoreOf(q))
  {
    hide StoreOf, Record, BodyFits, IsStored;
    forall k | k in StoreOf(q)
      ensures k > 0 && IsRecord(StoreOf(q)[k])
    {
      var i := StoreEntry(q, n, k);
    }
  }

  /** As shipped, recovery below version 5 is right exactly when there is nothing to recover. */
  lemma ShippedRecovery(w: World, steps: seq<Step>, c: nat, others: seq<Command>, keys: seq<nat>, beyond: bytes,
                        rank: Command -> int)
    requires PahoTheory.Sound(w, []) && Kept(w) && Run5(w, steps)
    requires var v := PahoTheory.After(w, steps);
             && c in v.clients && v.clients[c].persistent
             && forall k :: k in keys ==> k in v.clients[c].store
    requires forall k :: 0 <= k < |others| ==> others[k].client != c
    ensures var v := PahoTheory.After(w, steps);
            var r := RestoreAll(Restarted(others, 0), v.clients[c].store, keys, c, SHIPPED_V5_STEM, beyond, rank);
            && r == Restarted(others, 0)
            && (Mine(r.commands, c) == Faces(StoredOf(v.commands, c)) <==> v.clients[c].store == map[])
  {
    hide Growing, RestoreAll, Key, StoredOf, Mine, Others, PahoTheory.After, PahoTheory.Sound, Run5;
    StoreIsQueue(w, steps);
    var v := PahoTheory.After(w, steps);
    var cl := v.clients[c];
    assert KeptFor(v.commands, cl, c);
    StoredFits(v.commands, c);
    var q := StoredOf(v.commands, c);
    QueueWritten(q, cl.seqno, c);
    ShippedRestoresNothing(StoreOf(q), c, Restarted(others, 0), keys, beyond, rank);
    OthersAll(others, c);
    if q == [] {
      assert StoreOf(q) == map[];
    } else {
      InStoreOf(q, cl.seqno, 0);
      assert |Faces(q)| == |q| > 0;
    }
  }
}
