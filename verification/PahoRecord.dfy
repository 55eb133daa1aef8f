/** Commands of the asynchronous client, and the record that persistCommand writes for one and
    restoreCommand reads back (MQTT versions below 5). */
module PahoRecord {
  import opened Bytes
  import opened Common

  type int32 = n: int | -0x8000_0000 <= n < 0x8000_0000

  const MAX_MSG_ID: nat := 65535

  /** A message id, or 0 for none. */
  type MsgId = n: nat | n <= MAX_MSG_ID

  datatype Topic = Topic(name: bytes, qos: int32)

  datatype Body =
    | Connect(uri: nat, version: nat)
    | Disconnect(internal: bool)
    | Publish(name: bytes, payload: bytes, qos: int32, retained: int32)
    | Subscribe(topics: seq<Topic>)
    | Unsubscribe(names: seq<bytes>)

  /** Names are C strings, and lengths are C ints. */
  predicate BodyFits(b: Body) {
    match b
    case Publish(name, payload, _, _) => 0 !in name && |payload| < 0x8000_0000
    case Subscribe(topics) => |topics| < 0x8000_0000 && forall k :: 0 <= k < |topics| ==> 0 !in topics[k].name
    case Unsubscribe(names) => |names| < 0x8000_0000 && forall k :: 0 <= k < |names| ==> 0 !in names[k]
    case _ => true
  }

  /** The commands that have a record in the store. */
  predicate IsStored(b: Body) {
    b.Publish? || b.Subscribe? || b.Unsubscribe?
  }

  /** The MQTT packet type that stands for the command. */
  function TypeCode(b: Body): int32 {
    match b
    case Connect(_, _) => 1
    case Publish(_, _, _, _) => 3
    case Subscribe(_) => 8
    case Unsubscribe(_) => 10
    case Disconnect(_) => 14
  }

  // ---------------------------------------------------------------- little-endian ints

  function Unsigned(n: int32): nat {
    if n < 0 then n + 0x1_0000_0000 else n
  }

  /** The four bytes of a C int in memory. */
  function IntBytes(n: int32): (r: bytes)
    ensures |r| == 4
  {
    var u := Unsigned(n);
    [u % 0x100, u / 0x100 % 0x100, u / 0x1_0000 % 0x100, u / 0x100_0000 % 0x100]
  }

  /** `*(int*)ptr`. */
  function IntAt(m: bytes, p: nat): int32 {
    var u: nat := At(m, p) + At(m, p + 1) * 0x100 + At(m, p + 2) * 0x1_0000 + At(m, p + 3) * 0x100_0000;
    if u >= 0x8000_0000 then u - 0x1_0000_0000 else u
  }

  /** Memory holds `x` at `p`. */
  predicate HasAt(m: bytes, p: nat, x: bytes) {
    p + |x| <= |m| && m[p..p + |x|] == x
  }

  lemma HasParts(m: bytes, p: nat, x: bytes, y: bytes)
    requires HasAt(m, p, x + y)
    ensures HasAt(m, p, x) && HasAt(m, p + |x|, y)
  {
    var z := x + y;
    assert x == z[..|x|] && y == z[|x|..];
    assert m[p..p + |z|][..|x|] == m[p..p + |x|];
    assert m[p..p + |z|][|x|..] == m[p + |x|..p + |z|];
  }

  lemma IntRead(m: bytes, p: nat, n: int32)
    requires HasAt(m, p, IntBytes(n))
    ensures IntAt(m, p) == n
  {
    var u := Unsigned(n);
    var a, b, c := u / 0x100, u / 0x1_0000, u / 0x100_0000;
    assert u == a * 0x100 + u % 0x100 && a == b * 0x100 + a % 0x100 && b == c * 0x100 + b % 0x100;
    assert c < 0x100;
    var x := m[p..p + 4];
    assert m[p] == x[0] && m[p + 1] == x[1] && m[p + 2] == x[2] && m[p + 3] == x[3];
  }

  // ---------------------------------------------------------------- C strings in memory

  /** `p + strlen(p)`: the first NUL at or behind `p`. */
  function NulAt(m: bytes, p: nat): (e: nat)
    ensures p <= e && (p <= |m| ==> e <= |m|)
    decreases if p < |m| then |m| - p else 0
  {
    if p < |m| && m[p] != 0 then NulAt(m, p + 1) else p
  }

  lemma NulAtIs(m: bytes, p: nat, s: bytes)
    requires 0 !in s && p + |s| < |m| && m[p..p + |s|] == s && m[p + |s|] == 0
    ensures NulAt(m, p) == p + |s|
    decreases |s|
  {
    if s != [] {
      assert m[p] == s[0] && m[p + 1..p + |s|] == s[1..];
      NulAtIs(m, p + 1, s[1..]);
    }
  }

  function StringAt(m: bytes, p: nat): bytes {
    if p < |m| then m[p..NulAt(m, p)] else []
  }

  function Terminated(s: bytes): bytes { s + [0] }

  lemma StringRead(m: bytes, p: nat, s: bytes)
    requires 0 !in s && HasAt(m, p, Terminated(s))
    ensures NulAt(m, p) == p + |s| && StringAt(m, p) == s
  {
    hide NulAt;
    HasParts(m, p, s, [0]);
    assert m[p + |s|..p + |s| + 1][0] == m[p + |s|];
    NulAtIs(m, p, s);
  }

  // ---------------------------------------------------------------- writing

  function TopicsBytes(topics: seq<Topic>): bytes {
    if topics == [] then []
    else TopicBytes(topics[0]) + TopicsBytes(topics[1..])
  }

  function TopicBytes(t: Topic): (r: bytes)
    ensures |r| == |t.name| + 5
  {
    Terminated(t.name) + IntBytes(t.qos)
  }

  function NamesBytes(names: seq<bytes>): bytes {
    if names == [] then [] else Terminated(names[0]) + NamesBytes(names[1..])
  }

  /** A length as a C int. */
  function AsInt(n: nat): int32 {
    (n + 0x8000_0000) % 0x1_0000_0000 - 0x8000_0000
  }

  function BodyBytes(b: Body): bytes {
    match b
    case Publish(name, payload, qos, retained) =>
      Terminated(name) + IntBytes(AsInt(|payload|)) + payload + IntBytes(qos) + IntBytes(retained)
    case Subscribe(topics) => IntBytes(AsInt(|topics|)) + TopicsBytes(topics)
    case Unsubscribe(names) => IntBytes(AsInt(|names|)) + NamesBytes(names)
    case _ => []
  }

  /** The record: the buffers of persistCommand, one after the other. */
  function Record(token: int32, b: Body): bytes {
    IntBytes(TypeCode(b)) + IntBytes(token) + BodyBytes(b)
  }

  // ---------------------------------------------------------------- reading back

  /** What restoreCommand makes of a buffer.  Reading version 5 properties is not part of the model:
      `NeedsProperties` says that it gets that far. */
  datatype Restored =
    | Rejected
    | Accepted(token: int32, body: Body)
    | NeedsProperties

  datatype Cursor<+T> = Cursor(value: T, at: nat)

  /** sizeof(MQTTSubscribe_options). */
  const OPTIONS_SIZE: nat := 12

  /** The loop over the topics of a SUBSCRIBE; with version 5, each is followed by its options. */
  function ReadTopics(m: bytes, p: nat, count: nat, v5: bool): Cursor<seq<Topic>>
    decreases count
  {
    if count == 0 then Cursor([], p)
    else
      var q := NulAt(m, p) + 1;
      var t := Topic(StringAt(m, p), if v5 then 0 else IntAt(m, q));
      var more := ReadTopics(m, if v5 then q + OPTIONS_SIZE else q + 4, count - 1, v5);
      Cursor([t] + more.value, more.at)
  }

  function ReadNames(m: bytes, p: nat, count: nat): Cursor<seq<bytes>>
    decreases count
  {
    if count == 0 then Cursor([], p)
    else
      var more := ReadNames(m, NulAt(m, p) + 1, count - 1);
      Cursor([StringAt(m, p)] + more.value, more.at)
  }

  function NotNegative(n: int): nat { if n < 0 then 0 else n }

  /** The body behind type and token, and where it ends. */
  function ReadBody(m: bytes, code: int32, v5: bool): Cursor<Option<Body>> {
    if code == 8 then
      var r := ReadTopics(m, 12, NotNegative(IntAt(m, 8)), v5);
      Cursor(Some(Subscribe(r.value)), r.at)
    else if code == 10 then
      var r := ReadNames(m, 12, NotNegative(IntAt(m, 8)));
      Cursor(Some(Unsubscribe(r.value)), r.at)
    else if code == 3 then
      var p := NulAt(m, 8) + 1;
      var q := p + 4 + NotNegative(IntAt(m, p));
      Cursor(Some(Publish(StringAt(m, 8), Slice(m, p + 4, q), IntAt(m, q), IntAt(m, q + 4))), q + 8)
    else Cursor(None, 8)
  }

  function Slice(m: bytes, from: nat, to: nat): bytes
    requires from <= to
  {
    if to <= |m| then m[from..to] else []
  }

  /** restoreCommand on the first `length` bytes of memory `m`; the rest is whatever lies behind
      the buffer, which reading with the wrong version may run into. */
  function Restore(m: bytes, length: nat, v5: bool): Restored {
    var r := ReadBody(m, IntAt(m, 0), v5);
    if r.value == None then Rejected
    else if !v5 then Accepted(IntAt(m, 4), r.value.value)
    else if length <= r.at then Rejected
    else NeedsProperties
  }

  // ---------------------------------------------------------------- the round trip

  lemma TopicRead(m: bytes, p: nat, t: Topic)
    requires 0 !in t.name && HasAt(m, p, TopicBytes(t))
    ensures NulAt(m, p) == p + |t.name| && StringAt(m, p) == t.name
    ensures IntAt(m, p + |t.name| + 1) == t.qos
  {
    hide HasAt, IntBytes, IntAt, NulAt, StringAt;
    HasParts(m, p, Terminated(t.name), IntBytes(t.qos));
    StringRead(m, p, t.name);
    IntRead(m, p + |t.name| + 1, t.qos);
  }

  lemma {:induction false} TopicsRead(m: bytes, p: nat, topics: seq<Topic>)
    requires HasAt(m, p, TopicsBytes(topics)) && forall k :: 0 <= k < |topics| ==> 0 !in topics[k].name
    ensures ReadTopics(m, p, |topics|, false) == Cursor(topics, p + |TopicsBytes(topics)|)
    decreases |topics|
  {
    hide HasAt, IntAt, NulAt, StringAt, TopicBytes;
    if topics != [] {
      HasParts(m, p, TopicBytes(topics[0]), TopicsBytes(topics[1..]));
      TopicRead(m, p, topics[0]);
      TopicsRead(m, p + |TopicBytes(topics[0])|, topics[1..]);
      assert topics == [topics[0]] + topics[1..];
    }
  }

  lemma {:induction false} NamesRead(m: bytes, p: nat, names: seq<bytes>)
    requires HasAt(m, p, NamesBytes(names)) && forall k :: 0 <= k < |names| ==> 0 !in names[k]
    ensures ReadNames(m, p, |names|) == Cursor(names, p + |NamesBytes(names)|)
    decreases |names|
  {
    hide HasAt, NulAt, StringAt;
    if names != [] {
      HasParts(m, p, Terminated(names[0]), NamesBytes(names[1..]));
      StringRead(m, p, names[0]);
      NamesRead(m, p + |Terminated(names[0])|, names[1..]);
      assert names == [names[0]] + names[1..];
    }
  }

  /** Type, token and body, each in its place. */
  lemma HeaderRead(m: bytes, token: int32, b: Body)
    requires IsStored(b) && BodyFits(b) && HasAt(m, 0, Record(token, b))
    ensures IntAt(m, 0) == TypeCode(b) && IntAt(m, 4) == token && HasAt(m, 8, BodyBytes(b))
    ensures |Record(token, b)| == 8 + |BodyBytes(b)|
  {
    hide HasAt, IntBytes, IntAt, BodyBytes;
    HasParts(m, 0, IntBytes(TypeCode(b)) + IntBytes(token), BodyBytes(b));
    HasParts(m, 0, IntBytes(TypeCode(b)), IntBytes(token));
    IntRead(m, 0, TypeCode(b));
    IntRead(m, 4, token);
  }

  lemma PublishRead(m: bytes, b: Body)
    requires b.Publish? && BodyFits(b) && HasAt(m, 8, BodyBytes(b))
    ensures ReadBody(m, 3, false) == Cursor(Some(b), 8 + |BodyBytes(b)|)
    ensures ReadBody(m, 3, true).at == 8 + |BodyBytes(b)|
  {
    hide IntBytes, IntAt, NulAt, StringAt;
    var name, n := Terminated(b.name), IntBytes(|b.payload|);
    var qos, retained := IntBytes(b.qos), IntBytes(b.retained);
    HasParts(m, 8, name + n + b.payload + qos, retained);
    HasParts(m, 8, name + n + b.payload, qos);
    HasParts(m, 8, name + n, b.payload);
    HasParts(m, 8, name, n);
    StringRead(m, 8, b.name);
    IntRead(m, 8 + |name|, |b.payload|);
    var q := 8 + |name + n + b.payload|;
    IntRead(m, q, b.qos);
    IntRead(m, q + 4, b.retained);
    assert Slice(m, 8 + |name + n|, q) == b.payload;
  }

  /** restoreCommand undoes persistCommand: field for field, whatever lies behind the buffer. */
  lemma RecordRoundTrip(token: int32, b: Body, beyond: bytes)
    requires IsStored(b) && BodyFits(b)
    ensures Restore(Record(token, b) + beyond, |Record(token, b)|, false) == Accepted(token, b)
  {
    hide IntBytes, IntAt, Record, NulAt;
    var m := Record(token, b) + beyond;
    assert HasAt(m, 0, Record(token, b));
    HeaderRead(m, token, b);
    match b
    case Publish(_, _, _, _) => PublishRead(m, b);
    case Subscribe(topics) =>
      HasParts(m, 8, IntBytes(|topics|), TopicsBytes(topics));
      IntRead(m, 8, |topics|);
      TopicsRead(m, 12, topics);
    case Unsubscribe(names) =>
      HasParts(m, 8, IntBytes(|names|), NamesBytes(names));
      IntRead(m, 8, |names|);
      NamesRead(m, 12, names);
  }

  // ---------------------------------------------------------------- reading with the wrong version

  /** Once the cursor is eight bytes ahead, reading topics with options keeps it that far ahead:
      a misread name ends no earlier than the real one. */
  lemma {:induction false} TopicsOverrun(m: bytes, at: nat, topics: seq<Topic>, p: nat)
    requires HasAt(m, at, TopicsBytes(topics)) && forall k :: 0 <= k < |topics| ==> 0 !in topics[k].name
    requires p >= at + 8 || (p == at && topics != [])
    ensures ReadTopics(m, p, |topics|, true).at >= at + |TopicsBytes(topics)| + 8
    decreases |topics|
  {
    hide HasAt, IntAt, NulAt, StringAt, TopicBytes;
    if topics != [] {
      var t := topics[0];
      HasParts(m, at, TopicBytes(t), TopicsBytes(topics[1..]));
      TopicRead(m, at, t);
      if p <= at + |t.name| {
        NulMonotone(m, at, p);
      }
      TopicsOverrun(m, at + |TopicBytes(t)|, topics[1..], NulAt(m, p) + 1 + OPTIONS_SIZE);
    }
  }

  lemma NulMonotone(m: bytes, p: nat, q: nat)
    requires p <= q <= NulAt(m, p)
    ensures NulAt(m, q) == NulAt(m, p)
    decreases q - p
  {
    if p < q {
      NulMonotone(m, p + 1, q);
    }
  }

  /** A record written below version 5 and read as version 5 is rejected, whatever it holds:
      nothing is left for the properties that version 5 expects at its end. */
  lemma WrongVersionRejected(token: int32, b: Body, beyond: bytes)
    requires IsStored(b) && BodyFits(b)
    ensures Restore(Record(token, b) + beyond, |Record(token, b)|, true) == Rejected
  {
    hide IntBytes, IntAt, NulAt, Record;
    var m := Record(token, b) + beyond;
    assert HasAt(m, 0, Record(token, b));
    HeaderRead(m, token, b);
    match b
    case Publish(_, _, _, _) => PublishRead(m, b);
    case Subscribe(topics) =>
      HasParts(m, 8, IntBytes(|topics|), TopicsBytes(topics));
      IntRead(m, 8, |topics|);
      if topics != [] {
        TopicsOverrun(m, 12, topics, 12);
      }
    case Unsubscribe(names) =>
      HasParts(m, 8, IntBytes(|names|), NamesBytes(names));
      IntRead(m, 8, |names|);
      NamesRead(m, 12, names);
  }

  // ---------------------------------------------------------------- the record, by position

  /** A 32-bit integer in little-endian order, its sign in the highest bit. */
  predicate Little(m: bytes, p: nat, n: int) {
    && p + 4 <= |m| && -2147483648 <= n < 2147483648
    && n + (if n < 0 then 4294967296 else 0) == Weighed(m[p], m[p + 1], m[p + 2], m[p + 3])
  }

  function Weighed(a: int, b: int, c: int, d: int): int {
    a + 256 * b + 65536 * c + 16777216 * d
  }

  lemma Digits(u: nat)
    requires u < 4294967296
    ensures u == Weighed(u % 256, u / 256 % 256, u / 65536 % 256, u / 16777216 % 256)
  {
    var a, b, c := u / 256, u / 65536, u / 16777216;
    assert u == a * 256 + u % 256;
    assert b == a / 256 && a == b * 256 + a % 256;
    assert c == b / 256 && b == c * 256 + b % 256;
    assert c < 256;
  }

  lemma IntIs(n: int32)
    ensures Little(IntBytes(n), 0, n)
  {
    hide Weighed;
    Digits(Unsigned(n));
  }

  lemma LittleAt(m: bytes, p: nat, n: int32)
    requires HasAt(m, p, IntBytes(n))
    ensures Little(m, p, n)
  {
    IntIs(n);
    var x := m[p..p + 4];
    assert m[p] == x[0] && m[p + 1] == x[1] && m[p + 2] == x[2] && m[p + 3] == x[3];
  }

  lemma StringStands(m: bytes, p: nat, s: bytes)
    requires HasAt(m, p, Terminated(s))
    ensures HasAt(m, p, s) && p + |s| < |m| && m[p + |s|] == 0
  {
    HasParts(m, p, s, [0]);
    assert m[p + |s|..p + |s| + 1][0] == m[p + |s|];
  }

  /** The record of a PUBLISH: 3, the token, the destination with a NUL, the length of the payload, the payload,
      the QoS and the retained flag. */
  lemma PublishRecordIs(token: int32, b: Body)
    requires b.Publish? && BodyFits(b)
    ensures var r, n := Record(token, b), |b.name|;
            && |r| == n + |b.payload| + 21
            && Little(r, 0, 3) && Little(r, 4, token)
            && HasAt(r, 8, b.name) && r[8 + n] == 0
            && Little(r, 9 + n, |b.payload|) && HasAt(r, 13 + n, b.payload)
            && Little(r, 13 + n + |b.payload|, b.qos) && Little(r, 17 + n + |b.payload|, b.retained)
  {
    hide IntBytes, Little, HasAt;
    var m := Record(token, b);
    assert m[0..|m|] == m;
    RecordThere(token, b);
    var name, n := Terminated(b.name), IntBytes(|b.payload|);
    var qos, retained := IntBytes(b.qos), IntBytes(b.retained);
    HasParts(m, 0, IntBytes(3) + IntBytes(token), BodyBytes(b));
    HasParts(m, 0, IntBytes(3), IntBytes(token));
    HasParts(m, 8, name + n + b.payload + qos, retained);
    HasParts(m, 8, name + n + b.payload, qos);
    HasParts(m, 8, name + n, b.payload);
    HasParts(m, 8, name, n);
    StringStands(m, 8, b.name);
    LittleAt(m, 0, 3);
    LittleAt(m, 4, token);
    LittleAt(m, 9 + |b.name|, |b.payload|);
    LittleAt(m, 13 + |b.name| + |b.payload|, b.qos);
    LittleAt(m, 17 + |b.name| + |b.payload|, b.retained);
  }

  lemma RecordThere(token: int32, b: Body)
    ensures HasAt(Record(token, b), 0, Record(token, b))
  {
    var m := Record(token, b);
    assert m[0..|m|] == m;
  }

  /** Where the k-th topic of a SUBSCRIBE stands: behind the names, their NULs and the QoS of those before. */
  function TopicPlace(topics: seq<Topic>, k: nat): nat
    requires k <= |topics|
  {
    if k == 0 then 12 else TopicPlace(topics, k - 1) + |topics[k - 1].name| + 1 + 4
  }

  function NamePlace(names: seq<bytes>, k: nat): nat
    requires k <= |names|
  {
    if k == 0 then 12 else NamePlace(names, k - 1) + |names[k - 1]| + 1
  }

  lemma {:induction false} TopicsFrom(m: bytes, topics: seq<Topic>, k: nat)
    requires k <= |topics| && HasAt(m, 12, TopicsBytes(topics))
    ensures HasAt(m, TopicPlace(topics, k), TopicsBytes(topics[k..]))
    decreases k
  {
    hide HasAt, TopicBytes;
    if k == 0 {
      assert topics[0..] == topics;
    } else {
      TopicsFrom(m, topics, k - 1);
      var rest := topics[k - 1..];
      assert rest[0] == topics[k - 1] && rest[1..] == topics[k..];
      HasParts(m, TopicPlace(topics, k - 1), TopicBytes(rest[0]), TopicsBytes(rest[1..]));
    }
  }

  lemma {:induction false} NamesFrom(m: bytes, names: seq<bytes>, k: nat)
    requires k <= |names| && HasAt(m, 12, NamesBytes(names))
    ensures HasAt(m, NamePlace(names, k), NamesBytes(names[k..]))
    decreases k
  {
    hide HasAt;
    if k == 0 {
      assert names[0..] == names;
    } else {
      NamesFrom(m, names, k - 1);
      var rest := names[k - 1..];
      assert rest[0] == names[k - 1] && rest[1..] == names[k..];
      HasParts(m, NamePlace(names, k - 1), Terminated(rest[0]), NamesBytes(rest[1..]));
    }
  }

  /** The record of a SUBSCRIBE: 8, the token, the number of topics, and each of them with a NUL and its QoS. */
  lemma SubscribeRecordIs(token: int32, b: Body, k: nat)
    requires b.Subscribe? && BodyFits(b) && k < |b.topics|
    ensures var r, p, t := Record(token, b), TopicPlace(b.topics, k), b.topics[k];
            && Little(r, 0, 8) && Little(r, 4, token) && Little(r, 8, |b.topics|)
            && HasAt(r, p, t.name) && p + |t.name| < |r| && r[p + |t.name|] == 0 && Little(r, p + |t.name| + 1, t.qos)
  {
    hide IntBytes, Little, HasAt, TopicPlace;
    var m := Record(token, b);
    RecordThere(token, b);
    HasParts(m, 0, IntBytes(8) + IntBytes(token), BodyBytes(b));
    HasParts(m, 0, IntBytes(8), IntBytes(token));
    HasParts(m, 8, IntBytes(|b.topics|), TopicsBytes(b.topics));
    LittleAt(m, 0, 8);
    LittleAt(m, 4, token);
    LittleAt(m, 8, |b.topics|);
    TopicsFrom(m, b.topics, k);
    var p, rest := TopicPlace(b.topics, k), b.topics[k..];
    HasParts(m, p, TopicBytes(rest[0]), TopicsBytes(rest[1..]));
    HasParts(m, p, Terminated(b.topics[k].name), IntBytes(b.topics[k].qos));
    StringStands(m, p, b.topics[k].name);
    LittleAt(m, p + |b.topics[k].name| + 1, b.topics[k].qos);
  }

  /** The record of an UNSUBSCRIBE: 10, the token, the number of topics, and each of them with a NUL. */
  lemma UnsubscribeRecordIs(token: int32, b: Body, k: nat)
    requires b.Unsubscribe? && BodyFits(b) && k < |b.names|
    ensures var r, p, name := Record(token, b), NamePlace(b.names, k), b.names[k];
            && Little(r, 0, 10) && Little(r, 4, token) && Little(r, 8, |b.names|)
            && HasAt(r, p, name) && p + |name| < |r| && r[p + |name|] == 0
  {
    hide IntBytes, Little, HasAt, NamePlace;
    var m := Record(token, b);
    RecordThere(token, b);
    HasParts(m, 0, IntBytes(10) + IntBytes(token), BodyBytes(b));
    HasParts(m, 0, IntBytes(10), IntBytes(token));
    HasParts(m, 8, IntBytes(|b.names|), NamesBytes(b.names));
    LittleAt(m, 0, 10);
    LittleAt(m, 4, token);
    LittleAt(m, 8, |b.names|);
    NamesFrom(m, b.names, k);
    var p, rest := NamePlace(b.names, k), b.names[k..];
    HasParts(m, p, Terminated(rest[0]), NamesBytes(rest[1..]));
    StringStands(m, p, b.names[k]);
  }
}
