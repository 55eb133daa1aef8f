/** MQTT packet framing below version 5 (MQTT 3.1.1, sections 2.2.3 and 3.3): the remaining length,
    integers and strings, and the PUBLISH packet. */
module MqttPacket {
  import opened Bytes

  // ---------------------------------------------------------------- the remaining length

  /** MQTTPacket_encode: seven bits a byte, the lowest first, the top bit set on all but the last. */
  function LengthBytes(n: nat): (r: bytes)
    ensures |r| > 0
  {
    if n < 128 then [n] else [n % 128 + 128] + LengthBytes(n / 128)
  }

  const MAX_LENGTH_BYTES: nat := 4

  datatype Decoded = Bad | Length(value: nat, used: nat)

  /** `*value += (c & 127) * multiplier`. */
  function Added(value: nat, c: byte, multiplier: nat): nat {
    value + c % 128 * multiplier
  }

  /** MQTTPacket_decode from the i-th byte on; what has been read so far is worth `value`. */
  function ReadLength(t: bytes, i: nat, multiplier: nat, value: nat): Decoded
    decreases MAX_LENGTH_BYTES + 1 - i
  {
    if i >= MAX_LENGTH_BYTES || i >= |t| then Bad
    else
      var v := Added(value, t[i], multiplier);
      if t[i] < 128 then Length(v, i + 1) else ReadLength(t, i + 1, multiplier * 128, v)
  }

  /** MQTTPacket_VBIlen. */
  function LengthSize(n: nat): nat {
    if n < 128 then 1 else if n < 16384 then 2 else if n < 2097152 then 3 else 4
  }

  /** The size is that of the encoding exactly for the values that four bytes can hold. */
  lemma LengthSizeIs(n: nat)
    ensures LengthSize(n) == |LengthBytes(n)| <==> n < 0x1000_0000
    ensures |LengthBytes(n)| <= MAX_LENGTH_BYTES <==> n < 0x1000_0000
  {
    var a := n / 128;
    var b := a / 128;
    var c := b / 128;
    assert n >= 128 ==> |LengthBytes(n)| == 1 + |LengthBytes(a)|;
    assert a >= 128 ==> |LengthBytes(a)| == 1 + |LengthBytes(b)|;
    assert b >= 128 ==> |LengthBytes(b)| == 1 + |LengthBytes(c)|;
    assert c >= 128 ==> |LengthBytes(c)| == 1 + |LengthBytes(c / 128)|;
  }

  lemma {:induction false} ReadLengthOf(n: nat, t: bytes, i: nat, multiplier: nat, value: nat)
    requires i + |LengthBytes(n)| <= |t| && t[i..i + |LengthBytes(n)|] == LengthBytes(n)
    ensures ReadLength(t, i, multiplier, value) ==
            if i + |LengthBytes(n)| <= MAX_LENGTH_BYTES
            then Length(value + n * multiplier, i + |LengthBytes(n)|) else Bad
    decreases n
  {
    var w := t[i..i + |LengthBytes(n)|];
    assert w[0] == t[i];
    if n < 128 {
      assert Added(value, t[i], multiplier) == value + n * multiplier;
    } else {
      var q, r := n / 128, n % 128;
      assert w[1..] == LengthBytes(q) && w[1..] == t[i + 1..i + 1 + |LengthBytes(q)|];
      if i < MAX_LENGTH_BYTES {
        var v := Added(value, t[i], multiplier);
        assert v == value + r * multiplier;
        ReadLengthOf(q, t, i + 1, multiplier * 128, v);
        Digits(n, q, r, multiplier);
      }
    }
  }

  lemma Digits(n: nat, q: nat, r: nat, m: nat)
    requires n == q * 128 + r
    ensures r * m + q * (m * 128) == n * m
  {
    assert q * (m * 128) == (q * 128) * m;
    assert (q * 128 + r) * m == (q * 128) * m + r * m;
  }

  /** Reading back a remaining length, whatever follows it: it succeeds, and then gives the length,
      exactly for lengths below 2^28. */
  lemma LengthRoundTrip(n: nat, rest: bytes)
    ensures ReadLength(LengthBytes(n) + rest, 0, 1, 0) ==
            if n < 0x1000_0000 then Length(n, |LengthBytes(n)|) else Bad
  {
    var t := LengthBytes(n) + rest;
    assert t[0..0 + |LengthBytes(n)|] == LengthBytes(n);
    ReadLengthOf(n, t, 0, 1, 0);
    LengthSizeIs(n);
  }

  /** The loop of MQTTPacket_encode. */
  method EncodeLength(buf: array<byte>, start: nat, length: nat) returns (rc: nat)
    requires start + |LengthBytes(length)| <= buf.Length
    modifies buf
    ensures rc == |LengthBytes(length)| && buf[start..start + rc] == LengthBytes(length)
    ensures forall k :: 0 <= k < start ==> buf[k] == old(buf[k])
  {
    rc := 0;
    var left := length;
    ghost var goal := LengthBytes(length);
    assert goal[0..] == goal;
    while left >= 128
      invariant 0 <= rc < |goal| && goal[rc..] == LengthBytes(left)
      invariant forall k :: start <= k < start + rc ==> buf[k] == goal[k - start]
      invariant forall k :: 0 <= k < start ==> buf[k] == old(buf[k])
      decreases left
    {
      assert goal[rc..][0] == left % 128 + 128 && goal[rc..][1..] == goal[rc + 1..];
      buf[start + rc] := left % 128 + 128;
      left := left / 128;
      rc := rc + 1;
    }
    assert goal[rc..][0] == left;
    buf[start + rc] := left;
    rc := rc + 1;
  }

  /** The loop of MQTTPacket_decode. */
  method DecodeLength(t: bytes) returns (r: Decoded)
    ensures r == ReadLength(t, 0, 1, 0)
  {
    hide Added;
    var multiplier: nat, value: nat, i: nat := 1, 0, 0;
    while true
      invariant i <= MAX_LENGTH_BYTES
      invariant ReadLength(t, i, multiplier, value) == ReadLength(t, 0, 1, 0)
      decreases MAX_LENGTH_BYTES - i
    {
      if i >= MAX_LENGTH_BYTES || i >= |t| {
        return Bad;
      }
      var c := t[i];
      i := i + 1;
      value := Added(value, c, multiplier);
      multiplier := multiplier * 128;
      if c < 128 {
        return Length(value, i);
      }
    }
  }

  // ---------------------------------------------------------------- integers and strings

  /** writeInt: two bytes; what does not fit into them is cut off. */
  function IntBytes(n: nat): (r: bytes)
    ensures |r| == 2
  {
    [n / 256 % 256, n % 256]
  }

  /** readInt. */
  function ReadInt(t: bytes, p: nat): nat {
    256 * At(t, p) + At(t, p + 1)
  }

  lemma IntRoundTrip(n: nat, t: bytes, p: nat)
    requires p + 2 <= |t| && t[p..p + 2] == IntBytes(n)
    ensures ReadInt(t, p) == n % 65536
  {
    assert t[p..p + 2][0] == t[p] && t[p..p + 2][1] == t[p + 1];
    var a := n / 256;
    assert n == a * 256 + n % 256 && a == a / 256 * 256 + a % 256;
    assert n == a / 256 * 65536 + (a % 256 * 256 + n % 256);
  }

  /** writeUTF. */
  function StringBytes(s: bytes): bytes {
    IntBytes(|s|) + s
  }

  datatype ReadText = NoText | Text(text: bytes, at: nat)

  /** readUTFlen. */
  function ReadString(t: bytes, p: nat): ReadText {
    if |t| < p + 2 then NoText
    else
      var len := ReadInt(t, p);
      if p + 2 + len > |t| then NoText else Text(t[p + 2..p + 2 + len], p + 2 + len)
  }

  /** A string comes back exactly if its length fits into two bytes. */
  lemma StringRoundTrip(s: bytes, rest: bytes)
    ensures ReadString(StringBytes(s) + rest, 0) == Text(s, 2 + |s|) <==> |s| < 65536
  {
    var t := StringBytes(s) + rest;
    assert t[0..2] == IntBytes(|s|);
    IntRoundTrip(|s|, t, 0);
    if |s| < 65536 {
      assert t[2..2 + |s|] == s;
    }
  }

  // ---------------------------------------------------------------- PUBLISH

  const PUBLISH: nat := 3

  datatype Publish = Publish(dup: bool, qos: nat, retain: bool, topic: bytes, msgId: nat, payload: bytes)

  function Bit(b: bool): nat { if b then 1 else 0 }

  /** The bit fields of the header byte. */
  function HeaderByte(kind: nat, dup: bool, qos: nat, retain: bool): byte {
    kind % 16 * 16 + Bit(dup) * 8 + qos % 4 * 2 + Bit(retain)
  }

  function KindOf(h: byte): nat { h / 16 }
  function DupOf(h: byte): bool { h / 8 % 2 == 1 }
  function QosOf(h: byte): nat { h / 2 % 4 }
  function RetainOf(h: byte): bool { h % 2 == 1 }

  lemma HeaderRoundTrip(kind: nat, dup: bool, qos: nat, retain: bool)
    requires kind < 16 && qos < 4
    ensures var h := HeaderByte(kind, dup, qos, retain);
            KindOf(h) == kind && DupOf(h) == dup && QosOf(h) == qos && RetainOf(h) == retain
  {
  }

  /** MQTTPacket_send_publish: the buffers behind the fixed header. */
  function PublishBody(p: Publish): bytes {
    StringBytes(p.topic) + (if p.qos > 0 then IntBytes(p.msgId) else []) + p.payload
  }

  /** What goes out on the wire. */
  function PublishFrame(p: Publish): bytes {
    [HeaderByte(PUBLISH, p.dup, p.qos, p.retain)] + LengthBytes(|PublishBody(p)|) + PublishBody(p)
  }

  /** `Other` is a packet of another type that a client takes, `Refused` one of a type that it does not. */
  datatype Received =
    | Incomplete
    | BadPacket
    | Packet(publish: Publish, payloadLength: int, rest: bytes)
    | Other(kind: nat, body: bytes, rest: bytes)
    | Refused(kind: nat, rest: bytes)

  /** MQTTPacket_publish: the payload is what is left; its length is computed, not checked. */
  function ReadPublish(h: byte, d: bytes, rest: bytes): Received {
    match ReadString(d, 0)
    case NoText => BadPacket
    case Text(topic, at) =>
      var qos := QosOf(h);
      var id := if qos > 0 then ReadInt(d, at) else 0;
      var start := if qos > 0 then at + 2 else at;
      Packet(Publish(DupOf(h), qos, RetainOf(h), topic, id, Drop(d, start)), |d| - start, rest)
  }

  /** The entries of new_packets that are not NULL and are not above PINGRESP, for versions below 5. */
  predicate HasReader(kind: nat) {
    kind == 2 || PUBLISH <= kind <= 7 || kind == 9 || 11 <= kind <= 13
  }

  /** MQTTPacket_Factory: header byte, remaining length, body; the type says who reads the body. */
  function ReadFrame(t: bytes): Received {
    if t == [] then Incomplete
    else
      match ReadLength(t[1..], 0, 1, 0)
      case Bad => Incomplete
      case Length(n, used) =>
        if |t| < 1 + used + n then Incomplete
        else
          var body, rest := t[1 + used..1 + used + n], t[1 + used + n..];
          if !HasReader(KindOf(t[0])) then Refused(KindOf(t[0]), rest)
          else if KindOf(t[0]) == PUBLISH then ReadPublish(t[0], body, rest)
          else Other(KindOf(t[0]), body, rest)
  }

  lemma BodyRoundTrip(p: Publish, h: byte, rest: bytes)
    requires |p.topic| < 65536 && p.msgId < 65536 && p.qos < 4
    requires QosOf(h) == p.qos && DupOf(h) == p.dup && RetainOf(h) == p.retain
    ensures ReadPublish(h, PublishBody(p), rest) ==
            Packet(p.(msgId := if p.qos > 0 then p.msgId else 0), |p.payload|, rest)
  {
    hide QosOf, DupOf, RetainOf, IntBytes, ReadString;
    var d := PublishBody(p);
    var id := if p.qos > 0 then IntBytes(p.msgId) else [];
    assert d == StringBytes(p.topic) + (id + p.payload);
    StringRoundTrip(p.topic, id + p.payload);
    var at := 2 + |p.topic|;
    assert |StringBytes(p.topic)| == at;
    if p.qos > 0 {
      assert d[at..at + 2] == id;
      IntRoundTrip(p.msgId, d, at);
    }
    assert d[at + |id|..] == p.payload;
  }

  /** Whatever follows it on the wire, a PUBLISH frame is read back as what was sent: topic, flags, id
      (none for QoS 0) and payload. */
  lemma FrameRoundTrip(p: Publish, rest: bytes)
    requires |p.topic| < 65536 && p.msgId < 65536 && p.qos < 4 && |PublishBody(p)| < 0x1000_0000
    ensures ReadFrame(PublishFrame(p) + rest) ==
            Packet(p.(msgId := if p.qos > 0 then p.msgId else 0), |p.payload|, rest)
  {
    hide LengthBytes, ReadLength, PublishBody, ReadPublish, HeaderByte;
    var h := HeaderByte(PUBLISH, p.dup, p.qos, p.retain);
    var body := PublishBody(p);
    var len := LengthBytes(|body|);
    var t := PublishFrame(p) + rest;
    assert t[0] == h && t[1..] == len + (body + rest);
    LengthRoundTrip(|body|, body + rest);
    assert t[1 + |len|..1 + |len| + |body|] == body && t[1 + |len| + |body|..] == rest;
    HeaderRoundTrip(PUBLISH, p.dup, p.qos, p.retain);
    BodyRoundTrip(p, h, rest);
  }

  // ---------------------------------------------------------------- the bytes on the wire

  function Low(n: nat): byte { 128 + n % 128 }
  function High(n: nat): nat { n / 128 }

  lemma NextByte(n: nat)
    ensures n < 128 ==> LengthBytes(n) == [n]
    ensures n >= 128 ==> LengthBytes(n) == [Low(n)] + LengthBytes(High(n))
  {
  }

  lemma Quotients(n: nat)
    ensures High(n) == n / 128 && High(High(n)) == n / 16_384 && High(High(High(n))) == n / 2_097_152
    ensures n < 128 <==> n <= 127
    ensures High(n) < 128 <==> n <= 16_383
    ensures High(High(n)) < 128 <==> n <= 2_097_151
    ensures High(High(High(n))) < 128 <==> n < 0x1000_0000
  {
  }

  lemma Lows(n: nat)
    ensures Low(n) == 128 + n % 128 && Low(High(n)) == 128 + n / 128 % 128
    ensures Low(High(High(n))) == 128 + n / 16_384 % 128
  {
    assert High(High(n)) == n / 16_384;
  }

  /** The remaining length, byte by byte, in the ranges of MQTT 3.1.1, section 2.2.3. */
  lemma LengthBytesAre(n: nat)
    requires n < 0x1000_0000
    ensures n <= 127 ==> LengthBytes(n) == [n]
    ensures 128 <= n <= 16_383 ==> LengthBytes(n) == [128 + n % 128, n / 128]
    ensures 16_384 <= n <= 2_097_151 ==> LengthBytes(n) == [128 + n % 128, 128 + n / 128 % 128, n / 16_384]
    ensures 2_097_152 <= n ==>
              LengthBytes(n) == [128 + n % 128, 128 + n / 128 % 128, 128 + n / 16_384 % 128, n / 2_097_152]
  {
    hide LengthBytes, Low, High;
    Quotients(n);
    Lows(n);
    NextByte(n);
    if n >= 128 {
      NextByte(High(n));
      if High(n) >= 128 {
        NextByte(High(High(n)));
        if High(High(n)) >= 128 {
          NextByte(High(High(High(n))));
        }
      }
    }
  }

  /** How many bytes stand before the body of a packet. */
  function HeaderSize(n: nat): nat {
    if n <= 127 then 2 else if n <= 16_383 then 3 else if n <= 2_097_151 then 4 else 5
  }

  /** A PUBLISH on the wire (MQTT 3.1.1, section 3.3): type 3 and the flags, the remaining length, the body. */
  lemma FrameIs(p: Publish)
    requires p.qos < 4 && 4 + |p.topic| + |p.payload| < 0x1000_0000
    ensures var f, n := PublishFrame(p), |PublishBody(p)|;
            var m := HeaderSize(n);
            && n == 2 + |p.topic| + (if p.qos > 0 then 2 else 0) + |p.payload|
            && f[0] == 48 + (if p.dup then 8 else 0) + 2 * p.qos + (if p.retain then 1 else 0)
            && |f| == m + n && f[1..m] == LengthBytes(n) && f[m..] == PublishBody(p)
  {
    hide LengthBytes, IntBytes, HeaderByte;
    var body := PublishBody(p);
    LengthSizes(|body|);
    HeaderByteIs(p.dup, p.qos, p.retain);
    HeadThenBody(HeaderByte(PUBLISH, p.dup, p.qos, p.retain), LengthBytes(|body|), body);
  }

  /** Its body, byte by byte: the topic behind its length, the packet identifier for QoS 1 and 2, the payload. */
  lemma BodyIs(p: Publish)
    requires |p.topic| < 65536 && p.msgId < 65536
    ensures var b, at := PublishBody(p), 2 + |p.topic|;
            && |b| >= at && b[0] == |p.topic| / 256 && b[1] == |p.topic| % 256 && b[2..at] == p.topic
            && (p.qos == 0 ==> b[at..] == p.payload)
            && (p.qos > 0 ==>
                  |b| >= at + 2 && b[at] == p.msgId / 256 && b[at + 1] == p.msgId % 256 && b[at + 2..] == p.payload)
  {
    hide IntBytes;
    IntBytesAre(|p.topic|);
    IntBytesAre(p.msgId);
    BodyParts(IntBytes(|p.topic|), p.topic, if p.qos > 0 then IntBytes(p.msgId) else [], p.payload);
  }

  lemma LengthSizes(n: nat)
    requires n < 0x1000_0000
    ensures |LengthBytes(n)| + 1 == HeaderSize(n)
  {
    hide LengthBytes;
    LengthBytesAre(n);
  }

  lemma HeadThenBody(h: byte, length: bytes, body: bytes)
    ensures var f, m := [h] + length + body, 1 + |length|;
            f[0] == h && f[1..m] == length && |f| == m + |body| && f[m..] == body
  {
  }

  lemma BodyParts(size: bytes, topic: bytes, id: bytes, payload: bytes)
    requires |size| == 2
    ensures var body := size + topic + id + payload;
            && body[0] == size[0] && body[1] == size[1] && body[2..2 + |topic|] == topic
            && (|id| == 2 ==> body[2 + |topic|] == id[0] && body[3 + |topic|] == id[1])
            && body[2 + |topic| + |id|..] == payload
  {
  }

  lemma IntBytesAre(n: nat)
    requires n < 65536
    ensures IntBytes(n)[0] == n / 256 && IntBytes(n)[1] == n % 256
  {
  }

  lemma HeaderByteIs(dup: bool, qos: nat, retain: bool)
    requires qos < 4
    ensures HeaderByte(PUBLISH, dup, qos, retain) == 48 + (if dup then 8 else 0) + 2 * qos + if retain then 1 else 0
  {
  }

  /** Who reads a complete packet depends on its first byte alone: 48 to 63 is a PUBLISH, and the types that
      no client is sent are refused. */
  lemma TypeDecides(t: bytes)
    ensures var r := ReadFrame(t);
            && (r.Packet? || r.BadPacket? ==> |t| > 0 && 48 <= t[0] < 64)
            && (r.Other? ==> |t| > 0 && r.kind == t[0] / 16 && r.kind in {2, 4, 5, 6, 7, 9, 11, 12, 13})
            && (r.Refused? ==> |t| > 0 && r.kind == t[0] / 16 && r.kind in {0, 1, 8, 10, 14, 15})
  {
    hide ReadLength;
    if t != [] {
      match ReadLength(t[1..], 0, 1, 0)
      case Bad =>
      case Length(n, used) =>
        if |t| >= 1 + used + n {
          PublishAnswers(t[0], t[1 + used..1 + used + n], t[1 + used + n..]);
        }
    }
  }

  lemma PublishAnswers(h: byte, d: bytes, rest: bytes)
    ensures ReadPublish(h, d, rest).Packet? || ReadPublish(h, d, rest).BadPacket?
  {
  }

  function Word(high: byte, low: byte): nat {
    256 * high + low
  }

  /** What is read of the body of a PUBLISH, by position. */
  lemma PublishIs(h: byte, d: bytes, rest: bytes)
    requires |d| >= 2 && Word(d[0], d[1]) + 4 <= |d|
    ensures var n := Word(d[0], d[1]);
            ReadPublish(h, d, rest) ==
            if h / 2 % 4 == 0 then
              Packet(Publish(h / 8 % 2 == 1, 0, h % 2 == 1, d[2..2 + n], 0, d[2 + n..]), |d| - 2 - n, rest)
            else
              Packet(Publish(h / 8 % 2 == 1, h / 2 % 4, h % 2 == 1, d[2..2 + n], Word(d[2 + n], d[3 + n]), d[4 + n..]),
                     |d| - 4 - n, rest)
  {
  }
}
