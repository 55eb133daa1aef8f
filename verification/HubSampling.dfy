/** Grouping and sampling of packets by object: clusterDataProcessor.cpp, clusterDataGroup.cpp and
    the times of clusterRawPkt.h. */
module HubSampling {
  import opened Bytes
  import opened Common

  // ---------------------------------------------------------------- times

  /** ClusterPktTime: seconds and milliseconds. */
  datatype Time = Time(seconds: int, mseconds: nat)

  predicate Normal(t: Time) { t.mseconds < 1000 }

  function Ms(t: Time): int { t.seconds * 1000 + t.mseconds }

  /** operator+=: one second is carried over. */
  function Plus(a: Time, b: Time): Time {
    var s, m := a.seconds + b.seconds, a.mseconds + b.mseconds;
    if m >= 1000 then Time(s + 1, m - 1000) else Time(s, m)
  }

  /** operator>. */
  predicate Later(a: Time, b: Time) {
    a.seconds > b.seconds || (a.seconds == b.seconds && a.mseconds > b.mseconds)
  }

  /** On normalised times, adding and comparing are adding and comparing milliseconds. */
  lemma TimesAreNumbers(a: Time, b: Time)
    requires Normal(a) && Normal(b)
    ensures Normal(Plus(a, b)) && Ms(Plus(a, b)) == Ms(a) + Ms(b)
    ensures Later(a, b) <==> Ms(a) > Ms(b)
  {
  }

  /** Without normalising, comparing is not: 1.0 s counts as later than 0 s and 1500 ms. */
  lemma NotNumbers()
    ensures Later(Time(1, 0), Time(0, 1500)) && Ms(Time(1, 0)) < Ms(Time(0, 1500))
  {
  }

  // ---------------------------------------------------------------- one group

  datatype Item = Item(id: nat, time: Time, data: bytes)

  /** How an object's packets are grouped: its type's interval, and every how-many-th is stored. */
  datatype Rule = Rule(interval: Time, storeEvery: nat)

  /** ClusterDataGroup.  Until the first item, `expiry` holds the interval. */
  datatype Group = Group(items: seq<Item>, expiry: Time, storeEvery: nat, skipLeft: nat)

  function Create(r: Rule): Group {
    Group([], r.interval, r.storeEvery, 0)
  }

  /** unsigned arithmetic: 0 - 1 is the largest value. */
  function PredUnsigned(n: nat): nat {
    if n == 0 then 0xFFFF_FFFF else n - 1
  }

  /** pushBack. */
  function Pushed(g: Group, x: Item): Group {
    var g' := if g.items == [] then g.(expiry := Plus(g.expiry, x.time)) else g;
    if g'.skipLeft == 0 then g'.(items := g'.items + [x], skipLeft := PredUnsigned(g'.storeEvery))
    else g'.(skipLeft := g'.skipLeft - 1)
  }

  /** isTimeToSendGroup. */
  predicate Due(g: Group, t: Time) {
    g.items != [] && Later(t, g.expiry)
  }

  /** Every how-many-th packet is stored: 0 wraps to the largest period. */
  function Period(storeEvery: nat): (k: nat)
    ensures k > 0
  {
    if storeEvery == 0 then 0x1_0000_0000 else storeEvery
  }

  /** The packets at positions 0, k, 2k, ... */
  function Sampled(w: seq<Item>, k: nat): seq<Item>
    requires k > 0
  {
    if w == [] then [] else [w[0]] + if |w| <= k then [] else Sampled(w[k..], k)
  }

  /** The i-th sample is the packet at position i times k, as long as there is one. */
  lemma {:induction false} SampledIs(w: seq<Item>, k: nat, i: nat)
    requires k > 0
    ensures i < |Sampled(w, k)| <==> i * k < |w|
    ensures i < |Sampled(w, k)| ==> Sampled(w, k)[i] == w[i * k]
    decreases i
  {
    if i > 0 {
      assert i * k == (i - 1) * k + k;
      assert (i - 1) * k >= 0;
      if |w| > k {
        SampledIs(w[k..], k, i - 1);
      }
    }
  }

  predicate Multiple(n: nat, k: nat)
    requires k > 0
  {
    n % k == 0
  }

  lemma {:induction false} SampledNext(w: seq<Item>, x: Item, k: nat)
    requires k > 0
    ensures Sampled(w + [x], k) == Sampled(w, k) + if Multiple(|w|, k) then [x] else []
    decreases |w|
  {
    hide Multiple;
    if |w| < k {
      MultipleSmall(|w|, k);
      assert w == [] ==> w + [x] == [x];
    } else {
      var u := w[k..];
      assert (w + [x])[k..] == u + [x];
      SampledNext(u, x, k);
      MultipleDrop(|w|, k);
    }
  }

  lemma MultipleSmall(n: nat, k: nat)
    requires n < k
    ensures Multiple(n, k) <==> n == 0
  {
  }

  lemma MultipleDrop(n: nat, k: nat)
    requires 0 < k <= n
    ensures Multiple(n - k, k) <==> Multiple(n, k)
  {
    var q, r := n / k, n % k;
    assert n == q * k + r && (q - 1) * k == q * k - k;
    assert q >= 1;
    DivUnique(n - k, k, q - 1, r);
  }

  lemma MulStep(a: nat, b: nat, k: nat)
    requires a < b
    ensures a * k + k <= b * k
  {
    assert (b - a - 1) * k == b * k - a * k - k;
  }

  lemma DivUnique(n: nat, k: nat, q: nat, r: nat)
    requires k > 0 && r < k && n == q * k + r
    ensures n / k == q && n % k == r
  {
    var q', r' := n / k, n % k;
    assert n == q' * k + r';
    if q' > q {
      MulStep(q, q', k);
    } else if q' < q {
      MulStep(q', q, k);
    }
  }

  // ---------------------------------------------------------------- windows

  /** A packet that comes too late for a window. */
  predicate Beyond(x: Item, w: seq<Item>, interval: Time)
    requires w != []
  {
    Later(x.time, Plus(interval, w[0].time))
  }

  /** The windows of an object's packets: a window takes all packets up to the first that is too
      late for its first one; that one opens the next window. */
  function Windows(s: seq<Item>, interval: Time): (r: seq<seq<Item>>)
    ensures s != [] ==> r != []
    ensures forall i :: 0 <= i < |r| ==> r[i] != []
  {
    if s == [] then []
    else
      var n := |s| - 1;
      var r := Windows(s[..n], interval);
      if r == [] || Beyond(s[n], r[|r| - 1], interval) then r + [[s[n]]]
      else r[|r| - 1 := r[|r| - 1] + [s[n]]]
  }

  function Flat(r: seq<seq<Item>>): seq<Item> {
    if r == [] then [] else Flat(r[..|r| - 1]) + r[|r| - 1]
  }

  /** No packet is lost or moved: one after the other, the windows are the packets. */
  lemma {:induction false} WindowsCover(s: seq<Item>, interval: Time)
    ensures Flat(Windows(s, interval)) == s
  {
    if s != [] {
      var n := |s| - 1;
      var r := Windows(s[..n], interval);
      WindowsCover(s[..n], interval);
      assert s == s[..n] + [s[n]];
      if r == [] || Beyond(s[n], r[|r| - 1], interval) {
        assert (r + [[s[n]]])[..|r|] == r;
      } else {
        var m := |r| - 1;
        var r' := r[m := r[m] + [s[n]]];
        assert r'[..m] == r[..m];
        assert Flat(r[..m]) + (r[m] + [s[n]]) == Flat(r[..m]) + r[m] + [s[n]];
      }
    }
  }

  /** No packet of the window is too late for its first one. */
  predicate Within(w: seq<Item>, interval: Time) {
    forall j :: 0 < j < |w| ==> !Beyond(w[j], w, interval)
  }

  /** Window `b` was opened because its first packet was too late for window `a`. */
  predicate OpenedAfter(b: seq<Item>, a: seq<Item>, interval: Time) {
    a != [] && b != [] && Beyond(b[0], a, interval)
  }

  /** Every packet of a window is within the interval of its first; the first of the next is not. */
  predicate WellSplit(r: seq<seq<Item>>, interval: Time) {
    && (forall i :: 0 <= i < |r| ==> Within(r[i], interval))
    && forall i :: 0 < i < |r| ==> OpenedAfter(r[i], r[i - 1], interval)
  }

  lemma {:induction false} WindowsSplit(s: seq<Item>, interval: Time)
    ensures WellSplit(Windows(s, interval), interval)
  {
    if s != [] {
      hide Later, Plus;
      var n := |s| - 1;
      WindowsSplit(s[..n], interval);
      var r := Windows(s[..n], interval);
      if r != [] && !Beyond(s[n], r[|r| - 1], interval) {
        WithinNext(r[|r| - 1], s[n], interval);
      }
    }
  }

  lemma WithinNext(w: seq<Item>, x: Item, interval: Time)
    requires w != [] && Within(w, interval) && !Beyond(x, w, interval)
    ensures Within(w + [x], interval) && (w + [x])[0] == w[0]
  {
    hide Later, Plus;
    var v := w + [x];
    forall j | 0 < j < |v|
      ensures !Beyond(v[j], v, interval)
    {
      if j < |w| {
        assert v[j] == w[j] && !Beyond(w[j], w, interval);
      }
    }
  }

  /** With normalised times, that is a matter of milliseconds. */
  lemma BeyondIs(x: Item, w: seq<Item>, interval: Time)
    requires w != [] && Normal(x.time) && Normal(w[0].time) && Normal(interval)
    ensures Beyond(x, w, interval) <==> Ms(x.time) > Ms(w[0].time) + Ms(interval)
  {
  }

  // ---------------------------------------------------------------- the group of a window

  function PushAll(g: Group, w: seq<Item>): Group {
    if w == [] then g else Pushed(PushAll(g, w[..|w| - 1]), w[|w| - 1])
  }

  function GroupOf(w: seq<Item>, r: Rule): Group {
    PushAll(Create(r), w)
  }

  /** How many packets a group passes over before it stores the next one. */
  function Gap(n: nat, k: nat): nat
    requires k > 0
  {
    if n == 0 then 0 else if n <= k then k - n else Gap(n - k, k)
  }

  lemma {:induction false} GapStep(n: nat, k: nat)
    requires k > 0
    ensures Gap(n, k) == 0 <==> Multiple(n, k)
    ensures Gap(n + 1, k) == if Gap(n, k) == 0 then k - 1 else Gap(n, k) - 1
  {
    hide Multiple;
    if n < k {
      MultipleSmall(n, k);
    } else {
      MultipleDrop(n, k);
      GapStep(n - k, k);
    }
  }

  /** The group of a window holds exactly the sampled packets, and expires with the window. */
  lemma {:induction false} GroupOfIs(w: seq<Item>, r: Rule)
    requires w != []
    ensures var g, k := GroupOf(w, r), Period(r.storeEvery);
            && g.items == Sampled(w, k) && g.items != [] && g.expiry == Plus(r.interval, w[0].time)
            && g.storeEvery == r.storeEvery && g.skipLeft == Gap(|w|, k)
    decreases |w|
  {
    hide Plus, Gap, Multiple;
    var n, k := |w| - 1, Period(r.storeEvery);
    var v, x := w[..n], w[n];
    assert w == v + [x];
    GapStep(n, k);
    SampledNext(v, x, k);
    if n == 0 {
      assert Sampled(v, k) == [] && PushAll(Create(r), v) == Create(r);
    } else {
      GroupOfIs(v, r);
      assert v[0] == w[0];
    }
  }

  // ---------------------------------------------------------------- the processor

  /** The open groups, and those sent on, in order. */
  datatype Processor = Processor(open: map<nat, Group>, sent: seq<(nat, Group)>)

  /** One packet.  `rules` gives the rule of each object whose type is configured. */
  function Feed(p: Processor, rules: map<nat, Rule>, x: Item): Processor {
    if x.id in p.open && !Due(p.open[x.id], x.time) then
      p.(open := p.open[x.id := Pushed(p.open[x.id], x)])
    else
      var p' := if x.id in p.open then Processor(p.open - {x.id}, p.sent + [(x.id, p.open[x.id])]) else p;
      if x.id !in rules then p' else p'.(open := p'.open[x.id := Pushed(Create(rules[x.id]), x)])
  }

  function FeedAll(rules: map<nat, Rule>, s: seq<Item>): Processor {
    if s == [] then Processor(map[], []) else Feed(FeedAll(rules, s[..|s| - 1]), rules, s[|s| - 1])
  }

  function PacketsOf(s: seq<Item>, id: nat): seq<Item> {
    if s == [] then []
    else PacketsOf(s[..|s| - 1], id) + if s[|s| - 1].id == id then [s[|s| - 1]] else []
  }

  function SentOf(sent: seq<(nat, Group)>, id: nat): seq<Group> {
    if sent == [] then []
    else SentOf(sent[..|sent| - 1], id) + if sent[|sent| - 1].0 == id then [sent[|sent| - 1].1] else []
  }

  /** The groups of an object, sent or open. */
  function GroupsOf(p: Processor, id: nat): seq<Group> {
    SentOf(p.sent, id) + if id in p.open then [p.open[id]] else []
  }

  function GroupsOfWindows(ws: seq<seq<Item>>, r: Rule): (gs: seq<Group>)
    ensures |gs| == |ws| && forall k :: 0 <= k < |gs| ==> gs[k] == GroupOf(ws[k], r)
  {
    seq(|ws|, k requires 0 <= k < |ws| => GroupOf(ws[k], r))
  }

  lemma SentNext(sent: seq<(nat, Group)>, id: nat, g: Group, other: nat)
    ensures SentOf(sent + [(id, g)], other) == SentOf(sent, other) + if id == other then [g] else []
  {
    assert (sent + [(id, g)])[..|sent|] == sent;
  }

  lemma WindowsNext(s: seq<Item>, x: Item, interval: Time)
    ensures var r := Windows(s, interval);
            Windows(s + [x], interval) ==
            if r == [] || Beyond(x, r[|r| - 1], interval) then r + [[x]] else r[|r| - 1 := r[|r| - 1] + [x]]
  {
    assert (s + [x])[..|s|] == s;
  }

  lemma PushAllNext(g: Group, w: seq<Item>, x: Item)
    ensures PushAll(g, w + [x]) == Pushed(PushAll(g, w), x)
  {
    assert (w + [x])[..|w|] == w;
  }

  lemma FeedOther(p: Processor, rules: map<nat, Rule>, x: Item, id: nat)
    requires x.id != id
    ensures GroupsOf(Feed(p, rules, x), id) == GroupsOf(p, id) && (id in Feed(p, rules, x).open <==> id in p.open)
  {
    hide Pushed, Due;
    if x.id in p.open {
      SentNext(p.sent, x.id, p.open[x.id], id);
      assert SentOf(p.sent, id) + [] == SentOf(p.sent, id);
    }
  }

  /** For every object of a configured type, and any stream of packets: the groups sent for it,
      followed by the open one, are the groups of its windows, in order; for other objects there are
      none. */
  lemma {:induction false} StreamIsWindows(rules: map<nat, Rule>, s: seq<Item>, id: nat)
    ensures id in rules ==>
              var p := FeedAll(rules, s);
              && GroupsOf(p, id) == GroupsOfWindows(Windows(PacketsOf(s, id), rules[id].interval), rules[id])
              && (id in p.open <==> PacketsOf(s, id) != [])
    ensures id !in rules ==> GroupsOf(FeedAll(rules, s), id) == [] && id !in FeedAll(rules, s).open
    decreases |s|
  {
    hide Feed;
    if s == [] {
    } else {
      var n := |s| - 1;
      var x := s[n];
      StreamIsWindows(rules, s[..n], id);
      var p := FeedAll(rules, s[..n]);
      if x.id != id {
        FeedOther(p, rules, x, id);
        assert PacketsOf(s, id) == PacketsOf(s[..n], id);
      } else if id in rules {
        FeedMine(p, rules, x, PacketsOf(s[..n], id));
      } else {
        FeedUnknown(p, rules, x);
      }
    }
  }

  lemma FeedUnknown(p: Processor, rules: map<nat, Rule>, x: Item)
    requires x.id !in rules && GroupsOf(p, x.id) == [] && x.id !in p.open
    ensures GroupsOf(Feed(p, rules, x), x.id) == [] && x.id !in Feed(p, rules, x).open
  {
  }

  lemma FeedMine(p: Processor, rules: map<nat, Rule>, x: Item, before: seq<Item>)
    requires x.id in rules && (x.id in p.open <==> before != [])
    requires GroupsOf(p, x.id) == GroupsOfWindows(Windows(before, rules[x.id].interval), rules[x.id])
    ensures var p' := Feed(p, rules, x);
            && x.id in p'.open
            && GroupsOf(p', x.id) == GroupsOfWindows(Windows(before + [x], rules[x.id].interval), rules[x.id])
  {
    hide Pushed, Plus, Later;
    var id, r := x.id, rules[x.id];
    var p' := Feed(p, rules, x);
    var ws := Windows(before, r.interval);
    WindowsNext(before, x, r.interval);
    assert Pushed(Create(r), x) == GroupOf([x], r) by { OneWindow(x, r); }
    if before == [] {
      assert ws == [];
    } else {
      var m := |ws| - 1;
      var g := p.open[id];
      GroupOfIs(ws[m], r);
      var gs := GroupsOf(p, id);
      assert gs[m] == g == GroupOf(ws[m], r) && SentOf(p.sent, id) == gs[..m];
      if Due(g, x.time) {
        SentNext(p.sent, id, g, id);
      } else {
        assert Pushed(g, x) == GroupOf(ws[m] + [x], r) by {
          PushAllNext(Create(r), ws[m], x);
        }
      }
    }
  }

  lemma OneWindow(x: Item, r: Rule)
    ensures Pushed(Create(r), x) == GroupOf([x], r)
  {
    assert [x][..0] == [] && PushAll(Create(r), []) == Create(r);
  }
}
