/** The objects of the data processor, updated in place: an open group per object, and the groups
    handed on to the message manager. */
module HubProcessor {
  import opened Bytes
  import opened HubSampling

  class DataGroup {
    var items: seq<Item>
    var expiredTime: Time
    var storeEveryPkt: nat
    var skipLeft: nat

    ghost function Value(): Group
      reads this
    {
      Group(items, expiredTime, storeEveryPkt, skipLeft)
    }

    /** The interval is kept in the expiry time until the first item arrives. */
    constructor (r: Rule)
      ensures Value() == Create(r)
    {
      items, expiredTime, storeEveryPkt, skipLeft := [], r.interval, r.storeEvery, 0;
    }

    method IsTimeToSendGroup(t: Time) returns (due: bool)
      ensures due == Due(Value(), t)
    {
      due := |items| != 0 && Later(t, expiredTime);
    }

    method PushBack(x: Item)
      modifies this
      ensures Value() == Pushed(old(Value()), x)
    {
      hide Plus;
      if |items| == 0 {
        expiredTime := Plus(expiredTime, x.time);
      }
      if skipLeft == 0 {
        items := items + [x];
        skipLeft := PredUnsigned(storeEveryPkt);
      } else {
        skipLeft := skipLeft - 1;
      }
    }
  }

  ghost function Values(q: seq<(nat, DataGroup)>): (r: seq<(nat, Group)>)
    reads set k | 0 <= k < |q| :: q[k].1
    ensures |r| == |q| && forall k :: 0 <= k < |q| ==> r[k] == (q[k].0, q[k].1.Value())
  {
    if q == [] then []
    else
      var n := |q| - 1;
      assert forall k :: 0 <= k < n ==> q[..n][k] == q[k];
      Values(q[..n]) + [(q[n].0, q[n].1.Value())]
  }

  class DataProcessor {
    const rules: map<nat, Rule>
    var groupInProgress: map<nat, DataGroup>
    var dataQueue: seq<(nat, DataGroup)>

    /** Each open group belongs to one object, and none has been handed on. */
    ghost predicate Valid()
      reads this
    {
      && (forall a, b :: a in groupInProgress && b in groupInProgress && groupInProgress[a] == groupInProgress[b] ==> a == b)
      && forall a, k :: a in groupInProgress && 0 <= k < |dataQueue| ==> groupInProgress[a] != dataQueue[k].1
    }

    ghost function Groups(): set<object>
      reads this
    {
      (set a | a in groupInProgress :: groupInProgress[a]) + (set k | 0 <= k < |dataQueue| :: dataQueue[k].1)
    }

    ghost function Open(): map<nat, Group>
      reads this, Groups()
    {
      map a | a in groupInProgress :: groupInProgress[a].Value()
    }

    ghost function Sent(): seq<(nat, Group)>
      reads this, Groups()
    {
      Values(dataQueue)
    }

    ghost function Value(): Processor
      reads this, Groups()
    {
      Processor(Open(), Sent())
    }

    constructor (rules: map<nat, Rule>)
      ensures Valid() && Value() == FeedAll(rules, []) && this.rules == rules
    {
      this.rules := rules;
      groupInProgress, dataQueue := map[], [];
    }

    /** addToDataQueue and erase: the group is handed on and is not open any more. */
    method HandOn(id: nat)
      requires Valid() && id in groupInProgress
      modifies this`groupInProgress, this`dataQueue
      ensures Valid() && Groups() == old(Groups())
      ensures Open() == old(Open()) - {id} && Sent() == old(Sent()) + [(id, old(Open())[id])]
      ensures groupInProgress == old(groupInProgress) - {id}
    {
      hide Values;
      var group := groupInProgress[id];
      ghost var n := |dataQueue|;
      dataQueue := dataQueue + [(id, group)];
      groupInProgress := groupInProgress - {id};
      forall o: object
        ensures o in Groups() <==> o in old(Groups())
      {
        if o in old(Groups()) {
          if k :| 0 <= k < n && o == old(dataQueue)[k].1 {
            assert o == dataQueue[k].1;
          } else if o == group {
            assert o == dataQueue[n].1;
          } else {
            var a :| a in old(groupInProgress) && o == old(groupInProgress)[a];
            assert a in groupInProgress;
          }
        }
      }
    }

    method OpenGroup(x: Item)
      requires Valid() && x.id in rules && x.id !in groupInProgress
      modifies this`groupInProgress
      ensures Valid() && fresh(Groups() - old(Groups()))
      ensures Open() == old(Open())[x.id := Pushed(Create(rules[x.id]), x)] && Sent() == old(Sent())
    {
      hide Pushed, Create, Values;
      var group := new DataGroup(rules[x.id]);
      group.PushBack(x);
      assert Open() == old(Open()) && Sent() == old(Sent());
      groupInProgress := groupInProgress[x.id := group];
    }

    method Add(x: Item)
      requires Valid() && x.id in groupInProgress
      modifies groupInProgress[x.id]
      ensures Valid() && Groups() == old(Groups())
      ensures Open() == old(Open())[x.id := Pushed(old(Open())[x.id], x)] && Sent() == old(Sent())
    {
      hide Pushed, Values;
      groupInProgress[x.id].PushBack(x);
    }

    /** One turn of serverLoop, for a packet that could be parsed. */
    method Handle(x: Item)
      requires Valid()
      modifies this, set a | a in groupInProgress :: groupInProgress[a]
      ensures Valid() && Value() == Feed(old(Value()), rules, x)
      ensures fresh(Groups() - old(Groups()))
    {
      hide Pushed, Due, Create, Sent;
      assert forall a :: a in groupInProgress <==> a in Open();
      if x.id in groupInProgress {
        assert groupInProgress[x.id].Value() == Open()[x.id];
        var due := groupInProgress[x.id].IsTimeToSendGroup(x.time);
        if !due {
          Add(x);
          return;
        }
        HandOn(x.id);
      }
      if x.id in rules {
        OpenGroup(x);
      }
    }
  }
}
