/** Which message id assignMsgId returns, when it returns none, and when it never returns. */
module PahoIds {
  import opened Bytes
  import opened PahoRecord
  import opened PahoQueue

  /** The k-th candidate after `start`: ids run from 1 to 65535 and then from 1 again. */
  function Nth(start: MsgId, k: nat): MsgId
    requires k > 0 || start > 0
  {
    (start + 65535 - 1 + k) % 65535 + 1
  }

  lemma NthStep(start: MsgId, k: nat)
    requires k > 0 || start > 0
    ensures Succ(Nth(start, k)) == Nth(start, k + 1)
  {
    var x := start + 65535 - 1 + k;
    assert (x + 1) % 65535 == if x % 65535 == 65535 - 1 then 0 else x % 65535 + 1;
  }

  lemma NthFirst(start: MsgId)
    ensures Nth(start, 1) == Succ(start)
  {
  }

  /** Where an id other than the start comes in the order of the search. */
  function Rank(start: MsgId, id: MsgId): nat
    requires id != start && id > 0
  {
    if id > start then id - start else id + 65535 - start
  }

  lemma RankIs(start: MsgId, id: MsgId)
    requires id != start && id > 0
    ensures 0 < Rank(start, id) <= 65535 && Nth(start, Rank(start, id)) == id
    ensures start > 0 ==> Rank(start, id) < 65535
  {
  }

  /** The search meets its start again after all other ids, and not before. */
  lemma NthBack(start: MsgId, k: nat)
    requires 0 < k <= 65535
    ensures Nth(start, k) == start <==> start > 0 && k == 65535
  {
  }

  lemma {:induction false} SearchIs(w: World, c: nat, start: MsgId, k: nat)
    requires 0 < k <= 65535 && (start > 0 ==> k < 65535)
    ensures var r := Search(w, c, start, Nth(start, k), 65535 - k);
            (r == 0 && forall i :: k <= i <= 65535 && (start > 0 ==> i < 65535) ==> Taken(w, c, Nth(start, i)))
            || (r != start && r > 0 && !Taken(w, c, r) && Rank(start, r) >= k
                && forall i :: k <= i < Rank(start, r) ==> Taken(w, c, Nth(start, i)))
    decreases 65535 - k
  {
    hide Taken, Nth, Rank, Succ;
    var id := Nth(start, k);
    NthStep(start, k);
    NthBack(start, k);
    var last := if start > 0 then 65535 - 1 else 65535;
    if !Taken(w, c, id) {
      NthRank(start, k);
    } else if k < last {
      NthBack(start, k + 1);
      SearchIs(w, c, start, k + 1);
    } else if start > 0 {
      NthBack(start, k + 1);
    }
  }

  lemma NthRank(start: MsgId, k: nat)
    requires 0 < k <= 65535 && (start > 0 ==> k < 65535)
    ensures Nth(start, k) > 0 && Nth(start, k) != start && Rank(start, Nth(start, k)) == k
  {
  }

  /** assignMsgId returns the first free id after the last one assigned, going round; it returns 0
      exactly if all ids other than the last one assigned are taken, and never tries that one. */
  lemma AssignedIs(w: World, c: nat)
    requires c in w.clients && SearchStops(w, c, w.clients[c].msgId)
    ensures var start, r := w.clients[c].msgId, AssignedId(w, c);
            && (r == 0 <==> forall id: MsgId :: id != start && id > 0 ==> Taken(w, c, id))
            && (r > 0 ==> r != start && !Taken(w, c, r))
            && forall id: MsgId :: r > 0 && id != start && id > 0 && Rank(start, id) < Rank(start, r) ==> Taken(w, c, id)
  {
    hide Taken, Nth, Rank, Succ, Search;
    var start := w.clients[c].msgId;
    NthFirst(start);
    SearchIs(w, c, start, 1);
    var r := AssignedId(w, c);
    forall id: MsgId | id != start && id > 0 && (r > 0 ==> Rank(start, id) < Rank(start, r))
      ensures Taken(w, c, id)
    {
      RankIs(start, id);
      assert Taken(w, c, Nth(start, Rank(start, id)));
    }
  }

  /** The loop has an exit exactly if a candidate is free or is the one that it started from. */
  lemma SearchHangs(w: World, c: nat, start: MsgId)
    ensures SearchStops(w, c, start) <==> exists k :: k > 0 && (!Taken(w, c, Nth(start, k)) || Nth(start, k) == start)
  {
    hide Taken, Nth, Rank;
    if start != 0 {
      NthBack(start, 65535);
    } else if id: nat :| 1 <= id <= 65535 && !Taken(w, c, id) {
      RankIs(0, id);
      assert Nth(0, Rank(0, id)) == id;
    } else if k: nat :| k > 0 && (!Taken(w, c, Nth(0, k)) || Nth(0, k) == 0) {
      NthPositive(0, k);
      assert 1 <= Nth(0, k) <= 65535 && !Taken(w, c, Nth(0, k));
    }
  }

  lemma NthPositive(start: MsgId, k: nat)
    requires k > 0
    ensures 1 <= Nth(start, k) <= 65535
  {
  }
}
