/** The sibling links of the JSON tree of ccan_json.c: children hung on, taken off, and checked. */
module JsonTree {
  import opened Bytes
  import opened Common
  import opened LinkedList
  import JsonReader
  import JsonSpec

  const JSON_BOOL := 1
  const JSON_STRING := 2
  const JSON_ARRAY := 4
  const JSON_OBJECT := 5

  class JsonNode {
    var tag: nat
    var bool_: int
    var string_: Option<cstring>
    var parent: JsonNode?
    var prev: JsonNode?
    var next: JsonNode?
    var key: Option<cstring>
    var head: JsonNode?
    var tail: JsonNode?

    /** mknode. */
    constructor (tag: nat)
      ensures this.tag == tag && parent == null && prev == null && next == null && key == None && Family(this, [])
    {
      this.tag, bool_, string_ := tag, 0, None;
      parent, prev, next, key, head, tail := null, null, null, None, null, null;
    }
  }

  /** The i-th child, or null outside. */
  function Child(s: seq<JsonNode>, i: int): JsonNode? {
    if 0 <= i < |s| then s[i] else null
  }

  ghost function Nodes(s: seq<JsonNode>): set<JsonNode> {
    set c | c in s
  }

  ghost predicate Ahead(s: seq<JsonNode>)
    reads Nodes(s)
  {
    forall i {:trigger s[i].next} :: 0 <= i < |s| ==> s[i].next == Child(s, i + 1)
  }

  ghost predicate Behind(p: JsonNode, s: seq<JsonNode>)
    reads Nodes(s)
  {
    forall i {:trigger s[i].prev} {:trigger s[i].parent} :: 0 <= i < |s| ==>
      s[i].prev == Child(s, i - 1) && s[i].parent == p
  }

  /** `s` are the children of `p`: in this order by their links, and each pointing back. */
  ghost predicate Family(p: JsonNode, s: seq<JsonNode>)
    reads p, Nodes(s)
  {
    && p !in s && Distinct(s) && p.head == Child(s, 0) && p.tail == Child(s, |s| - 1)
    && Ahead(s) && Behind(p, s)
  }

  /** The links decide who the children are. */
  lemma FamilyIsUnique(p: JsonNode, s: seq<JsonNode>, t: seq<JsonNode>)
    requires Family(p, s) && Family(p, t)
    ensures s == t
  {
    SameSoFar(p, s, t, |s|);
    SameSoFar(p, t, s, |t|);
  }

  lemma {:induction false} SameSoFar(p: JsonNode, s: seq<JsonNode>, t: seq<JsonNode>, n: nat)
    requires Family(p, s) && Family(p, t) && n <= |s|
    ensures n <= |t| && s[..n] == t[..n]
  {
    if n > 0 {
      SameSoFar(p, s, t, n - 1);
      if n > 1 {
        assert s[n - 2].next == Child(s, n - 1) && t[n - 2].next == Child(t, n - 1);
        assert s[..n - 1][n - 2] == t[..n - 1][n - 2];
      }
    }
  }

  /** append_node. */
  method AppendNode(parent: JsonNode, child: JsonNode, ghost s: seq<JsonNode>)
    requires Family(parent, s) && child !in s && child != parent
    modifies parent`head, parent`tail, child`parent, child`prev, child`next, Nodes(s)`next
    ensures Family(parent, s + [child])
  {
    child.parent := parent;
    child.prev := parent.tail;
    child.next := null;
    if parent.tail != null {
      parent.tail.next := child;
    } else {
      parent.head := child;
    }
    parent.tail := child;
  }

  /** prepend_node. */
  method PrependNode(parent: JsonNode, child: JsonNode, ghost s: seq<JsonNode>)
    requires Family(parent, s) && child !in s && child != parent
    modifies parent`head, parent`tail, child`parent, child`prev, child`next, Nodes(s)`prev
    ensures Family(parent, [child] + s)
  {
    child.parent := parent;
    child.prev := null;
    child.next := parent.head;
    if parent.head != null {
      parent.head.prev := child;
    } else {
      parent.tail := child;
    }
    parent.head := child;
  }

  ghost function Parents(node: JsonNode): set<JsonNode>
    reads node
  {
    if node.parent == null then {} else {node.parent}
  }

  /** The child at position `i` has gone, and its neighbours know each other. */
  lemma FamilyWithout(p: JsonNode, s: seq<JsonNode>, i: nat)
    requires i < |s| && p !in s && Distinct(s)
    requires p.head == Child(s, if i == 0 then 1 else 0)
    requires p.tail == Child(s, if i == |s| - 1 then |s| - 2 else |s| - 1)
    requires forall k {:trigger s[k].next} :: 0 <= k < |s| && k != i ==>
               s[k].next == Child(s, if k + 1 == i then i + 1 else k + 1)
    requires forall k {:trigger s[k].prev} :: 0 <= k < |s| && k != i ==>
               s[k].prev == Child(s, if k == i + 1 then i - 1 else k - 1) && s[k].parent == p
    ensures Family(p, Without(s, i))
  {
    hide Distinct, Without;
    var t := Without(s, i);
    Removed(s, i);
    forall k | 0 <= k < |t|
      ensures t[k].next == Child(t, k + 1) && t[k].prev == Child(t, k - 1) && t[k].parent == p
    {
      var j := if k < i then k else k + 1;
      assert t[k] == s[j] && s[j].next == Child(s, if j + 1 == i then i + 1 else j + 1);
    }
  }

  /** json_remove_from_parent. */
  method RemoveFromParent(node: JsonNode, ghost s: seq<JsonNode>, ghost i: nat)
    requires node.parent != null ==> Family(node.parent, s) && i < |s| && s[i] == node
    modifies Parents(node)`head, Parents(node)`tail, node`parent, node`prev, node`next, node`key
    modifies Nodes(s)`next, Nodes(s)`prev
    ensures node.parent == null
    ensures old(node.parent) == null ==> node.prev == old(node.prev) && node.next == old(node.next)
    ensures old(node.parent) != null ==>
              node.prev == null && node.next == null && node.key == None && Family(old(node.parent), Without(s, i))
  {
    hide Distinct, Without;
    var parent := node.parent;
    if parent != null {
      Removed(s, i);
      if i > 0 {
        Removed(s, i - 1);
      }
      if i + 1 < |s| {
        Removed(s, i + 1);
      }
      if node.prev != null {
        node.prev.next := node.next;
      } else {
        parent.head := node.next;
      }
      if node.next != null {
        node.next.prev := node.prev;
      } else {
        parent.tail := node.prev;
      }
      node.parent := null;
      node.prev, node.next := null, null;
      node.key := None;
      FamilyWithout(parent, s, i);
    }
  }

  // ---------------------------------------------------------------- json_check

  /** Elements of an array have no key, members of an object have one. */
  ghost predicate Keyed(s: seq<JsonNode>, isArray: bool)
    reads Nodes(s)
  {
    forall i {:trigger s[i].key} :: 0 <= i < |s| ==> (s[i].key == None <==> isArray)
  }

  /** A walk from the head has passed `s`, each checked, and is at `child`. */
  ghost predicate Passed(p: JsonNode, s: seq<JsonNode>, child: JsonNode?)
    reads p, Nodes(s), child
  {
    && p !in s && Distinct(s) && p.head == (if s == [] then child else s[0]) && Behind(p, s)
    && (forall i {:trigger s[i].next} :: 0 <= i < |s| ==> s[i].next == if i == |s| - 1 then child else s[i + 1])
    && (child != null ==> child !in s && child.prev == Child(s, |s| - 1))
  }

  /** The checks of one turn let the walk go on; above all, it does not come back to where it was. */
  lemma PassOne(p: JsonNode, s: seq<JsonNode>, child: JsonNode)
    requires Passed(p, s, child) && child != p && child.next != child && child.next != p.head
    requires child.parent == p && (child.next != null ==> child.next.prev == child)
    ensures Passed(p, s + [child], child.next)
  {
    assert forall m :: 0 < m < |s| ==> s[m].prev == s[m - 1];
  }

  /** If the links do describe a family, the walk passes its children one by one. */
  lemma {:induction false} PassedPrefix(p: JsonNode, s: seq<JsonNode>, child: JsonNode?, t: seq<JsonNode>, n: nat)
    requires Passed(p, s, child) && Family(p, t) && n <= |s|
    ensures n <= |t| && s[..n] == t[..n] && (n == |s| ==> child == Child(t, n))
  {
    if n > 0 {
      PassedPrefix(p, s, child, t, n - 1);
      if n > 1 {
        assert s[..n - 1][n - 2] == t[..n - 1][n - 2];
        assert t[n - 2].next == Child(t, n - 1);
      }
      assert t[n - 1] == s[n - 1];
      assert t[n - 1].next == Child(t, n);
    }
  }

  /** What json_check says of the links of an array or object: its walk ends, whatever the links are, and
      it finds fault exactly when they describe no sequence of children. */
  method CheckChildren(node: JsonNode, isArray: bool, ghost heap: set<JsonNode>) returns (ok: bool)
    requires node.head != null ==> node.head in heap
    requires forall c :: c in heap && c.next != null ==> c.next in heap
    ensures ok <==> exists s: seq<JsonNode> :: Family(node, s) && Keyed(s, isArray)
  {
    var head, tail := node.head, node.tail;
    if head == null || tail == null {
      ok := head == null && tail == null;
      assert ok ==> Family(node, []) && Keyed([], isArray);
      return;
    }
    if head.prev != null {
      return false;
    }
    var child: JsonNode?, last: JsonNode? := head, null;
    ghost var s: seq<JsonNode> := [];
    while child != null
      invariant Passed(node, s, child) && Keyed(s, isArray) && last == Child(s, |s| - 1)
      invariant Nodes(s) <= heap && (child != null ==> child in heap)
      decreases heap - Nodes(s)
    {
      forall t: seq<JsonNode> | Family(node, t)
        ensures |s| < |t| && t[|s|] == child
      {
        PassedPrefix(node, s, child, t, |s|);
      }
      if child == node || child.next == child || child.next == head {
        return false;
      }
      if child.parent != node || (child.next != null && child.next.prev != child) {
        return false;
      }
      if (isArray && child.key != None) || (!isArray && child.key == None) {
        return false;
      }
      PassOne(node, s, child);
      assert child in heap - Nodes(s) && Nodes(s + [child]) == Nodes(s) + {child};
      s := s + [child];
      last, child := child, child.next;
    }
    forall t: seq<JsonNode> | Family(node, t)
      ensures t == s
    {
      PassedPrefix(node, s, null, t, |s|);
    }
    ok := last == tail;
    assert ok ==> Family(node, s);
  }

  // ---------------------------------------------------------------- the whole tree

  /** A set of nodes closed under the links of children, in which parents form no cycle. */
  ghost predicate Ranked(heap: set<JsonNode>, level: JsonNode -> nat)
    reads heap
  {
    forall n {:trigger n.parent} {:trigger n.head} {:trigger n.next} :: n in heap ==>
      && (n.head != null ==> n.head in heap) && (n.next != null ==> n.next in heap)
      && (n.parent != null ==> level(n) < level(n.parent))
  }

  /** Nodes by their forward links, each once. */
  ghost function Chain(child: JsonNode?, heap: set<JsonNode>): (s: seq<JsonNode>)
    reads heap
    ensures Nodes(s) <= heap
    decreases heap
  {
    if child == null || child !in heap then [] else [child] + Chain(child.next, heap - {child})
  }

  /** The checks that look at the node alone. */
  ghost predicate OwnOk(n: JsonNode)
    reads n
  {
    && (n.key.Some? ==> JsonSpec.IsUtf8(n.key.value)) && n.tag <= JSON_OBJECT
    && (n.tag == JSON_BOOL ==> n.bool_ == 0 || n.bool_ == 1)
    && (n.tag == JSON_STRING ==> n.string_.Some? && JsonSpec.IsUtf8(n.string_.value))
  }

  predicate HasChildren(n: JsonNode)
    reads n
  {
    n.tag == JSON_ARRAY || n.tag == JSON_OBJECT
  }

  /** A sound tree: at every level the children are a family with the right keys, and texts are UTF-8. */
  ghost predicate Sane(n: JsonNode, heap: set<JsonNode>, level: JsonNode -> nat)
    requires n in heap && Ranked(heap, level)
    reads heap
    decreases level(n)
  {
    && OwnOk(n)
    && (HasChildren(n) ==>
          var s := Chain(n.head, heap);
          && Family(n, s) && Keyed(s, n.tag == JSON_ARRAY)
          && forall i :: 0 <= i < |s| ==> s[i] in heap && s[i].parent == n && Sane(s[i], heap, level))
  }

  /** The chain of a family is the family. */
  lemma ChainIs(n: JsonNode, s: seq<JsonNode>, heap: set<JsonNode>, level: JsonNode -> nat)
    requires n in heap && Ranked(heap, level) && Family(n, s)
    ensures Chain(n.head, heap) == s
  {
    InHeap(n, s, heap, level, |s|);
    ChainFrom(n, s, 0, heap);
  }

  lemma {:induction false} InHeap(n: JsonNode, s: seq<JsonNode>, heap: set<JsonNode>, level: JsonNode -> nat, i: nat)
    requires n in heap && Ranked(heap, level) && Family(n, s) && i <= |s|
    ensures Nodes(s[..i]) <= heap
  {
    if i > 0 {
      InHeap(n, s, heap, level, i - 1);
      if i > 1 {
        assert s[i - 2] in s[..i - 1] && s[i - 2].next == Child(s, i - 1);
      }
      assert forall c :: c in s[..i] ==> c in s[..i - 1] || c == s[i - 1];
    }
  }

  lemma {:induction false} ChainFrom(n: JsonNode, s: seq<JsonNode>, i: nat, heap: set<JsonNode>)
    requires Family(n, s) && i <= |s| && Nodes(s[i..]) <= heap
    ensures Chain(Child(s, i), heap) == s[i..]
    decreases |s| - i
  {
    if i < |s| {
      assert s[i] in s[i..] && s[i].next == Child(s, i + 1);
      forall c | c in s[i + 1..]
        ensures c in heap - {s[i]}
      {
        assert c in s[i..];
        var k :| 0 <= k < |s[i + 1..]| && s[i + 1..][k] == c;
        assert s[i + 1 + k] == c;
      }
      ChainFrom(n, s, i + 1, heap - {s[i]});
    }
  }

  /** Soundness does not depend on how the children were found. */
  lemma SaneIs(n: JsonNode, s: seq<JsonNode>, heap: set<JsonNode>, level: JsonNode -> nat)
    requires n in heap && Ranked(heap, level) && OwnOk(n) && HasChildren(n) && Family(n, s)
    ensures Sane(n, heap, level) <==>
            && Keyed(s, n.tag == JSON_ARRAY)
            && forall i :: 0 <= i < |s| ==> s[i] in heap && Sane(s[i], heap, level)
  {
    ChainIs(n, s, heap, level);
    assert forall i :: 0 <= i < |s| ==> s[i].parent == n;
  }

  /** A sound tree has, where the walk is, a sound child. */
  lemma ChildAt(n: JsonNode, s: seq<JsonNode>, child: JsonNode, heap: set<JsonNode>, level: JsonNode -> nat)
    requires n in heap && Ranked(heap, level) && Passed(n, s, child) && HasChildren(n) && child in heap
    ensures Sane(n, heap, level) ==>
              && child.parent == n && child != n && child.next != child && child.next != n.head
              && (child.next != null ==> child.next.prev == child)
              && (child.key == None <==> n.tag == JSON_ARRAY) && Sane(child, heap, level)
  {
    if Sane(n, heap, level) {
      var t := Chain(n.head, heap);
      PassedPrefix(n, s, child, t, |s|);
      assert t[|s|] == child && t[|s|].next == Child(t, |s| + 1);
    }
  }

  lemma FirstChild(n: JsonNode, heap: set<JsonNode>, level: JsonNode -> nat)
    requires n in heap && Ranked(heap, level) && HasChildren(n)
    ensures n.head != null ==> n.head in heap
    ensures Sane(n, heap, level) ==> (n.head == null <==> n.tail == null) && (n.head != null ==> n.head.prev == null)
    ensures OwnOk(n) && n.head == null && n.tail == null ==> Sane(n, heap, level)
  {
    assert n.head != null ==> n.head in heap;
    if Sane(n, heap, level) {
      var t := Chain(n.head, heap);
      assert n.head != null ==> t != [] && t[0] == n.head;
    }
  }

  lemma LastChild(n: JsonNode, s: seq<JsonNode>, heap: set<JsonNode>, level: JsonNode -> nat)
    requires n in heap && Ranked(heap, level) && OwnOk(n) && HasChildren(n)
    requires Passed(n, s, null) && Keyed(s, n.tag == JSON_ARRAY)
    requires forall i :: 0 <= i < |s| ==> s[i] in heap && Sane(s[i], heap, level)
    ensures Sane(n, heap, level) <==> n.tail == Child(s, |s| - 1)
  {
    hide OwnOk, Distinct;
    if n.tail == Child(s, |s| - 1) {
      assert Family(n, s);
      ChainIs(n, s, heap, level);
      assert forall i :: 0 <= i < |s| ==> s[i].parent == n;
    }
    if Sane(n, heap, level) {
      var t := Chain(n.head, heap);
      PassedPrefix(n, s, null, t, |s|);
      assert s[..|s|] == s && t[..|t|] == t;
    }
  }

  /** json_check: it ends on any tree whose parents form no cycle, and accepts exactly the sound ones. */
  method JsonCheck(node: JsonNode, ghost heap: set<JsonNode>, ghost level: JsonNode -> nat) returns (ok: bool)
    requires node in heap && Ranked(heap, level)
    ensures ok == Sane(node, heap, level)
    decreases level(node)
  {
    if node.key.Some? {
      ok := JsonReader.ValidateText(node.key.value);
      if !ok {
        return;
      }
    }
    if node.tag > JSON_OBJECT {
      return false;
    }
    if node.tag == JSON_BOOL {
      return node.bool_ == 0 || node.bool_ == 1;
    }
    if node.tag == JSON_STRING {
      if node.string_ == None {
        return false;
      }
      ok := JsonReader.ValidateText(node.string_.value);
      return;
    }
    if node.tag != JSON_ARRAY && node.tag != JSON_OBJECT {
      return true;
    }
    ok := CheckTree(node, heap, level);
  }

  /** Its part for arrays and objects. */
  method CheckTree(node: JsonNode, ghost heap: set<JsonNode>, ghost level: JsonNode -> nat) returns (ok: bool)
    requires node in heap && Ranked(heap, level) && OwnOk(node) && HasChildren(node)
    ensures ok == Sane(node, heap, level)
    decreases level(node), 0
  {
    hide OwnOk, Sane, Chain;
    var head, tail := node.head, node.tail;
    FirstChild(node, heap, level);
    if head == null || tail == null {
      ok := head == null && tail == null;
      return;
    }
    if head.prev != null {
      return false;
    }
    var child: JsonNode?, last: JsonNode? := head, null;
    ghost var s: seq<JsonNode> := [];
    while child != null
      invariant Passed(node, s, child) && Keyed(s, node.tag == JSON_ARRAY) && last == Child(s, |s| - 1)
      invariant Nodes(s) <= heap && (child != null ==> child in heap)
      invariant forall i :: 0 <= i < |s| ==> s[i] in heap && Sane(s[i], heap, level)
      decreases heap - Nodes(s)
    {
      ChildAt(node, s, child, heap, level);
      if child == node || child.next == child || child.next == head {
        return false;
      }
      if child.parent != node || (child.next != null && child.next.prev != child) {
        return false;
      }
      if (node.tag == JSON_ARRAY && child.key != None) || (node.tag == JSON_OBJECT && child.key == None) {
        return false;
      }
      ok := JsonCheck(child, heap, level);
      if !ok {
        return;
      }
      PassOne(node, s, child);
      assert child in heap - Nodes(s) && Nodes(s + [child]) == Nodes(s) + {child};
      s := s + [child];
      last, child := child, child.next;
    }
    LastChild(node, s, heap, level);
    ok := last == tail;
  }
}
