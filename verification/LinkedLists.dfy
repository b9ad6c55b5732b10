/** Circular doubly-linked lists with a dummy head, and the families of such lists that stand for the
    sequences of module Lists: unlinking a node wherever it is, linking it at a tail, and swapping two lists. */
module LinkedLists {
  import opened Wrappers
  import opened Lists

  class ListNode<T> {
    var prev: ListNode?<T>
    var next: ListNode?<T>
    const data: Option<T>

    /** A node that is in no list. */
    constructor (d: Option<T>)
      ensures data == d && prev == null && next == null
    {
      data := d;
      prev, next := null, null;
    }

    /** A head of an empty list. */
    constructor Head()
      ensures data == None && Ring(this, [])
    {
      data := None;
      prev, next := this, this;
    }
  }

  /** Each node of `r` points to the one after it, which points back. */
  ghost predicate Chained<T>(r: seq<ListNode<T>>)
    reads set n | n in r
  {
    forall k :: 0 <= k < |r| - 1 ==> r[k].next == r[k + 1] && r[k + 1].prev == r[k]
  }

  /** The list with this head holds these nodes, in order. */
  ghost predicate Ring<T>(head: ListNode<T>, nodes: seq<ListNode<T>>)
    reads head, set n | n in nodes
  {
    && NoDup(nodes) && head !in nodes
    && Chained([head] + nodes + [head])
  }

  predicate IsListEmpty<T>(head: ListNode<T>)
    reads head
  {
    head.next == head && head.prev == head
  }

  /** Inserts x before the node at, which is at position k, or the head if k is past the end. */
  method InsertInList<T>(x: ListNode<T>, at: ListNode<T>, ghost head: ListNode<T>, ghost nodes: seq<ListNode<T>>, ghost k: nat)
    requires Ring(head, nodes) && k <= |nodes| && at == ([head] + nodes + [head])[k + 1]
    requires x != head && x !in nodes
    modifies x, at, at.prev
    ensures Ring(head, nodes[..k] + [x] + nodes[k..])
  {
    ghost var r := [head] + nodes + [head];
    assert r[k].next == r[k + 1] && r[k + 1].prev == r[k];
    x.next := at;
    x.prev := at.prev;
    at.prev.next := x;
    at.prev := x;
    ghost var nodes' := nodes[..k] + [x] + nodes[k..];
    ghost var r' := [head] + nodes' + [head];
    assert r' == r[..k + 1] + [x] + r[k + 1..];
    forall j | 0 <= j < |r'| - 1 ensures r'[j].next == r'[j + 1] && r'[j + 1].prev == r'[j] {
      if j < k {
        assert r[j].next == r[j + 1];
      } else if j > k + 1 {
        assert r[j - 1].next == r[j];
      }
    }
  }

  /** Removes the node, which is at position k of the list if it is in one. */
  method RemoveFromList<T>(x: ListNode<T>, ghost head: ListNode<T>, ghost nodes: seq<ListNode<T>>, ghost k: nat)
    requires Loose(x) || (Ring(head, nodes) && k < |nodes| && nodes[k] == x)
    modifies x, x.prev, x.next
    ensures Loose(x)
    ensures !old(Loose(x)) ==> Ring(head, nodes[..k] + nodes[k + 1..])
  {
    ghost var r := [head] + nodes + [head];
    assert Loose(x) || (r[k + 1] == x && r[k].next == r[k + 1] && r[k + 1].next == r[k + 2] && r[k + 2].prev == r[k + 1]);
    if x.next != null {
      x.prev.next := x.next;
      x.next.prev := x.prev;
      x.prev := null;
      x.next := null;
      ghost var nodes' := nodes[..k] + nodes[k + 1..];
      ghost var r' := [head] + nodes' + [head];
      assert r' == r[..k + 1] + r[k + 2..];
      forall j | 0 <= j < |r'| - 1 ensures r'[j].next == r'[j + 1] && r'[j + 1].prev == r'[j] {
        if j < k {
          assert r[j].next == r[j + 1];
        } else if j > k {
          assert r[j + 1].next == r[j + 2];
        }
      }
    }
  }

  /** In no list. */
  predicate Loose<T>(x: ListNode<T>)
    reads x
  {
    x.next == null && x.prev == null
  }

  /** What a head points to: the first and the last node, which point back. */
  lemma Ends<T>(head: ListNode<T>, nodes: seq<ListNode<T>>)
    requires Ring(head, nodes)
    ensures IsListEmpty(head) <==> nodes == []
    ensures Chained(nodes)
    ensures nodes == [] ==> head.next == head && head.prev == head
    ensures nodes != [] ==> head.next == nodes[0] && head.prev == nodes[|nodes| - 1]
  {
    var r := [head] + nodes + [head];
    forall k | 0 <= k < |nodes| - 1 ensures nodes[k].next == nodes[k + 1] && nodes[k + 1].prev == nodes[k] {
      assert r[k + 1].next == r[k + 2] && r[k + 2].prev == r[k + 1];
    }
    assert r[0].next == r[1];
    assert r[|nodes|].next == r[|nodes| + 1] && r[|nodes| + 1].prev == r[|nodes|];
  }

  /** The nodes of a list make a list again with a head that points to the ends of it. */
  lemma Hung<T>(head: ListNode<T>, nodes: seq<ListNode<T>>)
    requires NoDup(nodes) && head !in nodes && Chained(nodes)
    requires nodes == [] ==> head.next == head && head.prev == head
    requires nodes != [] ==> head.next == nodes[0] && nodes[0].prev == head
    requires nodes != [] ==> head.prev == nodes[|nodes| - 1] && nodes[|nodes| - 1].next == head
    ensures Ring(head, nodes)
  {
    var r := [head] + nodes + [head];
    forall k | 0 <= k < |r| - 1 ensures r[k].next == r[k + 1] && r[k + 1].prev == r[k] {
      if 0 < k < |nodes| {
        assert nodes[k - 1].next == nodes[k] && nodes[k].prev == nodes[k - 1];
      }
    }
  }

  /** Makes b the head of what another head pointed to. */
  method Rehang<T>(b: ListNode<T>, empty: bool, first: ListNode<T>, last: ListNode<T>, ghost nodes: seq<ListNode<T>>)
    requires NoDup(nodes) && b !in nodes && Chained(nodes)
    requires empty <==> nodes == []
    requires !empty ==> first == nodes[0] && last == nodes[|nodes| - 1]
    modifies b, if empty then {} else {first, last}
    ensures Ring(b, nodes)
  {
    if empty {
      b.prev, b.next := b, b;
    } else {
      b.prev, b.next := last, first;
      first.prev := b;
      last.next := b;
    }
    Hung(b, nodes);
  }

  /** The two heads exchange what is linked after them. */
  method SwapLists<T>(a: ListNode<T>, b: ListNode<T>, ghost as_: seq<ListNode<T>>, ghost bs: seq<ListNode<T>>)
    requires Ring(a, as_) && Ring(b, bs) && a != b && a !in bs && b !in as_
    requires forall n :: n in as_ ==> n !in bs
    modifies a, b, a.next, a.prev, b.next, b.prev
    ensures Ring(a, bs) && Ring(b, as_)
  {
    Ends(a, as_);
    Ends(b, bs);
    var aEmpty, bEmpty := IsListEmpty(a), IsListEmpty(b);
    var aNext, aPrev, bNext, bPrev := a.next, a.prev, b.next, b.prev;
    Rehang(b, aEmpty, aNext, aPrev, as_);
    Rehang(a, bEmpty, bNext, bPrev, bs);
  }

  /** Takes everything that is linked after one head to another one, which is in no list yet or empty. */
  method MoveHead<T>(head: ListNode<T>, other: ListNode<T>, ghost nodes: seq<ListNode<T>>)
    requires Ring(head, nodes) && nodes != [] && other != head && other !in nodes
    modifies head, other, head.next, head.prev
    ensures Ring(other, nodes) && Ring(head, [])
  {
    Ends(head, nodes);
    other.prev := head.prev;
    other.next := head.next;
    other.prev.next := other;
    other.next.prev := other;
    head.prev := head;
    head.next := head;
    Hung(other, nodes);
  }

  /** The nodes next to one in a list are of that list. */
  lemma Neighbours<T>(head: ListNode<T>, nodes: seq<ListNode<T>>, k: nat)
    requires Ring(head, nodes) && k <= |nodes|
    ensures var r := [head] + nodes + [head];
      r[k + 1].prev in r && (k < |nodes| ==> r[k + 1].next in r)
  {
    var r := [head] + nodes + [head];
    assert r[k + 1].prev == r[k];
    assert k < |nodes| ==> r[k + 1].next == r[k + 2];
  }

  // ----- families of lists -----

  function NodesOf<T>(node: map<T, ListNode<T>>, s: seq<T>): (r: seq<ListNode<T>>)
    requires forall x | x in s :: x in node
    ensures |r| == |s|
    ensures forall k :: 0 <= k < |s| ==> r[k] == node[s[k]]
  {
    seq(|s|, k requires 0 <= k < |s| => node[s[k]])
  }

  ghost predicate Heads<T>(heads: seq<ListNode<T>>) {
    NoDup(heads) && forall i :: 0 <= i < |heads| ==> heads[i].data == None
  }

  /** Every element has a node of its own. */
  ghost predicate Named<T>(node: map<T, ListNode<T>>) {
    forall x | x in node :: node[x].data == Some(x)
  }

  /** Every element is in at most one place of one list. */
  ghost predicate Placed<T>(node: map<T, ListNode<T>>, contents: seq<seq<T>>) {
    && (forall i :: 0 <= i < |contents| ==> NoDup(contents[i]))
    && (forall i, x :: 0 <= i < |contents| && x in contents[i] ==> x in node)
    && (forall i, j, x :: 0 <= i < |contents| && 0 <= j < |contents| && x in contents[i] && x in contents[j] ==> i == j)
  }

  lemma PlacedUnlink<T>(node: map<T, ListNode<T>>, contents: seq<seq<T>>, x: T)
    requires Placed(node, contents)
    ensures Placed(node, Unlink(contents, x))
    ensures forall i :: 0 <= i < |contents| ==> x !in Unlink(contents, x)[i]
  {
    forall i | 0 <= i < |contents| ensures NoDup(Unlink(contents, x)[i]) {
      WithoutNoDup(contents[i], x);
    }
  }

  lemma PlacedLink<T>(node: map<T, ListNode<T>>, contents: seq<seq<T>>, x: T, b: nat)
    requires Placed(node, contents) && x in node && b < |contents|
    requires forall i :: 0 <= i < |contents| ==> x !in contents[i]
    ensures Placed(node, Link(contents, x, b))
  {
  }

  /** Unlinking at the level of elements and of nodes. */
  lemma NodesWithout<T>(node: map<T, ListNode<T>>, s: seq<T>, k: nat)
    requires (forall x | x in s :: x in node) && NoDup(s) && k < |s|
    ensures NodesOf(node, Without(s, s[k])) == NodesOf(node, s)[..k] + NodesOf(node, s)[k + 1..]
  {
    hide Without, NoDup;
    WithoutAt(s, k);
    var r, t := NodesOf(node, s), s[..k] + s[k + 1..];
    forall i | 0 <= i < |t| ensures NodesOf(node, t)[i] == (r[..k] + r[k + 1..])[i] {
      assert t[i] == if i < k then s[i] else s[i + 1];
    }
  }

  /** Different lists have no node in common. */
  lemma Apart<T>(heads: seq<ListNode<T>>, node: map<T, ListNode<T>>, contents: seq<seq<T>>, i: nat, j: nat)
    requires Heads(heads) && Named(node) && Placed(node, contents) && |contents| == |heads|
    requires i < |heads| && j < |heads| && i != j
    ensures heads[i] != heads[j] && heads[i] !in NodesOf(node, contents[j])
    ensures forall n | n in NodesOf(node, contents[i]) :: n !in NodesOf(node, contents[j])
  {
    if i < j {
      assert heads[i] != heads[j];
    } else {
      assert heads[j] != heads[i];
    }
    forall n | n in NodesOf(node, contents[i]) ensures n !in NodesOf(node, contents[j]) {
      var k :| 0 <= k < |contents[i]| && n == node[contents[i][k]];
      forall l | 0 <= l < |contents[j]| ensures node[contents[j][l]] != n {
        assert contents[i][k] in contents[i] && contents[j][l] in contents[j];
      }
    }
  }

  /** The list that holds x, or past the last one. */
  ghost function Holder<T>(contents: seq<seq<T>>, x: T): (i: nat)
    ensures i <= |contents|
    ensures i < |contents| ==> x in contents[i]
    ensures i == |contents| ==> forall j :: 0 <= j < |contents| ==> x !in contents[j]
  {
    if i :| 0 <= i < |contents| && x in contents[i] then i else |contents|
  }

  ghost function Position<T>(s: seq<T>, x: T): (k: nat)
    requires x in s
    ensures k < |s| && s[k] == x
  {
    var k :| 0 <= k < |s| && s[k] == x; k
  }

  method MakeHeads<T>(count: nat) returns (hs: seq<ListNode<T>>)
    ensures |hs| == count && Heads(hs) && fresh(hs)
    ensures forall i :: 0 <= i < count ==> Ring(hs[i], [])
  {
    hs := [];
    while |hs| < count
      invariant |hs| <= count && Heads(hs) && fresh(hs)
      invariant forall i :: 0 <= i < |hs| ==> Ring(hs[i], [])
    {
      var h := new ListNode<T>.Head();
      hs := hs + [h];
    }
  }

  /** A family of lists over one kind of node: every element has a node, which is in at most one of the lists. */
  class Family<T(==)> {
    const heads: seq<ListNode<T>>
    ghost var node: map<T, ListNode<T>>
    ghost var contents: seq<seq<T>>

    /** All heads and nodes. */
    ghost function Footprint(): (r: set<ListNode<T>>)
      reads `node
    {
      (set h | h in heads) + node.Values
    }

    /** Some empty lists. */
    constructor (count: nat)
      ensures Valid() && node == map[] && |heads| == count && contents == seq(count, _ => [])
      ensures fresh(Footprint())
    {
      var hs := MakeHeads<T>(count);
      heads := hs;
      node := map[];
      contents := seq(count, _ => []);
      new;
      forall i | 0 <= i < |heads| ensures Linked(i, contents[i]) {
        assert NodesOf(node, contents[i]) == [];
      }
    }

    ghost predicate Shaped()
      reads `node, `contents
    {
      |contents| == |heads| && Heads(heads) && Named(node) && Placed(node, contents)
    }

    ghost predicate Linked(i: nat, s: seq<T>)
      requires i < |heads|
      reads `node, Footprint()
    {
      (forall x | x in s :: x in node) && Ring(heads[i], NodesOf(node, s))
    }

    ghost predicate Valid()
      reads `node, `contents, Footprint()
    {
      && Shaped()
      && (forall i :: 0 <= i < |heads| ==> Linked(i, contents[i]))
      && (forall x | x in node && Holder(contents, x) == |contents| :: Loose(node[x]))
    }
  
    /** A node that a list holds has its neighbours in the list, and a node that none holds is in none. */
    lemma Located(x: T)
      requires Valid() && x in node
      ensures var i := Holder(contents, x);
        if i == |heads| then Loose(node[x])
        else
          var nodes := NodesOf(node, contents[i]);
          nodes[Position(contents[i], x)] == node[x] && node[x] !in heads
            && Among(node[x].prev, heads[i], nodes) && Among(node[x].next, heads[i], nodes)
    {
      var i := Holder(contents, x);
      if i < |heads| {
        assert Linked(i, contents[i]);
        Neighbours(heads[i], NodesOf(node, contents[i]), Position(contents[i], x));
      }
    }

    /** The nodes that unlinking x may change. */
    ghost function Touched(x: T): (r: set<ListNode<T>>)
      requires Shaped() && x in node
      reads `node, `contents
    {
      var i := Holder(contents, x);
      if i < |heads| then {heads[i]} + set n | n in NodesOf(node, contents[i]) else {node[x]}
    }

    lemma TouchesNoOther(x: T, j: nat)
      requires Shaped() && x in node && j < |heads| && j != Holder(contents, x)
      ensures heads[j] !in Touched(x) && Unlink(contents, x)[j] == contents[j]
      ensures forall n | n in NodesOf(node, contents[j]) :: n !in Touched(x)
    {
      var i := Holder(contents, x);
      if i < |heads| {
        Apart(heads, node, contents, i, j);
      }
      assert x !in contents[j];
      forall k | 0 <= k < |contents[j]| ensures NodesOf(node, contents[j])[k] != node[x] {
        assert contents[j][k] in contents[j];
      }
    }

    lemma TouchesNoLoose(x: T, y: T)
      requires Shaped() && x in node && y in node && x != y && Holder(contents, y) == |heads|
      ensures node[y] !in Touched(x)
    {
      var i := Holder(contents, x);
      if i < |heads| {
        assert y !in contents[i];
        forall k | 0 <= k < |contents[i]| ensures node[y] != NodesOf(node, contents[i])[k] {
          assert contents[i][k] in contents[i];
        }
      }
    }

    /** Removes the node of x from the list that holds it, if any. */
    method UnhookNode(ghost x: T, n: ListNode<T>)
      requires Valid() && x in node && node[x] == n
      modifies Touched(x)
      ensures Loose(n)
      ensures var i := Holder(contents, x); i < |heads| ==> Linked(i, Unlink(contents, x)[i])
    {
      hide Named, Placed, Heads;
      Located(x);
      ghost var i := Holder(contents, x);
      ghost var h, nodes: seq<ListNode<T>>, k := n, [], 0;
      if i < |heads| {
        h, nodes, k := heads[i], NodesOf(node, contents[i]), Position(contents[i], x);
        assert Linked(i, contents[i]);
        NoDupAt(i);
        NodesWithout(node, contents[i], k);
      }
      RemoveFromList(n, h, nodes, k);
    }

    lemma NoDupAt(i: nat)
      requires Shaped() && i < |heads|
      ensures NoDup(contents[i]) && forall y | y in contents[i] :: y in node
    {
    }

    lemma TouchesNone(x: T)
      requires Valid() && x in node
      ensures forall y | y in node && y != x && Holder(contents, y) == |contents| :: node[y] !in Touched(x)
      ensures forall j | 0 <= j < |heads| && j != Holder(contents, x) ::
        && Linked(j, contents[j]) && heads[j] !in Touched(x) && Unlink(contents, x)[j] == contents[j]
        && forall m | m in NodesOf(node, contents[j]) :: m !in Touched(x)
    {
      hide Named, Placed, Heads, Ring, Touched, Holder;
      forall y | y in node && y != x && Holder(contents, y) == |contents| ensures node[y] !in Touched(x) {
        TouchesNoLoose(x, y);
      }
      forall j | 0 <= j < |heads| && j != Holder(contents, x)
        ensures heads[j] !in Touched(x) && Unlink(contents, x)[j] == contents[j] && Linked(j, contents[j])
        ensures forall m | m in NodesOf(node, contents[j]) :: m !in Touched(x)
      {
        TouchesNoOther(x, j);
      }
    }

    /** The pointers without x; `contents` does not say so yet. */
    method Unhook(ghost x: T, n: ListNode<T>)
      requires Valid() && x in node && node[x] == n
      modifies Touched(x)
      ensures Loose(n)
      ensures forall y | y in node && y != x && Holder(contents, y) == |contents| :: Loose(node[y])
      ensures forall i :: 0 <= i < |heads| ==> Linked(i, Unlink(contents, x)[i])
    {
      hide Named, Placed, Heads, Ring, Touched, Holder;
      TouchesNone(x);
      UnhookNode(x, n);
    }

    /** Unlinks x from whichever list holds it. */
    method Remove(ghost x: T, n: ListNode<T>)
      requires Valid() && x in node && node[x] == n
      modifies `contents, Footprint()
      ensures Valid() && node == old(node)
      ensures contents == Unlink(old(contents), x) && Holder(contents, x) == |heads|
    {
      hide Named, Placed, Heads, Ring, Touched, Holder, Linked, Unlink, Loose;
      ghost var was := contents;
      TouchedInside(x);
      Unhook(x, n);
      contents := Unlink(was, x);
      PlacedUnlink(node, was, x);
      forall y | y in node && Holder(contents, y) == |contents| ensures Loose(node[y]) {
        HolderUnlink(was, x, y);
      }
    }

    lemma TouchedInside(x: T)
      requires Shaped() && x in node
      ensures forall m | m in Touched(x) :: m in Footprint()
    {
    }

    lemma HolderUnlink(was: seq<seq<T>>, x: T, y: T)
      ensures x != y && Holder(Unlink(was, x), y) == |was| ==> Holder(was, y) == |was|
      ensures Holder(Unlink(was, x), x) == |was|
    {
    }

    /** The nodes that linking x at the tail of list b may change. */
    ghost function Tail(x: T, b: nat): (r: set<ListNode<T>>)
      requires Shaped() && x in node && b < |heads|
      reads `node, `contents
    {
      {node[x], heads[b]} + set n | n in NodesOf(node, contents[b])
    }

    lemma TailTouchesNoOther(x: T, b: nat, j: nat)
      requires Shaped() && x in node && Holder(contents, x) == |heads| && b < |heads| && j < |heads| && j != b
      ensures heads[j] !in Tail(x, b)
      ensures forall n | n in NodesOf(node, contents[j]) :: n !in Tail(x, b)
    {
      Apart(heads, node, contents, b, j);
      assert x !in contents[j];
      forall k | 0 <= k < |contents[j]| ensures NodesOf(node, contents[j])[k] != node[x] {
        assert contents[j][k] in contents[j];
      }
    }

    lemma TailTouchesNoLoose(x: T, b: nat, y: T)
      requires Shaped() && x in node && y in node && x != y && Holder(contents, y) == |heads| && b < |heads|
      ensures node[y] !in Tail(x, b)
    {
      assert y !in contents[b];
      forall k | 0 <= k < |contents[b]| ensures node[y] != NodesOf(node, contents[b])[k] {
        assert contents[b][k] in contents[b];
      }
    }

    /** Inserts the node of x before the head of list b. */
    method HookNode(ghost x: T, n: ListNode<T>, b: nat)
      requires Valid() && x in node && node[x] == n && b < |heads| && Holder(contents, x) == |heads|
      modifies Tail(x, b)
      ensures Linked(b, contents[b] + [x])
    {
      hide Placed, Heads;
      NoDupAt(b);
      ghost var s := contents[b];
      ghost var nodes := NodesOf(node, s);
      assert Linked(b, s);
      assert x !in s;
      assert n !in nodes;
      assert n != heads[b] by { HeadIsNoNode(x, b); }
      Neighbours(heads[b], nodes, |nodes|);
      InsertInList(n, heads[b], heads[b], nodes, |nodes|);
      assert NodesOf(node, s + [x]) == nodes[..|nodes|] + [n] + nodes[|nodes|..];
    }

    lemma HeadIsNoNode(x: T, b: nat)
      requires Shaped() && x in node && b < |heads|
      ensures node[x] != heads[b]
    {
    }

    /** The pointers with x; `contents` does not say so yet. */
    method Hook(ghost x: T, n: ListNode<T>, b: nat)
      requires Valid() && x in node && node[x] == n && b < |heads| && Holder(contents, x) == |heads|
      modifies Footprint()
      ensures forall y | y in node && y != x && Holder(contents, y) == |contents| :: Loose(node[y])
      ensures forall i :: 0 <= i < |heads| ==> Linked(i, Link(contents, x, b)[i])
    {
      hide Named, Placed, Heads, Ring, Tail;
      forall y | y in node && y != x && Holder(contents, y) == |contents| ensures node[y] !in Tail(x, b) {
        TailTouchesNoLoose(x, b, y);
      }
      forall j | 0 <= j < |heads| && j != b
        ensures heads[j] !in Tail(x, b) && Linked(j, contents[j])
        ensures forall m | m in NodesOf(node, contents[j]) :: m !in Tail(x, b)
      {
        TailTouchesNoOther(x, b, j);
      }
      TailInside(x, b);
      HookNode(x, n, b);
    }

    /** Links x, which no list holds, at the tail of list b. */
    method LinkLast(ghost x: T, n: ListNode<T>, b: nat)
      requires Valid() && x in node && node[x] == n && b < |heads| && Holder(contents, x) == |heads|
      modifies `contents, Footprint()
      ensures Valid() && node == old(node)
      ensures contents == Link(old(contents), x, b)
    {
      hide Named, Placed, Heads, Ring, Tail, Holder, Linked;
      ghost var was := contents;
      Hook(x, n, b);
      contents := Link(was, x, b);
      PlacedLink(node, was, x, b);
      forall y | y in node && Holder(contents, y) == |contents| ensures Loose(node[y]) {
        HolderLink(was, x, b, y);
      }
    }

    /** There is one list for each head. */
    lemma Counted()
      requires Valid()
      ensures |contents| == |heads|
      ensures forall i, x :: 0 <= i < |contents| && x in contents[i] ==> x in node
    {
    }

    lemma TailInside(x: T, b: nat)
      requires Shaped() && x in node && b < |heads|
      ensures forall m | m in Tail(x, b) :: m in Footprint()
    {
    }

    lemma HolderLink(was: seq<seq<T>>, x: T, b: nat, y: T)
      requires b < |was|
      ensures Holder(Link(was, x, b), y) == |was| ==> x != y && Holder(was, y) == |was|
    {
      assert x in Link(was, x, b)[b];
    }

    /** Moves x to the tail of list b from wherever it is linked. */
    method Relink(ghost x: T, n: ListNode<T>, b: nat)
      requires Valid() && x in node && node[x] == n && b < |heads|
      modifies `contents, Footprint()
      ensures Valid() && node == old(node)
      ensures contents == Link(Unlink(old(contents), x), x, b)
    {
      Remove(x, n);
      LinkLast(x, n, b);
    }

    /** Gives x a node, in no list. */
    method Add(ghost x: T, n: ListNode<T>)
      requires Valid() && x !in node && n.data == Some(x) && Loose(n)
      modifies `node
      ensures Valid() && node == old(node)[x := n] && contents == old(contents)
    {
      AddedValid(x, n);
      node := node[x := n];
    }

    lemma AddedValid(x: T, n: ListNode<T>)
      requires Valid() && x !in node && n.data == Some(x)
      ensures Named(node[x := n]) && Placed(node[x := n], contents)
      ensures forall i :: 0 <= i < |heads| ==>
        (forall y | y in contents[i] :: y in node) && NodesOf(node[x := n], contents[i]) == NodesOf(node, contents[i])
    {
      forall i | 0 <= i < |heads|
        ensures (forall y | y in contents[i] :: y in node) && NodesOf(node[x := n], contents[i]) == NodesOf(node, contents[i])
      {
      }
    }

    /** Walks a list from its head to its head. */
    method Elements(i: nat) returns (s: seq<T>)
      requires Valid() && i < |heads|
      ensures s == contents[i]
    {
      hide Placed, Heads;
      s := [];
      ghost var all := contents[i];
      ghost var r := [heads[i]] + NodesOf(node, all) + [heads[i]];
      NoDupAt(i);
      assert Linked(i, all);
      HeadData(i);
      assert r[0].next == r[1];
      var cur := heads[i].next;
      while cur != heads[i]
        invariant |s| <= |all| && s == all[..|s|] && cur == r[|s| + 1]
        decreases |all| - |s|
      {
        assert r[|s| + 1].next == r[|s| + 2];
        s := s + [cur.data.value];
        cur := cur.next;
      }
    }

    lemma HeadData(i: nat)
      requires Shaped() && i < |heads|
      ensures forall x | x in node :: node[x] != heads[i]
    {
    }

    /** Takes away the node of x, which no list holds. */
    ghost method Forget(x: T)
      requires Valid() && x in node && Holder(contents, x) == |heads|
      modifies `node
      ensures Valid() && node == old(node) - {x} && contents == old(contents)
    {
      hide Named, Placed, Heads, Ring, Holder;
      ForgottenNodes(x);
      node := node - {x};
    }

    lemma ForgottenNodes(x: T)
      requires Shaped() && x in node && Holder(contents, x) == |heads|
      ensures Named(node - {x}) && Placed(node - {x}, contents)
      ensures forall i | 0 <= i < |heads| ::
        && (forall y | y in contents[i] :: y in node - {x} && y in node)
        && NodesOf(node - {x}, contents[i]) == NodesOf(node, contents[i])
    {
      hide Heads;
      forall i | 0 <= i < |heads|
        ensures forall y | y in contents[i] :: y in node - {x} && y in node
        ensures NodesOf(node - {x}, contents[i]) == NodesOf(node, contents[i])
      {
        assert x !in contents[i];
      }
    }

    /** Links a new element at the tail of list b. */
    method Enter(ghost x: T, n: ListNode<T>, b: nat)
      requires Valid() && x !in node && n.data == Some(x) && Loose(n) && b < |heads|
      modifies this, Footprint(), n
      ensures Valid() && node == old(node)[x := n]
      ensures contents == Link(old(contents), x, b)
    {
      Counted();
      Add(x, n);
      LinkLast(x, n, b);
    }

    /** Unlinks an element that is freed. */
    method Leave(ghost x: T, n: ListNode<T>)
      requires Valid() && x in node && node[x] == n
      modifies this, Footprint()
      ensures Valid() && node == old(node) - {x}
      ensures contents == Unlink(old(contents), x)
    {
      Remove(x, n);
      Forget(x);
    }

    /** Moves the contents of list i to list j, which is empty. */
    method MoveAll(i: nat, j: nat)
      requires Valid() && i < |heads| && j < |heads| && i != j && contents[i] != [] && contents[j] == []
      modifies `contents, Footprint()
      ensures Valid() && node == old(node)
      ensures contents == old(contents)[i := []][j := old(contents[i])]
    {
      hide Named, Placed, Heads, Ring, Holder;
      MovePointers(i, j);
      Exchange(i, j);
    }

    /** The pointers after the move; `contents` does not say so yet. */
    method MovePointers(i: nat, j: nat)
      requires Valid() && i < |heads| && j < |heads| && i != j && contents[i] != [] && contents[j] == []
      modifies Footprint()
      ensures Linked(i, contents[j]) && Linked(j, contents[i])
      ensures forall k :: 0 <= k < |heads| && k != i && k != j ==> Linked(k, contents[k])
      ensures forall y | y in node && Holder(contents, y) == |contents| :: Loose(node[y])
    {
      hide Named, Placed, Heads;
      SwapReady(i, j);
      hide Ring, Holder;
      MoveHead(heads[i], heads[j], NodesOf(node, contents[i]));
    }

    /** Two lists hold what the pointers say. */
    ghost method Exchange(i: nat, j: nat)
      requires Shaped() && i < |heads| && j < |heads| && i != j
      requires Linked(i, contents[j]) && Linked(j, contents[i])
      requires forall k :: 0 <= k < |heads| && k != i && k != j ==> Linked(k, contents[k])
      requires forall y | y in node && Holder(contents, y) == |contents| :: Loose(node[y])
      modifies `contents
      ensures Valid() && contents == old(contents)[i := old(contents[j])][j := old(contents[i])]
    {
      hide Named, Placed, Heads, Holder, Ring;
      ghost var was := contents;
      contents := was[i := was[j]][j := was[i]];
      PlacedSwap(node, was, i, j);
      forall y | y in node && Holder(contents, y) == |contents| ensures Loose(node[y]) {
        HolderSwap(was, i, j, y);
      }
    }

    /** Exchanges the contents of two lists. */
    method Swap(i: nat, j: nat)
      requires Valid() && i < |heads| && j < |heads| && i != j
      modifies `contents, Footprint()
      ensures Valid() && node == old(node)
      ensures contents == old(contents)[i := old(contents[j])][j := old(contents[i])]
    {
      hide Named, Placed, Heads, Ring;
      SwapPointers(i, j);
      Exchange(i, j);
    }

    lemma SwapReady(i: nat, j: nat)
      requires Valid() && i < |heads| && j < |heads| && i != j
      ensures var is_, js := NodesOf(node, contents[i]), NodesOf(node, contents[j]);
        && Ring(heads[i], is_) && Ring(heads[j], js) && ApartFrom(heads[i], is_, heads[j], js)
        && (forall h | h in {heads[i].next, heads[i].prev} :: h == heads[i] || h in is_)
        && (forall h | h in {heads[j].next, heads[j].prev} :: h == heads[j] || h in js)
        && (forall h | h in is_ || h in js :: h in Footprint())
        && heads[i] in Footprint() && heads[j] in Footprint()
        && (forall k | 0 <= k < |heads| && k != i && k != j ::
            && Linked(k, contents[k])
            && ApartFrom(heads[k], NodesOf(node, contents[k]), heads[i], is_)
            && ApartFrom(heads[k], NodesOf(node, contents[k]), heads[j], js))
        && (forall y | y in node && Holder(contents, y) == |contents| ::
            node[y] !in is_ && node[y] !in js && node[y] !in heads)
    {
      hide Named, Placed, Heads, Holder, Ring;
      ghost var is_, js := NodesOf(node, contents[i]), NodesOf(node, contents[j]);
      assert Linked(i, contents[i]) && Linked(j, contents[j]);
      Ends(heads[i], is_);
      Ends(heads[j], js);
      Apart(heads, node, contents, i, j);
      Apart(heads, node, contents, j, i);
      forall k | 0 <= k < |heads| && k != i && k != j
        ensures ApartFrom(heads[k], NodesOf(node, contents[k]), heads[i], is_)
        ensures ApartFrom(heads[k], NodesOf(node, contents[k]), heads[j], js)
        ensures Linked(k, contents[k])
      {
        Apart(heads, node, contents, k, i);
        Apart(heads, node, contents, i, k);
        Apart(heads, node, contents, k, j);
        Apart(heads, node, contents, j, k);
      }
      forall y | y in node && Holder(contents, y) == |contents|
        ensures node[y] !in is_ && node[y] !in js && node[y] !in heads
      {
        LooseApart(y, i);
        LooseApart(y, j);
      }
    }

    /** The pointers after the exchange; `contents` does not say so yet. */
    method SwapPointers(i: nat, j: nat)
      requires Valid() && i < |heads| && j < |heads| && i != j
      modifies Footprint()
      ensures Linked(i, contents[j]) && Linked(j, contents[i])
      ensures forall k :: 0 <= k < |heads| && k != i && k != j ==> Linked(k, contents[k])
      ensures forall y | y in node && Holder(contents, y) == |contents| :: Loose(node[y])
    {
      hide Named, Placed, Heads;
      ghost var is_, js := NodesOf(node, contents[i]), NodesOf(node, contents[j]);
      SwapReady(i, j);
      hide Ring, Holder;
      SwapLists(heads[i], heads[j], is_, js);
    }

    lemma LooseApart(y: T, i: nat)
      requires Shaped() && y in node && Holder(contents, y) == |heads| && i < |heads|
      ensures node[y] !in NodesOf(node, contents[i]) && node[y] !in heads
    {
      assert y !in contents[i];
      forall k | 0 <= k < |contents[i]| ensures node[y] != NodesOf(node, contents[i])[k] {
        assert contents[i][k] in contents[i];
      }
    }

    lemma HolderSwap(was: seq<seq<T>>, i: nat, j: nat, y: T)
      requires i < |was| && j < |was|
      ensures Holder(was[i := was[j]][j := was[i]], y) == |was| ==> Holder(was, y) == |was|
    {
      var now := was[i := was[j]][j := was[i]];
      assert now[i] == was[j] && now[j] == was[i];
      assert forall k :: 0 <= k < |was| && k != i && k != j ==> now[k] == was[k];
    }
  }

  lemma PlacedSwap<T>(node: map<T, ListNode<T>>, contents: seq<seq<T>>, i: nat, j: nat)
    requires Placed(node, contents) && i < |contents| && j < |contents|
    ensures Placed(node, contents[i := contents[j]][j := contents[i]])
  {
  }

  ghost predicate ApartFrom<T>(a: ListNode<T>, as_: seq<ListNode<T>>, b: ListNode<T>, bs: seq<ListNode<T>>) {
    a != b && a !in bs && b !in as_ && forall n | n in as_ :: n !in bs
  }

  predicate Among<T>(n: ListNode?<T>, head: ListNode<T>, nodes: seq<ListNode<T>>) {
    n != null && (n == head || n in nodes)
  }
}
