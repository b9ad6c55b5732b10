/** The channel's lists of queries as linked lists of nodes: the pointers that stand for the sequences of Links. */
module QueryLists {
  import opened Wrappers
  import opened Lists
  import opened Queries
  import opened Indexes
  import opened LinkedLists

  /** The indexes that a query is linked into, each by a node of its own. */
  const ALL := 0
  const BY_QID := 1
  const BY_TIMEOUT := 2
  const BY_SERVER := 3

  class Linkage {
    const families: seq<Family<Query>>

    /** All heads and nodes. */
    ghost function Heap(): set<ListNode<Query>>
      reads families
    {
      HeapOf(Heads(), Nodes())
    }

    ghost function Heads(): seq<seq<ListNode<Query>>> {
      seq(|families|, i requires 0 <= i < |families| => families[i].heads)
    }

    ghost predicate Separate()
      reads families
    {
      forall i, j :: 0 <= i < |families| && 0 <= j < |families| && i != j ==>
        families[i] != families[j] && families[i].Footprint() !! families[j].Footprint()
    }

    ghost predicate Valid()
      reads families, set f: Family<Query>, n | f in families && n in f.Footprint() :: n
    {
      |families| == 4 && Separate() && forall i :: 0 <= i < |families| ==> families[i].Valid()
    }

    /** What the lists of each index hold. */
    ghost function Contents(): (r: seq<seq<seq<Query>>>)
      reads families
    {
      seq(|families|, i requires 0 <= i < |families| reads families => families[i].contents)
    }

    /** The nodes of each index. */
    ghost function Nodes(): (r: seq<map<Query, ListNode<Query>>>)
      reads families
    {
      seq(|families|, i requires 0 <= i < |families| reads families => families[i].node)
    }

    /** The lists are those of `links`. */
    ghost predicate Represents(links: Links)
      reads families
    {
      Contents() == Table(links)
    }

    // ----- one index -----

    ghost predicate At(i: nat, nodes: map<Query, ListNode<Query>>, contents: seq<seq<Query>>)
      requires i < |families|
      reads families[i]
    {
      families[i].node == nodes && families[i].contents == contents
    }

    lemma Whole(i: nat)
      requires Valid() && i < 4
      ensures |families| == |Nodes()| == |Contents()| == 4 && families[i].Valid() && |families[i].contents| == |families[i].heads|
      ensures families[i].contents == Contents()[i] && families[i].node == Nodes()[i]
      ensures families[i] in families && forall n | n in families[i].Footprint() :: n in Heap()
    {
      hide Family.Valid;
      families[i].Counted();
      forall n | n in families[i].Footprint() ensures n in Heap() {
        if n in families[i].heads {
          assert n in Heads()[i];
        } else {
          var q :| q in families[i].node && families[i].node[q] == n;
          assert Nodes()[i][q] == n;
        }
      }
    }

    lemma HeapInside()
      ensures forall n | n in Heap() :: exists i :: 0 <= i < |families| && n in families[i].Footprint()
    {
      forall n | n in Heap() ensures exists i :: 0 <= i < |families| && n in families[i].Footprint() {
        if i, h :| 0 <= i < |families| && h in families[i].heads && n == h {
          assert n in families[i].Footprint();
        } else {
          var i, q :| 0 <= i < |families| && q in Nodes()[i] && n == Nodes()[i][q];
          assert n in families[i].Footprint();
        }
      }
    }

    /** What is left unchanged when one index changes. */
    lemma Snapshot(i: nat, nodes: seq<map<Query, ListNode<Query>>>, contents: seq<seq<seq<Query>>>)
      requires i < 4 == |families| == |nodes| == |contents|
      requires forall j :: 0 <= j < 4 && j != i ==> At(j, nodes[j], contents[j])
      ensures Nodes() == nodes[i := families[i].node] && Contents() == contents[i := families[i].contents]
    {
    }

    /** One index moves a query to the tail of its list b. */
    method RelinkOne(i: nat, q: Query, n: ListNode<Query>, b: nat)
      requires Valid() && i < 4 && HasIn(families[i].node, q, n) && b < |families[i].contents| == |families[i].heads|
      modifies families[i], families[i].Footprint()
      ensures Valid() && families[i].node == old(families[i].node)
      ensures families[i].contents == Link(Unlink(old(families[i].contents), q), q, b)
      ensures forall j :: 0 <= j < 4 && j != i ==> At(j, old(families[j].node), old(families[j].contents))
    {
      hide Family.Valid, Link, Unlink;
      families[i].Relink(q, n, b);
    }

    method RelinkIn(i: nat, q: Query, n: ListNode<Query>, b: nat)
      requires Valid() && i < 4 && HasIn(Nodes()[i], q, n) && b < |Contents()[i]|
      modifies families, Heap()
      ensures Valid() && Nodes() == old(Nodes()) && Heap() == old(Heap())
      ensures Contents() == old(Contents())[i := Link(Unlink(old(Contents()[i]), q), q, b)]
    {
      hide Valid, HeapOf, Link, Unlink;
      Whole(i);
      RelinkOne(i, q, n, b);
      Snapshot(i, old(Nodes()), old(Contents()));
    }

    /** One index takes a node for a new query, which it links at the tail of its list b or nowhere. */
    method EnterOne(i: nat, q: Query, n: ListNode<Query>, b: Option<nat>)
      requires Valid() && i < 4 && q !in families[i].node && n.data == Some(q) && Loose(n)
      requires forall j :: 0 <= j < 4 ==> n !in families[j].Footprint()
      requires b.Some? ==> b.value < |families[i].contents| == |families[i].heads|
      modifies families[i], families[i].Footprint(), n
      ensures Valid() && families[i].node == old(families[i].node)[q := n]
      ensures families[i].contents ==
        if b.Some? then Link(old(families[i].contents), q, b.value) else old(families[i].contents)
      ensures forall j :: 0 <= j < 4 && j != i ==> At(j, old(families[j].node), old(families[j].contents))
    {
      hide Family.Valid, Link, Unlink;
      if b.Some? {
        families[i].Enter(q, n, b.value);
      } else {
        families[i].Add(q, n);
      }
    }

    method EnterIn(i: nat, q: Query, n: ListNode<Query>, b: Option<nat>)
      requires Valid() && i < 4 && q !in Nodes()[i] && n.data == Some(q) && Loose(n) && n !in Heap()
      requires b.Some? ==> b.value < |Contents()[i]|
      modifies families, Heap(), n
      ensures Valid() && Nodes() == old(Nodes())[i := old(Nodes()[i])[q := n]] && Heap() == old(Heap()) + {n}
      ensures Contents() == if b.Some? then old(Contents())[i := Link(old(Contents()[i]), q, b.value)] else old(Contents())
    {
      hide Valid, HeapOf, Link, Unlink;
      Whole(i);
      forall j | 0 <= j < 4 ensures n !in families[j].Footprint() {
        Whole(j);
      }
      EnterOne(i, q, n, b);
      Snapshot(i, old(Nodes()), old(Contents()));
      HeapEnters(Heads(), old(Nodes()), i, q, n);
    }

    /** One index unlinks a query and takes its node away. */
    method LeaveOne(i: nat, q: Query, n: ListNode<Query>)
      requires Valid() && i < 4 && HasIn(families[i].node, q, n)
      modifies families[i], families[i].Footprint()
      ensures Valid() && families[i].node == old(families[i].node) - {q}
      ensures families[i].contents == Unlink(old(families[i].contents), q)
      ensures forall j :: 0 <= j < 4 && j != i ==> At(j, old(families[j].node), old(families[j].contents))
    {
      hide Family.Valid, Link, Unlink;
      families[i].Leave(q, n);
    }

    method LeaveIn(i: nat, q: Query, n: ListNode<Query>)
      requires Valid() && i < 4 && HasIn(Nodes()[i], q, n)
      modifies families, Heap()
      ensures Valid() && Nodes() == old(Nodes())[i := old(Nodes()[i]) - {q}] && Heap() <= old(Heap())
      ensures Contents() == old(Contents())[i := Unlink(old(Contents()[i]), q)]
    {
      hide Valid, HeapOf, Link, Unlink;
      Whole(i);
      LeaveOne(i, q, n);
      Snapshot(i, old(Nodes()), old(Contents()));
      HeapLeaves(Heads(), old(Nodes()), i, q);
    }

    lemma HeapEnters(heads: seq<seq<ListNode<Query>>>, nodes: seq<map<Query, ListNode<Query>>>, i: nat, q: Query, n: ListNode<Query>)
      requires i < |nodes| && q !in nodes[i]
      ensures HeapOf(heads, nodes[i := nodes[i][q := n]]) == HeapOf(heads, nodes) + {n}
    {
      var after := nodes[i := nodes[i][q := n]];
      assert after[i][q] == n;
      forall m | m in HeapOf(heads, nodes) ensures m in HeapOf(heads, after) {
        if j, p :| 0 <= j < |nodes| && p in nodes[j] && nodes[j][p] == m {
          assert p in after[j] && after[j][p] == m;
        }
      }
    }

    lemma HeapLeaves(heads: seq<seq<ListNode<Query>>>, nodes: seq<map<Query, ListNode<Query>>>, i: nat, q: Query)
      requires i < |nodes|
      ensures HeapOf(heads, nodes[i := nodes[i] - {q}]) <= HeapOf(heads, nodes)
    {
    }

    /** An error takes the list of one server. */
    method Steal(s: nat, ghost links: Links)
      requires Valid() && Represents(links) && s < |links.byServer|
      modifies families, Heap()
      ensures Valid() && Represents(links.Steal(s)) && Nodes() == old(Nodes()) && Heap() == old(Heap())
    {
      hide Valid, HeapOf;
      Whole(BY_SERVER);
      StealRefines(links, s);
      SwapOne(s, |families[BY_SERVER].heads| - 1);
      Snapshot(BY_SERVER, old(Nodes()), old(Contents()));
    }

    method SwapOne(s: nat, local: nat)
      requires Valid() && s < local < |families[BY_SERVER].contents| == |families[BY_SERVER].heads|
      modifies families[BY_SERVER], families[BY_SERVER].Footprint()
      ensures Valid() && families[BY_SERVER].node == old(families[BY_SERVER].node)
      ensures var was := old(families[BY_SERVER].contents);
        families[BY_SERVER].contents == was[s := was[local]][local := was[s]]
      ensures forall j :: 0 <= j < 4 && j != BY_SERVER ==> At(j, old(families[j].node), old(families[j].contents))
    {
      hide Family.Valid;
      families[BY_SERVER].Swap(s, local);
    }

    /** A cancellation takes the list of all queries. */
    method Detach(ghost links: Links)
      requires Valid() && Represents(links) && links.all != [] && links.detached == []
      modifies families, Heap()
      ensures Valid() && Represents(links.Detach()) && Nodes() == old(Nodes()) && Heap() == old(Heap())
    {
      hide Valid, HeapOf;
      Whole(ALL);
      MoveAllOne();
      Snapshot(ALL, old(Nodes()), old(Contents()));
    }

    method MoveAllOne()
      requires Valid() && |families[ALL].contents| == |families[ALL].heads| == 2
      requires families[ALL].contents[0] != [] && families[ALL].contents[1] == []
      modifies families[ALL], families[ALL].Footprint()
      ensures Valid() && families[ALL].node == old(families[ALL].node)
      ensures families[ALL].contents == [[], old(families[ALL].contents[0])]
      ensures forall j :: 0 <= j < 4 && j != ALL ==> At(j, old(families[j].node), old(families[j].contents))
    {
      hide Family.Valid;
      families[ALL].MoveAll(0, 1);
    }

    // ----- all indexes -----

    constructor (nservers: nat)
      ensures Valid() && Represents(NoLinks(nservers)) && fresh(Heap()) && fresh(families)
      ensures Nodes() == [map[], map[], map[], map[]]
    {
      hide Family.Valid;
      var sizes := [2, QID_TABLE_SIZE, TIMEOUT_TABLE_SIZE, nservers + 1];
      var fs := MakeFamilies(sizes);
      families := fs;
      new;
      HeapInside();
      NoLinksRefines(nservers, sizes);
    }

    /** Links a new query, whose nodes are in no list, into the list of all and under its query id. */
    method Insert(q: Query, n: seq<ListNode<Query>>, ghost links: Links)
      requires Valid() && Represents(links) && |links.byQid| == QID_TABLE_SIZE
      requires Unknown(Nodes(), q) && |n| == 4 && NoDup(n)
      requires forall i :: 0 <= i < 4 ==> n[i].data == Some(q) && Loose(n[i]) && n[i] !in Heap()
      modifies families, Heap(), n
      ensures Valid() && Represents(links.Insert(q)) && Nodes() == Noted(old(Nodes()), q, n)
      ensures Heap() == old(Heap()) + {n[0]} + {n[1]} + {n[2]} + {n[3]}
    {
      hide Valid, Contents, Heap, Nodes, Noted, Table;
      NotedByOne(Nodes(), q, n);
      EnterLinked(q, n[ALL], n[BY_QID], links);
      EnterIn(BY_TIMEOUT, q, n[BY_TIMEOUT], None);
      EnterIn(BY_SERVER, q, n[BY_SERVER], None);
    }

    /** The nodes that are linked at once. */
    method EnterLinked(q: Query, n: ListNode<Query>, m: ListNode<Query>, ghost links: Links)
      requires Valid() && Represents(links) && |links.byQid| == QID_TABLE_SIZE
      requires Unknown(Nodes(), q) && n != m && n.data == m.data == Some(q)
      requires Loose(n) && Loose(m) && n !in Heap() && m !in Heap()
      modifies families, Heap(), n, m
      ensures Nodes() == old(NotedBoth(Nodes(), q, n, m)) && Heap() == old(Heap()) + {n} + {m}
      ensures Valid() && Represents(links.Insert(q))
    {
      hide Valid, Contents, Heap, Nodes, Link;
      InsertRefines(links, q);
      EnterIn(ALL, q, n, Some(0));
      EnterIn(BY_QID, q, m, Some(q.qid % QID_TABLE_SIZE));
    }

    /** Unlinks a query that is freed from every list. */
    method Free(q: Query, n: seq<ListNode<Query>>, ghost links: Links)
      requires Valid() && Represents(links) && HasAll(Nodes(), q, n)
      modifies families, Heap()
      ensures Valid() && Represents(links.Free(q)) && Heap() <= old(Heap())
      ensures Nodes() == Dropped(old(Nodes()), q)
    {
      hide Valid, Contents, Heap, Nodes, Unlink, Table;
      FreeRefines(links, q);
      LeaveIn(ALL, q, n[ALL]);
      LeaveIn(BY_QID, q, n[BY_QID]);
      LeaveIn(BY_TIMEOUT, q, n[BY_TIMEOUT]);
      LeaveIn(BY_SERVER, q, n[BY_SERVER]);
    }

    /** What sending a query does to the lists. */
    method Move(q: Query, n: seq<ListNode<Query>>, b: nat, s: nat, ghost links: Links)
      requires Valid() && Represents(links) && HasAll(Nodes(), q, n) && b < |links.byTimeout| && s < |links.byServer|
      modifies families, Heap()
      ensures Valid() && Represents(links.Move(q, b, s)) && Nodes() == old(Nodes()) && Heap() == old(Heap())
    {
      hide Valid, Contents, Heap, Nodes, Link, Unlink;
      MovesRefine(links, q, b, s);
      RelinkIn(BY_TIMEOUT, q, n[BY_TIMEOUT], b);
      RelinkIn(BY_SERVER, q, n[BY_SERVER], s);
    }
  }

  lemma MovesRefine(links: Links, q: Query, b: nat, s: nat)
    requires b < |links.byTimeout| && s < |links.byServer|
    ensures var t := Table(links);
      t[BY_TIMEOUT := Link(Unlink(t[BY_TIMEOUT], q), q, b)][BY_SERVER := Link(Unlink(t[BY_SERVER], q), q, s)]
        == Table(links.Move(q, b, s))
  {
    var was, now := links.byServer + [links.stolen], links.Move(q, b, s);
    assert Link(Unlink(was, q), q, s) == now.byServer + [now.stolen];
  }

  lemma FreeRefines(links: Links, q: Query)
    ensures var t := Table(links);
      t[ALL := Unlink(t[ALL], q)][BY_QID := Unlink(t[BY_QID], q)][BY_TIMEOUT := Unlink(t[BY_TIMEOUT], q)]
        [BY_SERVER := Unlink(t[BY_SERVER], q)] == Table(links.Free(q))
  {
    var t, u := Table(links), Table(links.Free(q));
    assert Unlink(t[ALL], q) == u[ALL];
    assert Unlink(t[BY_SERVER], q) == u[BY_SERVER];
  }

  lemma InsertRefines(links: Links, q: Query)
    requires |links.byQid| == QID_TABLE_SIZE
    ensures var t := Table(links);
      t[ALL := Link(t[ALL], q, 0)][BY_QID := Link(t[BY_QID], q, q.qid % QID_TABLE_SIZE)] == Table(links.Insert(q))
  {
    assert Link(Table(links)[ALL], q, 0) == Table(links.Insert(q))[ALL];
  }

  lemma StealRefines(links: Links, s: nat)
    requires s < |links.byServer|
    ensures var t, n := Table(links), |links.byServer|;
      t[BY_SERVER := t[BY_SERVER][s := t[BY_SERVER][n]][n := t[BY_SERVER][s]]] == Table(links.Steal(s))
  {
    var was, n, now := links.byServer + [links.stolen], |links.byServer|, links.Steal(s);
    assert was[s := was[n]][n := was[s]] == now.byServer + [now.stolen];
  }

  lemma NoLinksRefines(nservers: nat, sizes: seq<nat>)
    requires sizes == [2, QID_TABLE_SIZE, TIMEOUT_TABLE_SIZE, nservers + 1]
    ensures Table(NoLinks(nservers)) == seq(4, i requires 0 <= i < 4 => Empty(sizes[i]))
  {
    var none: seq<Query> := [];
    assert Table(NoLinks(nservers))[ALL] == [none, none] == Empty(2);
    assert Table(NoLinks(nservers))[BY_SERVER] == Empty(nservers + 1);
  }

  function Empty(n: nat): seq<seq<Query>> { seq(n, _ => []) }

  /** One family of empty lists for each size. */
  method MakeFamilies(sizes: seq<nat>) returns (fs: seq<Family<Query>>)
    ensures |fs| == |sizes| && fresh(fs)
    ensures forall i :: 0 <= i < |fs| ==> Made(fs[i], sizes[i]) && fresh(fs[i].Footprint())
    ensures forall i, j :: 0 <= i < |fs| && 0 <= j < |fs| && i != j ==>
      fs[i] != fs[j] && fs[i].Footprint() !! fs[j].Footprint()
  {
    hide Family.Valid;
    fs := [];
    while |fs| < |sizes|
      invariant |fs| <= |sizes| && fresh(fs)
      invariant forall i :: 0 <= i < |fs| ==> Made(fs[i], sizes[i]) && fresh(fs[i].Footprint())
      invariant forall i, j :: 0 <= i < |fs| && 0 <= j < |fs| && i != j ==>
        fs[i] != fs[j] && fs[i].Footprint() !! fs[j].Footprint()
    {
      var f := new Family(sizes[|fs|]);
      fs := fs + [f];
    }
  }

  ghost predicate Made(f: Family<Query>, size: nat)
    reads f, f.Footprint()
  {
    f.Valid() && f.node == map[] && f.contents == Empty(size)
  }

  ghost predicate Unknown(nodes: seq<map<Query, ListNode<Query>>>, q: Query) {
    |nodes| == 4 && forall i :: 0 <= i < 4 ==> q !in nodes[i]
  }

  function Noted(nodes: seq<map<Query, ListNode<Query>>>, q: Query, n: seq<ListNode<Query>>): seq<map<Query, ListNode<Query>>>
    requires |nodes| == |n| == 4
  {
    [nodes[0][q := n[0]], nodes[1][q := n[1]], nodes[2][q := n[2]], nodes[3][q := n[3]]]
  }

  function NotedBoth(nodes: seq<map<Query, ListNode<Query>>>, q: Query, n: ListNode<Query>, m: ListNode<Query>):
    seq<map<Query, ListNode<Query>>>
    requires |nodes| == 4
  {
    nodes[0 := nodes[0][q := n]][1 := nodes[1][q := m]]
  }

  lemma NotedByOne(nodes: seq<map<Query, ListNode<Query>>>, q: Query, n: seq<ListNode<Query>>)
    requires |nodes| == |n| == 4
    ensures Noted(nodes, q, n) ==
      NotedBoth(nodes, q, n[0], n[1])[2 := nodes[2][q := n[2]]][3 := nodes[3][q := n[3]]]
  {
  }

  function Dropped(nodes: seq<map<Query, ListNode<Query>>>, q: Query): seq<map<Query, ListNode<Query>>>
    requires |nodes| == 4
  {
    [nodes[0] - {q}, nodes[1] - {q}, nodes[2] - {q}, nodes[3] - {q}]
  }

  ghost function HeapOf(heads: seq<seq<ListNode<Query>>>, nodes: seq<map<Query, ListNode<Query>>>): set<ListNode<Query>> {
    (set i, h | 0 <= i < |heads| && h in heads[i] :: h) + (set i, q | 0 <= i < |nodes| && q in nodes[i] :: nodes[i][q])
  }

  ghost predicate HasIn(nodes: map<Query, ListNode<Query>>, q: Query, n: ListNode<Query>) {
    q in nodes && nodes[q] == n
  }

  ghost predicate HasAll(nodes: seq<map<Query, ListNode<Query>>>, q: Query, n: seq<ListNode<Query>>) {
    |nodes| == |n| == 4 && forall i :: 0 <= i < 4 ==> HasIn(nodes[i], q, n[i])
  }

  /** The lists of every index; the one after those by server is the local list of an error, and the second one of all
      queries the local list of a cancellation. */
  function Table(links: Links): (r: seq<seq<seq<Query>>>)
    ensures |r| == 4
  {
    [[links.all, links.detached], links.byQid, links.byTimeout, links.byServer + [links.stolen]]
  }
}
