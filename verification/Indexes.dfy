/** The lists that a channel links every outstanding query into: all queries, by query id,
    by deadline second and by server. */
module Indexes {
  import opened Lists
  import opened Queries

  const QID_TABLE_SIZE := 2048
  const TIMEOUT_TABLE_SIZE := 1024

  /** The queries of `s` that hash to bucket `b`, in order. */
  function QidBucket(s: seq<Query>, b: nat): (r: seq<Query>)
    ensures forall q | q in r :: q in s && q.qid % QID_TABLE_SIZE == b
    ensures forall q | q in s && q.qid % QID_TABLE_SIZE == b :: q in r
  {
    if s == [] then []
    else if s[0].qid % QID_TABLE_SIZE == b then [s[0]] + QidBucket(s[1..], b)
    else QidBucket(s[1..], b)
  }

  lemma {:induction false} QidBucketConcat(s: seq<Query>, t: seq<Query>, b: nat)
    ensures QidBucket(s + t, b) == QidBucket(s, b) + QidBucket(t, b)
  {
    if s == [] {
      assert s + t == t;
    } else {
      assert (s + t)[1..] == s[1..] + t;
      QidBucketConcat(s[1..], t, b);
    }
  }

  lemma {:induction false} QidBucketWithout(s: seq<Query>, q: Query, b: nat)
    ensures QidBucket(Without(s, q), b) == Without(QidBucket(s, b), q)
  {
    if s != [] {
      QidBucketWithout(s[1..], q, b);
      var t, u := [s[0]], s[1..];
      assert s == t + u;
      WithoutConcat(t, u, q);
      QidBucketConcat(Without(t, q), Without(u, q), b);
      QidBucketConcat(t, u, b);
      WithoutConcat(QidBucket(t, b), QidBucket(u, b), q);
      assert t[1..] == [];
    }
  }

  /** The contents of the lists. `all` is the channel's own list of queries; `detached` is the list
      that a cancellation drains, `stolen` the list of queries an error takes from one server. */
  datatype Links = Links(
    all: seq<Query>,
    detached: seq<Query>,
    byQid: seq<seq<Query>>,
    byTimeout: seq<seq<Query>>,
    byServer: seq<seq<Query>>,
    stolen: seq<Query>)
  {
    /** The queries that are not freed yet, oldest first. */
    function Live(): seq<Query> { detached + all }

    /** Every list is free of repetitions and holds live queries only; the qid buckets are exact. */
    ghost predicate WellFormed(nservers: nat) {
      && NoDup(Live())
      && |byQid| == QID_TABLE_SIZE && |byTimeout| == TIMEOUT_TABLE_SIZE && |byServer| == nservers
      && (forall b :: 0 <= b < |byQid| ==> byQid[b] == QidBucket(Live(), b))
      && (forall b :: 0 <= b < |byTimeout| ==> ListOk(byTimeout[b], Live()))
      && (forall s :: 0 <= s < |byServer| ==> ListOk(byServer[s], Live()))
      && ListOk(stolen, Live())
    }

    /** `q` is linked under deadline bucket `b` and under server `s` or, failing that, stolen;
        and nowhere else. */
    ghost predicate LinkedAt(q: Query, b: nat, s: nat) {
      && (forall i :: 0 <= i < |byTimeout| ==> (q in byTimeout[i] <==> i == b))
      && (forall i :: 0 <= i < |byServer| ==> (q in byServer[i] <==> i == s && q !in stolen))
    }

    /** A new query, at the tail of the list of all and of its qid bucket. */
    function Insert(q: Query): Links
      requires |byQid| == QID_TABLE_SIZE
    {
      this.(all := all + [q], byQid := Link(byQid, q, q.qid % QID_TABLE_SIZE))
    }

    /** The query moved to the tail of a deadline bucket. */
    function MoveTimeout(q: Query, b: nat): Links
      requires b < |byTimeout|
    {
      this.(byTimeout := Link(Unlink(byTimeout, q), q, b))
    }

    /** The query moved to the tail of a server's list. */
    function MoveServer(q: Query, s: nat): Links
      requires s < |byServer|
    {
      this.(byServer := Link(Unlink(byServer, q), q, s), stolen := Without(stolen, q))
    }

    function Move(q: Query, b: nat, s: nat): Links
      requires b < |byTimeout| && s < |byServer|
    {
      MoveTimeout(q, b).MoveServer(q, s)
    }

    /** The query unlinked from every list. */
    function Free(q: Query): Links {
      Links(Without(all, q), Without(detached, q),
            Unlink(byQid, q), Unlink(byTimeout, q), Unlink(byServer, q), Without(stolen, q))
    }

    /** The local list swapped with the list of server `s`. */
    function Steal(s: nat): Links
      requires s < |byServer|
    {
      this.(byServer := byServer[s := stolen], stolen := byServer[s])
    }

    /** The list of all queries moved to a local head. */
    function Detach(): Links {
      this.(detached := all, all := [])
    }

    lemma InsertOk(q: Query, nservers: nat)
      requires WellFormed(nservers) && q !in Live()
      ensures Insert(q).WellFormed(nservers)
      ensures Insert(q).Live() == Live() + [q]
    {
      var after := Insert(q);
      assert after.Live() == Live() + [q];
      forall b | 0 <= b < |byQid| ensures after.byQid[b] == QidBucket(after.Live(), b) {
        QidBucketConcat(Live(), [q], b);
        assert [q][1..] == [];
      }
    }

    lemma MoveOk(q: Query, b: nat, s: nat, nservers: nat)
      requires WellFormed(nservers) && q in Live() && b < |byTimeout| && s < nservers
      ensures Move(q, b, s).WellFormed(nservers)
      ensures Move(q, b, s).LinkedAt(q, b, s)
      ensures Move(q, b, s).Live() == Live()
    {
      forall i | 0 <= i < |byTimeout| ensures ListOk(Move(q, b, s).byTimeout[i], Live()) {
        WithoutNoDup(byTimeout[i], q);
      }
      forall i | 0 <= i < |byServer| ensures ListOk(Move(q, b, s).byServer[i], Live()) {
        WithoutNoDup(byServer[i], q);
      }
      WithoutNoDup(stolen, q);
    }

    lemma FreeOk(q: Query, nservers: nat)
      requires WellFormed(nservers)
      ensures Free(q).WellFormed(nservers)
      ensures Free(q).Live() == Without(Live(), q)
    {
      WithoutConcat(detached, all, q);
      var after := Free(q);
      assert after.Live() == Without(Live(), q);
      WithoutNoDup(Live(), q);
      forall b | 0 <= b < |byQid| ensures after.byQid[b] == QidBucket(after.Live(), b) {
        QidBucketWithout(Live(), q, b);
      }
      forall i | 0 <= i < |byTimeout| ensures ListOk(after.byTimeout[i], after.Live()) {
        WithoutNoDup(byTimeout[i], q);
      }
      forall i | 0 <= i < |byServer| ensures ListOk(after.byServer[i], after.Live()) {
        WithoutNoDup(byServer[i], q);
      }
      WithoutNoDup(stolen, q);
    }

    /** Taking the list of one server leaves every query linked as before, if none was stolen yet. */
    lemma StealOk(s: nat, nservers: nat)
      requires WellFormed(nservers) && s < nservers && stolen == []
      ensures Steal(s).WellFormed(nservers) && Steal(s).Live() == Live()
      ensures forall x, bx, sx :: LinkedAt(x, bx, sx) ==> Steal(s).LinkedAt(x, bx, sx)
      ensures forall x, bx, sx :: LinkedAt(x, bx, sx) && x in Steal(s).stolen ==> s == sx
    {
    }

    /** Moving or freeing one query leaves every other query where it was linked. */
    lemma OthersStay(q: Query, x: Query, b: nat, s: nat, bx: nat, sx: nat)
      requires x != q && LinkedAt(x, bx, sx)
      ensures b < |byTimeout| && s < |byServer| ==> Move(q, b, s).LinkedAt(x, bx, sx)
      ensures Free(q).LinkedAt(x, bx, sx)
    {
    }
  }

  function NoLinks(nservers: nat): Links {
    Links([], [], seq(QID_TABLE_SIZE, _ => []), seq(TIMEOUT_TABLE_SIZE, _ => []), seq(nservers, _ => []), [])
  }

  ghost predicate ListOk(list: seq<Query>, live: seq<Query>) {
    NoDup(list) && forall q | q in list :: q in live
  }

  lemma EmptyIfNoneLive(list: seq<Query>, live: seq<Query>)
    requires ListOk(list, live)
    ensures list == [] || live != []
  {
    if list != [] {
      assert list[0] in live;
    }
  }
}
