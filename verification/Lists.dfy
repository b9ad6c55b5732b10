/** What the resolver's linked lists mean: sequences, and sequences of sequences
    for the hash-bucketed and per-server indexes. */
module Lists {

  ghost predicate NoDup<T>(s: seq<T>) {
    forall i, j :: 0 <= i < j < |s| ==> s[i] != s[j]
  }

  /** The list `s` after `x` was unlinked from it. */
  function Without<T(==)>(s: seq<T>, x: T): (r: seq<T>)
    ensures |r| <= |s|
    ensures x !in r
    ensures forall y | y in r :: y in s
    ensures forall y | y in s && y != x :: y in r
    ensures x !in s ==> r == s
  {
    if s == [] then []
    else if s[0] == x then Without(s[1..], x)
    else [s[0]] + Without(s[1..], x)
  }

  /** The list `s` after `x` was inserted before its dummy head, that is at its tail. */
  function Appended<T>(s: seq<T>, x: T, here: bool): seq<T> {
    if here then s + [x] else s
  }

  lemma {:induction false} WithoutNoDup<T>(s: seq<T>, x: T)
    requires NoDup(s)
    ensures NoDup(Without(s, x))
  {
    if s != [] {
      WithoutNoDup(s[1..], x);
      if s[0] != x {
        assert s[0] !in s[1..];
      }
    }
  }

  lemma {:induction false} WithoutConcat<T>(s: seq<T>, t: seq<T>, x: T)
    ensures Without(s + t, x) == Without(s, x) + Without(t, x)
  {
    if s == [] {
      assert s + t == t;
    } else {
      assert (s + t)[1..] == s[1..] + t;
      WithoutConcat(s[1..], t, x);
    }
  }

  lemma WithoutHead<T>(x: T, t: seq<T>)
    requires x !in t
    ensures Without([x] + t, x) == t
  {
    assert ([x] + t)[1..] == t;
  }

  /** Unlinking the element at position k removes exactly that position. */
  lemma WithoutAt<T>(s: seq<T>, k: nat)
    requires NoDup(s) && k < |s|
    ensures Without(s, s[k]) == s[..k] + s[k + 1..]
  {
    hide Without;
    WithoutOnly(s, k, s[k]);
  }

  lemma {:induction false} WithoutOnly<T>(s: seq<T>, k: nat, x: T)
    requires k < |s| && s[k] == x && forall i :: 0 <= i < |s| && i != k ==> s[i] != x
    ensures Without(s, x) == s[..k] + s[k + 1..]
  {
    var rest := s[1..];
    if k == 0 {
      assert forall i :: 0 <= i < |rest| ==> rest[i] == s[i + 1];
      assert Without(s, x) == rest;
    } else {
      assert Without(s, x) == [s[0]] + Without(rest, x);
      hide Without;
      assert forall i :: 0 <= i < |rest| ==> rest[i] == s[i + 1];
      WithoutOnly(rest, k - 1, x);
      assert [s[0]] + (rest[..k - 1] + rest[k..]) == s[..k] + s[k + 1..];
    }
  }

  /** The first element of two lists without a common element is nowhere else. */
  lemma WithoutFirst<T>(s: seq<T>, t: seq<T>)
    requires NoDup(s + t) && s != []
    ensures Without(s, s[0]) == s[1..] && Without(t, s[0]) == t
  {
    var x := s[0];
    forall i | 0 <= i < |s[1..]| ensures s[1..][i] != x {
      assert (s + t)[0] == x && (s + t)[i + 1] == s[1..][i];
    }
    forall i | 0 <= i < |t| ensures t[i] != x {
      assert (s + t)[0] == x && (s + t)[|s| + i] == t[i];
    }
    assert s == [x] + s[1..];
    WithoutHead(x, s[1..]);
  }

  /** Every list of an index without `x`: `x` is unlinked from whichever list holds it. */
  function Unlink<T(==)>(lists: seq<seq<T>>, x: T): (r: seq<seq<T>>)
    ensures |r| == |lists|
    ensures forall i :: 0 <= i < |r| ==> r[i] == Without(lists[i], x)
  {
    seq(|lists|, i requires 0 <= i < |lists| => Without(lists[i], x))
  }

  /** `x` added at the tail of list `b` of an index. */
  function Link<T>(lists: seq<seq<T>>, x: T, b: nat): (r: seq<seq<T>>)
    requires b < |lists|
    ensures |r| == |lists|
    ensures forall i :: 0 <= i < |r| ==> r[i] == Appended(lists[i], x, i == b)
  {
    lists[b := lists[b] + [x]]
  }
}
