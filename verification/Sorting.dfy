/** Sorting of addresses by the first pattern of a sort list that matches them. */
module Sorting {
  import opened Bytes

  // ----- prefixes of bits -----

  /** The value of bit k of a byte, the most significant one first. */
  function Weight(k: nat): (w: nat)
    requires k < 8
    ensures w > 0
  {
    match k
    case 0 => 128
    case 1 => 64
    case 2 => 32
    case 3 => 16
    case 4 => 8
    case 5 => 4
    case 6 => 2
    case 7 => 1
  }

  function BitOf(b: int, k: nat): (v: nat)
    requires b >= 0 && k < 8
    ensures v < 2
  {
    b / Weight(k) % 2
  }

  /** Bit i of a string of bytes. */
  function Bit(s: seq<byte>, i: nat): nat
    requires i < 8 * |s|
  {
    BitOf(s[i / 8], i % 8)
  }

  /** The first n bits are the same. */
  ghost predicate Agree(l: seq<byte>, r: seq<byte>, n: nat)
    requires n <= 8 * |l| && n <= 8 * |r|
  {
    forall i | 0 <= i < n :: Bit(l, i) == Bit(r, i)
  }

  /** The first difference of the two is at bit k; the bit is set in the greater one. */
  ghost predicate DifferAt(l: seq<byte>, r: seq<byte>, k: nat, x: int)
    requires k < 8 * |l| && k < 8 * |r|
  {
    Agree(l, r, k) && Bit(l, k) != Bit(r, k) && (x > 0 <==> Bit(l, k) == 1)
  }

  lemma NextBit(x: byte, k: nat)
    requires k < 8
    ensures x / Weight(k) == (if k == 0 then 0 else 2 * (x / Weight(k - 1))) + BitOf(x, k)
  {
  }

  lemma GreaterBlock(l: byte, r: byte, k: nat)
    requires k < 8 && l / Weight(k) != r / Weight(k)
    ensures l > r <==> l / Weight(k) > r / Weight(k)
  {
  }

  /** Of two different bytes the greater one has the first bit that differs set. */
  lemma FirstBit(l: byte, r: byte) returns (k: nat)
    requires l != r
    ensures k < 8 && BitOf(l, k) != BitOf(r, k) && (l > r <==> BitOf(l, k) == 1)
    ensures forall j :: 0 <= j < k ==> BitOf(l, j) == BitOf(r, j)
  {
    LastBlock(l, r);
    hide Weight;
    k := 0;
    while l / Weight(k) == r / Weight(k)
      invariant 0 <= k <= 7
      invariant k > 0 ==> l / Weight(k - 1) == r / Weight(k - 1)
      invariant forall j :: 0 <= j < k ==> BitOf(l, j) == BitOf(r, j)
      decreases 7 - k
    {
      k := k + 1;
    }
    NextBit(l, k);
    NextBit(r, k);
    GreaterBlock(l, r, k);
  }

  lemma LastBlock(l: byte, r: byte)
    ensures l / Weight(7) == l && r / Weight(7) == r
  {
  }

  /** Negative, positive or zero, by the first bytes that differ. */
  method MemCmp(l: seq<byte>, r: seq<byte>, n: nat) returns (x: int)
    requires n <= |l| && n <= |r|
    ensures x == 0 <==> l[..n] == r[..n]
    ensures x != 0 ==> exists k | 0 <= k < n :: l[..k] == r[..k] && l[k] != r[k] && (x > 0 <==> l[k] > r[k])
  {
    var i := 0;
    while i < n
      invariant 0 <= i <= n && l[..i] == r[..i]
    {
      if l[i] != r[i] {
        assert l[..n][i] != r[..n][i];
        return if l[i] > r[i] then 1 else -1;
      }
      i := i + 1;
    }
    return 0;
  }

  lemma BytesAgree(l: seq<byte>, r: seq<byte>, n: nat)
    requires n <= |l| && n <= |r| && l[..n] == r[..n]
    ensures Agree(l, r, 8 * n)
  {
    forall i | 0 <= i < 8 * n ensures Bit(l, i) == Bit(r, i) {
      assert l[..n][i / 8] == r[..n][i / 8];
    }
  }

  /** A difference of bytes is a difference of bits. */
  lemma ByteDiffers(l: seq<byte>, r: seq<byte>, k: nat, x: int) returns (d: nat)
    requires k < |l| && k < |r| && l[..k] == r[..k] && l[k] != r[k] && (x > 0 <==> l[k] > r[k])
    ensures d < 8 * (k + 1) && DifferAt(l, r, d, x)
  {
    BytesAgree(l, r, k);
    var j := FirstBit(l[k], r[k]);
    d := 8 * k + j;
    assert d / 8 == k && d % 8 == j;
    forall i | 0 <= i < d ensures Bit(l, i) == Bit(r, i) {
      if i >= 8 * k {
        assert i / 8 == k && i % 8 == i - 8 * k;
      }
    }
  }

  lemma AgreeMore(l: seq<byte>, r: seq<byte>, n: nat)
    requires n < 8 * |l| && n < 8 * |r| && Agree(l, r, n) && Bit(l, n) == Bit(r, n)
    ensures Agree(l, r, n + 1)
  {
  }

  /** What bit j is moved to the top by. */
  function Scale(j: nat): nat
    requires j < 8
  {
    match j
    case 0 => 1
    case 1 => 2
    case 2 => 4
    case 3 => 8
    case 4 => 16
    case 5 => 32
    case 6 => 64
    case 7 => 128
  }

  lemma TopBit(b: byte, j: nat)
    requires j < 8
    ensures b * Scale(j) / 128 % 2 == BitOf(b, j)
    ensures j < 7 ==> b * Scale(j) * 2 == b * Scale(j + 1)
  {
  }

  /** Compares the first n bits. */
  method BitNCmp(l: seq<byte>, r: seq<byte>, n: nat) returns (x: int)
    requires n <= 8 * |l| && n <= 8 * |r|
    ensures x == 0 <==> Agree(l, r, n)
    ensures x != 0 ==> exists k | 0 <= k < n :: DifferAt(l, r, k, x)
  {
    var b := n / 8;
    x := MemCmp(l, r, b);
    if x != 0 {
      ghost var k :| 0 <= k < b && l[..k] == r[..k] && l[k] != r[k] && (x > 0 <==> l[k] > r[k]);
      ghost var d := ByteDiffers(l, r, k, x);
      assert !Agree(l, r, n);
      return;
    }
    BytesAgree(l, r, b);
    if n % 8 == 0 {
      return;
    }
    var lb: nat, rb: nat := l[b], r[b];
    var j := 0;
    while j < n % 8
      invariant 0 <= j <= n % 8
      invariant lb == l[b] * Scale(j) && rb == r[b] * Scale(j)
      invariant Agree(l, r, 8 * b + j)
    {
      TopBit(l[b], j);
      TopBit(r[b], j);
      ghost var d := 8 * b + j;
      assert d / 8 == b && d % 8 == j;
      if lb / 128 % 2 != rb / 128 % 2 {
        x := if lb / 128 % 2 == 1 then 1 else -1;
        assert DifferAt(l, r, d, x);
        return;
      }
      lb, rb := lb * 2, rb * 2;
      AgreeMore(l, r, d);
      j := j + 1;
    }
    return 0;
  }

  // ----- the index of an address -----

  /** An entry of the sort list: an IPv4 network with a mask or with a prefix length, or an IPv6 one. */
  datatype Pattern = Masked4(addr: seq<byte>, mask: seq<byte>) | Prefix4(addr: seq<byte>, bits: nat) | Prefix6(addr: seq<byte>, bits: nat)

  datatype AddressFamily = Inet4 | Inet6

  predicate WellFormed(p: Pattern) {
    match p
    case Masked4(addr, mask) => |addr| == |mask| == 4
    case Prefix4(addr, bits) => |addr| == 4 && bits <= 32
    case Prefix6(addr, bits) => |addr| == 16 && bits <= 128
  }

  predicate OfFamily(a: seq<byte>, f: AddressFamily) { |a| == (if f == Inet4 then 4 else 16) }

  function And(a: byte, m: byte): byte { (a as bv8 & m as bv8) as int }

  /** A pattern matches addresses of its family: those that are its own address under the mask, or that
      agree with it in the first bits. */
  ghost predicate Matches(p: Pattern, a: seq<byte>, f: AddressFamily)
    requires WellFormed(p) && OfFamily(a, f)
  {
    match p
    case Masked4(addr, mask) => f == Inet4 && forall i | 0 <= i < 4 :: And(a[i], mask[i]) == addr[i]
    case Prefix4(addr, bits) => f == Inet4 && Agree(a, addr, bits)
    case Prefix6(addr, bits) => f == Inet6 && Agree(a, addr, bits)
  }

  /** The index of the first pattern that matches, or the number of patterns. */
  ghost function Index(a: seq<byte>, f: AddressFamily, sortlist: seq<Pattern>): (i: nat)
    requires OfFamily(a, f) && forall p | p in sortlist :: WellFormed(p)
    ensures i <= |sortlist| && (i < |sortlist| ==> Matches(sortlist[i], a, f))
    ensures forall j :: 0 <= j < i ==> !Matches(sortlist[j], a, f)
  {
    if sortlist == [] || Matches(sortlist[0], a, f) then 0
    else
      assert forall j | 0 < j < |sortlist| :: sortlist[1..][j - 1] == sortlist[j];
      1 + Index(a, f, sortlist[1..])
  }

  lemma IndexIs(a: seq<byte>, f: AddressFamily, sortlist: seq<Pattern>, i: nat)
    requires OfFamily(a, f) && forall p | p in sortlist :: WellFormed(p)
    requires i <= |sortlist| && (i < |sortlist| ==> Matches(sortlist[i], a, f))
    requires forall j :: 0 <= j < i ==> !Matches(sortlist[j], a, f)
    ensures i == Index(a, f, sortlist)
  {
    var k := Index(a, f, sortlist);
    assert k < |sortlist| ==> Matches(sortlist[k], a, f);
  }

  method AddressIndex(a: seq<byte>, f: AddressFamily, sortlist: seq<Pattern>) returns (i: nat)
    requires OfFamily(a, f) && forall p | p in sortlist :: WellFormed(p)
    ensures i == Index(a, f, sortlist)
  {
    i := 0;
    while i < |sortlist|
      invariant 0 <= i <= |sortlist|
      invariant forall j :: 0 <= j < i ==> !Matches(sortlist[j], a, f)
    {
      assert sortlist[i] in sortlist;
      var matches := false;
      match sortlist[i] {
        case Masked4(addr, mask) =>
          matches := f == Inet4 && forall k | 0 <= k < 4 :: And(a[k], mask[k]) == addr[k];
        case Prefix4(addr, bits) =>
          if f == Inet4 {
            var x := BitNCmp(a, addr, bits);
            matches := x == 0;
          }
        case Prefix6(addr, bits) =>
          if f == Inet6 {
            var x := BitNCmp(a, addr, bits);
            matches := x == 0;
          }
      }
      if matches {
        IndexIs(a, f, sortlist, i);
        return;
      }
      i := i + 1;
    }
    IndexIs(a, f, sortlist, i);
  }

  // ----- the sort -----

  ghost predicate ListOk(sortlist: seq<Pattern>) {
    forall p | p in sortlist :: WellFormed(p)
  }

  /** The index as the key to sort addresses of a family by. */
  ghost function Key(f: AddressFamily, sortlist: seq<Pattern>): seq<byte> -> nat
    requires ListOk(sortlist)
  {
    a => if OfFamily(a, f) then Index(a, f, sortlist) else 0
  }

  lemma KeyIs(a: seq<byte>, f: AddressFamily, sortlist: seq<Pattern>)
    requires OfFamily(a, f) && ListOk(sortlist)
    ensures Key(f, sortlist)(a) == Index(a, f, sortlist)
  {
  }

  ghost predicate Ordered<T>(s: seq<T>, key: T -> nat) {
    forall i, j :: 0 <= i < j < |s| ==> key(s[i]) <= key(s[j])
  }

  /** The elements with key k, in order. */
  ghost function WithKey<T>(s: seq<T>, k: nat, key: T -> nat): (r: seq<T>) {
    if s == [] then [] else (if key(s[0]) == k then [s[0]] else []) + WithKey(s[1..], k, key)
  }

  /** A stable permutation: for each key, the same elements in the same order. */
  ghost predicate StablePermutation<T>(s: seq<T>, t: seq<T>, key: T -> nat) {
    |s| == |t| && forall k: nat :: WithKey(s, k, key) == WithKey(t, k, key)
  }

  lemma {:induction false} WithKeyConcat<T>(s: seq<T>, t: seq<T>, k: nat, key: T -> nat)
    ensures WithKey(s + t, k, key) == WithKey(s, k, key) + WithKey(t, k, key)
  {
    if s == [] {
      assert s + t == t;
    } else {
      var head, rest := if key(s[0]) == k then [s[0]] else [], WithKey(s[1..], k, key);
      WithKeyFirst(s + t, k, key);
      WithKeyFirst(s, k, key);
      assert (s + t)[1..] == s[1..] + t;
      WithKeyConcat(s[1..], t, k, key);
      hide WithKey;
      assert head + (rest + WithKey(t, k, key)) == head + rest + WithKey(t, k, key);
    }
  }

  lemma WithKeyFirst<T>(s: seq<T>, k: nat, key: T -> nat)
    requires s != []
    ensures WithKey(s, k, key) == (if key(s[0]) == k then [s[0]] else []) + WithKey(s[1..], k, key)
  {
  }

  lemma {:induction false} NoneWithKey<T>(s: seq<T>, k: nat, key: T -> nat)
    requires forall a | a in s :: key(a) != k
    ensures WithKey(s, k, key) == []
  {
    if s != [] {
      NoneWithKey(s[1..], k, key);
    }
  }

  /** Moving an element back over elements of greater key is stable. */
  lemma MovedBack<T>(front: seq<T>, over: seq<T>, a: T, rest: seq<T>, key: T -> nat)
    requires forall b | b in over :: key(b) > key(a)
    ensures StablePermutation(front + (over + [a]) + rest, front + ([a] + over) + rest, key)
  {
    forall k: nat
      ensures WithKey(front + (over + [a]) + rest, k, key) == WithKey(front + ([a] + over) + rest, k, key)
    {
      if key(a) == k {
        NoneWithKey(over, k, key);
      } else {
        NoneWithKey([a], k, key);
      }
      hide WithKey;
      WithKeyConcat(over, [a], k, key);
      WithKeyConcat([a], over, k, key);
      WithinConcat(front, over + [a], rest, k, key);
      WithinConcat(front, [a] + over, rest, k, key);
    }
  }

  lemma WithinConcat<T>(front: seq<T>, s: seq<T>, rest: seq<T>, k: nat, key: T -> nat)
    ensures WithKey(front + s + rest, k, key) == WithKey(front, k, key) + WithKey(s, k, key) + WithKey(rest, k, key)
  {
    hide WithKey;
    WithKeyConcat(front + s, rest, k, key);
    WithKeyConcat(front, s, k, key);
  }

  /** A stable permutation has the same elements. */
  lemma {:induction false} WithKeyHolds<T>(s: seq<T>, k: nat, a: T, key: T -> nat)
    ensures multiset(WithKey(s, k, key))[a] == if key(a) == k then multiset(s)[a] else 0
  {
    if s != [] {
      WithKeyHolds(s[1..], k, a, key);
      assert s == [s[0]] + s[1..];
    }
  }

  lemma StableKeepsElements<T>(s: seq<T>, t: seq<T>, key: T -> nat)
    requires StablePermutation(s, t, key)
    ensures multiset(s) == multiset(t)
    ensures forall a | a in s :: a in t
    ensures forall a | a in t :: a in s
  {
    hide WithKey;
    forall a: T | a in multiset(s) || a in multiset(t) ensures multiset(s)[a] == multiset(t)[a] {
      WithKeyHolds(s, key(a), a, key);
      WithKeyHolds(t, key(a), a, key);
    }
    assert multiset(s) == multiset(t);
    forall a | a in s ensures a in t {
      assert a in multiset(s);
    }
    forall a | a in t ensures a in s {
      assert a in multiset(t);
    }
  }

  /** The order and the stability leave only one result. */
  lemma {:induction false} OneResult<T>(s: seq<T>, t: seq<T>, key: T -> nat)
    requires Ordered(s, key) && Ordered(t, key) && StablePermutation(s, t, key)
    ensures s == t
  {
    if s != [] {
      StableKeepsElements(s, t, key);
      LeastFirst(s, t, key);
      var k := key(s[0]);
      assert WithKey(s, k, key) == [s[0]] + WithKey(s[1..], k, key);
      assert WithKey(t, k, key) == [t[0]] + WithKey(t[1..], k, key);
      assert ([s[0]] + WithKey(s[1..], k, key))[0] == s[0];
      assert ([t[0]] + WithKey(t[1..], k, key))[0] == t[0];
      assert s[0] == t[0];
      forall j: nat ensures WithKey(s[1..], j, key) == WithKey(t[1..], j, key) {
        var head := if key(s[0]) == j then [s[0]] else [];
        assert WithKey(s, j, key) == head + WithKey(s[1..], j, key);
        assert WithKey(t, j, key) == head + WithKey(t[1..], j, key);
        SameTail(head, WithKey(s[1..], j, key), WithKey(t[1..], j, key));
      }
      OneResult(s[1..], t[1..], key);
    }
  }

  lemma SameTail<T>(head: seq<T>, s: seq<T>, t: seq<T>)
    ensures head + s == head + t ==> s == t
  {
    assert (head + s)[|head|..] == s && (head + t)[|head|..] == t;
  }

  lemma LeastFirst<T>(s: seq<T>, t: seq<T>, key: T -> nat)
    requires s != [] && t != [] && Ordered(s, key) && Ordered(t, key)
    requires (forall a | a in s :: a in t) && (forall a | a in t :: a in s)
    ensures key(s[0]) == key(t[0])
  {
    assert s[0] in t && t[0] in s;
    var i :| 0 <= i < |t| && t[i] == s[0];
    var j :| 0 <= j < |s| && s[j] == t[0];
  }

  lemma StableTransitive<T>(s: seq<T>, t: seq<T>, u: seq<T>, key: T -> nat)
    requires StablePermutation(s, t, key) && StablePermutation(t, u, key)
    ensures StablePermutation(s, u, key)
  {
  }

  lemma InsertedOrdered<T>(s: seq<T>, x: T, p: nat, key: T -> nat)
    requires Ordered(s, key) && p <= |s|
    requires p > 0 ==> key(s[p - 1]) <= key(x)
    requires forall i :: p <= i < |s| ==> key(s[i]) > key(x)
    ensures Ordered(s[..p] + [x] + s[p..], key)
  {
    var t := s[..p] + [x] + s[p..];
    forall i, j | 0 <= i < j < |t| ensures key(t[i]) <= key(t[j]) {
      assert i < p ==> t[i] == s[i] && key(s[i]) <= key(s[p - 1]);
      assert j > p ==> t[j] == s[j - 1];
      assert i > p ==> t[i] == s[i - 1];
    }
  }

  ghost predicate AllOf(s: seq<seq<byte>>, f: AddressFamily) {
    forall i :: 0 <= i < |s| ==> OfFamily(s[i], f)
  }

  /** An insertion sort: every address is moved back over those of greater index. */
  method SortAddresses(a: array<seq<byte>>, f: AddressFamily, sortlist: seq<Pattern>)
    requires AllOf(a[..], f) && ListOk(sortlist)
    modifies a
    ensures AllOf(a[..], f) && Ordered(a[..], Key(f, sortlist))
    ensures StablePermutation(old(a[..]), a[..], Key(f, sortlist))
  {
    hide Key, WithKey, StablePermutation, Ordered, AllOf;
    ghost var all, key := a[..], Key(f, sortlist);
    var i1 := 0;
    Unsorted(all, key);
    while i1 < a.Length
      invariant 0 <= i1 <= a.Length
      invariant AllOf(a[..], f) && StablePermutation(all, a[..], key)
      invariant Ordered(a[..i1], key)
    {
      ghost var was := a[..];
      ghost var p := InsertBack(a, i1, f, sortlist);
      Inserted(all, was, i1, p, f, key);
      assert a[..i1 + 1] == Moved(was, i1, p)[..i1 + 1];
      i1 := i1 + 1;
    }
    assert a[..a.Length] == a[..];
  }

  lemma Unsorted<T>(s: seq<T>, key: T -> nat)
    ensures StablePermutation(s, s, key) && Ordered(s[..0], key)
  {
  }

  /** The element at i1 moved back to p. */
  ghost function Moved<T>(s: seq<T>, i1: nat, p: nat): (r: seq<T>)
    requires p <= i1 < |s|
    ensures |r| == |s|
  {
    s[..p] + ([s[i1]] + s[p..i1]) + s[i1 + 1..]
  }

  /** Every pass makes one more address sorted. */
  lemma Inserted(all: seq<seq<byte>>, was: seq<seq<byte>>, i1: nat, p: nat, f: AddressFamily, key: seq<byte> -> nat)
    requires p <= i1 < |was| && AllOf(was, f) && StablePermutation(all, was, key) && Ordered(was[..i1], key)
    requires p > 0 ==> key(was[p - 1]) <= key(was[i1])
    requires forall i :: p <= i < i1 ==> key(was[i]) > key(was[i1])
    ensures var now := Moved(was, i1, p); AllOf(now, f) && StablePermutation(all, now, key) && Ordered(now[..i1 + 1], key)
  {
    hide WithKey, Ordered, StablePermutation;
    var front, over, rest, now := was[..p], was[p..i1], was[i1 + 1..], Moved(was, i1, p);
    assert was == front + (over + [was[i1]]) + rest;
    MovedBack(front, over, was[i1], rest, key);
    StableTransitive(all, was, now, key);
    var s := was[..i1];
    InsertedOrdered(s, was[i1], p, key);
    assert now[..i1 + 1] == s[..p] + [was[i1]] + s[p..];
  }

  /** Moves the address at i1 back to position p. */
  method InsertBack(a: array<seq<byte>>, i1: nat, f: AddressFamily, sortlist: seq<Pattern>) returns (ghost p: nat)
    requires i1 < a.Length && AllOf(a[..], f) && ListOk(sortlist)
    modifies a
    ensures p <= i1 && a[..] == Moved(old(a[..]), i1, p)
    ensures var key, was := Key(f, sortlist), old(a[..]);
      (p > 0 ==> key(was[p - 1]) <= key(was[i1])) && forall i :: p <= i < i1 ==> key(was[i]) > key(was[i1])
  {
    hide Key, Index, WellFormed, Moved, Shifted, Matches;
    ghost var was, key := a[..], Key(f, sortlist);
    NothingShifted(was, i1);
    var a1 := a[i1];
    assert OfFamily(was[i1], f);
    var ind1 := AddressIndex(a1, f, sortlist);
    KeyIs(a1, f, sortlist);
    var i2 := i1 - 1;
    while i2 >= 0
      invariant -1 <= i2 < i1
      invariant a[..] == Shifted(was, i1, i2 + 1)
      invariant forall j :: i2 + 1 <= j < i1 ==> key(was[j]) > ind1
    {
      assert a[..][i2] == was[i2];
      var a2 := a[i2];
      assert OfFamily(was[i2], f);
      var ind2 := AddressIndex(a2, f, sortlist);
      KeyIs(a2, f, sortlist);
      if ind2 <= ind1 {
        break;
      }
      ShiftedMore(was, i1, i2 + 1);
      a[i2 + 1] := a2;
      i2 := i2 - 1;
    }
    ShiftedMoved(was, i1, i2 + 1);
    a[i2 + 1] := a1;
    p := i2 + 1;
  }

  /** The elements from h to i1 - 1 moved up by one; h is free. */
  ghost function Shifted<T>(s: seq<T>, i1: nat, h: nat): (r: seq<T>)
    requires h <= i1 < |s|
    ensures |r| == |s| && r[..h] == s[..h]
  {
    s[..h] + [s[h]] + s[h..i1] + s[i1 + 1..]
  }

  lemma ShiftedMore<T>(s: seq<T>, i1: nat, h: nat)
    requires 0 < h <= i1 < |s|
    ensures Shifted(s, i1, h)[h := s[h - 1]] == Shifted(s, i1, h - 1)
  {
  }

  lemma ShiftedMoved<T>(s: seq<T>, i1: nat, h: nat)
    requires h <= i1 < |s|
    ensures Shifted(s, i1, h)[h := s[i1]] == Moved(s, i1, h)
  {
  }

  lemma NothingShifted<T>(s: seq<T>, i1: nat)
    requires i1 < |s|
    ensures Shifted(s, i1, i1) == s
  {
  }
}
