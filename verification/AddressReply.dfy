/** Reading the addresses of a host from an answer: the records of the answer, followed through aliases. */
module AddressReply {
  import opened Wrappers
  import opened Bytes
  import opened Queries
  import opened Names
  import opened Questions

  const RECORD_SIZE := 10
  const CLASS_IN := 1
  const TYPE_A := 1
  const TYPE_CNAME := 5
  const INT_MAX := 0x7fff_ffff

  // ----- the records -----

  /** The name at p as a string with its NUL. */
  function NameAt(msg: seq<byte>, p: nat): Option<seq<byte>> {
    if LabelsAt(msg, p, 0).None? then None else Some(Text(LabelsAt(msg, p, 0).value) + [0])
  }

  /** A time to live is four bytes, which are taken as a signed number. */
  function SignedTtl(msg: seq<byte>, p: nat): (t: int)
    requires p + 4 <= |msg|
    ensures -INT_MAX - 1 <= t <= INT_MAX
  {
    var u := Word(msg[p], msg[p + 1]) * 0x1_0000 + Word(msg[p + 2], msg[p + 3]);
    if u > INT_MAX then u - 0x1_0000_0000 else u
  }

  /** A record of an answer; its data are the `len` bytes from `at` on. */
  datatype Record = Record(owner: seq<byte>, rtype: nat, rclass: nat, ttl: int, at: nat, len: nat)

  predicate IsAddress(r: Record) { r.rclass == CLASS_IN && r.rtype == TYPE_A && r.len == 4 }

  predicate IsAlias(r: Record) { r.rclass == CLASS_IN && r.rtype == TYPE_CNAME }

  function RecordAt(msg: seq<byte>, p: nat): (r: Option<Record>)
    ensures r.Some? ==> p < r.value.at && r.value.at + r.value.len <= |msg|
  {
    if NameAt(msg, p).None? then None
    else
      var q := p + EncodedLength(msg, p);
      if q + RECORD_SIZE > |msg| then None
      else
        var len := Word(msg[q + 8], msg[q + 9]);
        if q + RECORD_SIZE + len > |msg| then None
        else
          Some(Record(NameAt(msg, p).value, Word(msg[q], msg[q + 1]), Word(msg[q + 2], msg[q + 3]), SignedTtl(msg, q + 4),
                      q + RECORD_SIZE, len))
  }

  /** A record that the walk accepts: an alias needs a name in its data. */
  predicate Acceptable(msg: seq<byte>, r: Record) {
    IsAlias(r) ==> NameAt(msg, r.at).Some?
  }

  /** The `count` records from p on, if all of them are acceptable. */
  function Records(msg: seq<byte>, p: nat, count: nat): Option<seq<Record>>
    decreases count
  {
    if count == 0 then Some([])
    else
      match RecordAt(msg, p)
      case None => None
      case Some(r) =>
        if !Acceptable(msg, r) then None
        else
          match Records(msg, r.at + r.len, count - 1)
          case None => None
          case Some(rs) => Some([r] + rs)
  }

  // ----- what the records say, as far as the first i -----

  /** The name whose addresses are wanted when i records have been read. */
  function HostAt(msg: seq<byte>, question: seq<byte>, rs: seq<Record>, i: nat): seq<byte>
    requires i <= |rs|
  {
    if i == 0 then question
    else if IsAlias(rs[i - 1]) && NameAt(msg, rs[i - 1].at).Some? then NameAt(msg, rs[i - 1].at).value
    else HostAt(msg, question, rs, i - 1)
  }

  /** Record i is an address of the host. */
  predicate Wanted(msg: seq<byte>, question: seq<byte>, rs: seq<Record>, i: nat)
    requires i < |rs|
  {
    IsAddress(rs[i]) && SameName(rs[i].owner, HostAt(msg, question, rs, i))
  }

  /** The wanted ones of the first i records. */
  function Chosen(msg: seq<byte>, question: seq<byte>, rs: seq<Record>, i: nat): (c: seq<nat>)
    requires i <= |rs|
    ensures forall k :: 0 <= k < |c| ==> c[k] < i
  {
    if i == 0 then []
    else Chosen(msg, question, rs, i - 1) + if Wanted(msg, question, rs, i - 1) then [i - 1] else []
  }

  datatype AddrTtl = AddrTtl(addr: seq<byte>, ttl: int)

  function AddressOf(msg: seq<byte>, r: Record): AddrTtl {
    AddrTtl(if r.at + 4 <= |msg| then msg[r.at..r.at + 4] else [], r.ttl)
  }

  function Addresses(msg: seq<byte>, rs: seq<Record>, chosen: seq<nat>): (a: seq<AddrTtl>)
    requires forall k :: 0 <= k < |chosen| ==> chosen[k] < |rs|
    ensures |a| == |chosen|
    ensures forall k :: 0 <= k < |a| ==> a[k] == AddressOf(msg, rs[chosen[k]])
  {
    seq(|chosen|, k requires 0 <= k < |chosen| => AddressOf(msg, rs[chosen[k]]))
  }

  function Aliases(rs: seq<Record>, i: nat): seq<seq<byte>>
    requires i <= |rs|
  {
    if i == 0 then [] else Aliases(rs, i - 1) + if IsAlias(rs[i - 1]) then [rs[i - 1].owner] else []
  }

  /** The least time to live of the aliases. */
  function AliasTtl(rs: seq<Record>, i: nat): int
    requires i <= |rs|
  {
    if i == 0 then INT_MAX
    else if IsAlias(rs[i - 1]) && rs[i - 1].ttl < AliasTtl(rs, i - 1) then rs[i - 1].ttl
    else AliasTtl(rs, i - 1)
  }

  /** The host is the target of the latest alias. */
  lemma {:induction false} HostIsLatest(msg: seq<byte>, question: seq<byte>, rs: seq<Record>, j: nat, i: nat)
    requires j < i <= |rs| && IsAlias(rs[j]) && Acceptable(msg, rs[j])
    requires forall k :: j < k < i ==> !IsAlias(rs[k])
    ensures Some(HostAt(msg, question, rs, i)) == NameAt(msg, rs[j].at)
  {
    hide NameAt, IsAlias;
    if j < i - 1 {
      HostIsLatest(msg, question, rs, j, i - 1);
    }
  }

  /** Without an alias the host is the name that was asked for. */
  lemma {:induction false} HostIsQuestion(msg: seq<byte>, question: seq<byte>, rs: seq<Record>, i: nat)
    requires i <= |rs| && forall k :: 0 <= k < i ==> !IsAlias(rs[k])
    ensures HostAt(msg, question, rs, i) == question
  {
    hide NameAt, IsAlias;
    if i > 0 {
      HostIsQuestion(msg, question, rs, i - 1);
    }
  }

  /** The addresses are those of exactly the wanted records, in their order. */
  lemma {:induction false} ChosenMeaning(msg: seq<byte>, question: seq<byte>, rs: seq<Record>, i: nat)
    requires i <= |rs|
    ensures var c := Chosen(msg, question, rs, i);
      && (forall k, l :: 0 <= k < l < |c| ==> c[k] < c[l])
      && (forall j: nat :: j in c <==> j < i && Wanted(msg, question, rs, j))
  {
    hide Wanted;
    if i > 0 {
      ChosenMeaning(msg, question, rs, i - 1);
    }
  }

  /** The least time to live of the aliases is that of one of them, or no limit. */
  lemma {:induction false} AliasTtlIsLeast(rs: seq<Record>, i: nat)
    requires i <= |rs| && forall r | r in rs :: r.ttl <= INT_MAX
    ensures forall j :: 0 <= j < i && IsAlias(rs[j]) ==> AliasTtl(rs, i) <= rs[j].ttl
    ensures AliasTtl(rs, i) == INT_MAX || exists j :: 0 <= j < i && IsAlias(rs[j]) && AliasTtl(rs, i) == rs[j].ttl
  {
    if i > 0 {
      AliasTtlIsLeast(rs, i - 1);
    }
  }

  /** The places of the alias records among the first i. */
  function AliasPlaces(rs: seq<Record>, i: nat): (c: seq<nat>)
    requires i <= |rs|
    ensures forall k :: 0 <= k < |c| ==> c[k] < i
  {
    if i == 0 then [] else AliasPlaces(rs, i - 1) + if IsAlias(rs[i - 1]) then [i - 1] else []
  }

  /** The aliases are the owners of exactly the alias records, in their order. */
  lemma {:induction false} AliasesMeaning(rs: seq<Record>, i: nat)
    requires i <= |rs|
    ensures var c := AliasPlaces(rs, i);
      && (forall k, l :: 0 <= k < l < |c| ==> c[k] < c[l])
      && (forall j: nat :: j in c <==> j < i && IsAlias(rs[j]))
      && |Aliases(rs, i)| == |c|
      && (forall k :: 0 <= k < |c| ==> Aliases(rs, i)[k] == rs[c[k]].owner)
  {
    hide IsAlias;
    if i > 0 {
      AliasesMeaning(rs, i - 1);
    }
  }

  // ----- the walk -----

  /** The name that was asked for and the records, if all of them can be read. */
  function ReplyOf(msg: seq<byte>): Option<(seq<byte>, seq<Record>)> {
    if |msg| < HEADER_SIZE || Word(msg[4], msg[5]) != 1 || NameAt(msg, HEADER_SIZE).None? then None
    else
      var p := HEADER_SIZE + EncodedLength(msg, HEADER_SIZE) + QUESTION_SIZE;
      if p > |msg| then None
      else
        match Records(msg, p, Word(msg[6], msg[7]))
        case None => None
        case Some(rs) => Some((NameAt(msg, HEADER_SIZE).value, rs))
  }

  datatype Host = Host(name: seq<byte>, aliases: seq<seq<byte>>, addrs: seq<seq<byte>>)

  /** The name at p, and how many bytes it takes up; a bad name is a bad response. */
  method ExpandNameForResponse(msg: seq<byte>, p: nat) returns (status: Status, name: seq<byte>, len: nat)
    ensures status == if NameAt(msg, p).Some? then Success else BadResp
    ensures status == Success ==> name == NameAt(msg, p).value && len == EncodedLength(msg, p) && p < p + len <= |msg|
  {
    hide LabelsAt, EncodedLength, Text;
    status, name, len := ExpandName(msg, p);
    if status == BadName {
      status := BadResp;
    }
  }

  /** The fixed part of a record, after its owner. */
  method ReadRecord(msg: seq<byte>, p: nat) returns (r: Option<Record>)
    ensures r == RecordAt(msg, p)
  {
    hide NameAt, EncodedLength, Word, SignedTtl;
    var status, owner, len := ExpandNameForResponse(msg, p);
    if status != Success {
      return None;
    }
    var q := p + len;
    if q + RECORD_SIZE > |msg| {
      return None;
    }
    var rlen := Word(msg[q + 8], msg[q + 9]);
    if q + RECORD_SIZE + rlen > |msg| {
      return None;
    }
    return Some(Record(owner, Word(msg[q], msg[q + 1]), Word(msg[q + 2], msg[q + 3]), SignedTtl(msg, q + 4), q + RECORD_SIZE, rlen));
  }

  /** The addresses that the records give for the host. */
  function Found(msg: seq<byte>, question: seq<byte>, rs: seq<Record>): seq<AddrTtl> {
    Addresses(msg, rs, Chosen(msg, question, rs, |rs|))
  }

  lemma {:induction false} Prefixes(msg: seq<byte>, question: seq<byte>, rs: seq<Record>, r: Record, i: nat)
    requires i <= |rs|
    ensures HostAt(msg, question, rs + [r], i) == HostAt(msg, question, rs, i)
    ensures Aliases(rs + [r], i) == Aliases(rs, i)
    ensures AliasTtl(rs + [r], i) == AliasTtl(rs, i)
    ensures Chosen(msg, question, rs + [r], i) == Chosen(msg, question, rs, i)
  {
    hide NameAt, SameName;
    if i > 0 {
      assert (rs + [r])[i - 1] == rs[i - 1];
      Prefixes(msg, question, rs, r, i - 1);
    }
  }

  /** What one more record changes. */
  lemma OneMore(msg: seq<byte>, question: seq<byte>, rs: seq<Record>, r: Record)
    ensures var more, n := rs + [r], |rs|;
      && HostAt(msg, question, more, n + 1) ==
        (if IsAlias(r) && NameAt(msg, r.at).Some? then NameAt(msg, r.at).value else HostAt(msg, question, rs, n))
      && Aliases(more, n + 1) == Aliases(rs, n) + (if IsAlias(r) then [r.owner] else [])
      && AliasTtl(more, n + 1) == (if IsAlias(r) then Min(AliasTtl(rs, n), r.ttl) else AliasTtl(rs, n))
      && Found(msg, question, more) == Found(msg, question, rs) +
        (if IsAddress(r) && SameName(r.owner, HostAt(msg, question, rs, n)) then [AddressOf(msg, r)] else [])
  {
    hide NameAt, SameName, AddressOf;
    Prefixes(msg, question, rs, r, |rs|);
    assert (rs + [r])[|rs|] == r;
    var c := Chosen(msg, question, rs, |rs|);
    assert Addresses(msg, rs + [r], c) == Addresses(msg, rs, c);
    assert |rs + [r]| == |rs| + 1;
  }

  function Prefixed(rs: seq<Record>, more: Option<seq<Record>>): Option<seq<Record>> {
    match more
    case None => None
    case Some(rest) => Some(rs + rest)
  }

  lemma ReadOn(msg: seq<byte>, rs: seq<Record>, p: nat, count: nat)
    requires count > 0
    ensures RecordAt(msg, p).None? ==> Prefixed(rs, Records(msg, p, count)) == None
    ensures RecordAt(msg, p).Some? && !Acceptable(msg, RecordAt(msg, p).value) ==> Prefixed(rs, Records(msg, p, count)) == None
    ensures RecordAt(msg, p).Some? && Acceptable(msg, RecordAt(msg, p).value) ==>
      var r := RecordAt(msg, p).value;
      Prefixed(rs, Records(msg, p, count)) == Prefixed(rs + [r], Records(msg, r.at + r.len, count - 1))
  {
    hide RecordAt, Acceptable;
    if RecordAt(msg, p).Some? {
      var r := RecordAt(msg, p).value;
      var more := Records(msg, r.at + r.len, count - 1);
      if more.Some? {
        assert rs + ([r] + more.value) == rs + [r] + more.value;
      }
    }
  }

  /** The first times to live stand in the array as they were read. */
  ghost predicate StoredTtls(a: seq<AddrTtl>, found: seq<AddrTtl>) {
    forall k :: 0 <= k < |found| && k < |a| ==> a[k] == found[k]
  }

  function Bare(found: seq<AddrTtl>): (r: seq<seq<byte>>)
    ensures |r| == |found|
  {
    seq(|found|, k requires 0 <= k < |found| => found[k].addr)
  }

  /** The records as far as they were read give these results. */
  ghost predicate Gathered(msg: seq<byte>, question: seq<byte>, rs: seq<Record>, host: Host, limit: int, a: seq<AddrTtl>) {
    && host == HostOf(msg, question, rs) && limit == AliasTtl(rs, |rs|)
    && StoredTtls(a, Found(msg, question, rs))
  }

  /** Walks through the records. */
  method ReadAnswers(msg: seq<byte>, p0: nat, question: seq<byte>, count: nat, addrttls: array<AddrTtl>)
    returns (ok: bool, host: Host, limit: int, ghost rs: seq<Record>)
    modifies addrttls
    ensures Records(msg, p0, count) == if ok then Some(rs) else None
    ensures ok ==> Gathered(msg, question, rs, host, limit, addrttls[..])
  {
    hide RecordAt, NameAt, Records, Gathered;
    rs, ok := [], true;
    host, limit := Host(question, [], []), INT_MAX;
    NothingGathered(msg, question, addrttls[..]);
    var i, aptr: nat := 0, p0;
    while i < count
      invariant 0 <= i <= count
      invariant Records(msg, p0, count) == Prefixed(rs, Records(msg, aptr, count - i))
      invariant Gathered(msg, question, rs, host, limit, addrttls[..])
    {
      ReadOn(msg, rs, aptr, count - i);
      var rr := ReadRecord(msg, aptr);
      if rr.None? {
        ok := false;
        return;
      }
      var r := rr.value;
      ok, host, limit := ReadOne(msg, question, r, host, limit, addrttls, rs);
      if !ok {
        return;
      }
      rs := rs + [r];
      i, aptr := i + 1, r.at + r.len;
    }
    NoMore(msg, aptr, rs);
  }

  lemma NothingGathered(msg: seq<byte>, question: seq<byte>, a: seq<AddrTtl>)
    ensures Gathered(msg, question, [], Host(question, [], []), INT_MAX, a)
    ensures forall more: Option<seq<Record>> :: Prefixed([], more) == more
  {
    forall more: Option<seq<Record>> ensures Prefixed([], more) == more {
      if more.Some? {
        assert [] + more.value == more.value;
      }
    }
    var none: seq<seq<byte>> := [];
    assert Bare(Found(msg, question, [])) == none;
  }

  lemma NoMore(msg: seq<byte>, p: nat, rs: seq<Record>)
    ensures Prefixed(rs, Records(msg, p, 0)) == Some(rs)
  {
    assert rs + [] == rs;
  }

  /** Takes in one record. */
  method ReadOne(msg: seq<byte>, question: seq<byte>, r: Record, host0: Host, limit0: int, addrttls: array<AddrTtl>,
    ghost rs: seq<Record>) returns (ok: bool, host: Host, limit: int)
    requires r.at + r.len <= |msg|
    requires Gathered(msg, question, rs, host0, limit0, addrttls[..])
    modifies addrttls
    ensures ok <==> Acceptable(msg, r)
    ensures ok ==> Gathered(msg, question, rs + [r], host, limit, addrttls[..])
  {
    hide NameAt, SameName, HostAt, Aliases, AliasTtl, Found;
    OneMore(msg, question, rs, r);
    ok, host, limit := true, host0, limit0;
    ghost var found := Found(msg, question, rs);
    if IsAddress(r) && SameName(r.owner, host.name) {
      var addr := msg[r.at..r.at + 4];
      if |host.addrs| < addrttls.Length {
        addrttls[|host.addrs|] := AddrTtl(addr, r.ttl);
      }
      assert Bare(found + [AddressOf(msg, r)]) == host.addrs + [addr];
      host := host.(addrs := host.addrs + [addr]);
    }
    if IsAlias(r) {
      host := host.(aliases := host.aliases + [r.owner]);
      var status, target, len := ExpandNameForResponse(msg, r.at);
      if status != Success {
        return false, host, limit;
      }
      host := host.(name := target);
      if limit > r.ttl {
        limit := r.ttl;
      }
    }
  }

  /** Reads the name of the host, its aliases and its addresses, and the times to live of the first addresses into an
      array: each one cut down to the least time to live of the aliases. */
  method ParseReply(msg: seq<byte>, addrttls: array<AddrTtl>) returns (status: Status, host: Host, n: nat)
    modifies addrttls
    ensures ReplyOf(msg).None? ==> status == BadResp
    ensures ReplyOf(msg).Some? ==> Told(msg, ReplyOf(msg).value.0, ReplyOf(msg).value.1, status, host, addrttls[..], n)
    ensures status != Success ==> n == 0
  {
    hide NameAt, Records, EncodedLength, Word, HostAt, Aliases, AliasTtl, Found;
    status, host, n := BadResp, Host([], [], []), 0;
    if |msg| < HEADER_SIZE || Word(msg[4], msg[5]) != 1 {
      return;
    }
    var expanded, question, len := ExpandNameForResponse(msg, HEADER_SIZE);
    if expanded != Success {
      return;
    }
    if HEADER_SIZE + len + QUESTION_SIZE > |msg| {
      return;
    }
    var ok, h, limit, rs := ReadAnswers(msg, HEADER_SIZE + len + QUESTION_SIZE, question, Word(msg[6], msg[7]), addrttls);
    if !ok {
      return;
    }
    if h.addrs == [] && h.aliases == [] {
      status := NoData;
      return;
    }
    status, host := Success, h;
    n := CapTtls(addrttls, |h.addrs|, limit, Found(msg, question, rs));
  }

  /** Cuts the times to live down to the limit. */
  method CapTtls(addrttls: array<AddrTtl>, naddrs: nat, limit: int, ghost found: seq<AddrTtl>) returns (n: nat)
    requires naddrs == |found| && StoredTtls(addrttls[..], found)
    modifies addrttls
    ensures Reported(addrttls[..], n, found, limit)
  {
    n := if naddrs < addrttls.Length then naddrs else addrttls.Length;
    var i := 0;
    while i < n
      invariant 0 <= i <= n
      invariant forall k :: 0 <= k < i ==> addrttls[k] == AddrTtl(found[k].addr, Min(found[k].ttl, limit))
      invariant forall k :: i <= k < n ==> addrttls[k] == found[k]
    {
      if addrttls[i].ttl > limit {
        addrttls[i] := addrttls[i].(ttl := limit);
      }
      i := i + 1;
    }
  }

  function HostOf(msg: seq<byte>, question: seq<byte>, rs: seq<Record>): Host {
    Host(HostAt(msg, question, rs, |rs|), Aliases(rs, |rs|), Bare(Found(msg, question, rs)))
  }

  /** There are no data if there is neither an address nor an alias; otherwise the host and the times to live are told. */
  ghost predicate Told(msg: seq<byte>, question: seq<byte>, rs: seq<Record>, status: Status, host: Host, a: seq<AddrTtl>, n: nat) {
    if Found(msg, question, rs) == [] && Aliases(rs, |rs|) == [] then status == NoData
    else
      && status == Success && host == HostOf(msg, question, rs)
      && Reported(a, n, Found(msg, question, rs), AliasTtl(rs, |rs|))
  }

  function Min(x: int, y: int): int { if x > y then y else x }

  ghost predicate Reported(a: seq<AddrTtl>, n: nat, found: seq<AddrTtl>, limit: int) {
    && n == Min(|found|, |a|)
    && forall k :: 0 <= k < n ==> a[k] == AddrTtl(found[k].addr, Min(found[k].ttl, limit))
  }
}
