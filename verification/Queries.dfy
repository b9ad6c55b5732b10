/** An outstanding DNS query, with the history of what happened to it. */
module Queries {
  import opened Bytes
  import opened Clock

  datatype Status =
    | Success | NoData | FormErr | ServFail | NotFound | NotImp | Refused
    | BadQuery | BadName | BadResp | ConnRefused | Timeout | NoMem
    | Destruction | Cancelled

  const HEADER_SIZE := 12
  /** The size of the record that asks for EDNS. */
  const EDNS_SIZE := 11

  /** A query as ares_send accepts it: it holds a header, and its length fits in two bytes. */
  type Request = b: seq<byte> | HEADER_SIZE <= |b| < 0x1_0000 witness seq(HEADER_SIZE, _ => 0)

  /** The request as the fallback from EDNS rewrites it: no additional records are announced, and the last bytes,
      which hold the record for EDNS, are cut off. */
  function WithoutEdns(b: Request): (r: seq<byte>)
    ensures 0 < |r| == |b| - EDNS_SIZE
  {
    b[10 := 0][11 := 0][..|b| - EDNS_SIZE]
  }

  /** The request of a query as it is, if `rewritten` is the query that fell back from EDNS. */
  function RequestOf(q: Query, rewritten: Query?): (r: seq<byte>)
    ensures 0 < |r| < 0x1_0000
  {
    if q == rewritten then WithoutEdns(q.qbuf) else q.qbuf
  }

  datatype Transport = Udp | Tcp(generation: nat)

  /** What happens to a query, in order: a server is ruled out for it, it is transmitted
      (written to a UDP socket, or queued on an incarnation of a TCP connection), it falls back from EDNS, it ends. */
  datatype Event =
    | Skipped(server: nat)
    | Sent(server: nat, via: Transport)
    | FellBack
    | Ended(status: Status)

  /** No transmission to a server already ruled out, and none repeated on one TCP incarnation, except after a
      fallback from EDNS. */
  ghost predicate NeverReusesBadPath(h: seq<Event>) {
    forall i, j {:trigger h[i], h[j]} :: 0 <= i < j < |h| && h[j].Sent? ==>
      h[i] != Skipped(h[j].server) && (h[j].via.Tcp? && h[i] == h[j] ==> FellBack in h[i..j])
  }

  lemma Appended(h: seq<Event>, e: Event)
    requires NeverReusesBadPath(h)
    requires e.Sent? ==> Skipped(e.server) !in h
    requires e.Sent? && e.via.Tcp? && e in h ==> h[|h| - 1] == FellBack
    ensures NeverReusesBadPath(h + [e])
  {
    var all := h + [e];
    forall i, j {:trigger all[i], all[j]} | 0 <= i < j < |all| && all[j].Sent?
      ensures all[i] != Skipped(all[j].server) && (all[j].via.Tcp? && all[i] == all[j] ==> FellBack in all[i..j])
    {
      if j < |h| {
        assert h[i] == all[i] && h[j] == all[j];
        assert all[i..j] == h[i..j];
      } else {
        assert all[i] == h[i];
        assert all[i..j] == h[i..];
        assert h[i..][|h[i..]| - 1] == h[|h| - 1];
      }
    }
  }

  /** Without a fallback there is no exception. */
  lemma NoRepetition(h: seq<Event>)
    requires NeverReusesBadPath(h) && FellBack !in h
    ensures forall i, j {:trigger h[i], h[j]} :: 0 <= i < j < |h| && h[j].Sent? && h[j].via.Tcp? ==> h[i] != h[j]
  {
    forall i, j | 0 <= i < j < |h| && h[j].Sent? && h[j].via.Tcp? ensures h[i] != h[j] {
      assert forall e :: e in h[i..j] ==> e in h;
    }
  }

  /** An end is the last event. */
  ghost predicate EndsOnce(h: seq<Event>) {
    forall i :: 0 <= i < |h| - 1 ==> !h[i].Ended?
  }

  ghost predicate IsEnded(h: seq<Event>) {
    h != [] && h[|h| - 1].Ended?
  }

  class Query {
    /** The request as it was submitted. */
    const qbuf: Request
    const qid: nat := Word(qbuf[0], qbuf[1])

    var timeout: Time
    var tryCount: nat
    var server: nat
    /** Per server: ruled out after an error, and the TCP incarnation the query was queued on. */
    var skip: seq<bool>
    var generation: seq<nat>
    var usingTcp: bool
    var errorStatus: Status
    var timeouts: nat

    ghost var history: seq<Event>
    /** How often the query entered the send routine, switched from UDP to TCP, and fell back from EDNS. */
    ghost var sends: nat
    ghost var switches: nat
    ghost var fallbacks: nat
    /** When the current deadline was set, and how far ahead. */
    ghost var sentAt: Time
    ghost var wait: nat
    /** The last wait of each try count so far. */
    ghost var waits: seq<nat>

    /** The per-server tables and the history agree, and the history is safe. */
    ghost predicate Valid(nservers: nat)
      reads `skip, `generation, `server, `usingTcp, `tryCount, `errorStatus, `history, `sends, `switches, `fallbacks
    {
      && |skip| == |generation| == nservers
      && server < nservers
      && (forall s :: 0 <= s < nservers ==> (skip[s] <==> Skipped(s) in history))
      && (forall e :: e in history && e.Sent? && e.via.Tcp? ==>
            usingTcp && e.server < nservers && e.via.generation <= generation[e.server])
      && (!usingTcp ==> forall s :: 0 <= s < nservers ==> generation[s] == 0)
      && NeverReusesBadPath(history)
      && EndsOnce(history)
      && switches <= (if usingTcp then 1 else 0)
      && sends <= tryCount + 1 + switches + fallbacks
      && (fallbacks == 0 ==> FellBack !in history)
      && errorStatus in {ConnRefused, Timeout}
      && (nservers == 1 ==> !skip[0])
    }

    /** The server and the counts of a query may change. */
    twostate lemma StillValid(new nservers: nat)
      requires old(Valid(nservers))
      requires unchanged(`skip, `generation, `usingTcp, `history, `switches, `fallbacks)
      requires server < nservers && sends <= tryCount + 1 + switches + fallbacks && errorStatus in {ConnRefused, Timeout}
      ensures Valid(nservers)
    {
      hide NeverReusesBadPath, EndsOnce;
    }

    /** A query that waits for an answer. */
    ghost predicate Waiting(nservers: nat, waitBase: nat)
      requires nservers > 0
      reads `skip, `server, `sentAt, `timeout, `wait, `tryCount
    {
      && server < |skip| && !skip[server]
      && sentAt.Normal() && timeout == TimeAdd(sentAt, wait)
      && WaitInRange(waitBase, nservers, tryCount, wait)
    }

    constructor (qbuf: Request, server: nat, nservers: nat, usingTcp: bool)
      requires server < nservers
      ensures this.qbuf == qbuf && this.server == server && this.usingTcp == usingTcp
      ensures Valid(nservers)
      ensures history == [] && tryCount == sends == switches == fallbacks == 0 && !skip[server] && waits == []
      ensures |skip| == |generation| == nservers
      ensures forall s :: 0 <= s < nservers ==> generation[s] == 0
    {
      this.qbuf := qbuf;
      timeout := Time(0, 0);
      tryCount, this.server := 0, server;
      skip := seq(nservers, _ => false);
      generation := seq(nservers, _ => 0);
      this.usingTcp := usingTcp;
      errorStatus, timeouts := ConnRefused, 0;
      history, sends, switches, fallbacks := [], 0, 0, 0;
      sentAt, wait, waits := Time(0, 0), 0, [];
    }

    /** Rules server `s` out for this query. */
    method Skip(s: nat)
      requires Valid(|skip|) && |skip| > 1 && s < |skip| && !IsEnded(history)
      modifies `skip, `history
      ensures Valid(|skip|) && |skip| == |old(skip)|
      ensures skip == old(skip)[s := true]
      ensures history == old(history) + [Skipped(s)]
    {
      Appended(history, Skipped(s));
      hide NeverReusesBadPath;
      skip := skip[s := true];
      history := history + [Skipped(s)];
    }

    /** Remembers the TCP incarnation the query was just queued on. */
    method QueuedOn(newGeneration: nat)
      requires Valid(|skip|) && !skip[server] && !IsEnded(history)
      requires usingTcp && (generation[server] < newGeneration || (JustFellBack() && generation[server] == newGeneration))
      modifies `generation, `history
      ensures Valid(|skip|) && |generation| == |old(generation)|
      ensures generation == old(generation)[server := newGeneration]
      ensures history == old(history) + [Sent(server, Tcp(newGeneration))]
    {
      Appended(history, Sent(server, Tcp(newGeneration)));
      hide NeverReusesBadPath;
      generation := generation[server := newGeneration];
      history := history + [Sent(server, Tcp(newGeneration))];
    }

    /** Nothing happened to the query since it fell back from EDNS. */
    ghost predicate JustFellBack()
      reads `history
    {
      history != [] && history[|history| - 1] == FellBack
    }

    /** The query is to be sent without EDNS from now on. */
    ghost method FallBack()
      requires Valid(|skip|) && !IsEnded(history)
      modifies `history, `fallbacks
      ensures Valid(|skip|) && history == old(history) + [FellBack] && fallbacks == old(fallbacks) + 1
      ensures sends <= tryCount + switches + fallbacks
    {
      Appended(history, FellBack);
      hide NeverReusesBadPath;
      history := history + [FellBack];
      fallbacks := fallbacks + 1;
    }

    ghost method WrittenToUdp()
      requires Valid(|skip|) && !skip[server] && !IsEnded(history)
      modifies `history
      ensures Valid(|skip|)
      ensures history == old(history) + [Sent(server, Udp)]
    {
      Appended(history, Sent(server, Udp));
      hide NeverReusesBadPath;
      history := history + [Sent(server, Udp)];
    }

    /** A truncated answer makes the query use TCP from now on. */
    method SwitchToTcp()
      requires Valid(|skip|) && !usingTcp
      modifies `usingTcp, `switches
      ensures Valid(|skip|) && usingTcp && sends <= tryCount + switches + fallbacks && switches == old(switches) + 1
      ensures forall s :: 0 <= s < |skip| ==> generation[s] == 0
    {
      usingTcp := true;
      switches := switches + 1;
    }

    ghost method End(status: Status)
      requires Valid(|skip|) && !IsEnded(history)
      modifies `history
      ensures Valid(|skip|)
      ensures history == old(history) + [Ended(status)]
    {
      Appended(history, Ended(status));
      hide NeverReusesBadPath;
      history := history + [Ended(status)];
    }
  }
}
