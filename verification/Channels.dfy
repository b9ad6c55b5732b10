/** The resolver channel: submits queries, retries them over its servers, and completes them. */
module Channels {
  import opened Bytes
  import opened Lists
  import opened Clock
  import opened Framing
  import opened Queries
  import opened Servers
  import opened Indexes
  import opened Questions

  /** A call of a submitter's callback. Requests that are refused outright have no query. */
  datatype Callback = Callback(query: Query?, status: Status, timeouts: nat, answer: seq<byte>)

  ghost function Called(callbacks: seq<Callback>): set<Query?> {
    set c | c in callbacks :: c.query
  }

  ghost predicate CalledOnce(callbacks: seq<Callback>) {
    forall i, j {:trigger callbacks[i], callbacks[j]} :: 0 <= i < j < |callbacks| && callbacks[i].query != null ==>
      callbacks[i].query != callbacks[j].query
  }

  lemma CallOnce(callbacks: seq<Callback>, c: Callback)
    requires CalledOnce(callbacks) && c.query !in Called(callbacks)
    ensures CalledOnce(callbacks + [c]) && Called(callbacks + [c]) == Called(callbacks) + {c.query}
  {
    forall i | 0 <= i < |callbacks| ensures callbacks[i].query != c.query {
      assert callbacks[i] in callbacks;
    }
    forall x | x in Called(callbacks) + {c.query} ensures x in Called(callbacks + [c]) {
      if x == c.query {
        assert c in callbacks + [c];
      } else {
        var d :| d in callbacks && d.query == x;
        assert d in callbacks + [c];
      }
    }
  }

  /** A query's deadline and try count at the start of a walk over the timeouts. */
  datatype Mark = Mark(deadline: Time, tries: nat)

  /** A packet that waits at a UDP socket, and whether it comes from the server's address. */
  datatype Packet = Packet(data: seq<byte>, genuine: bool)

  function Packed(packets: seq<Packet>, server: nat): (r: seq<Arrival>) {
    seq(|packets|, k requires 0 <= k < |packets| => Arrival(packets[k].data, server, false))
  }

  lemma PackedMore(packets: seq<Packet>, n: nat, server: nat)
    requires n < |packets|
    ensures Packed(packets[..n + 1], server) == Packed(packets[..n], server) + [Arrival(packets[n].data, server, false)]
  {
  }

  /** An answer as it arrived: its bytes, the server it came from, and whether over TCP. */
  datatype Arrival = Arrival(abuf: seq<byte>, server: nat, tcp: bool)

  /** A server to the past and to the owners of requests. */
  datatype View = View(past: seq<Incarnation>, tcpOpen: bool, generation: nat, traffic: Traffic, broken: bool, owners: set<Query?>)

  /** Connections are remembered in order, and a broken one stays so until it is closed. What passed over an open
      connection is only added to, while it is open and when it becomes one of the past. */
  ghost predicate ViewGrown(a: View, b: View) {
    && a.past <= b.past && (a.broken ==> b.broken || |a.past| < |b.past|)
    && (a.tcpOpen && |a.past| == |b.past| ==> b.tcpOpen && b.generation == a.generation && TrafficGrown(a.traffic, b.traffic))
    && (a.tcpOpen && |a.past| < |b.past| ==>
      b.past[|a.past|].generation == a.generation && TrafficGrown(a.traffic, b.past[|a.past|].traffic))
  }

  lemma ViewGrownTwice(a: View, b: View, c: View)
    requires ViewGrown(a, b) && ViewGrown(b, c)
    ensures ViewGrown(a, c)
  {
    if a.tcpOpen && |a.past| < |b.past| {
      assert c.past[|a.past|] == b.past[|a.past|];
    }
  }

  ghost predicate ViewsGrown(a: seq<View>, b: seq<View>) {
    |a| == |b| && forall s :: 0 <= s < |a| ==> ViewGrown(a[s], b[s])
  }

  lemma ViewsGrownTwice(a: seq<View>, b: seq<View>, c: seq<View>)
    requires ViewsGrown(a, b) && ViewsGrown(b, c)
    ensures ViewsGrown(a, c)
  {
    forall s | 0 <= s < |a| ensures ViewGrown(a[s], c[s]) {
      ViewGrownTwice(a[s], b[s], c[s]);
    }
  }

  /** The first i servers, as far as they were broken, have been closed. */
  ghost predicate Longer(a: seq<View>, b: seq<View>, i: nat) {
    |a| == |b| && i <= |a| && forall s :: 0 <= s < i && a[s].broken ==> |a[s].past| < |b[s].past|
  }

  lemma LongerMore(a: seq<View>, b: seq<View>, c: seq<View>, i: nat)
    requires ViewsGrown(a, b) && ViewsGrown(b, c) && Longer(a, b, i) && i < |a|
    requires b[i].broken ==> |b[i].past| < |c[i].past|
    ensures Longer(a, c, i + 1)
  {
    forall s | 0 <= s <= i && a[s].broken ensures |a[s].past| < |c[s].past| {
      assert ViewGrown(a[s], b[s]) && ViewGrown(b[s], c[s]);
    }
  }

  /** Besides, no query but `q` becomes the owner of a queued request, and none but `q` ceases to be one unless
      connections may be closed. */
  ghost predicate Kept(a: View, b: View, q: Query, stayOpen: bool) {
    ViewGrown(a, b) && b.owners <= a.owners + {q, null} && (stayOpen ==> a.owners - {q} <= b.owners)
  }

  ghost predicate AllKept(a: seq<View>, b: seq<View>, q: Query, stayOpen: bool) {
    |a| == |b| && forall s :: 0 <= s < |a| ==> Kept(a[s], b[s], q, stayOpen)
  }

  lemma AllKeptTwice(a: seq<View>, b: seq<View>, c: seq<View>, q: Query, stayOpen: bool)
    requires AllKept(a, b, q, stayOpen) && AllKept(b, c, q, stayOpen)
    ensures AllKept(a, c, q, stayOpen)
  {
    forall s | 0 <= s < |a| ensures Kept(a[s], c[s], q, stayOpen) {
      assert Kept(a[s], b[s], q, stayOpen) && Kept(b[s], c[s], q, stayOpen);
      ViewGrownTwice(a[s], b[s], c[s]);
      hide ViewGrown;
    }
  }

  lemma AllKeptGrown(a: seq<View>, b: seq<View>, q: Query, stayOpen: bool)
    requires AllKept(a, b, q, stayOpen)
    ensures ViewsGrown(a, b)
  {
    forall s | 0 <= s < |a| ensures ViewGrown(a[s], b[s]) {
      assert Kept(a[s], b[s], q, stayOpen);
    }
  }

  lemma AllKeptSame(a: seq<View>, q: Query, stayOpen: bool)
    ensures AllKept(a, a, q, stayOpen)
  {
  }

  lemma AllGrownSame(a: seq<View>)
    ensures ViewsGrown(a, a)
  {
  }

  /** Where all requests are dropped, and may be. */
  lemma AllDropped(a: seq<View>, b: seq<View>, q: Query)
    requires ViewsGrown(a, b) && forall s :: 0 <= s < |b| ==> b[s].owners == {}
    ensures AllKept(a, b, q, false)
  {
    forall s | 0 <= s < |a| ensures Kept(a[s], b[s], q, false) {
      assert ViewGrown(a[s], b[s]);
    }
  }

  /** Whatever is done for some queries, no other one becomes the owner of a queued request, and none at all ceases to be
      one if connections stay open. */
  ghost predicate KeptFor(a: seq<View>, b: seq<View>, qs: set<Query>, stayOpen: bool) {
    ViewsGrown(a, b) && forall s :: 0 <= s < |a| ==>
      (forall q :: q in b[s].owners ==> q in a[s].owners || q == null || q in qs) && (stayOpen ==> a[s].owners <= b[s].owners + {null})
  }

  lemma KeptForTwice(a: seq<View>, b: seq<View>, c: seq<View>, qs: set<Query>, rs: set<Query>, stayOpen: bool)
    requires KeptFor(a, b, qs, stayOpen) && KeptFor(b, c, rs, stayOpen)
    ensures KeptFor(a, c, qs + rs, stayOpen)
  {
    ViewsGrownTwice(a, b, c);
    hide ViewsGrown;
  }

  lemma KeptForSame(a: seq<View>, stayOpen: bool)
    ensures KeptFor(a, a, {}, stayOpen)
  {
    AllGrownSame(a);
  }

  lemma KeptForNew(a: seq<View>, b: seq<View>, q: Query, stayOpen: bool)
    requires AllKept(a, b, q, stayOpen) && forall s :: 0 <= s < |a| ==> q !in a[s].owners
    ensures KeptFor(a, b, {q}, stayOpen)
  {
    AllKeptGrown(a, b, q, stayOpen);
    hide ViewsGrown;
    forall s | 0 <= s < |a|
      ensures (forall x :: x in b[s].owners ==> x in a[s].owners || x == null || x in {q}) && (stayOpen ==> a[s].owners <= b[s].owners + {null})
    {
      assert Kept(a[s], b[s], q, stayOpen);
    }
  }

  /** All that is only ever added to. */
  datatype Log = Log(callbacks: seq<Callback>, submitted: set<Query>, arrived: seq<Arrival>,
                     histories: map<Query, seq<Event>>, views: seq<View>)

  ghost predicate LogGrown(a: Log, b: Log) {
    && a.callbacks <= b.callbacks && a.submitted <= b.submitted && a.arrived <= b.arrived
    && (forall q :: q in a.submitted ==> q in a.histories && q in b.histories && a.histories[q] <= b.histories[q])
    && ViewsGrown(a.views, b.views)
  }

  lemma LogGrownSame(a: Log)
    requires forall q :: q in a.submitted ==> q in a.histories
    ensures LogGrown(a, a)
  {
    AllGrownSame(a.views);
  }

  lemma LogGrownTwice(a: Log, b: Log, c: Log)
    requires LogGrown(a, b) && LogGrown(b, c)
    ensures LogGrown(a, c)
  {
    hide ViewsGrown;
    ViewsGrownTwice(a.views, b.views, c.views);
    forall q | q in a.submitted ensures q in c.histories && a.histories[q] <= c.histories[q] {
      assert q in b.submitted;
    }
  }

  /** The answers that arrived from one server over TCP, in order. */
  function TcpArrivals(arrived: seq<Arrival>, server: int): seq<seq<byte>> {
    if arrived == [] then []
    else
      var last := arrived[|arrived| - 1];
      TcpArrivals(arrived[..|arrived| - 1], server) + if last.tcp && last.server == server then [last.abuf] else []
  }

  lemma OneMoreArrival(arrived: seq<Arrival>, a: Arrival, server: int)
    ensures TcpArrivals(arrived + [a], server) ==
      TcpArrivals(arrived, server) + if a.tcp && a.server == server then [a.abuf] else []
  {
    assert (arrived + [a])[..|arrived|] == arrived;
  }

  /** What decides how an answer to a query is taken. */
  datatype Rights = Rights(usingTcp: bool, server: nat, timeouts: nat)

  const NO_RIGHTS := Rights(false, 0, 0)

  const PACKET_SIZE := 512
  const MAX_PACKET_SIZE := 4097
  const SERVFAIL := 2
  const FORMERR := 1
  const NOTIMP := 4
  const REFUSED := 5

  /** Fields of a message header (section 4.1.1 of RFC 1035). */
  function MessageId(abuf: seq<byte>): nat
    requires |abuf| >= HEADER_SIZE
  {
    Word(abuf[0], abuf[1])
  }

  predicate TruncatedBit(abuf: seq<byte>)
    requires |abuf| >= HEADER_SIZE
  {
    abuf[2] / 2 % 2 == 1
  }

  function ResponseCode(abuf: seq<byte>): nat
    requires |abuf| >= HEADER_SIZE
  {
    abuf[3] % 16
  }

  class Channel {
    const servers: seq<Server>
    /** Tries per server, and the wait of a first try in milliseconds. */
    const tries: nat
    const timeout: nat
    const rotate: bool
    const stayOpen: bool
    const ignoreTruncation: bool
    const ednsPacketSize: nat
    const noCheckResponse: bool
    const useTcp: bool

    var links: Links
    /** Counts openings and closings of TCP connections. */
    var generation: nat
    var lastServer: nat
    var lastTimeoutProcessed: nat
    /** The channel asks for EDNS. It stops when a server does not understand that; the query that was answered so
        has been rewritten. */
    var edns: bool
    var rewritten: Query?

    ghost var submitted: set<Query>
    ghost var callbacks: seq<Callback>
    /** Queries that were freed without a look at the output queues. */
    ghost var orphans: set<Query>
    /** The answers that were processed. */
    ghost var arrived: seq<Arrival>
    /** The server whose answer is being processed, or -1. */
    ghost var reading: int

    function Attempts(): nat { |servers| * tries }

    ghost predicate ServersOk()
      reads `generation, `reading, `edns, `rewritten, `arrived, servers
    {
      && |servers| > 0 && tries > 0 && timeout > 0
      && (edns ==> rewritten == null)
      && (forall i, j :: 0 <= i < j < |servers| ==> servers[i] != servers[j])
      && (forall s :: 0 <= s < |servers| ==> ServerOk(s))
    }

    ghost predicate ServerOk(s: int)
      requires 0 <= s < |servers|
      reads `generation, `reading, `rewritten, `arrived, servers
    {
      && servers[s].Valid() && servers[s].generation <= generation && servers[s].rewritten == rewritten
      && servers[s].Delivered() == TcpArrivals(arrived, s)
      && (servers[s].delivering ==> s == reading)
      && (s == reading && !servers[s].delivering ==> servers[s].lenbuf == [])
    }

    /** A query was not queued on a TCP incarnation that is still to come; it was not sent more often than there are
        tries, but for one switch to TCP and, if it is the rewritten one, one fallback from EDNS; and it waited no longer
        than its tries allow. */
    ghost predicate WithinLimits(q: Query)
      reads `rewritten, q`generation, q`sends, q`switches, q`fallbacks, q`waits, servers
    {
      && |servers| > 0 && |q.generation| == |servers|
      && (forall s :: 0 <= s < |servers| ==> q.generation[s] <= servers[s].generation)
      && q.sends <= Attempts() + q.switches + q.fallbacks
      && q.fallbacks <= (if q == rewritten then 1 else 0)
      && |q.waits| <= Attempts() && WaitsOk(timeout, |servers|, q.waits)
    }

    ghost predicate HistoriesOk()
      reads `submitted, `rewritten, servers, submitted
    {
      forall q :: q in submitted ==> q.Valid(|servers|) && WithinLimits(q)
    }

    /** Every submitted query is live or has been called back, and never twice. */
    ghost predicate CompletionOk(busy: set<Query>)
      reads `links, `callbacks, `submitted, submitted
    {
      && (forall q :: q in links.Live() ==> q in submitted)
      && CalledOnce(callbacks)
      && (forall q :: q in Called(callbacks) ==> q == null || q in submitted)
      && (forall q :: q in submitted ==> (IsEnded(q.history) <==> q in Called(callbacks)))
      && (forall q :: q in submitted ==> q in links.Live() || IsEnded(q.history))
      && (forall q :: q in links.Live() && q !in busy ==> !IsEnded(q.history))
    }

    /** Every queued TCP request belongs to a live query or to none. */
    ghost predicate OwnersOk()
      reads `links, `orphans, servers
    {
      forall s :: 0 <= s < |servers| ==>
        Owners(servers[s].queue) <= (set q | q in links.Live()) + orphans + {null}
    }

    /** A live query at rest: it waits for the answer of one server until its deadline,
        and it is linked exactly where its id, its deadline and its server say. */
    ghost predicate Settled(q: Query)
      reads `links, `lastTimeoutProcessed, q
    {
      && |servers| > 0 && |q.skip| == |servers|
      && q.tryCount < Attempts()
      && q.Waiting(|servers|, timeout)
      && |q.waits| == q.tryCount + 1 && q.waits[q.tryCount] == q.wait
      && q.timeout.sec > 0 && lastTimeoutProcessed <= q.timeout.sec
      && links.LinkedAt(q, q.timeout.sec % TIMEOUT_TABLE_SIZE, q.server)
    }

    /** What holds between any two steps, except for the queries that are being handled. */
    ghost predicate Inv(busy: set<Query>)
      reads `links, `generation, `lastTimeoutProcessed, `edns, `rewritten, `submitted, `callbacks, `orphans, `reading, `arrived,
        servers, submitted
    {
      && ServersOk()
      && links.WellFormed(|servers|)
      && HistoriesOk()
      && CompletionOk(busy)
      && OwnersOk()
      && (forall q :: q in links.Live() && q !in busy ==> q in submitted && Settled(q))
    }

    /** A query is never queued again on the TCP connection it was queued on, unless it has just fallen back. */
    ghost predicate FreshPath(q: Query)
      reads q`usingTcp, q`server, q`generation, q`history, servers
    {
      q.usingTcp && q.server < |servers| && q.server < |q.generation| && servers[q.server].tcpOpen ==>
        q.generation[q.server] < servers[q.server].generation || q.JustFellBack()
    }

    /** The query was just transmitted to its server: written to UDP, or queued whole at the tail of the output
        of the TCP connection. */
    ghost predicate JustSent(q: Query)
      reads `rewritten, q`history, q`server, q`generation, q`usingTcp, servers
    {
      && q.history != [] && q.server < |servers| && q.server < |q.generation|
      && q.history[|q.history| - 1] == Sent(q.server, if q.usingTcp then Tcp(q.generation[q.server]) else Udp)
      && (if q.usingTcp then LastQueued(servers[q.server], q) else servers[q.server].udpOpen)
    }

    ghost predicate LastQueued(server: Server, q: Query)
      reads `rewritten, q`generation, q`server, server
    {
      var request := RequestOf(q, rewritten);
      && server.tcpOpen && q.server < |q.generation| && q.generation[q.server] == server.generation
      && server.queue != [] && server.queue[|server.queue| - 1] == SendRequest(Frame(request), q, false)
      && server.traffic.queued != [] && server.traffic.queued[|server.traffic.queued| - 1] == request
    }

    /** What the servers look like to their past and to the owners of requests. */
    ghost function Views(): (v: seq<View>)
      reads servers
    {
      seq(|servers|, s requires 0 <= s < |servers| reads servers => ViewOf(servers[s]))
    }

    ghost function ViewOf(server: Server): View
      reads server
    {
      View(server.past, server.tcpOpen, server.generation, server.traffic, server.isBroken, Owners(server.queue))
    }

    /** Whatever is done for `q` keeps what was said of past connections, and the owners of requests but for `q`. */
    twostate predicate ServersKept(new q: Query)
      reads servers
    {
      AllKept(old(Views()), Views(), q, stayOpen)
    }

    /** One server changed, and the others did not. */
    twostate lemma OneKept(new w: int, new q: Query)
      requires 0 <= w < |servers|
      requires forall s :: 0 <= s < |servers| && s != w ==> unchanged(servers[s])
      requires Kept(old(ViewOf(servers[w])), ViewOf(servers[w]), q, stayOpen)
      ensures ServersKept(q)
    {
      hide Owners;
    }

    ghost function Logs(): Log
      reads `callbacks, `submitted, `arrived, servers, submitted
    {
      Log(callbacks, submitted, arrived, map q | q in submitted :: q.history, Views())
    }

    /** What is in the logs stays there: callbacks, submissions, answers, the histories of queries, connections. */
    twostate predicate Grown()
      reads `callbacks, `submitted, `arrived, servers, submitted
    {
      LogGrown(old(Logs()), Logs())
    }

    lemma PastLogged(w: nat)
      requires w < |servers|
      ensures |Logs().views| == |servers| && Logs().views[w].past == servers[w].past
    {
    }

    lemma PastKept(logs: Log, w: nat, past: seq<Incarnation>)
      requires w < |servers| && LogGrown(logs, Logs()) && |logs.views| == |servers| && logs.views[w].past == past
      ensures past <= servers[w].past
    {
      assert ViewGrown(logs.views[w], Views()[w]);
    }

    lemma LogGrownNow()
      ensures LogGrown(Logs(), Logs())
    {
      LogGrownSame(Logs());
    }

    /** What the parts of the log do, the whole does. */
    twostate lemma GrownParts()
      requires old(callbacks) <= callbacks && old(submitted) <= submitted && old(arrived) <= arrived
      requires forall x :: x in old(submitted) ==> old(x.history) <= x.history
      requires ViewsGrown(old(Views()), Views())
      ensures Grown()
    {
      hide ViewsGrown, Views;
    }

    /** Nothing was logged, and no connection forgotten. */
    twostate lemma GrownAnyway()
      requires unchanged(`callbacks, `submitted, `arrived) && forall x :: x in submitted ==> unchanged(x)
      requires ViewsGrown(old(Views()), Views())
      ensures Grown()
    {
      hide ViewsGrown, Views;
    }

    /** One server changed, and the others did not. */
    twostate lemma OneGrown(new w: int)
      requires 0 <= w < |servers|
      requires unchanged(`callbacks, `submitted) && old(arrived) <= arrived && forall x :: x in submitted ==> unchanged(x)
      requires forall s :: 0 <= s < |servers| && s != w ==> unchanged(servers[s])
      requires ViewGrown(old(ViewOf(servers[w])), ViewOf(servers[w]))
      ensures Grown()
    {
      OneViewGrown(w);
      GrownParts();
    }

    /** Nothing but what is done for one query. */
    twostate lemma GrownFor(new q: Query)
      requires old(allocated(q)) && old(callbacks) <= callbacks && submitted == old(submitted) && arrived == old(arrived)
      requires old(q.history) <= q.history && forall x :: x in submitted && x != q ==> unchanged(x)
      requires ServersKept(q)
      ensures Grown()
    {
      hide Kept, Owners;
      AllKeptGrown(old(Views()), Views(), q, stayOpen);
    }

    /** A change that touches no more than one server and one query that is being handled keeps the
        invariant if it keeps what the server and the query must satisfy by themselves. */
    twostate lemma LocalChange(new w: int, new q: Query?, new busy: set<Query>)
      requires old(allocated(q)) && old(allocated(busy))
      requires old(Inv(busy)) && 0 <= w < |servers| && (q != null ==> q in busy && q in links.Live())
      requires unchanged(`links, `lastTimeoutProcessed, `edns, `rewritten, `submitted, `callbacks, `orphans)
      requires forall s :: 0 <= s < |servers| && s != w ==> TcpArrivals(arrived, s) == old(TcpArrivals(arrived, s))
      requires reading == old(reading) || ((reading == -1 || reading == w) &&
        forall s :: 0 <= s < |servers| && s != w ==> !servers[s].delivering)
      requires old(generation) <= generation
      requires forall s :: 0 <= s < |servers| && s != w ==> unchanged(servers[s])
      requires forall x :: x in submitted && x != q ==> unchanged(x)
      requires ServerOk(w) && old(servers[w].generation) <= servers[w].generation
      requires Owners(servers[w].queue) <= old(Owners(servers[w].queue)) + {q, null}
      requires q != null ==> q.Valid(|servers|) && WithinLimits(q) && !IsEnded(q.history) && !old(IsEnded(q.history))
      ensures Inv(busy)
    {
      hide Links.WellFormed, Server.Valid, Query.Valid, IsEnded, CalledOnce, Called, Query.Waiting, Links.LinkedAt, WaitsOk,
           Settled, TcpArrivals, Server.Delivered, WithinLimits;
      assert ServersOk() by {
        forall s | 0 <= s < |servers| && s != w ensures ServerOk(s) {
          assert old(ServerOk(s));
        }
      }
      assert CompletionOk(busy);
      HistoriesStay(q);
      assert OwnersOk() by {
        forall s | 0 <= s < |servers| && s != w
          ensures Owners(servers[s].queue) <= (set x | x in links.Live()) + orphans + {null}
        {
          assert servers[s].queue == old(servers[s].queue);
        }
      }
      forall x | x in links.Live() && x !in busy ensures Settled(x) {
        assert old(Settled(x));
      }
    }

    /** What was said of the servers holds still if they did not change. */
    twostate lemma ServersStay()
      requires old(ServersOk()) && unchanged(`generation, `reading, `edns, `rewritten, `arrived)
      requires forall s :: 0 <= s < |servers| ==> unchanged(servers[s])
      ensures ServersOk()
    {
      hide Server.Valid;
      forall s | 0 <= s < |servers| ensures ServerOk(s) {
        assert old(ServerOk(s));
      }
    }

    /** What was said of the histories of queries holds still if they did not change but for one. */
    twostate lemma HistoriesStay(new q: Query?)
      requires old(HistoriesOk()) && unchanged(`rewritten) && submitted == old(submitted) + if q == null then {} else {q}
      requires forall s :: 0 <= s < |servers| ==> old(servers[s].generation) <= servers[s].generation
      requires forall x :: x in submitted && x != q ==> unchanged(x)
      requires q != null ==> q.Valid(|servers|) && WithinLimits(q)
      ensures HistoriesOk()
    {
      hide Query.Valid, WaitsOk;
      forall x | x in submitted ensures x.Valid(|servers|) && WithinLimits(x) {
        if x != q {
          assert old(x.Valid(|servers|)) && old(WithinLimits(x));
        }
      }
    }

    /** A query may leave the lists if no queued request refers to it, or if it counts as an orphan. */
    twostate lemma OwnersStay(new q: Query)
      requires old(OwnersOk()) && old(orphans) <= orphans && forall s :: 0 <= s < |servers| ==> unchanged(servers[s])
      requires forall x :: x in old(links).Live() ==> x == q || x in links.Live()
      requires q in orphans || forall s :: 0 <= s < |servers| ==> q !in Owners(servers[s].queue)
      ensures OwnersOk()
    {
      hide Owners, Links.Live;
      forall s | 0 <= s < |servers|
        ensures Owners(servers[s].queue) <= (set x | x in links.Live()) + orphans + {null}
      {
        assert old(Owners(servers[s].queue)) <= (set x | x in old(links.Live())) + old(orphans) + {null};
      }
    }

    /** The limits of a query that was called back. */
    twostate lemma LimitsStay(new q: Query)
      requires old(allocated(q)) && old(HistoriesOk()) && q in old(submitted) && unchanged(`rewritten)
      requires forall s :: 0 <= s < |servers| ==> unchanged(servers[s])
      requires unchanged(q`generation, q`sends, q`switches, q`fallbacks, q`waits)
      ensures WithinLimits(q)
    {
      hide WaitsOk, Query.Valid;
      assert old(WithinLimits(q));
    }

    /** The special case of a change to one server, with the channel's connection counter. */
    twostate lemma ServerChange(new w: int, new busy: set<Query>)
      requires old(allocated(busy))
      requires old(Inv(busy)) && 0 <= w < |servers|
      requires unchanged(`links, `lastTimeoutProcessed, `edns, `rewritten, `submitted, `callbacks, `orphans)
      requires forall s :: 0 <= s < |servers| && s != w ==> TcpArrivals(arrived, s) == old(TcpArrivals(arrived, s))
      requires reading == old(reading) || ((reading == -1 || reading == w) &&
        forall s :: 0 <= s < |servers| && s != w ==> !servers[s].delivering)
      requires old(generation) <= generation
      requires forall s :: 0 <= s < |servers| && s != w ==> unchanged(servers[s])
      requires forall x :: x in submitted ==> unchanged(x)
      requires ServerOk(w) && old(servers[w].generation) <= servers[w].generation
      requires Owners(servers[w].queue) <= old(Owners(servers[w].queue)) + {null}
      ensures Inv(busy)
    {
      hide Inv, ServerOk, Owners;
      LocalChange(w, null, busy);
    }

    /** A change of the links only, which keeps every query at rest linked where it belongs. */
    twostate lemma LinksChange(new busy: set<Query>)
      requires old(allocated(busy))
      requires old(Inv(busy))
      requires unchanged(`edns, `rewritten, `arrived, `generation, `lastTimeoutProcessed, `submitted, `callbacks, `orphans, `reading)
      requires forall s :: 0 <= s < |servers| ==> unchanged(servers[s])
      requires forall x :: x in submitted ==> unchanged(x)
      requires links.WellFormed(|servers|) && links.Live() == old(links).Live()
      requires forall q :: q in links.Live() && q !in busy ==>
        links.LinkedAt(q, q.timeout.sec % TIMEOUT_TABLE_SIZE, q.server)
      ensures Inv(busy)
    {
      hide Links.WellFormed, Server.Valid, IsEnded, CalledOnce, Called, Query.Waiting, Links.LinkedAt,
           NeverReusesBadPath, EndsOnce, Query.Valid, Owners, ServersOk;
      assert old(ServersOk());
      ServersStay();
      forall x | x in links.Live() && x !in busy ensures Settled(x) {
        assert x in submitted;
        assert old(Settled(x));
      }
    }

    /** The special case of a change to one query only. */
    twostate lemma QueryChange(new q: Query, new busy: set<Query>)
      requires old(allocated(q)) && old(allocated(busy))
      requires old(Inv(busy)) && old(InHand(q, busy))
      requires unchanged(this)
      requires forall s :: 0 <= s < |servers| ==> unchanged(servers[s])
      requires forall x :: x in submitted && x != q ==> unchanged(x)
      requires q.Valid(|servers|) && WithinLimits(q) && !IsEnded(q.history)
      ensures Inv(busy)
    {
      hide Links.WellFormed, Server.Valid, Query.Valid, IsEnded, CalledOnce, Called, Settled, WithinLimits, CompletionOk;
      assert old(ServersOk());
      assert old(ServerOk(0));
      assert ServerOk(0);
      assert old(CompletionOk(busy));
      hide Inv, ServerOk, ServersOk, HistoriesOk;
      LocalChange(0, q, busy);
    }

    /** A query that is being handled and has not ended. */
    ghost predicate InHand(q: Query, busy: set<Query>)
      reads `links, q`history
    {
      q in busy && q in links.Live() && !IsEnded(q.history)
    }

    lemma Sizes(busy: set<Query>)
      requires Inv(busy)
      ensures |servers| > 0 && tries > 0 && timeout > 0 && Attempts() > 0
      ensures |links.byQid| == QID_TABLE_SIZE && |links.byTimeout| == TIMEOUT_TABLE_SIZE
      ensures |links.byServer| == |servers|
    {
      hide CompletionOk, HistoriesOk, ServerOk, OwnersOk, Settled;
    }

    lemma ServerFacts(w: int, busy: set<Query>)
      requires Inv(busy) && 0 <= w < |servers|
      ensures ServerOk(w)
      ensures forall i :: 0 <= i < |servers| && i != w ==> servers[i] != servers[w]
    {
      hide CompletionOk, HistoriesOk, ServerOk, OwnersOk, Settled, Links.WellFormed;
    }

    /** What the invariant says about a query that is being handled, and about one server. */
    lemma HandFacts(q: Query, w: int, busy: set<Query>)
      requires Inv(busy) && InHand(q, busy)
      ensures q in submitted && q.Valid(|servers|) && WithinLimits(q)
      ensures q.server < |servers| == |q.skip| == |q.generation| && tries > 0
      ensures q.errorStatus in {ConnRefused, Timeout}
      ensures 0 <= w < |servers| ==> ServerOk(w)
    {
      hide Server.Valid, Links.WellFormed, NeverReusesBadPath, EndsOnce, Settled, CalledOnce, OwnersOk;
    }

    /** The query's present server is one of the channel's, and not ruled out for it. */
    ghost predicate Usable(q: Query)
      reads q`server, q`skip
    {
      q.server < |servers| && q.server < |q.skip| && !q.skip[q.server]
    }

    /** Skips a server for a query, unless it is the only one. */
    method SkipServer(q: Query, w: nat, ghost busy: set<Query>)
      requires Inv(busy) && InHand(q, busy) && w < |servers|
      modifies q`skip, q`history
      ensures Inv(busy) && InHand(q, busy) && old(q.history) <= q.history
      ensures q.skip == (if |servers| > 1 then old(q.skip)[w := true] else old(q.skip))
      ensures |servers| > 1 ==> Skipped(w) in q.history
    {
      hide Inv, ServerOk, WithinLimits, Query.Valid;
      HandFacts(q, w, busy);
      if |servers| > 1 {
        q.Skip(w);
      }
      QueryChange(q, busy);
    }

    /** Opens the TCP socket of a server; any of the system calls may fail. */
    method OpenTcpSocket(w: nat, ghost q: Query, ghost busy: set<Query>) returns (ok: bool)
      requires Inv(busy) && w < |servers| && !servers[w].tcpOpen
      modifies `generation, servers[w]
      ensures Inv(busy) && ServersKept(q)
      ensures servers[w].isBroken ==> old(servers[w].isBroken)
      ensures if ok then servers[w].tcpOpen && old(servers[w].generation) < servers[w].generation
              else unchanged(this) && unchanged(servers[w])
    {
      hide Inv, ServerOk, AllKept, Views, Owners, ViewGrown;
      ServerFacts(w, busy);
      AllKeptSame(Views(), q, stayOpen);
      var connected: bool := *;
      if !connected {
        return false;
      }
      TcpSocketOpened(w, busy);
      OneKept(w, q);
      return true;
    }

    /** All the system calls succeeded. */
    method TcpSocketOpened(w: nat, ghost busy: set<Query>)
      requires Inv(busy) && w < |servers| && !servers[w].tcpOpen
      modifies `generation, servers[w]
      ensures Inv(busy) && ViewGrown(old(ViewOf(servers[w])), ViewOf(servers[w]))
      ensures Owners(servers[w].queue) == old(Owners(servers[w].queue))
      ensures servers[w].isBroken ==> old(servers[w].isBroken)
      ensures servers[w].tcpOpen && old(servers[w].generation) < servers[w].generation
    {
      hide Inv, Server.Valid;
      ServerFacts(w, busy);
      generation := servers[w].OpenTcp(generation);
      ServerChange(w, busy);
    }

    /** Opens the TCP connection to the channel's present server. */
    method FirstConnection()
      requires Valid() && !servers[lastServer].tcpOpen
      modifies `generation, servers[lastServer]
      ensures Valid() && servers[lastServer].tcpOpen
    {
      hide Inv, Owners, ViewGrown;
      TcpSocketOpened(lastServer, {});
    }

    method OpenUdpSocket(w: nat, ghost busy: set<Query>) returns (ok: bool)
      requires Inv(busy) && w < |servers| && !servers[w].udpOpen
      modifies servers[w]
      ensures Inv(busy) && servers[w].isBroken == old(servers[w].isBroken)
      ensures ok ==> servers[w].udpOpen
      ensures Views() == old(Views())
    {
      hide Inv, Server.Valid;
      ServerFacts(w, busy);
      var connected: bool := *;
      if !connected {
        return false;
      }
      servers[w].OpenUdp();
      ServerChange(w, busy);
      SameViews(w);
      return true;
    }

    /** Nothing to be seen happened to one server, and nothing at all to the others. */
    twostate lemma SameViews(new w: int)
      requires 0 <= w < |servers|
      requires forall s :: 0 <= s < |servers| && s != w ==> unchanged(servers[s])
      requires ViewOf(servers[w]) == old(ViewOf(servers[w]))
      ensures Views() == old(Views())
    {
    }

    /** Queues a query's framed request on the open TCP connection of its server. */
    method QueueRequest(q: Query, ghost busy: set<Query>)
      requires Inv(busy) && InHand(q, busy) && Usable(q) && q.usingTcp && q.server < |q.generation|
      requires servers[q.server].tcpOpen
      requires q.generation[q.server] < servers[q.server].generation || q.JustFellBack()
      modifies servers[q.server], q`generation, q`history
      ensures Inv(busy) && InHand(q, busy)
      ensures q.history == old(q.history) + [Sent(q.server, Tcp(servers[q.server].generation))]
      ensures LastQueued(servers[q.server], q)
      ensures servers[q.server].isBroken == old(servers[q.server].isBroken)
      ensures servers[q.server].generation == old(servers[q.server].generation)
      ensures ServersKept(q)
    {
      hide Inv, Query.Valid, Server.Valid;
      HandFacts(q, q.server, busy);
      ServerFacts(q.server, busy);
      servers[q.server].Enqueue(q, RequestOf(q, rewritten));
      q.QueuedOn(servers[q.server].generation);
      LocalChange(q.server, q, busy);
      OneKept(q.server, q);
    }

    ghost method WroteUdp(q: Query, busy: set<Query>)
      requires Inv(busy) && InHand(q, busy) && Usable(q)
      modifies q`history
      ensures Inv(busy) && InHand(q, busy) && q.history == old(q.history) + [Sent(q.server, Udp)]
    {
      hide Inv, Query.Valid, Server.Valid, ServerOk;
      HandFacts(q, q.server, busy);
      q.WrittenToUdp();
      QueryChange(q, busy);
    }

    /** The transmission part of the send routine: queues the framed request on TCP or writes it to UDP. */
    method Transmit(q: Query, ghost busy: set<Query>) returns (ok: bool)
      requires Inv(busy) && InHand(q, busy) && Usable(q) && FreshPath(q)
      modifies `generation, servers[q.server], q`generation, q`history
      ensures Inv(busy) && InHand(q, busy) && old(q.history) <= q.history
      ensures if ok then JustSent(q) && |q.history| == |old(q.history)| + 1 else q.history == old(q.history)
      ensures ServersKept(q)
      ensures q.usingTcp && old(servers[q.server].tcpOpen) ==>
        ok && q.history == old(q.history) + [Sent(q.server, Tcp(old(servers[q.server].generation)))]
      ensures servers[q.server].isBroken ==> old(servers[q.server].isBroken)
    {
      hide Inv, Query.Valid, Server.Valid, ServerOk, AllKept;
      AllKeptSame(Views(), q, stayOpen);
      HandFacts(q, q.server, busy);
      var w := q.server;
      if q.usingTcp {
        if !servers[w].tcpOpen {
          ok := OpenTcpSocket(w, q, busy);
          if !ok {
            return;
          }
          ghost var views := Views();
          QueueRequest(q, busy);
          AllKeptTwice(old(Views()), views, Views(), q, stayOpen);
          return true;
        }
        QueueRequest(q, busy);
      } else {
        if !servers[w].udpOpen {
          ok := OpenUdpSocket(w, busy);
          if !ok {
            return;
          }
        }
        ok := *;
        if !ok {
          return;
        }
        WroteUdp(q, busy);
      }
      return true;
    }

    /** The last part of the send routine: a new deadline, and the links that go with it. */
    method SetDeadline(q: Query, now: Time, ghost busy: set<Query>)
      requires Inv(busy) && InHand(q, busy) && Usable(q) && q.tryCount < Attempts()
      requires now.Normal() && 0 < now.sec && lastTimeoutProcessed <= now.sec
      modifies `links, q`timeout, q`sentAt, q`wait, q`waits
      ensures Inv(busy - {q}) && !IsEnded(q.history)
      ensures q.sentAt == now && Handled(q) && q.history == old(q.history)
    {
      hide Inv, Links.LinkedAt, Links.Move, IsEnded, WaitsOk, Waited, WaitInRange, Query.Valid, TimeAdd;
      Sizes(busy);
      HandFacts(q, 0, busy);
      var timeplus := ChooseWait(q.tryCount);
      WaitedOk(timeout, |servers|, q.waits, q.tryCount, timeplus);
      Relink(q, now, timeplus);
      DeadlineSet(q, busy);
    }

    /** The new deadline, and the query moved to the tail of the lists for it. */
    method Relink(q: Query, now: Time, timeplus: nat)
      requires now.Normal() && |links.byTimeout| == TIMEOUT_TABLE_SIZE && q.server < |links.byServer|
      modifies `links, q`timeout, q`sentAt, q`wait, q`waits
      ensures q.timeout == TimeAdd(now, timeplus) && q.sentAt == now && q.wait == timeplus
      ensures q.waits == Waited(old(q.waits), q.tryCount, timeplus)
      ensures links == old(links).Move(q, q.timeout.sec % TIMEOUT_TABLE_SIZE, q.server)
    {
      hide Links.MoveTimeout, Links.MoveServer, Waited, TimeAdd;
      MovesTogether(links, q, TimeAdd(now, timeplus).sec % TIMEOUT_TABLE_SIZE, q.server);
      q.timeout := TimeAdd(now, timeplus);
      q.sentAt, q.wait, q.waits := now, timeplus, Waited(q.waits, q.tryCount, timeplus);
      links := links.MoveTimeout(q, q.timeout.sec % TIMEOUT_TABLE_SIZE);
      links := links.MoveServer(q, q.server);
    }

    /** The wait of this try, with jitter. */
    method ChooseWait(tryCount: nat) returns (timeplus: nat)
      requires |servers| > 0
      ensures WaitInRange(timeout, |servers|, tryCount, timeplus)
    {
      hide WaitInRange;
      var jitter: nat := *;
      timeplus := JitteredWait(timeout, |servers|, tryCount, jitter);
      JitterStaysInRange(timeout, |servers|, tryCount, jitter);
    }

    twostate lemma DeadlineSet(new q: Query, new busy: set<Query>)
      requires old(allocated(q)) && old(allocated(busy))
      requires old(Inv(busy)) && old(InHand(q, busy))
      requires unchanged(`edns, `rewritten, `arrived, `generation, `lastTimeoutProcessed, `submitted, `callbacks, `orphans, `reading)
      requires forall s :: 0 <= s < |servers| ==> unchanged(servers[s])
      requires forall x :: x in submitted && x != q ==> unchanged(x)
      requires unchanged(q`skip, q`tryCount, q`server, q`generation, q`usingTcp, q`errorStatus, q`history, q`sends, q`switches, q`fallbacks)
      requires 0 < q.timeout.sec && lastTimeoutProcessed <= q.timeout.sec && q.tryCount < Attempts()
      requires |servers| > 0 && q.Waiting(|servers|, timeout) && q.Valid(|servers|) && WithinLimits(q)
      requires |q.waits| == q.tryCount + 1 && q.waits[q.tryCount] == q.wait && |q.skip| == |servers|
      requires q.server < |servers| == |old(links).byServer| && |old(links).byTimeout| == TIMEOUT_TABLE_SIZE
      requires links == old(links).Move(q, q.timeout.sec % TIMEOUT_TABLE_SIZE, q.server)
      ensures Inv(busy - {q})
    {
      hide Links.WellFormed, Server.Valid, IsEnded, CalledOnce, Called, Query.Waiting, Links.LinkedAt,
           NeverReusesBadPath, EndsOnce, Links.Move, Query.Valid, WaitsOk, ServersOk, HistoriesOk;
      old(links).MoveOk(q, q.timeout.sec % TIMEOUT_TABLE_SIZE, q.server, |servers|);
      assert old(ServersOk());
      ServersStay();
      assert old(HistoriesOk());
      assert submitted == old(submitted) + {q};
      HistoriesStay(q);
      forall x | x in links.Live() && x !in busy - {q} && x != q ensures Settled(x) {
        assert old(Settled(x));
        assert x in submitted;
        old(links).OthersStay(q, x, q.timeout.sec % TIMEOUT_TABLE_SIZE, q.server,
                              x.timeout.sec % TIMEOUT_TABLE_SIZE, x.server);
      }
    }

    /** Takes a query that ends out of all output queues. */
    method DisownAll(q: Query, success: bool, ghost busy: set<Query>)
      requires Inv(busy) && InHand(q, busy)
      modifies servers
      ensures Inv(busy) && InHand(q, busy)
      ensures forall s :: 0 <= s < |servers| ==> q !in Owners(servers[s].queue)
      ensures ServersKept(q)
    {
      hide Inv, Query.Valid, Server.Valid, Owners, ServerOk, AllKept;
      var i := 0;
      AllKeptSame(Views(), q, stayOpen);
      while i < |servers|
        invariant 0 <= i <= |servers|
        invariant Inv(busy) && InHand(q, busy) && ServersKept(q)
        invariant forall s :: 0 <= s < i ==> q !in Owners(servers[s].queue)
      {
        ghost var before := Views();
        DisownOne(i, q, success, busy);
        AllKeptTwice(old(Views()), before, Views(), q, stayOpen);
        i := i + 1;
      }
    }

    method DisownOne(s: int, q: Query, success: bool, ghost busy: set<Query>)
      requires Inv(busy) && InHand(q, busy) && 0 <= s < |servers|
      modifies servers[s]
      ensures Inv(busy) && InHand(q, busy)
      ensures q !in Owners(servers[s].queue) && ServersKept(q)
      ensures forall i :: 0 <= i < |servers| && i != s ==> servers[i] != servers[s]
    {
      hide Inv, Server.Valid, Owners;
      ServerFacts(s, busy);
      servers[s].Disown(q, success);
      ServerChange(s, busy);
      OneKept(s, q);
    }

    /** Closes the sockets of every server. */
    method CloseAll(ghost busy: set<Query>)
      requires Inv(busy)
      modifies `generation, servers
      ensures Inv(busy)
      ensures forall s :: 0 <= s < |servers| ==> servers[s].queue == [] && !servers[s].tcpOpen && !servers[s].udpOpen
      ensures ViewsGrown(old(Views()), Views())
    {
      hide Inv, Server.Valid, ServerOk, ViewsGrown;
      var i := 0;
      AllGrownSame(Views());
      while i < |servers|
        invariant 0 <= i <= |servers|
        invariant Inv(busy) && ViewsGrown(old(Views()), Views())
        invariant forall s :: 0 <= s < i ==> servers[s].queue == [] && !servers[s].tcpOpen && !servers[s].udpOpen
      {
        ghost var before := Views();
        CloseOne(i, busy);
        ViewsGrownTwice(old(Views()), before, Views());
        i := i + 1;
      }
    }

    method CloseOne(s: int, ghost busy: set<Query>)
      requires Inv(busy) && 0 <= s < |servers|
      modifies `generation, servers[s]
      ensures Inv(busy)
      ensures servers[s].queue == [] && !servers[s].tcpOpen && !servers[s].udpOpen && !servers[s].isBroken
      ensures ViewsGrown(old(Views()), Views()) && (old(servers[s].tcpOpen) ==> |old(servers[s].past)| < |servers[s].past|)
      ensures old(servers[s].isBroken) ==> old(servers[s].tcpOpen)
      ensures forall i :: 0 <= i < |servers| && i != s ==> servers[i] != servers[s]
    {
      hide Inv, Server.Valid, Views, ViewsGrown, Owners, AllDelivered, TcpArrivals;
      ServerFacts(s, busy);
      generation := servers[s].CloseSockets(generation);
      NoneOwned();
      ServerChange(s, busy);
      OneViewGrown(s);
    }

    twostate lemma OneViewGrown(new w: int)
      requires 0 <= w < |servers|
      requires forall s :: 0 <= s < |servers| && s != w ==> unchanged(servers[s])
      requires ViewGrown(old(ViewOf(servers[w])), ViewOf(servers[w]))
      ensures ViewsGrown(old(Views()), Views())
    {
      hide Owners;
    }

    /** The query is called back and freed; when no query is left, all sockets are closed. */
    method EndQuery(q: Query, status: Status, answer: seq<byte>, ghost busy: set<Query>)
      requires Inv(busy) && InHand(q, busy)
      modifies this, q`history, servers
      ensures Inv(busy - {q})
      ensures links == old(links).Free(q)
      ensures callbacks == old(callbacks) + [Callback(q, status, q.timeouts, answer)]
      ensures q.history == old(q.history) + [Ended(status)]
      ensures !stayOpen && links.all == [] ==>
        forall s :: 0 <= s < |servers| ==> !servers[s].tcpOpen && !servers[s].udpOpen
      ensures unchanged(`lastServer, `lastTimeoutProcessed, `submitted, `reading, `edns, `rewritten, `arrived)
      ensures orphans == old(orphans)
      ensures ServersKept(q)
    {
      hide Inv, Owners, AllKept, ViewsGrown;
      DisownAll(q, status == Success, busy);
      ghost var disowned := Views();
      CallBackAndFree(q, status, answer, busy);
      if !stayOpen && links.all == [] {
        CloseAll(busy - {q});
        NoOwners();
        AllDropped(disowned, Views(), q);
        AllKeptTwice(old(Views()), disowned, Views(), q, stayOpen);
      }
    }

    lemma NoOwners()
      ensures forall s :: 0 <= s < |servers| && servers[s].queue == [] ==> Owners(servers[s].queue) == {}
    {
    }

    method CallBackAndFree(q: Query, status: Status, answer: seq<byte>, ghost busy: set<Query>)
      requires Inv(busy) && InHand(q, busy)
      requires forall s :: 0 <= s < |servers| ==> q !in Owners(servers[s].queue)
      modifies `callbacks, `links, q`history
      ensures Inv(busy - {q})
      ensures links == old(links).Free(q)
      ensures callbacks == old(callbacks) + [Callback(q, status, q.timeouts, answer)]
      ensures q.history == old(q.history) + [Ended(status)]
    {
      hide Inv, Query.Valid, Owners;
      HandFacts(q, 0, busy);
      q.End(status);
      callbacks := callbacks + [Callback(q, status, q.timeouts, answer)];
      links := links.Free(q);
      Freed(q, busy, status, answer);
    }

    twostate lemma Freed(new q: Query, new busy: set<Query>, new status: Status, new answer: seq<byte>)
      requires old(allocated(q)) && old(allocated(busy))
      requires old(Inv(busy)) && old(InHand(q, busy))
      requires unchanged(`edns, `rewritten, `arrived, `generation, `lastTimeoutProcessed, `submitted, `orphans, `reading)
      requires forall s :: 0 <= s < |servers| ==> unchanged(servers[s])
      requires forall x :: x in submitted && x != q ==> unchanged(x)
      requires unchanged(q`generation, q`sends, q`switches, q`fallbacks, q`waits) && q.Valid(|servers|) && q.history == old(q.history) + [Ended(status)]
      requires forall s :: 0 <= s < |servers| ==> q !in Owners(servers[s].queue)
      requires links == old(links).Free(q)
      requires callbacks == old(callbacks) + [Callback(q, status, q.timeouts, answer)]
      ensures Inv(busy - {q})
    {
      hide Links.WellFormed, Server.Valid, CalledOnce, Called, Query.Waiting, Links.LinkedAt, ServersOk, HistoriesOk, OwnersOk,
           NeverReusesBadPath, EndsOnce, Links.Free, Query.Valid, WithinLimits, Owners;
      assert old(ServersOk()) && old(HistoriesOk()) && old(OwnersOk()) && old(links.WellFormed(|servers|));
      LimitsStay(q);
      ServersStay();
      assert submitted == old(submitted) + {q};
      HistoriesStay(q);
      old(links).FreeOk(q, |servers|);
      OwnersStay(q);
      CallOnce(old(callbacks), Callback(q, status, q.timeouts, answer));
      assert CompletionOk(busy - {q});
      forall x | x in links.Live() && x !in busy - {q} ensures Settled(x) {
        assert old(Settled(x));
        assert x in submitted;
        old(links).OthersStay(q, x, 0, 0, x.timeout.sec % TIMEOUT_TABLE_SIZE, x.server);
      }
    }

    /** Sends a query to its server, or to the next one if that fails. */
    method SendQuery(q: Query, now: Time, ghost busy: set<Query>)
      requires Inv(busy) && InHand(q, busy) && Usable(q)
      requires now.Normal() && 0 < now.sec && lastTimeoutProcessed <= now.sec
      requires q.tryCount < Attempts() && FreshPath(q)
      requires q.sends <= q.tryCount + q.switches + q.fallbacks
      modifies this, q, servers
      ensures Inv(busy - {q})
      ensures Handled(q) && old(q.history) <= q.history && q.usingTcp == old(q.usingTcp)
      ensures unchanged(`lastServer, `lastTimeoutProcessed, `submitted, `reading, `edns, `rewritten, `arrived, `orphans)
      ensures !IsEnded(q.history) ==> JustSent(q) && q.sentAt == now && old(q.tryCount) <= q.tryCount
      ensures if IsEnded(q.history) then q.tryCount == Attempts()
              else Rotated(q, old(q.server), old(q.tryCount))
      ensures !IsEnded(q.history) && (old(q.tryCount) < q.tryCount || !old(servers[q.server].isBroken)) ==>
        q.server < |servers| && !servers[q.server].isBroken
      ensures ServersKept(q)
      ensures q.usingTcp && old(servers[q.server].tcpOpen) ==>
        q.history == old(q.history) + [Sent(old(q.server), Tcp(old(servers[q.server].generation)))]
      decreases Attempts() - q.tryCount, 2
    {
      hide Inv, Query.Valid, Links.Move, Links.Free, Links.Live, Server.Valid, ServerOk, Rotated, LastQueued, AllKept, Views,
           WithinLimits, Settled, FreshPath, JustSent;
      CountSend(q, busy);
      var ok := Transmit(q, busy);
      if !ok {
        ghost var sent := Views();
        GiveUpOnServer(q, now, busy);
        AllKeptTwice(old(Views()), sent, Views(), q, stayOpen);
        return;
      }
      SetDeadline(q, now, busy);
      NotRotated(q);
    }

    /** A send failed: the query moves on and does not try this server again. */
    method GiveUpOnServer(q: Query, now: Time, ghost busy: set<Query>)
      requires Inv(busy) && InHand(q, busy) && q.server < |servers|
      requires now.Normal() && 0 < now.sec && lastTimeoutProcessed <= now.sec
      requires q.tryCount < Attempts()
      modifies this, q, servers
      ensures Inv(busy - {q})
      ensures Handled(q) && old(q.history) <= q.history && q.usingTcp == old(q.usingTcp)
      ensures unchanged(`lastServer, `lastTimeoutProcessed, `submitted, `reading, `edns, `rewritten, `arrived, `orphans)
      ensures !IsEnded(q.history) ==> JustSent(q) && q.sentAt == now && old(q.tryCount) <= q.tryCount
      ensures if IsEnded(q.history) then q.tryCount == Attempts()
              else Rotated(q, old(q.server), old(q.tryCount))
      ensures !IsEnded(q.history) ==> q.server < |servers| && !servers[q.server].isBroken
      ensures ServersKept(q)
      decreases Attempts() - q.tryCount, 1
    {
      hide Inv, Query.Valid;
      SkipServer(q, q.server, busy);
      NextServer(q, now, busy);
    }

    ghost method CountSend(q: Query, busy: set<Query>)
      requires Inv(busy) && InHand(q, busy) && q.sends <= q.tryCount + q.switches + q.fallbacks && q.tryCount < Attempts()
      modifies q`sends
      ensures Inv(busy) && InHand(q, busy)
    {
      hide Inv, Query.Valid;
      HandFacts(q, 0, busy);
      q.sends := q.sends + 1;
      q.StillValid(|servers|);
      QueryChange(q, busy);
    }

    /** The query has moved on from server s0 by one server for each try since try count t0. */
    ghost predicate Rotated(q: Query, s0: nat, t0: nat)
      reads q`server, q`tryCount
    {
      t0 <= q.tryCount && Turned(q.server, s0, q.tryCount - t0, |servers|)
    }

    lemma NotTurned(q: Query, busy: set<Query>)
      requires Inv(busy) && InHand(q, busy)
      ensures Turned(q.server, q.server, 0, |servers|)
    {
      hide Inv, ServerOk, WithinLimits, Query.Valid;
      HandFacts(q, 0, busy);
    }

    lemma NotRotated(q: Query)
      requires q.server < |servers|
      ensures Rotated(q, q.server, q.tryCount)
    {
    }

    lemma RotatedTwice(q: Query, s0: nat, t0: nat, s1: nat, t1: nat)
      requires t0 <= t1 && Turned(s1, s0, t1 - t0, |servers|) && Rotated(q, s1, t1)
      ensures Rotated(q, s0, t0)
    {
      hide Turned;
      TurnedTwice(q.server, s1, q.tryCount - t1, s0, t1 - t0, |servers|);
    }

    /** The query was either sent and linked under its new deadline and server, or called back and freed. */
    twostate predicate Handled(new q: Query)
      reads `links, `callbacks, q
    {
      HandledFrom(q, old(links), old(callbacks))
    }

    ghost predicate HandledFrom(q: Query, links0: Links, callbacks0: seq<Callback>)
      reads `links, `callbacks, q
    {
      if IsEnded(q.history) then
        && links == links0.Free(q)
        && callbacks == callbacks0 + [Callback(q, q.errorStatus, q.timeouts, [])]
      else
        && |links0.byTimeout| == TIMEOUT_TABLE_SIZE && q.server < |links0.byServer|
        && links == links0.Move(q, q.timeout.sec % TIMEOUT_TABLE_SIZE, q.server)
        && callbacks == callbacks0
    }

    /** Moves a query on to the next usable server, or ends it when all tries are used up. */
    method NextServer(q: Query, now: Time, ghost busy: set<Query>)
      requires Inv(busy) && InHand(q, busy)
      requires now.Normal() && 0 < now.sec && lastTimeoutProcessed <= now.sec
      requires q.tryCount < Attempts()
      modifies this, q, servers
      ensures Inv(busy - {q})
      ensures Handled(q) && old(q.history) <= q.history && q.usingTcp == old(q.usingTcp)
      ensures unchanged(`lastServer, `lastTimeoutProcessed, `submitted, `reading, `edns, `rewritten, `arrived, `orphans)
      ensures !IsEnded(q.history) ==> JustSent(q) && q.sentAt == now && old(q.tryCount) < q.tryCount
      ensures if IsEnded(q.history) then q.tryCount == Attempts()
              else Rotated(q, old(q.server), old(q.tryCount))
      ensures !IsEnded(q.history) ==> q.server < |servers| && !servers[q.server].isBroken
      ensures ServersKept(q)
      decreases Attempts() - q.tryCount, 0
    {
      hide Inv, Query.Valid, Links.Move, Links.Free, Links.Live, Server.Valid, ServerOk, Rotated, Turned, LastQueued, AllKept, Views,
           WithinLimits, Settled, FreshPath, JustSent;
      NotTurned(q, busy);
      CountTry(q, busy);
      while q.tryCount < Attempts()
        invariant Inv(busy) && InHand(q, busy) && q.sends <= q.tryCount + q.switches + q.fallbacks
        invariant old(q.tryCount) < q.tryCount <= Attempts()
        invariant Turned(q.server, old(q.server), q.tryCount - 1 - old(q.tryCount), |servers|)
        invariant Views() == old(Views())
        invariant unchanged(this) && q.history == old(q.history) && q.usingTcp == old(q.usingTcp)
        decreases Attempts() - q.tryCount
      {
        ghost var s := q.server;
        ChooseServer(q, busy);
        TurnedTwice(q.server, s, 1, old(q.server), q.tryCount - 1 - old(q.tryCount), |servers|);
        HandFacts(q, q.server, busy);
        ghost var s1, t1 := q.server, q.tryCount;
        var server := servers[q.server];
        if !server.isBroken && !q.skip[q.server] &&
           !(q.usingTcp && q.generation[q.server] == server.generation) {
          OtherConnection(q);
          SendQuery(q, now, busy);
          if !IsEnded(q.history) {
            RotatedTwice(q, old(q.server), old(q.tryCount), s1, t1);
          }
          return;
        }
        CountTry(q, busy);
      }
      EndQuery(q, q.errorStatus, [], busy);
    }

    /** A connection that the query was not queued on last it was never queued on. */
    lemma OtherConnection(q: Query)
      requires WithinLimits(q) && q.server < |servers|
      requires !(q.usingTcp && q.generation[q.server] == servers[q.server].generation)
      ensures FreshPath(q)
    {
    }

    lemma SendsAllowed(q: Query)
      requires q.Valid(|servers|)
      ensures q.sends <= q.tryCount + 1 + q.switches + q.fallbacks
    {
    }

    method CountTry(q: Query, ghost busy: set<Query>)
      requires Inv(busy) && InHand(q, busy)
      modifies q`tryCount
      ensures Inv(busy) && InHand(q, busy)
      ensures q.tryCount == old(q.tryCount) + 1 && q.sends <= q.tryCount + q.switches + q.fallbacks
      ensures q.server < |servers|
    {
      hide Inv, Query.Valid, ServerOk;
      HandFacts(q, 0, busy);
      SendsAllowed(q);
      q.tryCount := q.tryCount + 1;
      q.StillValid(|servers|);
      QueryChange(q, busy);
    }

    method ChooseServer(q: Query, ghost busy: set<Query>)
      requires Inv(busy) && InHand(q, busy)
      modifies q`server
      ensures Inv(busy) && InHand(q, busy)
      ensures Turned(q.server, old(q.server), 1, |servers|)
    {
      hide Inv, Query.Valid, ServerOk, Turned, NextIndex;
      HandFacts(q, 0, busy);
      SendsAllowed(q);
      q.server := NextIndex(q.server, |servers|);
      q.StillValid(|servers|);
      QueryChange(q, busy);
    }

    /** A live query can be taken in hand; it then has all its rights. */
    lemma TakeUp(q: Query)
      requires Inv({}) && q in links.Live()
      ensures Inv({q}) && InHand(q, {q}) && q in submitted
      ensures Settled(q) && Usable(q) && q.Valid(|servers|) && q.tryCount < Attempts()
    {
      hide Links.WellFormed, Server.Valid, CalledOnce, Called, Links.LinkedAt, NeverReusesBadPath, EndsOnce,
           ServerOk, OwnersOk;
    }

    /** And put back if it is still at rest. */
    lemma PutBack(q: Query)
      requires Inv({q}) && InHand(q, {q}) && Settled(q)
      ensures Inv({})
    {
      hide Links.WellFormed, Server.Valid, CalledOnce, Called, Links.LinkedAt, NeverReusesBadPath, EndsOnce,
           ServerOk, OwnersOk;
    }

    /** An error on server `w`: its connections are closed, and all its queries move on. */
    method HandleError(w: nat, now: Time)
      requires Inv({}) && links.stolen == links.detached == [] && w < |servers|
      requires now.Normal() && 0 < now.sec && lastTimeoutProcessed <= now.sec
      modifies this, servers, submitted
      ensures Inv({}) && links.stolen == links.detached == []
      ensures unchanged(`lastServer, `lastTimeoutProcessed, `submitted, `reading, `edns, `rewritten, `arrived)
      ensures orphans == old(orphans)
      ensures w < |old(links).byServer|
      ensures |servers| > 1 ==>
        forall q :: q in old(links).byServer[w] && q in links.Live() ==> q.server != w
      ensures forall q :: q in old(links).byServer[w] ==> IsEnded(q.history) || old(q.tryCount) < q.tryCount
      ensures Grown() && (old(servers[w].tcpOpen) ==> |old(servers[w].past)| < |servers[w].past|)
    {
      hide Inv, LogGrown, Logs, Views, ViewsGrown;
      CloseOne(w, {});
      assert old(servers[w].tcpOpen) ==> |old(servers[w].past)| < |servers[w].past|;
      ghost var closed := servers[w].past;
      GrownAnyway();
      ghost var logs := Logs();
      PastLogged(w);
      StealQueries(w);
      ghost var taken := links.stolen;
      MoveStolen(w, now);
      LogGrownTwice(old(Logs()), logs, Logs());
      PastKept(logs, w, closed);
      if |servers| > 1 {
        forall q | q in taken && q in links.Live() ensures q.server != w {
          SkippedIsElsewhere(q, w);
        }
      }
    }

    /** Moves all stolen queries on; at the end the local list is empty. */
    method MoveStolen(w: nat, now: Time)
      requires Inv({}) && links.detached == [] && w < |servers|
      requires forall q :: q in links.stolen ==> q in links.Live() && q in submitted && q.server == w
      requires NoDup(links.stolen)
      requires now.Normal() && 0 < now.sec && lastTimeoutProcessed <= now.sec
      modifies this, servers, submitted
      ensures Inv({}) && links.stolen == links.detached == []
      ensures unchanged(`lastServer, `lastTimeoutProcessed, `submitted, `reading, `edns, `rewritten, `arrived)
      ensures orphans == old(orphans)
      ensures |servers| > 1 ==> forall q :: q in old(links.stolen) ==> Skipped(w) in q.history
      ensures forall q :: q in old(links.stolen) ==> IsEnded(q.history) || old(q.tryCount) < q.tryCount
      ensures Grown()
    {
      hide Inv, Handled, Without, Links.Live, LogGrown, Logs;
      LogGrownNow();
      var node: Query? := if links.stolen == [] then null else links.stolen[0];
      while node != null
        invariant Inv({})
        invariant node == if links.stolen == [] then null else links.stolen[0]
        invariant forall q :: q in links.stolen ==> q in links.Live() && q in submitted && q.server == w
        invariant NoDup(links.stolen) && links.detached == []
        invariant Grown()
        invariant |servers| > 1 ==>
          forall q :: q in old(links.stolen) ==> q in links.stolen || Skipped(w) in q.history
        invariant forall q :: q in links.stolen ==> q in old(links.stolen) && q.tryCount == old(q.tryCount)
        invariant forall q :: q in old(links.stolen) ==>
          q in links.stolen || IsEnded(q.history) || old(q.tryCount) < q.tryCount
        invariant unchanged(`lastServer, `lastTimeoutProcessed, `submitted, `reading, `edns, `rewritten, `arrived)
        invariant orphans == old(orphans)
        decreases |links.stolen|
      {
        var q: Query := node;
        node := if |links.stolen| > 1 then links.stolen[1] else null;
        assert q.server == w;
        WithoutAt(links.stolen, 0);
        ghost var logs := Logs();
        MoveOn(q, w, now);
        LogGrownTwice(old(Logs()), logs, Logs());
      }
    }

    /** A query at rest is not at a server that was ever ruled out for it. */
    lemma SkippedIsElsewhere(q: Query, w: nat)
      requires Inv({}) && q in links.Live() && Skipped(w) in q.history && w < |servers|
      ensures q.server != w
    {
      hide Inv;
      TakeUp(q);
    }

    method StealQueries(w: nat)
      requires Inv({}) && links.stolen == [] && w < |servers|
      modifies `links
      ensures Inv({}) && w < |old(links).byServer| && links == old(links).Steal(w)
      ensures links.detached == old(links.detached)
      ensures NoDup(links.stolen)
      ensures forall q :: q in links.stolen ==> q in links.Live() && q in submitted && q.server == w
    {
      hide Inv, Links.LinkedAt, Links.WellFormed;
      ghost var before := links;
      Sizes({});
      Stealable(w);
      links := links.Steal(w);
      LinksChange({});
    }

    lemma Stealable(w: nat)
      requires Inv({}) && links.stolen == [] && w < |servers| == |links.byServer|
      ensures links.Steal(w).WellFormed(|servers|) && links.Steal(w).Live() == links.Live()
      ensures forall q :: q in links.Live() ==> q in submitted
      ensures forall q :: q in links.Live() ==>
        links.Steal(w).LinkedAt(q, q.timeout.sec % TIMEOUT_TABLE_SIZE, q.server)
      ensures NoDup(links.Steal(w).stolen)
      ensures forall q :: q in links.Steal(w).stolen ==> q in links.Live() && q in submitted && q.server == w
    {
      links.StealOk(w, |servers|);
      hide CompletionOk, HistoriesOk, ServersOk, OwnersOk;
      forall q | q in links.Live()
        ensures q in submitted && links.Steal(w).LinkedAt(q, q.timeout.sec % TIMEOUT_TABLE_SIZE, q.server)
      {
        assert Settled(q);
      }
      forall q | q in links.Steal(w).stolen ensures q in links.Live() && q in submitted && q.server == w {
        assert Settled(q);
      }
    }

    method MoveOn(q: Query, w: nat, now: Time)
      requires Inv({}) && q in links.Live() && w < |servers|
      requires now.Normal() && 0 < now.sec && lastTimeoutProcessed <= now.sec
      modifies this, q, servers
      ensures Inv({})
      ensures Handled(q) && (!IsEnded(q.history) ==> JustSent(q) && old(q.tryCount) < q.tryCount)
      ensures |servers| > 1 ==> Skipped(w) in q.history
      ensures links.stolen == Without(old(links.stolen), q)
      ensures old(links.detached) == [] ==> links.detached == []
      ensures forall x :: x in old(links.stolen) && x != q && x in old(links.Live()) ==> x in links.Live()
      ensures unchanged(`lastServer, `lastTimeoutProcessed, `submitted, `reading, `edns, `rewritten, `arrived) && orphans == old(orphans)
      ensures Grown()
    {
      hide Inv, Query.Valid, Query.Waiting, Links.LinkedAt, Views, AllKept, LogGrown, Logs, JustSent, Rotated, Usable;
      TakeUp(q);
      SkipServer(q, w, {q});
      NextServer(q, now, {q});
      assert {q} - {q} == {};
      GrownFor(q);
    }

    /** The tries that the queries of a list have left. */
    ghost function TriesLeft(qs: seq<Query>): nat
      reads qs
    {
      if qs == [] then 0
      else (if qs[0].tryCount < Attempts() then Attempts() - qs[0].tryCount else 0) + TriesLeft(qs[1..])
    }

    lemma {:induction false} TriesLeftOf(qs: seq<Query>, q: Query)
      requires NoDup(qs) && q in qs
      ensures TriesLeft(qs) == TriesLeft(Without(qs, q)) + TriesLeft([q])
    {
      assert [q][1..] == [];
      if qs[0] == q {
        assert q !in qs[1..];
      } else {
        TriesLeftOf(qs[1..], q);
        assert ([qs[0]] + Without(qs[1..], q))[1..] == Without(qs[1..], q);
      }
    }

    /** A query that is still to be handed on in a walk over the timeouts. */
    ghost predicate Due(q: Query, now: Time, expired: seq<Query>)
      reads q
    {
      q !in expired && TimedOut(now, q.timeout)
    }

    /** How far a walk over the timeouts has come, `start` holding the deadlines at its start: every
        query in `expired` was pending then with a deadline that has passed, and was sent again
        `now` if it is still live; the others are as they were. */
    ghost predicate WalkState(now: Time, start: map<Query, Mark>, expired: seq<Query>)
      reads this, links.Live()
    {
      && (forall q :: q in links.Live() ==> q in start)
      && (forall q :: q in expired ==> q in start && TimedOut(now, start[q].deadline))
      && (forall q :: q in expired && q in links.Live() ==> q.sentAt == now && start[q].tries < q.tryCount)
      && (forall q :: q in start && q !in expired ==> q in links.Live() && start[q] == Mark(q.timeout, q.tryCount))
    }

    /** Only the first send of a query can have a zero wait. */
    predicate LaterWaitsPositive() { timeout >= 2 || |servers| == 1 }

    /** A query just sent again is due again at once exactly if its wait is zero, which it is never after the first try if
        the channel's timeout is more than one millisecond or there is one server. */
    lemma SentNowIsLater(q: Query, now: Time)
      requires Settled(q) && q.sentAt == now && timeout > 0
      ensures now.sec <= q.timeout.sec
      ensures TimedOut(now, q.timeout) <==> q.wait == 0
      ensures LaterWaitsPositive() && q.tryCount >= 1 ==> q.wait > 0
    {
      TimedOutMeaning(now, q.timeout);
      if LaterWaitsPositive() && q.tryCount >= 1 {
        WaitIsPositive(timeout, |servers|, q.tryCount, q.wait);
      }
    }

    /** A query that gets a zero wait is due again in the bucket of the present second, which is the last one walked. */
    lemma DueAgain(q: Query, now: Time)
      requires Inv({}) && q in links.Live() && q.sentAt == now && q.wait == 0
      ensures q.timeout == now && TimedOut(now, q.timeout)
      ensures now.sec % TIMEOUT_TABLE_SIZE < |links.byTimeout| && q in links.byTimeout[now.sec % TIMEOUT_TABLE_SIZE]
    {
      InItsBucket(q);
      TakeUp(q);
      hide Inv;
      assert q.timeout.Micros() == now.Micros();
      TimedOutMeaning(now, q.timeout);
    }

    /** The query's deadline has passed: it moves on to the next server. */
    method TimeOut(q: Query, now: Time, ghost start: map<Query, Mark>, ghost expired: seq<Query>)
      requires Inv({}) && q in links.Live() && WalkState(now, start, expired)
      requires now.Normal() && 0 < now.sec && lastTimeoutProcessed <= now.sec
      requires TimedOut(now, q.timeout)
      modifies this, q, servers
      ensures Inv({}) && WalkState(now, start, expired + [q])
      ensures forall x :: x in links.Live() ==> x in old(links).Live()
      ensures old(links.detached) == [] ==> links.detached == []
      ensures old(links.stolen) == [] ==> links.stolen == []
      ensures |links.byTimeout| == |old(links).byTimeout|
      ensures forall b :: 0 <= b < |links.byTimeout| ==>
        links.byTimeout[b] == Without(old(links).byTimeout[b], q) ||
        links.byTimeout[b] == Without(old(links).byTimeout[b], q) + [q]
      ensures unchanged(`lastServer, `lastTimeoutProcessed, `submitted, `reading, `edns, `rewritten, `arrived) && orphans == old(orphans)
      ensures TriesLeft(links.Live()) < old(TriesLeft(links.Live()))
      ensures Grown()
    {
      hide Inv, TriesLeft, Links.Live, WalkState, LogGrown, Logs;
      ghost var live := links.Live();
      TriesBefore(q);
      HandOn(q, now);
      TriesKept(Without(live, q));
      TriesAfter(q, live);
      WalkStep(q, now, start, expired);
    }

    twostate lemma WalkStep(new q: Query, new now: Time, new start: map<Query, Mark>, new expired: seq<Query>)
      requires old(allocated(q)) && old(allocated(expired)) && old(allocated(start))
      requires q in old(links).Live() && old(WalkState(now, start, expired)) && TimedOut(now, old(q.timeout))
      requires links.Live() == (if q in links.Live() then old(links).Live() else Without(old(links).Live(), q))
      requires forall x :: x in old(links).Live() && x != q ==> unchanged(x)
      requires q in links.Live() ==> q.sentAt == now && old(q.tryCount) < q.tryCount
      ensures WalkState(now, start, expired + [q])
    {
      hide Links.Live;
    }

    twostate lemma {:induction false} TriesKept(new qs: seq<Query>)
      requires old(allocated(qs)) && forall i :: 0 <= i < |qs| ==> qs[i].tryCount == old(qs[i].tryCount)
      ensures TriesLeft(qs) == old(TriesLeft(qs))
    {
      if qs != [] {
        assert forall i :: 0 <= i < |qs[1..]| ==> qs[1..][i] == qs[i + 1];
        TriesKept(qs[1..]);
      }
    }

    lemma TriesBefore(q: Query)
      requires Inv({}) && q in links.Live()
      ensures TriesLeft(links.Live()) == TriesLeft(Without(links.Live(), q)) + (Attempts() - q.tryCount)
      ensures q.tryCount < Attempts() && q !in Without(links.Live(), q)
    {
      TakeUp(q);
      TriesLeftOf(links.Live(), q);
      assert [q][1..] == [];
      assert links.WellFormed(|servers|);
    }

    lemma TriesAfter(q: Query, live: seq<Query>)
      requires Inv({}) && q in live
      requires links.Live() == live || links.Live() == Without(live, q)
      ensures q in links.Live() ==>
        TriesLeft(links.Live()) == TriesLeft(Without(live, q)) + (Attempts() - q.tryCount) && q.tryCount < Attempts()
    {
      if q in links.Live() {
        TriesBefore(q);
      }
    }

    /** Counts a timeout of a query and moves it on. */
    method HandOn(q: Query, now: Time)
      requires Inv({}) && q in links.Live()
      requires now.Normal() && 0 < now.sec && lastTimeoutProcessed <= now.sec
      modifies this, q, servers
      ensures Inv({}) && Handled(q) && (!IsEnded(q.history) ==> JustSent(q))
      ensures unchanged(`lastServer, `lastTimeoutProcessed, `submitted, `reading, `edns, `rewritten, `arrived, `orphans)
      ensures q in links.Live() ==> q.sentAt == now && old(q.tryCount) < q.tryCount
      ensures links.Live() == (if q in links.Live() then old(links).Live() else Without(old(links).Live(), q))
      ensures Grown()
    {
      hide Inv, Settled, Usable, Query.Valid, Views, AllKept, LogGrown, Logs;
      ghost var before := links;
      TakeUp(q);
      CountTimeout(q, {q});
      NextServer(q, now, {q});
      assert {q} - {q} == {};
      WithoutConcat(before.detached, before.all, q);
      GrownFor(q);
    }

    method CountTimeout(q: Query, ghost busy: set<Query>)
      requires Inv(busy) && InHand(q, busy)
      modifies q`errorStatus, q`timeouts
      ensures Inv(busy) && InHand(q, busy)
      ensures q.errorStatus == Timeout && q.timeouts == old(q.timeouts) + 1
    {
      hide Inv, Query.Valid, ServerOk;
      HandFacts(q, 0, busy);
      SendsAllowed(q);
      q.errorStatus := Timeout;
      q.timeouts := q.timeouts + 1;
      q.StillValid(|servers|);
      QueryChange(q, busy);
    }

    /** Walks one timeout bucket, saving the next node before each query is handled. */
    method ProcessBucket(t: nat, now: Time, ghost start: map<Query, Mark>, ghost expired0: seq<Query>)
      returns (ghost expired: seq<Query>)
      requires Inv({}) && links.stolen == links.detached == []
      requires now.Normal() && 0 < now.sec && lastTimeoutProcessed <= now.sec
      requires WalkState(now, start, expired0)
      requires forall q :: q in links.Live() && Due(q, now, expired0) ==> t <= q.timeout.sec
      modifies this, servers, submitted
      ensures Inv({}) && links.stolen == links.detached == []
      ensures WalkState(now, start, expired)
      ensures forall q :: q in links.Live() && Due(q, now, expired) ==> t < q.timeout.sec
      ensures LaterWaitsPositive() && NoDup(expired0) ==> NoDup(expired)
      ensures unchanged(`lastServer, `lastTimeoutProcessed, `submitted, `reading, `edns, `rewritten, `arrived) && orphans == old(orphans)
      ensures Grown()
      ensures expired0 <= expired && forall q :: q in old(submitted) && q !in expired ==> unchanged(q)
    {
      hide Inv, WalkState, TriesLeft, LogGrown, Logs;
      var b := t % TIMEOUT_TABLE_SIZE;
      expired := expired0;
      LogGrownNow();
      Sizes({});
      BucketFacts(b);
      var node: Query? := if links.byTimeout[b] == [] then null else links.byTimeout[b][0];
      var k: nat := 0;
      while node != null
        invariant Inv({}) && links.stolen == links.detached == []
        invariant WalkState(now, start, expired)
        invariant forall q :: q in links.Live() && Due(q, now, expired) ==> t <= q.timeout.sec
        invariant expired0 <= expired && forall q :: q in old(submitted) && q !in expired ==> unchanged(q)
        invariant b < |links.byTimeout|
        invariant Grown()
        invariant node != null ==> k < |links.byTimeout[b]| && links.byTimeout[b][k] == node
        invariant node != null ==> forall i :: 0 <= i < k ==> !Due(links.byTimeout[b][i], now, expired)
        invariant node == null ==> forall q :: q in links.byTimeout[b] ==> !Due(q, now, expired)
        invariant LaterWaitsPositive() && NoDup(expired0) ==> NoDup(expired)
        invariant unchanged(`lastServer, `lastTimeoutProcessed, `submitted, `reading, `edns, `rewritten, `arrived) && orphans == old(orphans)
        decreases TriesLeft(links.Live()), if node == null then 0 else |links.byTimeout[b]| - k
      {
        ghost var logs := Logs();
        k, node, expired := BucketStep(k, node, b, now, start, expired);
        LogGrownTwice(old(Logs()), logs, Logs());
      }
      forall q | q in links.Live() && Due(q, now, expired) ensures t < q.timeout.sec {
        InItsBucket(q);
      }
    }

    lemma BucketFacts(b: nat)
      requires Inv({}) && b < |links.byTimeout|
      ensures NoDup(links.byTimeout[b])
      ensures forall q :: q in links.byTimeout[b] ==> q in links.Live() && q in submitted && Settled(q)
    {
    }

    lemma InItsBucket(q: Query)
      requires Inv({}) && q in links.Live()
      ensures 0 < q.timeout.sec
      ensures q.timeout.sec % TIMEOUT_TABLE_SIZE < |links.byTimeout|
      ensures q in links.byTimeout[q.timeout.sec % TIMEOUT_TABLE_SIZE]
    {
      Sizes({});
      assert Settled(q);
    }

    /** One step of the walk, at position k of the bucket: the next node is saved, and the query at this
        node is moved on if its deadline has passed. */
    method BucketStep(k: nat, node: Query, b: nat, now: Time,
                      ghost start: map<Query, Mark>, ghost expired: seq<Query>)
      returns (k': nat, node': Query?, ghost expired': seq<Query>)
      requires Inv({}) && links.stolen == links.detached == []
      requires now.Normal() && 0 < now.sec && lastTimeoutProcessed <= now.sec
      requires WalkState(now, start, expired)
      requires b < |links.byTimeout| && k < |links.byTimeout[b]| && links.byTimeout[b][k] == node
      requires forall i :: 0 <= i < k ==> !Due(links.byTimeout[b][i], now, expired)
      modifies this, servers, submitted
      ensures Inv({}) && links.stolen == links.detached == []
      ensures WalkState(now, start, expired')
      ensures forall q :: q in links.Live() && Due(q, now, expired') ==>
        q in old(links).Live() && q.timeout == old(q.timeout) && old(Due(q, now, expired))
      ensures b < |links.byTimeout|
      ensures node' != null ==> k' < |links.byTimeout[b]| && links.byTimeout[b][k'] == node'
      ensures node' != null ==> forall i :: 0 <= i < k' ==> !Due(links.byTimeout[b][i], now, expired')
      ensures node' == null ==> forall q :: q in links.byTimeout[b] ==> !Due(q, now, expired')
      ensures expired' == expired || expired' == expired + [node]
      ensures LaterWaitsPositive() && NoDup(expired) ==> NoDup(expired')
      ensures unchanged(`lastServer, `lastTimeoutProcessed, `submitted, `reading, `edns, `rewritten, `arrived) && orphans == old(orphans)
      ensures TriesLeft(links.Live()) < old(TriesLeft(links.Live()))
        || (TriesLeft(links.Live()) == old(TriesLeft(links.Live())) && links == old(links) && (node' != null ==> k' == k + 1))
      ensures Grown()
      ensures forall q :: q in old(submitted) && (expired' == expired || q != node) ==> unchanged(q)
    {
      hide Inv, WalkState, TriesLeft, Without, LogGrown, Logs;
      LogGrownNow();
      BucketFacts(b);
      ghost var list := links.byTimeout[b];
      var q := node;
      node' := if k + 1 < |links.byTimeout[b]| then links.byTimeout[b][k + 1] else null;
      if q.timeout.sec != 0 && TimedOut(now, q.timeout) {
        k', expired' := k, expired + [q];
        Sizes({});
        NotTwice(q, now, start, expired);
        TimeOut(q, now, start, expired);
        ListStep(list, k, links.byTimeout[b]);
      } else {
        k', expired' := k + 1, expired;
      }
    }

    lemma NotTwice(q: Query, now: Time, start: map<Query, Mark>, expired: seq<Query>)
      requires Settled(q) && q in links.Live() && WalkState(now, start, expired) && TimedOut(now, q.timeout) && timeout > 0
      ensures LaterWaitsPositive() ==> q !in expired
    {
      if q in expired {
        SentNowIsLater(q, now);
      }
    }

    /** Moves every query on whose deadline has passed. The buckets visited are those of the seconds since
        the last call, yet the queries moved on are exactly those that a scan of all queries would find. */
    method ProcessTimeouts(now: Time) returns (ghost expired: seq<Query>)
      requires Inv({}) && links.stolen == links.detached == []
      requires now.Normal() && 0 < now.sec && lastTimeoutProcessed <= now.sec
      modifies this, servers, submitted
      ensures Inv({}) && links.stolen == links.detached == []
      ensures forall q :: q in expired <==> q in old(links.all) && old(TimedOut(now, q.timeout))
      ensures LaterWaitsPositive() ==> NoDup(expired)
      ensures forall q :: q in expired && q in links.Live() ==> q.sentAt == now && old(q.tryCount) < q.tryCount
      ensures forall q :: q in expired && q !in links.Live() ==> IsEnded(q.history)
      ensures forall q :: q in links.Live() ==> q in old(links.all) && now.sec <= q.timeout.sec
      ensures forall q :: q in old(links.all) && q !in expired ==> q in links.Live()
      ensures forall q :: q in old(submitted) && q !in expired ==> unchanged(q)
      ensures lastTimeoutProcessed == now.sec
      ensures unchanged(`lastServer, `submitted, `reading, `edns, `rewritten, `arrived) && orphans == old(orphans)
      ensures Grown()
    {
      hide Inv, LogGrown, Logs;
      ghost var start := map q | q in links.all :: Mark(q.timeout, q.tryCount);
      DeadlinesAhead();
      assert forall q :: q in start ==> q in submitted;
      expired := WalkBuckets(now, start);
      Sizes({});
      forall q | q in links.Live() ensures now.sec <= q.timeout.sec {
        if q in expired {
          TakeUp(q);
          SentNowIsLater(q, now);
        }
      }
      GoneIsEnded();
      CloseRound(now);
    }

    /** The walk over the buckets of all seconds since the last call. */
    method WalkBuckets(now: Time, ghost start: map<Query, Mark>) returns (ghost expired: seq<Query>)
      requires Inv({}) && links.stolen == links.detached == []
      requires now.Normal() && 0 < now.sec && lastTimeoutProcessed <= now.sec
      requires WalkState(now, start, []) && forall q :: q in links.Live() ==> lastTimeoutProcessed <= q.timeout.sec
      modifies this, servers, submitted
      ensures Inv({}) && links.stolen == links.detached == [] && Grown()
      ensures WalkState(now, start, expired) && (LaterWaitsPositive() ==> NoDup(expired))
      ensures forall q :: q in links.Live() && Due(q, now, expired) ==> now.sec < q.timeout.sec
      ensures unchanged(`lastServer, `lastTimeoutProcessed, `submitted, `reading, `edns, `rewritten, `arrived) && orphans == old(orphans)
      ensures forall q :: q in old(submitted) && q !in expired ==> unchanged(q)
    {
      hide Inv, LogGrown, Logs, WalkState;
      expired := [];
      LogGrownNow();
      var t := lastTimeoutProcessed;
      while t <= now.sec
        invariant lastTimeoutProcessed <= t <= now.sec + 1
        invariant Inv({}) && links.stolen == links.detached == [] && Grown()
        invariant WalkState(now, start, expired) && (LaterWaitsPositive() ==> NoDup(expired))
        invariant forall q :: q in old(submitted) && q !in expired ==> unchanged(q)
        invariant forall q :: q in links.Live() && Due(q, now, expired) ==> t <= q.timeout.sec
        invariant unchanged(`lastServer, `lastTimeoutProcessed, `submitted, `reading, `edns, `rewritten, `arrived) && orphans == old(orphans)
        decreases now.sec + 1 - t
      {
        ghost var logs := Logs();
        expired := ProcessBucket(t, now, start, expired);
        LogGrownTwice(old(Logs()), logs, Logs());
        t := t + 1;
      }
    }

    lemma GoneIsEnded()
      requires Inv({})
      ensures forall q :: q in submitted && q !in links.Live() ==> IsEnded(q.history)
    {
      hide ServersOk, HistoriesOk, OwnersOk, Settled, Links.WellFormed, CalledOnce, Called;
    }

    lemma DeadlinesAhead()
      requires Inv({})
      ensures forall q :: q in links.Live() ==> q in submitted && lastTimeoutProcessed <= q.timeout.sec
    {
    }

    method CloseRound(now: Time)
      requires Inv({}) && 0 <= now.sec && forall q :: q in links.Live() ==> now.sec <= q.timeout.sec
      modifies `lastTimeoutProcessed
      ensures Inv({}) && lastTimeoutProcessed == now.sec
    {
      hide Links.WellFormed, Server.Valid, IsEnded, CalledOnce, Called, Query.Waiting, Links.LinkedAt,
           NeverReusesBadPath, EndsOnce, Query.Valid, Owners;
      lastTimeoutProcessed := now.sec;
      assert ServersOk() by {
        forall s | 0 <= s < |servers| ensures ServerOk(s) {
          assert old(ServerOk(s));
        }
      }
      forall q | q in links.Live() ensures Settled(q) {
        assert old(Settled(q));
      }
    }

    /** The query that an answer is for: same id, same questions. */
    predicate Answers(q: Query, id: nat, abuf: seq<byte>, cut: Query?) {
      q.qid == id && SameQuestions(RequestOf(q, cut), abuf)
    }

    /** The first query of a list that an answer is for. */
    function FirstAnswered(s: seq<Query>, id: nat, abuf: seq<byte>, cut: Query?): Query? {
      if s == [] then null
      else if Answers(s[0], id, abuf, cut) then s[0]
      else FirstAnswered(s[1..], id, abuf, cut)
    }

    /** What first means. */
    lemma {:induction false} FirstAnsweredMeaning(s: seq<Query>, id: nat, abuf: seq<byte>, cut: Query?)
      ensures FirstAnswered(s, id, abuf, cut) == null <==> forall q :: q in s ==> !Answers(q, id, abuf, cut)
      ensures FirstAnswered(s, id, abuf, cut) != null ==>
        exists k :: 0 <= k < |s| && s[k] == FirstAnswered(s, id, abuf, cut) && Answers(s[k], id, abuf, cut)
          && forall i :: 0 <= i < k ==> !Answers(s[i], id, abuf, cut)
    {
      if s != [] {
        FirstAnsweredMeaning(s[1..], id, abuf, cut);
        assert forall q :: q in s <==> q == s[0] || q in s[1..];
        if Answers(s[0], id, abuf, cut) {
          assert s[0] == FirstAnswered(s, id, abuf, cut);
        } else if FirstAnswered(s, id, abuf, cut) != null {
          var k :| 0 <= k < |s[1..]| && s[1..][k] == FirstAnswered(s[1..], id, abuf, cut) && Answers(s[1..][k], id, abuf, cut)
            && forall i :: 0 <= i < k ==> !Answers(s[1..][i], id, abuf, cut);
          assert s[k + 1] == s[1..][k];
          forall i | 0 <= i < k + 1 ensures !Answers(s[i], id, abuf, cut) {
            if i > 0 {
              assert s[i] == s[1..][i - 1];
            }
          }
        }
      }
    }

    /** Looking in the bucket of the id finds what looking through all queries finds. */
    lemma {:induction false} BucketSuffices(s: seq<Query>, id: nat, abuf: seq<byte>, cut: Query?)
      ensures FirstAnswered(QidBucket(s, id % QID_TABLE_SIZE), id, abuf, cut) == FirstAnswered(s, id, abuf, cut)
    {
      if s != [] {
        var b := id % QID_TABLE_SIZE;
        BucketSuffices(s[1..], id, abuf, cut);
        if s[0].qid % QID_TABLE_SIZE == b {
          assert ([s[0]] + QidBucket(s[1..], b))[1..] == QidBucket(s[1..], b);
        }
      }
    }

    /** Finds the query an answer is for, by a walk over the bucket of its id. */
    method FindQuery(id: nat, abuf: seq<byte>) returns (query: Query?)
      requires Inv({}) && links.detached == []
      ensures query == FirstAnswered(links.all, id, abuf, rewritten)
      ensures query != null ==> query in links.all
    {
      Sizes({});
      hide ServersOk, HistoriesOk, CompletionOk, OwnersOk, Settled, SameQuestions;
      var b := id % QID_TABLE_SIZE;
      assert links.byQid[b] == QidBucket(links.Live(), b) && links.Live() == links.all;
      BucketSuffices(links.all, id, abuf, rewritten);
      var list := links.byQid[b];
      var k := 0;
      query := null;
      while k < |list|
        invariant 0 <= k <= |list| && query == null
        invariant FirstAnswered(list, id, abuf, rewritten) == FirstAnswered(list[k..], id, abuf, rewritten)
      {
        if Answers(list[k], id, abuf, rewritten) {
          query := list[k];
          break;
        }
        assert list[k..][1..] == list[k + 1..];
        k := k + 1;
      }
    }

    /** The largest answer over UDP that is taken whole. */
    function PacketSize(): nat
      reads `edns
    {
      if edns then ednsPacketSize else PACKET_SIZE
    }

    /** An answer of a server that does not understand EDNS, perhaps. */
    predicate RefusesEdns(abuf: seq<byte>)
      requires |abuf| >= HEADER_SIZE
    {
      ResponseCode(abuf) in [NOTIMP, FORMERR, SERVFAIL]
    }

    /** An answer over UDP that cannot be used, unless truncation is ignored. */
    predicate Truncated(abuf: seq<byte>, tcp: bool, packetSize: nat)
      requires |abuf| >= HEADER_SIZE
    {
      (TruncatedBit(abuf) || |abuf| > packetSize) && !tcp && !ignoreTruncation
    }

    /** An answer that tells of a server's failure. */
    predicate ServerFailed(abuf: seq<byte>)
      requires |abuf| >= HEADER_SIZE
    {
      !noCheckResponse && ResponseCode(abuf) in [SERVFAIL, NOTIMP, REFUSED]
    }

    /** The answer as the submitter sees it. */
    function Clipped(abuf: seq<byte>, tcp: bool, packetSize: nat): seq<byte> {
      if |abuf| > packetSize && !tcp then abuf[..packetSize] else abuf
    }

    /** The query that a message answers, if any. */
    function Addressee(all: seq<Query>, abuf: seq<byte>): (q: Query?)
      reads `rewritten
      ensures q != null ==> |abuf| >= HEADER_SIZE
    {
      if |abuf| < HEADER_SIZE then null else FirstAnswered(all, MessageId(abuf), abuf, rewritten)
    }

    /** What an answer from server `w` does to the query it answers: if EDNS may not be understood, the query is
        rewritten and sent again; over UDP and truncated, the answer switches the query to TCP; telling of a failure, it
        rules the server out, and moves the query on if it was there; otherwise it completes the query. Without such a
        query it does nothing. */
    twostate predicate AnswerHandled(q: Query?, new abuf: seq<byte>, new w: nat, new tcp: bool)
      requires q != null ==> |abuf| >= HEADER_SIZE
      reads `links, `callbacks, `edns, `rewritten, q
    {
      AnswerHandledFrom(q, abuf, w, tcp, old(links), old(callbacks), old(edns), old(PacketSize()),
                        if q == null then NO_RIGHTS else Rights(old(q.usingTcp), old(q.server), old(q.timeouts)))
    }

    ghost predicate AnswerHandledFrom(q: Query?, abuf: seq<byte>, w: nat, tcp: bool, links0: Links,
                                      callbacks0: seq<Callback>, edns0: bool, packetSize: nat, before: Rights)
      requires q != null ==> |abuf| >= HEADER_SIZE
      reads `links, `callbacks, `edns, `rewritten, q
    {
      if q == null then links == links0 && callbacks == callbacks0 && edns == edns0
      else if edns0 && RefusesEdns(abuf) then !edns && rewritten == q && FellBack in q.history && HandledFrom(q, links0, callbacks0)
      else edns == edns0 && AnswerTaken(q, abuf, w, tcp, links0, callbacks0, packetSize, before)
    }

    ghost predicate AnswerTaken(q: Query, abuf: seq<byte>, w: nat, tcp: bool, links0: Links,
                                callbacks0: seq<Callback>, packetSize: nat, before: Rights)
      requires |abuf| >= HEADER_SIZE
      reads `links, `callbacks, q
    {
      if Truncated(abuf, tcp, packetSize) then
        if before.usingTcp then links == links0 && callbacks == callbacks0
        else q.usingTcp && HandledFrom(q, links0, callbacks0)
      else if ServerFailed(abuf) then
        && (|servers| > 1 ==> Skipped(w) in q.history)
        && (if before.server == w then HandledFrom(q, links0, callbacks0) else links == links0 && callbacks == callbacks0)
      else
        && links == links0.Free(q)
        && callbacks == callbacks0 + [Callback(q, Success, before.timeouts, Clipped(abuf, tcp, packetSize))]
    }

    /** Handles an answer from server `w`. The query it answers is the first of all queries, in order of
        submission, with the same id and questions; no other query changes. */
    method ProcessAnswer(abuf: seq<byte>, w: nat, tcp: bool, now: Time)
      requires Inv({}) && links.stolen == links.detached == [] && w < |servers|
      requires now.Normal() && 0 < now.sec && lastTimeoutProcessed <= now.sec
      modifies this, servers, submitted
      ensures Inv({}) && links.stolen == links.detached == []
      ensures unchanged(`lastServer, `lastTimeoutProcessed, `submitted, `reading, `arrived) && orphans == old(orphans)
      ensures AnswerHandled(old(Addressee(links.all, abuf)), abuf, w, tcp)
      ensures forall x :: x in submitted && x != old(Addressee(links.all, abuf)) ==> unchanged(x)
      ensures old(Addressee(links.all, abuf)) == null || !(old(edns) && RefusesEdns(abuf)) ==> rewritten == old(rewritten)
      ensures Grown()
    {
      hide Inv, FirstAnswered, Links.Move, Links.Free, LogGrown, Logs;
      LogGrownNow();
      if |abuf| < HEADER_SIZE {
        return;
      }
      var query := FindQuery(MessageId(abuf), abuf);
      if query == null {
        return;
      }
      LiveIsSubmitted(query);
      var packetSize := PACKET_SIZE;
      if edns {
        packetSize := ednsPacketSize;
        if RefusesEdns(abuf) {
          SendWithoutEdns(query, now);
          return;
        }
      }
      if Truncated(abuf, tcp, packetSize) {
        if !query.usingTcp {
          RetryOverTcp(query, now);
        }
        return;
      }
      var answer := Clipped(abuf, tcp, packetSize);
      if ServerFailed(abuf) {
        RejectAnswer(query, w, now);
        return;
      }
      AcceptAnswer(query, answer);
    }

    /** The server may not understand EDNS: the channel stops asking for it, and the query is rewritten and sent again. */
    method SendWithoutEdns(q: Query, now: Time)
      requires Inv({}) && links.stolen == links.detached == [] && q in links.Live() && edns
      requires now.Normal() && 0 < now.sec && lastTimeoutProcessed <= now.sec
      modifies this, q, servers
      ensures Inv({}) && links.stolen == links.detached == []
      ensures !edns && rewritten == q && FellBack in q.history
      ensures Handled(q) && (!IsEnded(q.history) ==> JustSent(q) && Rotated(q, old(q.server), old(q.tryCount)))
      ensures q.usingTcp && old(q.server) < |servers| && old(servers[q.server].tcpOpen) ==>
        q.history == old(q.history) + [FellBack, Sent(old(q.server), Tcp(old(servers[q.server].generation)))]
      ensures unchanged(`lastServer, `lastTimeoutProcessed, `submitted, `reading, `arrived, `orphans)
      ensures Grown()
    {
      hide Inv, Settled, Views, AllKept, LogGrown, Logs, JustSent, Rotated, Query.Valid, Links.Live, Server.Valid,
           FreshPath, Usable, IsEnded;
      TakeUp(q);
      Rewrite(q, {q});
      ghost var views, history := Views(), q.history;
      SendQuery(q, now, {q});
      AllKeptTwice(old(Views()), views, Views(), q, stayOpen);
      assert {q} - {q} == {};
      GrownFor(q);
      assert old(q.history) + [FellBack, q.history[|q.history| - 1]] == history + [q.history[|q.history| - 1]];
    }

    /** The query's buffer is rewritten. Connections on which a request of it is still queued are tainted. */
    method Rewrite(q: Query, ghost busy: set<Query>)
      requires Inv(busy) && InHand(q, busy) && edns
      modifies `edns, `rewritten, servers, q`history, q`fallbacks
      ensures Inv(busy) && InHand(q, busy) && !edns && rewritten == q && q.JustFellBack() && FreshPath(q)
      ensures q.history == old(q.history) + [FellBack] && q.sends <= q.tryCount + q.switches + q.fallbacks
      ensures forall s :: 0 <= s < |servers| ==> servers[s].traffic == old(servers[s].traffic).(
        tainted := old(servers[s].traffic).tainted || q in old(Owners(servers[s].queue)))
      ensures ServersKept(q)
      ensures forall s :: 0 <= s < |servers| ==>
        servers[s].generation == old(servers[s].generation) && servers[s].tcpOpen == old(servers[s].tcpOpen)
    {
      hide Inv, Query.Valid, ServerOk, WaitsOk;
      HandFacts(q, 0, busy);
      RewriteServers(q, busy);
      rewritten := q;
      edns := false;
      q.FallBack();
      Rewrote(q, busy);
      RewriteKept(q);
    }

    /** Every server learns of the rewritten query. */
    method RewriteServers(q: Query, ghost busy: set<Query>)
      requires Inv(busy) && edns
      modifies servers
      ensures forall s :: 0 <= s < |servers| ==> RewrittenServer(servers[s], q, old(servers[s].Output()))
      ensures forall s :: 0 <= s < |servers| ==> servers[s].Rest() == old(servers[s].Rest())
    {
      hide Inv, Server.Valid;
      ServersFacts(busy);
      var i := 0;
      while i < |servers|
        invariant 0 <= i <= |servers|
        invariant forall s :: 0 <= s < i ==> RewrittenServer(servers[s], q, old(servers[s].Output()))
        invariant forall s :: 0 <= s < |servers| ==> servers[s].Rest() == old(servers[s].Rest())
        invariant forall s :: i <= s < |servers| ==>
          servers[s].Valid() && servers[s].rewritten == null && servers[s].Output() == old(servers[s].Output())
      {
        var bytes := AnyBytes(servers[i]);
        servers[i].Rewrite(q, bytes);
        i := i + 1;
      }
    }

    /** What c-ares finds in memory. */
    method AnyBytes(server: Server) returns (bytes: seq<seq<byte>>)
      ensures server.Fitting(bytes)
    {
      bytes := [];
      while |bytes| < |server.queue|
        invariant |bytes| <= |server.queue|
        invariant forall i :: 0 <= i < |bytes| ==> |bytes[i]| == |server.queue[i].data|
      {
        var next: seq<byte> :| |next| == |server.queue[|bytes|].data|;
        bytes := bytes + [next];
      }
    }

    lemma ServersFacts(busy: set<Query>)
      requires Inv(busy) && edns
      ensures forall i, j :: 0 <= i < j < |servers| ==> servers[i] != servers[j]
      ensures forall s :: 0 <= s < |servers| ==> servers[s].Valid() && servers[s].rewritten == null
    {
      hide CompletionOk, HistoriesOk, OwnersOk, Settled, Links.WellFormed, Server.Valid;
      forall s | 0 <= s < |servers| ensures servers[s].Valid() && servers[s].rewritten == null {
        assert ServerOk(s);
      }
    }

    ghost predicate RewrittenServer(server: Server, q: Query, before: (Traffic, seq<SendRequest>))
      reads server
    {
      && server.Valid() && server.rewritten == q && Owners(server.queue) == Owners(before.1)
      && server.traffic == before.0.(tainted := before.0.tainted || q in Owners(before.1))
    }

    twostate lemma RewriteKept(new q: Query)
      requires old(allocated(q))
      requires forall s :: 0 <= s < |servers| ==> RewrittenServer(servers[s], q, old(servers[s].Output()))
      requires forall s :: 0 <= s < |servers| ==> servers[s].Rest() == old(servers[s].Rest())
      ensures ServersKept(q)
    {
      hide Server.Valid, Owners;
      forall s | 0 <= s < |servers| ensures Kept(old(Views())[s], Views()[s], q, stayOpen) {
        assert RewrittenServer(servers[s], q, old(servers[s].Output()));
        assert servers[s].Rest() == old(servers[s].Rest());
      }
    }

    twostate lemma Rewrote(new q: Query, new busy: set<Query>)
      requires old(allocated(q)) && old(allocated(busy))
      requires old(Inv(busy)) && old(InHand(q, busy)) && old(edns) && !edns && rewritten == q
      requires unchanged(`links, `generation, `lastTimeoutProcessed, `submitted, `callbacks, `orphans, `reading, `arrived)
      requires forall s :: 0 <= s < |servers| ==> RewrittenServer(servers[s], q, old(servers[s].Output()))
      requires forall s :: 0 <= s < |servers| ==> servers[s].Rest() == old(servers[s].Rest())
      requires forall x :: x in submitted && x != q ==> unchanged(x)
      requires unchanged(q`generation, q`sends, q`switches, q`waits) && q.fallbacks == old(q.fallbacks) + 1
      requires q.Valid(|servers|) && !IsEnded(q.history)
      ensures Inv(busy)
    {
      hide Links.WellFormed, Server.Valid, Query.Valid, IsEnded, CalledOnce, Called, Query.Waiting, Links.LinkedAt, WaitsOk, Owners;
      assert ServersOk() by {
        forall s | 0 <= s < |servers| ensures ServerOk(s) {
          assert old(ServerOk(s));
          assert servers[s].Rest() == old(servers[s].Rest());
          assert RewrittenServer(servers[s], q, old(servers[s].Output()));
        }
      }
      assert HistoriesOk() by {
        forall x | x in submitted && x != q ensures x.Valid(|servers|) && WithinLimits(x) {
          assert old(WithinLimits(x));
          assert forall s :: 0 <= s < |servers| ==> servers[s].Rest() == old(servers[s].Rest());
        }
        assert old(WithinLimits(q));
        assert forall s :: 0 <= s < |servers| ==> servers[s].Rest() == old(servers[s].Rest());
      }
      assert CompletionOk(busy);
      assert OwnersOk() by {
        forall s | 0 <= s < |servers|
          ensures Owners(servers[s].queue) <= (set x | x in links.Live()) + orphans + {null}
        {
          assert RewrittenServer(servers[s], q, old(servers[s].Output()));
        }
      }
      forall x | x in links.Live() && x !in busy ensures Settled(x) {
        assert old(Settled(x));
      }
    }

    lemma LiveIsSubmitted(q: Query)
      requires Inv({}) && q in links.Live()
      ensures q in submitted
    {
    }

    method RetryOverTcp(q: Query, now: Time)
      requires Inv({}) && links.stolen == links.detached == [] && q in links.Live() && !q.usingTcp
      requires now.Normal() && 0 < now.sec && lastTimeoutProcessed <= now.sec
      modifies this, q, servers
      ensures Inv({}) && links.stolen == links.detached == []
      ensures q.usingTcp && Handled(q)
      ensures !IsEnded(q.history) ==> JustSent(q) && Rotated(q, old(q.server), old(q.tryCount))
      ensures unchanged(`lastServer, `lastTimeoutProcessed, `submitted, `reading, `edns, `rewritten, `arrived, `orphans)
      ensures Grown()
    {
      hide Inv, Settled, Views, AllKept, LogGrown, Logs;
      TakeUp(q);
      Switch(q, {q});
      SendQuery(q, now, {q});
      assert {q} - {q} == {};
      GrownFor(q);
    }

    method Switch(q: Query, ghost busy: set<Query>)
      requires Inv(busy) && InHand(q, busy) && !q.usingTcp
      modifies q`usingTcp, q`switches
      ensures Inv(busy) && InHand(q, busy)
      ensures q.usingTcp && FreshPath(q) && q.sends <= q.tryCount + q.switches + q.fallbacks
    {
      hide Inv, Query.Valid, Server.Valid;
      HandFacts(q, q.server, busy);
      GenerationPositive(q.server, busy);
      q.SwitchToTcp();
      QueryChange(q, busy);
    }

    lemma GenerationPositive(w: int, busy: set<Query>)
      requires Inv(busy) && 0 <= w < |servers|
      ensures servers[w].generation > 0
    {
      hide Inv, OutputOk, InputOk, PastSound;
      ServerFacts(w, busy);
    }

    method RejectAnswer(q: Query, w: nat, now: Time)
      requires Inv({}) && links.stolen == links.detached == [] && q in links.Live() && w < |servers|
      requires now.Normal() && 0 < now.sec && lastTimeoutProcessed <= now.sec
      modifies this, q, servers
      ensures Inv({}) && links.stolen == links.detached == []
      ensures |servers| > 1 ==> Skipped(w) in q.history
      ensures if old(q.server) == w then Handled(q) && (!IsEnded(q.history) ==> JustSent(q)) else unchanged(this)
      ensures unchanged(`lastServer, `lastTimeoutProcessed, `submitted, `reading, `edns, `rewritten, `arrived, `orphans)
      ensures Grown()
    {
      hide Inv, Links.LinkedAt, Views, AllKept, LogGrown, Logs;
      AllKeptSame(Views(), q, stayOpen);
      TakeUp(q);
      SkipServer(q, w, {q});
      if q.server == w {
        NextServer(q, now, {q});
        assert {q} - {q} == {};
      } else {
        PutBack(q);
      }
      GrownFor(q);
    }

    method AcceptAnswer(q: Query, answer: seq<byte>)
      requires Inv({}) && links.stolen == links.detached == [] && q in links.Live()
      modifies this, q, servers
      ensures Inv({}) && links.stolen == links.detached == []
      ensures links == old(links).Free(q)
      ensures callbacks == old(callbacks) + [Callback(q, Success, old(q.timeouts), answer)]
      ensures unchanged(`lastServer, `lastTimeoutProcessed, `submitted, `reading, `edns, `rewritten, `arrived) && orphans == old(orphans)
      ensures Grown()
    {
      hide Inv, Settled, Views, AllKept, LogGrown, Logs;
      TakeUp(q);
      EndQuery(q, Success, answer, {q});
      assert {q} - {q} == {};
      GrownFor(q);
    }

    /** Nothing is being handled: the state between two calls of the library. */
    ghost predicate Valid()
      reads this, servers, submitted
    {
      Inv({}) && links.stolen == links.detached == [] && reading == -1 && lastServer < |servers|
    }

    /** Writes queued data to the TCP sockets that are ready for writing. */
    method WriteTcpData(now: Time)
      requires Valid() && orphans == {}
      requires now.Normal() && 0 < now.sec && lastTimeoutProcessed <= now.sec
      modifies this, servers, submitted
      ensures Valid() && orphans == {}
      ensures unchanged(`lastTimeoutProcessed, `submitted)
      ensures Grown()
    {
      hide Inv, LogGrown, Logs;
      LogGrownNow();
      var i := 0;
      while i < |servers|
        invariant 0 <= i <= |servers|
        invariant Valid() && orphans == {} && Grown()
        invariant unchanged(`lastTimeoutProcessed, `submitted)
      {
        var selected: bool := *;
        if servers[i].queue != [] && servers[i].tcpOpen && !servers[i].isBroken && selected {
          ghost var logs := Logs();
          var failed, wcount := WriteOne(i, now);
          LogGrownTwice(old(Logs()), logs, Logs());
        }
        i := i + 1;
      }
    }

    /** One write to a TCP socket: of the whole queue or, when no vector can be allocated, of its first
        request. The system call fails for good, fails for now, or writes some of the bytes. */
    method WriteOne(i: nat, now: Time) returns (failed: bool, wcount: nat)
      requires Valid() && orphans == {} && i < |servers|
      requires servers[i].queue != [] && servers[i].tcpOpen && !servers[i].isBroken
      requires now.Normal() && 0 < now.sec && lastTimeoutProcessed <= now.sec
      modifies this, servers, submitted
      ensures Valid() && orphans == {}
      ensures unchanged(`lastTimeoutProcessed, `submitted)
      ensures !failed ==> wcount <= |old(Pending(servers[i].queue))| && unchanged(this)
      ensures !failed ==> servers[i].traffic == old(servers[i].traffic).(
        written := old(servers[i].traffic.written) + old(Pending(servers[i].queue))[..wcount])
      ensures Grown()
    {
      hide Inv, Server.Valid, Pending, LogGrown, Logs;
      LogGrownNow();
      var vectored: bool := *;
      FirstIsPending(servers[i].queue);
      var available := if vectored then |Pending(servers[i].queue)| else |servers[i].queue[0].data|;
      var again: bool;
      failed, again, wcount := *, *, 0;
      if failed {
        if !again {
          HandleError(i, now);
        }
        return;
      }
      wcount :| wcount <= available;
      Advance(i, wcount);
    }

    lemma FirstIsPending(queue: seq<SendRequest>)
      requires queue != []
      ensures |queue[0].data| <= |Pending(queue)|
    {
    }

    method Advance(i: nat, count: nat)
      requires Inv({}) && i < |servers| && servers[i].tcpOpen && !servers[i].isBroken
      requires count <= |Pending(servers[i].queue)|
      modifies servers[i]
      ensures Inv({})
      ensures servers[i].traffic == old(servers[i].traffic).(
        written := old(servers[i].traffic.written) + old(Pending(servers[i].queue))[..count])
      ensures Grown()
    {
      hide Inv, Server.Valid, Pending, Owners, Logs, LogGrown, Views;
      ServerFacts(i, {});
      servers[i].AdvanceSendQueue(count);
      ServerChange(i, {});
      OneGrown(i);
    }

    /** Reads from the TCP sockets that are ready for reading. */
    method ReadTcpData(now: Time)
      requires Valid() && orphans == {}
      requires now.Normal() && 0 < now.sec && lastTimeoutProcessed <= now.sec
      modifies this, servers, submitted
      ensures Valid() && orphans == {}
      ensures unchanged(`lastTimeoutProcessed, `submitted)
      ensures Grown()
    {
      hide Inv, LogGrown, Logs;
      LogGrownNow();
      var i := 0;
      while i < |servers|
        invariant 0 <= i <= |servers|
        invariant Valid() && orphans == {} && Grown()
        invariant unchanged(`lastTimeoutProcessed, `submitted)
      {
        var selected: bool := *;
        if servers[i].tcpOpen && !servers[i].isBroken && selected {
          ghost var logs := Logs();
          var chunk, complete := ReadOne(i, now);
          LogGrownTwice(old(Logs()), logs, Logs());
        }
        i := i + 1;
      }
    }

    /** One read from a TCP socket, of no more than what is missing of the length word or of the answer.
        The system call fails for good, fails for now, or returns some bytes, none at the end of the stream. */
    method ReadOne(i: nat, now: Time) returns (chunk: seq<byte>, complete: bool)
      requires Valid() && orphans == {} && i < |servers| && servers[i].tcpOpen && !servers[i].isBroken
      requires now.Normal() && 0 < now.sec && lastTimeoutProcessed <= now.sec
      modifies this, servers, submitted
      ensures Valid() && orphans == {}
      ensures unchanged(`lastTimeoutProcessed, `submitted)
      ensures chunk != [] && !complete ==> links == old(links) && callbacks == old(callbacks)
      ensures chunk != [] && !complete ==> servers[i].traffic == old(servers[i].traffic).(
        consumed := old(servers[i].traffic.consumed) + chunk)
      ensures complete <==> (|old(servers[i].lenbuf)| == 2 && chunk != []
        && |old(servers[i].buffer)| + |chunk| == old(servers[i].length))
      ensures complete ==> AnswerHandled(old(Addressee(links.all, servers[i].buffer + chunk)),
                                         old(servers[i].buffer) + chunk, i, true)
      ensures Grown()
      ensures |old(servers[i].past)| <= |servers[i].past|
      ensures complete ==>
        old(servers[i].traffic.consumed) + chunk <= servers[i].Connection(|old(servers[i].past)|).consumed
      ensures arrived == old(arrived) + if complete then [Arrival(old(servers[i].buffer) + chunk, i, true)] else []
    {
      hide Inv, Server.Valid, AnswerHandledFrom, FirstAnswered, LogGrown, Logs;
      LogGrownNow();
      Room(i);
      var server := servers[i];
      var room: nat := if |server.lenbuf| != 2 then 2 - |server.lenbuf| else server.length - |server.buffer|;
      var again: bool := *;
      complete := false;
      chunk :| |chunk| <= room;
      if chunk == [] {
        if !again {
          HandleError(i, now);
        }
        return;
      }
      if |server.lenbuf| != 2 {
        ReadLengthWord(i, chunk);
      } else {
        complete := ReadAnswer(i, chunk);
        if complete {
          assert links == old(links) && callbacks == old(callbacks);
          assert servers[i].buffer == old(servers[i].buffer) + chunk;
          ghost var addressee := Addressee(links.all, servers[i].buffer);
          assert addressee != null ==> addressee.usingTcp == old(addressee.usingTcp);
          ghost var logs, view := Logs(), ViewOf(servers[i]);
          AllViews();
          Deliver(i, now);
          ConnectionKept(logs, i, view);
          LogGrownTwice(old(Logs()), logs, Logs());
        }
      }
      PastStays(i);
    }

    twostate lemma PastStays(new i: nat)
      requires i < |servers| && Grown()
      ensures old(servers[i].past) <= servers[i].past
    {
      assert ViewGrown(old(Views())[i], Views()[i]);
    }

    /** A connection that was open is there still, or is remembered in its place. */
    lemma ConnectionKept(logs: Log, i: nat, view: View)
      requires i < |servers| && LogGrown(logs, Logs()) && |logs.views| == |servers| && logs.views[i] == view && view.tcpOpen
      ensures |view.past| <= |servers[i].past| && TrafficGrown(view.traffic, servers[i].Connection(|view.past|))
    {
      AllViews();
      assert ViewGrown(view, Views()[i]);
    }

    lemma Room(i: nat)
      requires Inv({}) && reading == -1 && i < |servers|
      ensures |servers[i].lenbuf| <= 2 && !servers[i].delivering
      ensures |servers[i].lenbuf| == 2 ==> |servers[i].buffer| <= servers[i].length
      ensures forall s :: 0 <= s < |servers| ==> !servers[s].delivering
    {
      hide Inv, OutputOk, PastSound;
      ServerFacts(i, {});
      forall s: nat | s < |servers| ensures !servers[s].delivering {
        ServerFacts(s, {});
      }
    }

    method ReadLengthWord(i: nat, chunk: seq<byte>)
      requires Valid() && i < |servers| && servers[i].tcpOpen
      requires |servers[i].lenbuf| < 2 && 0 < |chunk| <= 2 - |servers[i].lenbuf|
      modifies servers[i]
      ensures Valid()
      ensures servers[i].traffic == old(servers[i].traffic).(consumed := old(servers[i].traffic.consumed) + chunk)
      ensures Grown()
    {
      hide Inv, Server.Valid, Owners, Logs, LogGrown, Views;
      ServerFacts(i, {});
      servers[i].ReadLength(chunk);
      ServerChange(i, {});
      OneGrown(i);
    }

    method ReadAnswer(i: nat, chunk: seq<byte>) returns (complete: bool)
      requires Valid() && i < |servers| && servers[i].tcpOpen
      requires |servers[i].lenbuf| == 2 && 0 < |chunk| <= servers[i].length - |servers[i].buffer|
      modifies servers[i], `reading, `arrived
      ensures Inv({})
      ensures reading == if complete then i else -1
      ensures servers[i].delivering == complete && servers[i].buffer == old(servers[i].buffer) + chunk
      ensures complete <==> |old(servers[i].buffer)| + |chunk| == old(servers[i].length)
      ensures servers[i].tcpOpen && servers[i].past == old(servers[i].past)
      ensures servers[i].traffic.consumed == old(servers[i].traffic.consumed) + chunk
      ensures !complete ==> servers[i].traffic == old(servers[i].traffic).(
        consumed := old(servers[i].traffic.consumed) + chunk)
      ensures arrived == old(arrived) + if complete then [Arrival(servers[i].buffer, i, true)] else []
      ensures Grown()
    {
      hide Inv, Server.Valid, Owners, Logs, LogGrown, Views;
      ServerFacts(i, {});
      Room(i);
      complete := servers[i].ReadBody(chunk);
      if complete {
        reading := i;
        Arrives(Arrival(servers[i].buffer, i, true));
      }
      ServerChange(i, {});
      OneGrown(i);
    }

    /** An answer is about to be processed. */
    ghost method Arrives(a: Arrival)
      modifies `arrived
      ensures arrived == old(arrived) + [a]
      ensures forall s :: 0 <= s < |servers| ==>
        TcpArrivals(arrived, s) == old(TcpArrivals(arrived, s)) + if a.tcp && a.server == s then [a.abuf] else []
    {
      forall s | 0 <= s < |servers|
        ensures TcpArrivals(arrived + [a], s) == TcpArrivals(arrived, s) + if a.tcp && a.server == s then [a.abuf] else []
      {
        OneMoreArrival(arrived, a, s);
      }
      arrived := arrived + [a];
    }

    /** A packet is about to be processed. */
    ghost method LogPacket(abuf: seq<byte>, w: nat)
      requires Inv({})
      modifies `arrived
      ensures Inv({}) && Grown() && arrived == old(arrived) + [Arrival(abuf, w, false)]
    {
      hide Inv, Server.Valid, TcpArrivals, Owners, Logs, LogGrown, Views;
      Sizes({});
      ServerFacts(0, {});
      Arrives(Arrival(abuf, w, false));
      ServerChange(0, {});
      OneGrown(0);
    }

    /** Processes the complete answer in the input buffer, and makes room for the next one. */
    method Deliver(i: nat, now: Time)
      requires Inv({}) && links.stolen == links.detached == [] && i < |servers|
      requires lastServer < |servers| && reading == i && servers[i].delivering && orphans == {}
      requires now.Normal() && 0 < now.sec && lastTimeoutProcessed <= now.sec
      modifies this, servers, submitted
      ensures Valid() && orphans == {}
      ensures unchanged(`lastTimeoutProcessed, `submitted)
      ensures AnswerHandled(old(Addressee(links.all, servers[i].buffer)), old(servers[i].buffer), i, true)
      ensures Grown() && arrived == old(arrived)
      ensures servers[i].lenbuf == [] && servers[i].buffer == []
    {
      hide Inv, Server.Valid, AnswerHandledFrom, FirstAnswered, LogGrown, Logs;
      ghost var q := Addressee(links.all, servers[i].buffer);
      ProcessAnswer(servers[i].buffer, i, true, now);
      assert AnswerHandled(q, old(servers[i].buffer), i, true);
      ghost var logs := Logs();
      label processed:
      FinishReading(i);
      assert unchanged@processed(`links, `callbacks, `edns, `rewritten);
      assert q != null ==> unchanged@processed(q);
      LogGrownTwice(old(Logs()), logs, Logs());
    }

    method FinishReading(i: nat)
      requires Inv({}) && i < |servers| && reading == i
      modifies servers[i], `reading
      ensures Inv({}) && reading == -1
      ensures Grown()
      ensures servers[i].lenbuf == [] && servers[i].buffer == []
    {
      hide Inv, Server.Valid, Owners, Logs, LogGrown, Views;
      ServerFacts(i, {});
      OnlyReader(i);
      servers[i].FinishAnswer();
      reading := -1;
      ServerChange(i, {});
      OneGrown(i);
    }

    lemma OnlyReader(i: nat)
      requires Inv({}) && i < |servers| && reading == i
      ensures forall s :: 0 <= s < |servers| && s != i ==> !servers[s].delivering
    {
      hide Inv, Server.Valid;
      forall s: nat | s < |servers| && s != i ensures !servers[s].delivering {
        ServerFacts(s, {});
      }
    }

    /** Reads from the UDP sockets that are ready for reading. */
    method ReadUdpPackets(now: Time)
      requires Valid() && orphans == {}
      requires now.Normal() && 0 < now.sec && lastTimeoutProcessed <= now.sec
      modifies this, servers, submitted
      ensures Valid() && orphans == {} && Grown()
      ensures unchanged(`lastTimeoutProcessed, `submitted)
    {
      hide Inv, LogGrown, Logs;
      LogGrownNow();
      var i := 0;
      while i < |servers|
        invariant 0 <= i <= |servers|
        invariant Valid() && orphans == {} && Grown()
        invariant unchanged(`lastTimeoutProcessed, `submitted)
      {
        var selected: bool := *;
        if servers[i].udpOpen && !servers[i].isBroken && selected {
          ghost var logs := Logs();
          var none: seq<Packet> := [];
          assert forall p :: p in none ==> 0 < |p.data| <= MAX_PACKET_SIZE;
          var packets: seq<Packet> :| forall p :: p in packets ==> 0 < |p.data| <= MAX_PACKET_SIZE;
          var n, failed := ReadUdpSocket(i, now, packets);
          LogGrownTwice(old(Logs()), logs, Logs());
        }
        i := i + 1;
      }
    }

    /** Reads the packets that wait at one UDP socket until none is left, an error occurs, or a packet comes from
        an address other than the server's. The first n packets are processed; all that come from the server before any
        other are, unless a call fails or the socket is closed. */
    method ReadUdpSocket(i: nat, now: Time, packets: seq<Packet>) returns (n: nat, failed: bool)
      requires Valid() && orphans == {} && i < |servers|
      requires forall p :: p in packets ==> 0 < |p.data| <= MAX_PACKET_SIZE
      requires now.Normal() && 0 < now.sec && lastTimeoutProcessed <= now.sec
      modifies this, servers, submitted
      ensures Valid() && orphans == {} && Grown()
      ensures unchanged(`lastTimeoutProcessed, `submitted)
      ensures n <= |packets| && forall k :: 0 <= k < n ==> packets[k].genuine
      ensures arrived == old(arrived) + Packed(packets[..n], i)
      ensures n < |packets| && packets[n].genuine ==> failed
    {
      hide Inv, LogGrown, Logs, AnswerHandledFrom;
      LogGrownNow();
      n, failed := 0, false;
      var more := true;
      while more
        invariant Valid() && orphans == {} && Grown()
        invariant unchanged(`lastTimeoutProcessed, `submitted)
        invariant n <= |packets| && forall k :: 0 <= k < n ==> packets[k].genuine
        invariant arrived == old(arrived) + Packed(packets[..n], i)
        invariant !more ==> (n < |packets| && packets[n].genuine ==> failed)
        decreases |packets| - n, more
      {
        var error: bool, again: bool := *, *;
        if !servers[i].udpOpen || error {
          ghost var logs := Logs();
          if !servers[i].udpOpen || !again {
            HandleError(i, now);
            LogGrownTwice(old(Logs()), logs, Logs());
          }
          failed, more := true, false;
        } else if n == |packets| || !packets[n].genuine {
          more := false;
        } else {
          ghost var logs := Logs();
          ReadPacket(i, now, packets[n].data);
          LogGrownTwice(old(Logs()), logs, Logs());
          PackedMore(packets, n, i);
          n := n + 1;
        }
      }
    }

    /** One packet from the server. */
    method ReadPacket(i: nat, now: Time, data: seq<byte>)
      requires Valid() && orphans == {} && i < |servers|
      requires now.Normal() && 0 < now.sec && lastTimeoutProcessed <= now.sec
      modifies this, servers, submitted
      ensures Valid() && orphans == {} && Grown()
      ensures unchanged(`lastTimeoutProcessed, `submitted)
      ensures arrived == old(arrived) + [Arrival(data, i, false)]
      ensures AnswerHandled(old(Addressee(links.all, data)), data, i, false)
    {
      hide Inv, LogGrown, Logs, AnswerHandledFrom;
      LogPacket(data, i);
      ghost var logs := Logs();
      ProcessAnswer(data, i, false, now);
      LogGrownTwice(old(Logs()), logs, Logs());
    }

    /** Closes the connections that are no longer usable: every one that was broken is one of the past. */
    method ProcessBrokenConnections(now: Time)
      requires Valid() && orphans == {}
      requires now.Normal() && 0 < now.sec && lastTimeoutProcessed <= now.sec
      modifies this, servers, submitted
      ensures Valid() && orphans == {} && Grown()
      ensures unchanged(`lastTimeoutProcessed, `submitted)
      ensures forall s :: 0 <= s < |servers| && old(servers[s].isBroken) ==> |old(servers[s].past)| < |servers[s].past|
    {
      hide Inv, LogGrown, Logs, Views, ViewsGrown;
      LogGrownNow();
      AllViews();
      ghost var first := Views();
      var i := 0;
      while i < |servers|
        invariant 0 <= i <= |servers|
        invariant Valid() && orphans == {} && Grown()
        invariant unchanged(`lastTimeoutProcessed, `submitted)
        invariant Longer(first, Views(), i)
      {
        ghost var logs, views := Logs(), Views();
        GrownViews();
        AllViews();
        AllGrownSame(views);
        if servers[i].isBroken {
          BrokenIsOpen(i);
          HandleError(i, now);
          LogViews(logs, views);
          LogGrownTwice(old(Logs()), logs, Logs());
          AllViews();
        }
        LongerMore(first, views, Views(), i);
        i := i + 1;
      }
      AllViews();
    }

    lemma AllViews()
      ensures |Views()| == |servers| && Logs().views == Views()
      ensures forall s :: 0 <= s < |servers| ==>
        Views()[s] == ViewOf(servers[s])
    {
    }

    lemma LogViews(logs: Log, views: seq<View>)
      requires LogGrown(logs, Logs()) && logs.views == views
      ensures ViewsGrown(views, Views())
    {
    }

    twostate lemma GrownViews()
      requires Grown()
      ensures ViewsGrown(old(Views()), Views())
    {
    }

    lemma BrokenIsOpen(w: nat)
      requires Inv({}) && w < |servers| && servers[w].isBroken
      ensures servers[w].tcpOpen
    {
      hide Inv;
      ServerFacts(w, {});
    }

    /** One call of ares_process: writes, reads, timeouts, broken connections, in this order. */
    method ProcessFds(now: Time)
      requires Valid() && orphans == {}
      requires now.Normal() && 0 < now.sec && lastTimeoutProcessed <= now.sec
      modifies this, servers, submitted
      ensures Valid() && orphans == {} && Grown()
      ensures lastTimeoutProcessed == now.sec && submitted == old(submitted)
    {
      hide Inv, LogGrown, Logs;
      WriteTcpData(now);
      ghost var written := Logs();
      ReadTcpData(now);
      LogGrownTwice(old(Logs()), written, Logs());
      ghost var read := Logs();
      ReadUdpPackets(now);
      LogGrownTwice(old(Logs()), read, Logs());
      ghost var received := Logs();
      ghost var expired := ProcessTimeouts(now);
      LogGrownTwice(old(Logs()), received, Logs());
      ghost var timedOut := Logs();
      ProcessBrokenConnections(now);
      LogGrownTwice(old(Logs()), timedOut, Logs());
    }

    /** Submits a query: a request without room for a header, or too long for TCP, is refused at once;
        any other is linked and sent to the channel's present server. */
    method Send(qbuf: seq<byte>, now: Time, ghost busy: set<Query>) returns (q: Query?)
      requires Inv(busy) && lastServer < |servers|
      requires now.Normal() && 0 < now.sec && lastTimeoutProcessed <= now.sec
      modifies this, servers
      ensures Inv(busy) && lastServer < |servers|
      ensures unchanged(`lastTimeoutProcessed, `reading) && orphans == old(orphans)
      ensures links.detached == old(links.detached) && links.stolen == old(links.stolen)
      ensures q == null <==> |qbuf| < HEADER_SIZE || |qbuf| >= 0x1_0000
      ensures q == null ==> links == old(links) && submitted == old(submitted)
      ensures q == null ==> callbacks == old(callbacks) + [Callback(null, BadQuery, 0, [])]
      ensures q != null ==> fresh(q) && submitted == old(submitted) + {q} && q.qbuf == qbuf
      ensures q != null ==> q.usingTcp == (useTcp || |qbuf| > old(PacketSize()))
      ensures q != null && q.usingTcp && old(servers[lastServer].tcpOpen) ==> !IsEnded(q.history)
      ensures q != null && !IsEnded(q.history) ==> Rotated(q, old(lastServer), 0)
      ensures lastServer == if q != null && rotate then NextIndex(old(lastServer), |servers|) else old(lastServer)
      ensures q != null && !IsEnded(q.history) ==>
        links.all == old(links.all) + [q] && callbacks == old(callbacks) && JustSent(q)
      ensures q != null && IsEnded(q.history) ==>
        links.all == old(links.all) && callbacks == old(callbacks) + [Callback(q, q.errorStatus, q.timeouts, [])]
      ensures Grown() && KeptFor(old(Views()), Views(), if q == null then {} else {q}, stayOpen)
      ensures forall k :: |old(callbacks)| <= k < |callbacks| ==> callbacks[k].status in {BadQuery, ConnRefused, Timeout}
    {
      hide Inv, Query.Valid, LogGrown, Logs, Views, ViewsGrown, AllKept, KeptFor, JustSent, Rotated;
      KeptForSame(Views(), stayOpen);
      AllGrownSame(Views());
      if |qbuf| < HEADER_SIZE || |qbuf| >= 0x1_0000 {
        callbacks := callbacks + [Callback(null, BadQuery, 0, [])];
        RefusedAtOnce(busy);
        GrownParts();
        return null;
      }
      ghost var views := Views();
      OwnersKnown();
      q := new Query(qbuf, lastServer, |servers|, useTcp || |qbuf| > PacketSize());
      if rotate {
        lastServer := NextIndex(lastServer, |servers|);
      }
      assert forall s :: 0 <= s < |views| ==> q !in views[s].owners;
      SendFirst(q, now, busy);
      KeptForNew(views, Views(), q, stayOpen);
    }

    lemma OwnersKnown()
      ensures |Views()| == |servers|
      ensures forall s :: 0 <= s < |servers| ==> forall q :: q in Views()[s].owners ==> q == null || allocated(q)
    {
    }

    ghost predicate NotSentYet(q: Query)
      reads q`sends, q`switches, q`fallbacks, q`waits
    {
      q.sends == q.switches == q.fallbacks == 0 && q.waits == []
    }

    /** Links a new query and sends it for the first time. */
    method SendFirst(q: Query, now: Time, ghost busy: set<Query>)
      requires Inv(busy) && q !in busy && q !in submitted && q.Valid(|servers|) && q.history == [] && Usable(q)
      requires q.tryCount == 0 && NotSentYet(q) && |q.generation| == |servers|
      requires forall s :: 0 <= s < |servers| ==> q.generation[s] == 0
      requires now.Normal() && 0 < now.sec && lastTimeoutProcessed <= now.sec
      modifies this, q, servers
      ensures Inv(busy) && submitted == old(submitted) + {q}
      ensures unchanged(`lastServer, `lastTimeoutProcessed, `reading, `orphans)
      ensures links.detached == old(links.detached) && links.stolen == old(links.stolen)
      ensures q.usingTcp == old(q.usingTcp) && (!IsEnded(q.history) ==> Rotated(q, old(q.server), 0))
      ensures !IsEnded(q.history) ==> links.all == old(links.all) + [q] && callbacks == old(callbacks) && JustSent(q)
      ensures IsEnded(q.history) ==>
        links.all == old(links.all) && callbacks == old(callbacks) + [Callback(q, q.errorStatus, q.timeouts, [])]
      ensures Grown() && ServersKept(q) && q.errorStatus in {ConnRefused, Timeout}
      ensures q.usingTcp && old(servers[q.server].tcpOpen) ==> !IsEnded(q.history)
    {
      hide Inv, Query.Valid, Links.Live, Views, LogGrown, Logs, ViewsGrown, AllKept, JustSent, Rotated;
      Sizes(busy);
      Known(busy);
      GenerationPositive(q.server, busy);
      InsertThenHandled(links, q);
      LinkNew(q, busy);
      hide Links.Insert, Links.Move, Links.Free;
      SendQuery(q, now, busy + {q});
      assert busy + {q} - {q} == busy;
      ErrorStatusOf(q, busy);
      AllKeptGrown(old(Views()), Views(), q, stayOpen);
      GrownParts();
    }

    /** Chains a new query into the list of all queries and the bucket of its id. */
    method LinkNew(q: Query, ghost busy: set<Query>)
      requires Inv(busy) && q !in submitted && q.Valid(|servers|) && q.history == [] && |q.generation| == |servers|
      requires NotSentYet(q) && forall s :: 0 <= s < |servers| ==> q.generation[s] == 0
      modifies `links, `submitted
      ensures Inv(busy + {q}) && InHand(q, busy + {q})
      ensures |old(links).byQid| == QID_TABLE_SIZE && links == old(links).Insert(q)
      ensures submitted == old(submitted) + {q}
    {
      hide Inv, Query.Valid;
      Sizes(busy);
      links := links.Insert(q);
      submitted := submitted + {q};
      Inserted(q, busy);
    }

    lemma ErrorStatusOf(q: Query, busy: set<Query>)
      requires Inv(busy) && q in submitted
      ensures q.errorStatus in {ConnRefused, Timeout}
    {
      hide Links.WellFormed, ServersOk, OwnersOk, CompletionOk, Settled, WithinLimits, NeverReusesBadPath, EndsOnce;
    }

    /** Live queries have been submitted. */
    lemma Known(busy: set<Query>)
      requires Inv(busy)
      ensures forall x :: x in links.Live() ==> x in submitted
      ensures forall x :: x in links.stolen ==> x in submitted
    {
      hide Links.LinkedAt, ServersOk, HistoriesOk, OwnersOk, Settled;
    }

    twostate lemma RefusedAtOnce(new busy: set<Query>)
      requires old(allocated(busy)) && old(Inv(busy))
      requires unchanged(`edns, `rewritten, `arrived, `generation, `lastTimeoutProcessed, `submitted, `orphans, `reading, `links)
      requires forall s :: 0 <= s < |servers| ==> unchanged(servers[s])
      requires forall x :: x in submitted ==> unchanged(x)
      requires callbacks == old(callbacks) + [Callback(null, BadQuery, 0, [])]
      ensures Inv(busy)
    {
      hide Links.WellFormed, Server.Valid, IsEnded, Query.Waiting, Links.LinkedAt,
           NeverReusesBadPath, EndsOnce, Query.Valid, Owners, ServersOk;
      assert old(ServersOk());
      ServersStay();
      RefusalIsCalledOnce(old(callbacks));
      forall x | x in links.Live() && x !in busy ensures Settled(x) {
        assert x in submitted;
        assert old(Settled(x));
      }
    }

    twostate lemma Inserted(new q: Query, new busy: set<Query>)
      requires old(allocated(busy)) && old(Inv(busy)) && old(allocated(submitted)) && q !in old(submitted)
      requires unchanged(`edns, `rewritten, `arrived, `generation, `lastTimeoutProcessed, `callbacks, `orphans, `reading)
      requires submitted == old(submitted) + {q}
      requires |old(links).byQid| == QID_TABLE_SIZE && links == old(links).Insert(q)
      requires forall s :: 0 <= s < |servers| ==> unchanged(servers[s])
      requires forall x :: x in old(submitted) ==> unchanged(x)
      requires q.Valid(|servers|) && q.history == [] && |q.generation| == |servers| && NotSentYet(q)
      requires forall s :: 0 <= s < |servers| ==> q.generation[s] == 0
      ensures Inv(busy + {q}) && InHand(q, busy + {q})
    {
      hide Links.WellFormed, Server.Valid, CalledOnce, Called, Query.Waiting, Links.LinkedAt,
           NeverReusesBadPath, EndsOnce, Query.Valid, Owners;
      assert forall x :: x in old(links).Live() ==> x in old(submitted);
      old(links).InsertOk(q, |servers|);
      assert old(ServersOk());
      ServersStay();
      assert HistoriesOk() by {
        forall x | x in submitted && x != q ensures x.Valid(|servers|) && WithinLimits(x) {
          assert old(WithinLimits(x));
        }
      }
      forall x | x in links.Live() && x !in busy + {q} ensures Settled(x) {
        assert x in old(links).Live();
        assert old(Settled(x));
        InsertKeepsOthers(old(links), q, x, x.timeout.sec % TIMEOUT_TABLE_SIZE, x.server);
      }
      assert OwnersOk() by {
        forall s | 0 <= s < |servers|
          ensures Owners(servers[s].queue) <= (set x | x in links.Live()) + orphans + {null}
        {
          assert servers[s].queue == old(servers[s].queue);
          assert Owners(servers[s].queue) <= (set x | x in old(links).Live()) + orphans + {null};
        }
      }
    }

    /** A callback without a look at the output queues, as cancellation and destruction make it. */
    method CallBack(q: Query, status: Status)
      requires Inv({}) && q in links.Live()
      modifies q`history, `callbacks
      ensures Inv({q}) && q in links.Live() && q in submitted && IsEnded(q.history)
      ensures callbacks == old(callbacks) + [Callback(q, status, 0, [])]
      ensures Grown()
    {
      hide Inv, Settled, Usable, Query.Valid, Views, LogGrown, Logs, ViewsGrown;
      TakeUp(q);
      HandFacts(q, 0, {q});
      q.End(status);
      callbacks := callbacks + [Callback(q, status, 0, [])];
      CalledBack(q, status);
      AllGrownSame(Views());
      GrownParts();
    }

    twostate lemma CalledBack(new q: Query, new status: Status)
      requires old(allocated(q)) && old(Inv({q})) && old(InHand(q, {q}))
      requires unchanged(`edns, `rewritten, `arrived, `generation, `lastTimeoutProcessed, `submitted, `orphans, `reading, `links)
      requires forall s :: 0 <= s < |servers| ==> unchanged(servers[s])
      requires forall x :: x in submitted && x != q ==> unchanged(x)
      requires unchanged(q`generation, q`sends, q`switches, q`fallbacks, q`waits) && q.Valid(|servers|)
      requires q.history == old(q.history) + [Ended(status)]
      requires callbacks == old(callbacks) + [Callback(q, status, 0, [])]
      ensures Inv({q})
    {
      hide Links.WellFormed, Server.Valid, CalledOnce, Called, Query.Waiting, Links.LinkedAt,
           NeverReusesBadPath, EndsOnce, Query.Valid, Owners, ServersOk, HistoriesOk;
      assert old(ServersOk());
      ServersStay();
      CallOnce(old(callbacks), Callback(q, status, 0, []));
      assert old(HistoriesOk());
      LimitsStay(q);
      assert submitted == old(submitted) + {q};
      HistoriesStay(q);
      forall x | x in links.Live() && x !in {q} ensures Settled(x) {
        assert x in submitted;
        assert old(Settled(x));
      }
    }

    /** Frees a query that was called back, whatever the output queues still hold of it. */
    method FreeEnded(q: Query)
      requires Inv({q}) && q in links.Live() && IsEnded(q.history)
      modifies `links, `orphans
      ensures Inv({})
      ensures links == old(links).Free(q) && orphans == old(orphans) + {q}
    {
      hide Inv;
      links := links.Free(q);
      orphans := orphans + {q};
      FreedEnded(q);
    }

    twostate lemma FreedEnded(new q: Query)
      requires old(allocated(q)) && old(Inv({q})) && IsEnded(q.history)
      requires unchanged(`edns, `rewritten, `arrived, `generation, `lastTimeoutProcessed, `submitted, `callbacks, `reading)
      requires forall s :: 0 <= s < |servers| ==> unchanged(servers[s])
      requires forall x :: x in submitted ==> unchanged(x)
      requires unchanged(q)
      requires links == old(links).Free(q) && orphans == old(orphans) + {q}
      ensures Inv({})
    {
      hide Links.WellFormed, Server.Valid, CalledOnce, Called, Query.Waiting, Links.LinkedAt, ServersOk, HistoriesOk, OwnersOk,
           NeverReusesBadPath, EndsOnce, Links.Free, Query.Valid, Owners;
      assert old(ServersOk()) && old(HistoriesOk()) && old(OwnersOk());
      ServersStay();
      HistoriesStay(null);
      old(links).FreeOk(q, |servers|);
      OwnersStay(q);
      forall x | x in links.Live() ensures Settled(x) {
        assert x in submitted;
        assert old(Settled(x));
        old(links).OthersStay(q, x, 0, 0, x.timeout.sec % TIMEOUT_TABLE_SIZE, x.server);
      }
    }

    /** Cancels the queries present on entry: their callbacks run once each, in order, and free to submit
        new queries, which are not cancelled. Requests that cancelled queries have queued on TCP before lose
        their owner's buffer, unless no query is left and all sockets are closed. If connections are to stay open,
        these are exactly the queries on entry with a request in a queue. */
    method Cancel(now: Time, resubmit: bool)
      requires Valid() && orphans == {}
      requires now.Normal() && 0 < now.sec && lastTimeoutProcessed <= now.sec
      modifies this, servers, submitted
      ensures Valid() && lastTimeoutProcessed == old(lastTimeoutProcessed)
      ensures Grown()
      ensures Among(callbacks[|old(callbacks)|..], old(links.all)) == Calls(old(links.all), Cancelled)
      ensures CancelsOnly(callbacks, |old(callbacks)|, old(links.all))
      ensures forall q :: q in links.all ==> q in submitted && q !in old(submitted)
      ensures fresh(submitted - old(submitted))
      ensures !resubmit ==> links.all == [] && submitted == old(submitted)
      ensures forall q :: q in orphans <==> q in old(links.all) && HasRequest(q) && (stayOpen || links.all != [])
      ensures forall q :: q in orphans ==> old(HasRequest(q))
      ensures stayOpen ==> forall q :: q in orphans <==> q in old(links.all) && old(HasRequest(q))
    {
      hide Inv, LogGrown, Logs, Views, ViewsGrown, KeptFor, CancelsOnly, HasRequest;
      ghost var cancelled, n0, known := links.all, |callbacks|, submitted;
      LogGrownNow();
      CancelsNone(callbacks, cancelled);
      if links.all != [] {
        Drain(now, resubmit);
      } else {
        CallsNone(cancelled, Cancelled);
        AmongNone(callbacks, cancelled);
        KeptForSame(Views(), stayOpen);
        assert cancelled[..0] == cancelled && submitted - known == {};
      }
      RequestsWere(submitted - known);
      if !stayOpen && links.all == [] {
        ghost var logs := Logs();
        label drained:
        CloseAll({});
        GrownAnyway@drained();
        LogGrownTwice(old(Logs()), logs, Logs());
        NoRequests();
        ForgetOrphans({});
      } else {
        ForgetOrphans(set q | q in cancelled && HasRequest(q));
      }
    }

    /** Some output queue holds a request that points into the query's buffer. */
    ghost predicate HasRequest(q: Query)
      reads servers
    {
      exists s :: 0 <= s < |servers| && q in Owners(servers[s].queue)
    }

    lemma NoRequests()
      requires forall s :: 0 <= s < |servers| ==> servers[s].queue == []
      ensures forall q :: !HasRequest(q)
    {
    }

    /** A query with a queued request had one before, if it was not submitted since; and it still has one, if connections
        stay open. */
    twostate lemma RequestsWere(new added: set<Query>)
      requires KeptFor(old(Views()), Views(), added, stayOpen)
      ensures forall q: Query :: q !in added && old(allocated(q)) && HasRequest(q) ==> old(HasRequest(q))
      ensures stayOpen ==> forall q: Query :: old(allocated(q)) && old(HasRequest(q)) ==> HasRequest(q)
    {
      hide Owners, ViewsGrown;
      forall q: Query | q !in added && old(allocated(q)) && HasRequest(q) ensures old(HasRequest(q)) {
        var s :| 0 <= s < |servers| && q in Owners(servers[s].queue);
        assert q in Views()[s].owners;
        assert q in old(Views())[s].owners;
      }
      if stayOpen {
        forall q: Query | old(allocated(q)) && old(HasRequest(q)) ensures HasRequest(q) {
          var s :| 0 <= s < |servers| && q in old(Owners(servers[s].queue));
          assert q in old(Views())[s].owners;
          assert q in Views()[s].owners;
        }
      }
    }

    ghost method ForgetOrphans(left: set<Query>)
      requires Inv({})
      requires forall q :: q in orphans && HasRequest(q) ==> q in left
      modifies `orphans
      ensures Inv({}) && orphans == left
    {
      hide ServerOk, Links.WellFormed, Settled, CompletionOk, HistoriesOk, Owners;
      ghost var before := orphans;
      orphans := left;
      forall s | 0 <= s < |servers|
        ensures Owners(servers[s].queue) <= (set x | x in links.Live()) + left + {null}
      {
        assert Owners(servers[s].queue) <= (set x | x in links.Live()) + before + {null};
        forall x: Query? | x in Owners(servers[s].queue) ensures x in (set x | x in links.Live()) + left + {null} {
          if x != null && x in before {
            assert HasRequest(x);
          }
        }
      }
    }

    /** Moves all queries to a local list and drains it. */
    method Drain(now: Time, resubmit: bool)
      requires Valid() && orphans == {}
      requires now.Normal() && 0 < now.sec && lastTimeoutProcessed <= now.sec
      modifies this, servers, submitted
      ensures Valid() && lastTimeoutProcessed == old(lastTimeoutProcessed)
      ensures Grown() && KeptFor(old(Views()), Views(), submitted - old(submitted), stayOpen)
      ensures Among(callbacks[|old(callbacks)|..], old(links.all)) == Calls(old(links.all), Cancelled)
      ensures CancelsOnly(callbacks, |old(callbacks)|, old(links.all))
      ensures forall q :: q in links.all ==> q in submitted && q !in old(submitted)
      ensures fresh(submitted - old(submitted))
      ensures !resubmit ==> links.all == [] && submitted == old(submitted)
      ensures forall q :: q in orphans ==> q in old(links.all)
    {
      hide Inv, Among, Calls, LogGrown, Logs, Views, ViewsGrown, KeptFor, CancelsOnly;
      ghost var n0, known, cancelled := |callbacks|, submitted, links.all;
      LogGrownNow();
      KeptForSame(Views(), stayOpen);
      CancelsNone(callbacks, cancelled);
      assert submitted - known == {};
      DetachAll();
      CallsNone(cancelled, Cancelled);
      assert Among(callbacks[n0..], cancelled) == [] by { AmongNone(callbacks, cancelled); }
      ghost var k := 0;
      var node: Query? := if links.detached == [] then null else links.detached[0];
      while node != null
        invariant Inv({}) && links.stolen == [] && reading == -1 && lastServer < |servers|
        invariant lastTimeoutProcessed == old(lastTimeoutProcessed)
        invariant 0 <= k <= |cancelled| && links.detached == cancelled[k..]
        invariant node == if links.detached == [] then null else links.detached[0]
        invariant Grown() && n0 <= |callbacks| && KeptFor(old(Views()), Views(), submitted - known, stayOpen)
        invariant Among(callbacks[n0..], cancelled) == Calls(cancelled[..k], Cancelled)
        invariant CancelsOnly(callbacks, n0, cancelled)
        invariant fresh(submitted - known)
        invariant known <= submitted && forall q :: q in cancelled ==> q in known
        invariant forall q :: q in links.all ==> q in submitted && q !in known
        invariant !resubmit ==> links.all == [] && submitted == known
        invariant forall q :: q in orphans ==> q in cancelled
        decreases |cancelled| - k
      {
        var q: Query := node;
        node := if |links.detached| > 1 then links.detached[1] else null;
        ghost var logs, views, before := Logs(), Views(), submitted;
        CancelOne(q, now, resubmit, known, cancelled, n0);
        LogGrownTwice(old(Logs()), logs, Logs());
        KeptForTwice(old(Views()), views, Views(), before - known, submitted - before, stayOpen);
        assert before - known + (submitted - before) == submitted - known;
        CallsStep(cancelled, k, Cancelled);
        k := k + 1;
      }
      assert cancelled[..k] == cancelled;
    }

    method DetachAll()
      requires Valid()
      modifies `links
      ensures Inv({}) && links == old(links).Detach()
      ensures forall q :: q in old(links.all) ==> q in submitted
    {
      hide ServersOk, HistoriesOk, OwnersOk, CalledOnce, Query.Waiting, Called;
      assert links.Live() == links.all;
      links := links.Detach();
      assert links.Live() == old(links).Live();
      forall q | q in links.Live() ensures links.LinkedAt(q, q.timeout.sec % TIMEOUT_TABLE_SIZE, q.server) {
        assert old(Settled(q));
      }
      LinksChange({});
    }

    /** One round of the drain: call the query back, let the callback submit, free the query. */
    method CancelOne(q: Query, now: Time, resubmit: bool, ghost known: set<Query>, ghost cancelled: seq<Query>, ghost n0: nat)
      requires Inv({}) && links.stolen == [] && reading == -1 && lastServer < |servers|
      requires links.detached != [] && q == links.detached[0] && q in cancelled
      requires known <= submitted && (forall x :: x in cancelled ==> x in known)
      requires forall x :: x in links.all ==> x in submitted && x !in known
      requires !resubmit ==> links.all == [] && submitted == known
      requires now.Normal() && 0 < now.sec && lastTimeoutProcessed <= now.sec
      requires n0 <= |callbacks| && CancelsOnly(callbacks, n0, cancelled)
      modifies this, servers, q
      ensures Inv({}) && links.stolen == [] && reading == -1 && lastServer < |servers|
      ensures lastTimeoutProcessed == old(lastTimeoutProcessed)
      ensures links.detached == old(links.detached)[1..]
      ensures Grown() && old(callbacks) <= callbacks && KeptFor(old(Views()), Views(), submitted - old(submitted), stayOpen)
      ensures Among(callbacks[n0..], cancelled) == Among(old(callbacks)[n0..], cancelled) + [Callback(q, Cancelled, 0, [])]
      ensures CancelsOnly(callbacks, n0, cancelled)
      ensures old(submitted) <= submitted && fresh(submitted - old(submitted))
      ensures forall x :: x in links.all ==> x in submitted && x !in known
      ensures !resubmit ==> links.all == [] && submitted == known
      ensures orphans == old(orphans) + {q}
    {
      hide Inv, Among, LogGrown, Logs, Views, ViewsGrown, KeptFor, CancelsOnly, IsEnded;
      KeptForSame(Views(), stayOpen);
      assert submitted - old(submitted) == {};
      CallBack(q, Cancelled);
      AmongAppend(old(callbacks), n0, Callback(q, Cancelled, 0, []), cancelled);
      CancelsMore(old(callbacks), n0, Callback(q, Cancelled, 0, []), cancelled);
      ghost var logs, views := Logs(), Views();
      Resubmissions(q, now, resubmit, known, cancelled, n0);
      LogGrownTwice(old(Logs()), logs, Logs());
      KeptForTwice(old(Views()), views, Views(), {}, submitted - old(submitted), stayOpen);
      assert {} + (submitted - old(submitted)) == submitted - old(submitted);
      FreeHead(q);
    }

    /** The head of the local list is freed. */
    method FreeHead(q: Query)
      requires Inv({q}) && links.detached != [] && q == links.detached[0] && links.stolen == [] && IsEnded(q.history)
      modifies `links, `orphans
      ensures Inv({}) && orphans == old(orphans) + {q}
      ensures links.detached == old(links.detached)[1..] && links.stolen == [] && links.all == old(links.all)
    {
      hide Inv, IsEnded;
      HeadOnlyOnce(q);
      FreeEnded(q);
    }

    /** What the callback of a cancelled query submits. */
    method Resubmissions(q: Query, now: Time, resubmit: bool, ghost known: set<Query>, ghost cancelled: seq<Query>, ghost n0: nat)
      requires Inv({q}) && lastServer < |servers| && IsEnded(q.history) && q in submitted
      requires known <= submitted && (forall x :: x in cancelled ==> x in known)
      requires forall x :: x in links.all ==> x in submitted && x !in known
      requires !resubmit ==> links.all == [] && submitted == known
      requires now.Normal() && 0 < now.sec && lastTimeoutProcessed <= now.sec
      requires n0 <= |callbacks| && CancelsOnly(callbacks, n0, cancelled)
      modifies this, servers
      ensures Inv({q}) && lastServer < |servers|
      ensures unchanged(`lastTimeoutProcessed, `reading, `orphans)
      ensures links.detached == old(links.detached) && links.stolen == old(links.stolen)
      ensures Grown() && old(callbacks) <= callbacks && KeptFor(old(Views()), Views(), submitted - old(submitted), stayOpen)
      ensures Among(callbacks[n0..], cancelled) == Among(old(callbacks)[n0..], cancelled)
      ensures CancelsOnly(callbacks, n0, cancelled)
      ensures old(submitted) <= submitted && fresh(submitted - old(submitted))
      ensures forall x :: x in links.all ==> x in submitted && x !in known
      ensures !resubmit ==> links.all == [] && submitted == known
    {
      hide Inv, Among, LogGrown, Logs, Views, ViewsGrown, KeptFor, CancelsOnly;
      LogGrownNow();
      KeptForSame(Views(), stayOpen);
      assert submitted - old(submitted) == {};
      var submissions: nat := *;
      if !resubmit {
        submissions := 0;
      }
      while submissions > 0
        invariant Inv({q}) && lastServer < |servers| && IsEnded(q.history)
        invariant unchanged(`lastTimeoutProcessed, `reading, `orphans)
        invariant links.detached == old(links.detached) && links.stolen == old(links.stolen)
        invariant Grown() && old(callbacks) <= callbacks
        invariant KeptFor(old(Views()), Views(), submitted - old(submitted), stayOpen)
        invariant Among(callbacks[n0..], cancelled) == Among(old(callbacks)[n0..], cancelled)
        invariant CancelsOnly(callbacks, n0, cancelled)
        invariant old(submitted) <= submitted && fresh(submitted - old(submitted))
        invariant forall x :: x in links.all ==> x in submitted && x !in known
        invariant !resubmit ==> submissions == 0 && links.all == [] && submitted == known
      {
        ghost var logs, views, before := Logs(), Views(), submitted;
        Resubmit(q, now, known, cancelled, n0);
        LogGrownTwice(old(Logs()), logs, Logs());
        KeptForTwice(old(Views()), views, Views(), before - old(submitted), submitted - before, stayOpen);
        assert before - old(submitted) + (submitted - before) == submitted - old(submitted);
        submissions := submissions - 1;
      }
    }

    lemma HeadOnlyOnce(q: Query)
      requires Inv({q}) && links.detached != [] && q == links.detached[0]
      ensures Without(links.detached, q) == links.detached[1..] && Without(links.all, q) == links.all
      ensures links.stolen == [] ==> Without(links.stolen, q) == []
    {
      hide ServersOk, HistoriesOk, OwnersOk, CompletionOk, Settled;
      WithoutFirst(links.detached, links.all);
    }

    method Resubmit(q: Query, now: Time, ghost known: set<Query>, ghost cancelled: seq<Query>, ghost n0: nat)
      requires Inv({q}) && lastServer < |servers| && IsEnded(q.history) && q in submitted
      requires known <= submitted && (forall x :: x in cancelled ==> x in known)
      requires forall x :: x in links.all ==> x in submitted && x !in known
      requires now.Normal() && 0 < now.sec && lastTimeoutProcessed <= now.sec
      requires n0 <= |callbacks| && CancelsOnly(callbacks, n0, cancelled)
      modifies this, servers
      ensures Inv({q}) && lastServer < |servers|
      ensures unchanged(`lastTimeoutProcessed, `reading, `orphans)
      ensures links.detached == old(links.detached) && links.stolen == old(links.stolen)
      ensures Grown() && old(callbacks) <= callbacks && KeptFor(old(Views()), Views(), submitted - old(submitted), stayOpen)
      ensures Among(callbacks[n0..], cancelled) == Among(old(callbacks)[n0..], cancelled)
      ensures CancelsOnly(callbacks, n0, cancelled)
      ensures old(submitted) <= submitted && fresh(submitted - old(submitted))
      ensures forall x :: x in links.all ==> x in submitted && x !in known
    {
      hide Inv, Among, LogGrown, Logs, Views, ViewsGrown, KeptFor, CancelsOnly, JustSent, Rotated;
      var qbuf: seq<byte> := *;
      ghost var before, known0 := callbacks, submitted;
      var added := Send(qbuf, now, {q});
      assert submitted - known0 == if added == null then {} else {added};
      if |callbacks| > |before| {
        AmongAppend(before, n0, callbacks[|before|], cancelled);
        CancelsMore(before, n0, callbacks[|before|], cancelled);
      }
    }

    /** Ends every query, closes every connection, and leaves every list empty. */
    method Destroy()
      requires Valid()
      modifies this, servers, submitted
      ensures Valid()
      ensures callbacks == old(callbacks) + Calls(old(links.all), Destruction)
      ensures links.all == []
      ensures forall b :: 0 <= b < |links.byQid| ==> links.byQid[b] == []
      ensures forall b :: 0 <= b < |links.byTimeout| ==> links.byTimeout[b] == []
      ensures forall s :: 0 <= s < |links.byServer| ==> links.byServer[s] == []
      ensures forall s :: 0 <= s < |servers| ==> servers[s].queue == [] && !servers[s].tcpOpen && !servers[s].udpOpen
    {
      hide Inv, Calls;
      ghost var all, k := links.all, 0;
      CallsNone(all, Destruction);
      var node: Query? := if links.all == [] then null else links.all[0];
      while node != null
        invariant Valid()
        invariant 0 <= k <= |all| && links.all == all[k..]
        invariant node == if k < |all| then all[k] else null
        invariant callbacks == old(callbacks) + Calls(all[..k], Destruction)
        invariant submitted == old(submitted)
        decreases |all| - k
      {
        var q: Query := node;
        node := if |links.all| > 1 then links.all[1] else null;
        LiveIsSubmitted(q);
        assert all[k..][1..] == all[k + 1..];
        DestroyOne(q);
        CallsStep(all, k, Destruction);
        k := k + 1;
      }
      assert all[..k] == all;
      EmptyLists();
      CloseAll({});
    }

    method DestroyOne(q: Query)
      requires Valid() && links.all != [] && q == links.all[0]
      modifies q`history, `callbacks, `links, `orphans
      ensures Valid() && links.all == old(links.all)[1..]
      ensures callbacks == old(callbacks) + [Callback(q, Destruction, 0, [])]
    {
      hide Inv;
      CallBack(q, Destruction);
      AllHeadOnlyOnce(q);
      FreeEnded(q);
    }

    lemma AllHeadOnlyOnce(q: Query)
      requires Inv({q}) && links.all != [] && q == links.all[0] && links.detached == links.stolen == []
      ensures Without(links.all, q) == links.all[1..]
      ensures Without(links.detached, q) == [] && Without(links.stolen, q) == []
    {
      hide ServersOk, HistoriesOk, OwnersOk, CompletionOk, Settled;
      assert links.Live() == links.all + [];
      WithoutFirst(links.all, []);
    }

    lemma EmptyLists()
      requires Inv({}) && links.Live() == []
      ensures forall b :: 0 <= b < |links.byQid| ==> links.byQid[b] == []
      ensures forall b :: 0 <= b < |links.byTimeout| ==> links.byTimeout[b] == []
      ensures forall s :: 0 <= s < |links.byServer| ==> links.byServer[s] == []
    {
      hide ServersOk, HistoriesOk, OwnersOk, CompletionOk, Settled;
      forall b | 0 <= b < |links.byTimeout| ensures links.byTimeout[b] == [] {
        EmptyIfNoneLive(links.byTimeout[b], links.Live());
      }
      forall s | 0 <= s < |links.byServer| ensures links.byServer[s] == [] {
        EmptyIfNoneLive(links.byServer[s], links.Live());
      }
    }

    /** A channel with closed connections to `nservers` servers and no queries. */
    constructor (nservers: nat, tries: nat, timeout: nat, now: Time, rotate: bool, stayOpen: bool,
                 ignoreTruncation: bool, noCheckResponse: bool, useTcp: bool, edns: bool, ednsPacketSize: nat)
      requires nservers > 0 && tries > 0 && timeout > 0 && 0 < now.sec
      ensures Valid() && |servers| == nservers && fresh(servers)
      ensures this.tries == tries && this.timeout == timeout && this.stayOpen == stayOpen && this.edns == edns
      ensures this.useTcp == useTcp
      ensures lastTimeoutProcessed == now.sec && forall s :: 0 <= s < nservers ==> !servers[s].tcpOpen
      ensures links.all == [] && submitted == {} && callbacks == [] && orphans == {} && arrived == [] && rewritten == null
    {
      var list := MakeServers(nservers);
      servers := list;
      this.tries, this.timeout, this.rotate, this.stayOpen := tries, timeout, rotate, stayOpen;
      this.ignoreTruncation, this.noCheckResponse, this.useTcp := ignoreTruncation, noCheckResponse, useTcp;
      this.edns, this.ednsPacketSize, rewritten := edns, ednsPacketSize, null;
      links := NoLinks(nservers);
      generation, lastServer, lastTimeoutProcessed := nservers, 0, now.sec;
      submitted, callbacks, orphans, reading, arrived := {}, [], {}, -1, [];
      new;
      hide Server.Valid, Inv;
      InitiallyValid();
    }

    static method MakeServers(nservers: nat) returns (list: seq<Server>)
      ensures |list| == nservers && fresh(list)
      ensures forall s :: 0 <= s < |list| ==> list[s].Valid() && list[s].generation == s + 1
      ensures forall s :: 0 <= s < |list| ==> Unused(list[s])
      ensures forall i, j :: 0 <= i < j < |list| ==> list[i] != list[j]
    {
      hide Server.Valid, AllDelivered;
      list := [];
      while |list| < nservers
        invariant |list| <= nservers && fresh(list)
        invariant forall s :: 0 <= s < |list| ==> list[s].Valid() && list[s].generation == s + 1
        invariant forall s :: 0 <= s < |list| ==> Unused(list[s])
        invariant forall i, j :: 0 <= i < j < |list| ==> list[i] != list[j]
      {
        var server := new Server(|list| + 1);
        list := list + [server];
      }
    }

    static ghost predicate Unused(server: Server)
      reads server
    {
      !server.tcpOpen && server.queue == [] && !server.delivering && server.rewritten == null && server.Delivered() == []
    }

    lemma InitiallyValid()
      requires |servers| > 0 && tries > 0 && timeout > 0 && reading == -1 && lastServer == 0
      requires forall s :: 0 <= s < |servers| ==> servers[s].Valid() && servers[s].generation <= generation
      requires forall s :: 0 <= s < |servers| ==> Unused(servers[s])
      requires rewritten == null && arrived == []
      requires forall i, j :: 0 <= i < j < |servers| ==> servers[i] != servers[j]
      requires links == NoLinks(|servers|) && submitted == {} && callbacks == [] && orphans == {}
      ensures Valid()
    {
      hide Server.Valid;
    }

    /** What a client can rely on between any two calls. */
    ghost predicate Safe()
      reads this, servers, submitted
    {
      // every submitted query is live or was called back, once, and not both
      && submitted == (set q | q in links.Live()) + (set q: Query | q in submitted && q in Called(callbacks))
      && (forall q :: q in links.Live() ==> q !in Called(callbacks))
      && CalledOnce(callbacks)
      // a live query is in each index exactly where it belongs
      && (forall q :: q in links.Live() ==> Indexed(q))
      && (forall q :: q in submitted ==> Limited(q))
      // every connection, past or present, carried exactly what it should
      && (forall s :: 0 <= s < |servers| ==> ConnectionsSound(s))
      // every queued request belongs to a live query or to none, except for what cancellation left
      && OwnersOk()
    }

    /** No query used a bad path or ended twice; it was sent no more often than it has tries, and once for a switch to
        TCP and once for the fallback from EDNS, which at most one query made; and all its waits were within the budget. */
    ghost predicate Limited(q: Query)
      reads `rewritten, q
    {
      && NeverReusesBadPath(q.history) && EndsOnce(q.history)
      && (q != rewritten ==> FellBack !in q.history)
      && q.sends <= Attempts() + 1 + (if q == rewritten then 1 else 0)
      && Sum(q.waits) <= |servers| * timeout * (Pow2(tries) - 1)
    }

    ghost predicate Indexed(q: Query)
      reads `links, q
    {
      && (forall b :: 0 <= b < |links.byQid| ==> (q in links.byQid[b] <==> q.qid % QID_TABLE_SIZE == b))
      && (forall b :: 0 <= b < |links.byTimeout| ==>
            (q in links.byTimeout[b] <==> q.timeout.sec % TIMEOUT_TABLE_SIZE == b))
      && (forall s :: 0 <= s < |links.byServer| ==> (q in links.byServer[s] <==> q.server == s))
    }

    ghost predicate ConnectionsSound(s: int)
      requires 0 <= s < |servers|
      reads `arrived, servers
    {
      var server := servers[s];
      && EndsAgree(server.traffic, InputRest(server.lenbuf, server.buffer, server.delivering))
      && (!server.isBroken && !server.traffic.tainted ==>
            server.traffic.written + Pending(server.queue) == FrameAll(server.traffic.queued))
      && (forall i :: 0 <= i < |server.past| ==> EndsAgree(server.past[i].traffic, server.past[i].rest))
      && server.Delivered() == TcpArrivals(arrived, s)
    }

    /** The messages delivered are those that the bytes read hold, and the bytes written hold the first of the requests
        queued, unless one of these was rewritten. */
    ghost predicate EndsAgree(t: Traffic, rest: seq<byte>) {
      && Deframe(t.consumed) == (t.delivered, rest)
      && (!t.tainted ==> t.written <= FrameAll(t.queued) && Deframe(t.written).0 <= t.queued)
    }

    /** The invariant implies all that. */
    lemma ValidIsSafe()
      requires Valid()
      ensures Safe()
    {
      hide Inv, Indexed, ConnectionsSound, Limited;
      LiveAndCalled();
      forall q | q in links.Live() ensures Indexed(q) {
        IsIndexed(q);
      }
      forall q | q in submitted ensures Limited(q) {
        IsLimited(q);
      }
      forall s | 0 <= s < |servers| ensures ConnectionsSound(s) {
        AreSound(s);
      }
    }

    lemma LiveAndCalled()
      requires Inv({})
      ensures submitted == (set q | q in links.Live()) + (set q: Query | q in submitted && q in Called(callbacks))
      ensures forall q :: q in links.Live() ==> q !in Called(callbacks)
      ensures CalledOnce(callbacks) && OwnersOk()
    {
      hide ServersOk, Settled, Called, OwnersOk, NeverReusesBadPath, EndsOnce, Links.WellFormed, CalledOnce, IsEnded, HistoriesOk;
    }

    lemma IsLimited(q: Query)
      requires Inv({}) && q in submitted
      ensures Limited(q)
    {
      hide ServersOk, Settled, Called, OwnersOk, NeverReusesBadPath, EndsOnce, Links.WellFormed, CalledOnce, WaitsOk, Sum, Pow2,
           CompletionOk;
      assert q.Valid(|servers|) && WithinLimits(q);
      WaitBudget(timeout, |servers|, tries, q.waits);
    }

    lemma JustQueued(q: Query)
      requires JustSent(q) && q.usingTcp
      ensures HasRequest(q)
    {
      var queue := servers[q.server].queue;
      assert queue[|queue| - 1] in queue;
      assert q in Owners(queue);
    }

    lemma AllKnown()
      requires Inv({})
      ensures forall q :: q in links.all ==> q in submitted
    {
      Known({});
    }

    lemma IsIndexed(q: Query)
      requires Inv({}) && links.stolen == [] && q in links.Live()
      ensures Indexed(q)
    {
      hide ServersOk, HistoriesOk, OwnersOk, CompletionOk, Query.Waiting;
      assert Settled(q);
    }

    lemma AreSound(s: int)
      requires Inv({}) && 0 <= s < |servers|
      ensures ConnectionsSound(s)
    {
      hide Inv, InputOk, Sound, FrameAll, Pending, EndsAgree, PastSound, Deframe;
      ServerFacts(s, {});
      TrafficIsSound(servers[s].traffic, servers[s].queue, servers[s].isBroken, servers[s].rewritten,
                     servers[s].lenbuf, servers[s].length, servers[s].buffer, servers[s].delivering);
      SoundAgrees(servers[s].traffic, InputRest(servers[s].lenbuf, servers[s].buffer, servers[s].delivering));
      forall i | 0 <= i < |servers[s].past| ensures EndsAgree(servers[s].past[i].traffic, servers[s].past[i].rest) {
        PastIsSound(servers[s].past, servers[s].generation, i);
        SoundAgrees(servers[s].past[i].traffic, servers[s].past[i].rest);
      }
    }

    lemma SoundAgrees(t: Traffic, rest: seq<byte>)
      requires Sound(t, rest)
      ensures EndsAgree(t, rest)
    {
      hide Deframe, FrameAll;
      SoundEnds(t, rest);
    }
  }

  /** The calls among `calls` that concern queries of the list. */
  ghost function Among(calls: seq<Callback>, queries: seq<Query>): seq<Callback> {
    if calls == [] then []
    else (if calls[0].query != null && calls[0].query in queries then [calls[0]] else []) + Among(calls[1..], queries)
  }

  /** One call with the given status for each query, in order. */
  ghost function Calls(queries: seq<Query>, status: Status): seq<Callback> {
    seq(|queries|, i requires 0 <= i < |queries| => Callback(queries[i], status, 0, []))
  }

  lemma {:induction false} AmongConcat(a: seq<Callback>, b: seq<Callback>, queries: seq<Query>)
    ensures Among(a + b, queries) == Among(a, queries) + Among(b, queries)
  {
    if a == [] {
      assert a + b == b;
    } else {
      assert (a + b)[1..] == a[1..] + b;
      AmongConcat(a[1..], b, queries);
    }
  }

  lemma AmongAppend(calls: seq<Callback>, n0: nat, c: Callback, queries: seq<Query>)
    requires n0 <= |calls|
    ensures Among((calls + [c])[n0..], queries)
      == Among(calls[n0..], queries) + (if c.query != null && c.query in queries then [c] else [])
  {
    assert (calls + [c])[n0..] == calls[n0..] + [c];
    AmongConcat(calls[n0..], [c], queries);
    assert [c][1..] == [];
  }

  /** From n0 on, no query but those of the list was called back as cancelled. */
  ghost predicate CancelsOnly(callbacks: seq<Callback>, n0: nat, queries: seq<Query>) {
    forall k :: n0 <= k < |callbacks| && callbacks[k].status == Cancelled ==>
      callbacks[k].query != null && callbacks[k].query in queries
  }

  lemma CancelsNone(callbacks: seq<Callback>, queries: seq<Query>)
    ensures CancelsOnly(callbacks, |callbacks|, queries)
  {
  }

  lemma CancelsMore(callbacks: seq<Callback>, n0: nat, c: Callback, queries: seq<Query>)
    requires CancelsOnly(callbacks, n0, queries)
    requires c.status == Cancelled ==> c.query != null && c.query in queries
    ensures CancelsOnly(callbacks + [c], n0, queries)
  {
  }

  lemma AmongNone(calls: seq<Callback>, queries: seq<Query>)
    ensures Among(calls[|calls|..], queries) == []
  {
  }

  lemma CallsNone(queries: seq<Query>, status: Status)
    ensures Calls(queries[..0], status) == []
  {
  }

  lemma CallsStep(queries: seq<Query>, k: nat, status: Status)
    requires k < |queries|
    ensures Calls(queries[..k + 1], status) == Calls(queries[..k], status) + [Callback(queries[k], status, 0, [])]
  {
  }

  ghost function Wrap(a: nat, n: nat): nat
    requires n > 0
  {
    a % n
  }

  /** A server number moved on by a number of servers, around the list of n servers. */
  ghost predicate Turned(s: nat, s0: nat, moves: nat, n: nat) {
    n > 0 && s == Wrap(s0 + moves, n)
  }

  function NextIndex(s: nat, n: nat): (r: nat)
    requires n > 0
    ensures r < n && Turned(r, s, 1, n)
  {
    (s + 1) % n
  }

  lemma TurnedTwice(s2: nat, s1: nat, more: nat, s0: nat, moves: nat, n: nat)
    requires Turned(s1, s0, moves, n) && Turned(s2, s1, more, n)
    ensures Turned(s2, s0, moves + more, n)
  {
    hide Wrap;
    WrapOfSum(s0 + moves, more, n);
    assert s0 + moves + more == s0 + (moves + more);
  }

  lemma WrapOfSum(a: nat, b: nat, n: nat)
    requires n > 0
    ensures Wrap(Wrap(a, n) + b, n) == Wrap(a + b, n)
  {
    var q, r := a / n, a % n;
    var k, m := (r + b) / n, (r + b) % n;
    SumOfParts(n, q, r, k, m, a, b);
    QuotientOfRound(n, q + k, m);
  }

  lemma SumOfParts(n: nat, q: nat, r: nat, k: nat, m: nat, a: nat, b: nat)
    requires a == n * q + r && r + b == n * k + m
    ensures a + b == n * (q + k) + m
  {
    Distribute(q, k, n);
  }

  lemma RefusalIsCalledOnce(callbacks: seq<Callback>)
    requires CalledOnce(callbacks)
    ensures CalledOnce(callbacks + [Callback(null, BadQuery, 0, [])])
    ensures Called(callbacks + [Callback(null, BadQuery, 0, [])]) == Called(callbacks) + {null}
  {
    var c := Callback(null, BadQuery, 0, []);
    forall x | x in Called(callbacks) + {null} ensures x in Called(callbacks + [c]) {
      if x == null {
        assert c in callbacks + [c];
      } else {
        var d :| d in callbacks && d.query == x;
        assert d in callbacks + [c];
      }
    }
  }

  lemma MovesTogether(links: Links, q: Query, b: nat, s: nat)
    requires b < |links.byTimeout| && s < |links.byServer|
    ensures |links.MoveTimeout(q, b).byServer| == |links.byServer|
    ensures links.Move(q, b, s) == links.MoveTimeout(q, b).MoveServer(q, s)
  {
  }

  lemma InsertKeepsOthers(links: Links, q: Query, x: Query, b: nat, s: nat)
    requires |links.byQid| == QID_TABLE_SIZE && links.LinkedAt(x, b, s)
    ensures links.Insert(q).LinkedAt(x, b, s)
  {
  }

  /** Inserting a new query and then freeing it leaves the lists of all queries as they were. */
  lemma InsertThenHandled(before: Links, q: Query)
    requires |before.byQid| == QID_TABLE_SIZE && q !in before.Live() && q !in before.stolen
    ensures |before.Insert(q).byTimeout| == |before.byTimeout| && |before.Insert(q).byServer| == |before.byServer|
    ensures forall b: nat, s: nat :: b < |before.byTimeout| && s < |before.byServer| ==>
      var after := before.Insert(q).Move(q, b, s);
      after.all == before.all + [q] && after.detached == before.detached && after.stolen == before.stolen
    ensures var after := before.Insert(q).Free(q);
      after.all == before.all && after.detached == before.detached && after.stolen == before.stolen
  {
    WithoutConcat(before.all, [q], q);
  }

  /** Unlinking position k of a list, and perhaps linking its element again at the tail, leaves what is
      before k in place, and moves the element after k to k. */
  lemma ListStep(list: seq<Query>, k: nat, after: seq<Query>)
    requires NoDup(list) && k < |list|
    requires after == Without(list, list[k]) || after == Without(list, list[k]) + [list[k]]
    ensures |after| >= |list| - 1
    ensures forall i :: 0 <= i < k ==> after[i] == list[i]
    ensures k + 1 < |list| ==> after[k] == list[k + 1]
    ensures k + 1 == |list| ==> forall x :: x in after ==> x in list[..k] || x == list[k]
  {
    WithoutAt(list, k);
  }

  /** Whether every queued request belongs to a query of the channel's list, or to none. */
  method RequestsOwned(channel: Channel) returns (owned: bool)
    ensures owned <==> forall s, r :: 0 <= s < |channel.servers| && r in channel.servers[s].queue ==> OwnerKnown(r, channel.links.all)
  {
    var s := 0;
    while s < |channel.servers|
      invariant 0 <= s <= |channel.servers|
      invariant forall i, r :: 0 <= i < s && r in channel.servers[i].queue ==> OwnerKnown(r, channel.links.all)
    {
      var queue, k := channel.servers[s].queue, 0;
      while k < |queue|
        invariant 0 <= k <= |queue|
        invariant forall i :: 0 <= i < k ==> OwnerKnown(queue[i], channel.links.all)
      {
        if !OwnerKnown(queue[k], channel.links.all) {
          return false;
        }
        k := k + 1;
      }
      s := s + 1;
    }
    return true;
  }

  predicate OwnerKnown(r: SendRequest, all: seq<Query>) {
    r.owner == null || r.owner in all
  }

  /** Any run: submissions, rounds of processing and cancellations, in any order and at any later times,
      over a network that may fail at any call. It ends only with a cancellation after which some output queue refers to
      a cancelled query. */
  method Run(channel: Channel, steps: nat)
    requires channel.Valid() && channel.orphans == {}
    modifies channel, channel.servers, channel.submitted
    ensures channel.Valid() && channel.Safe() && channel.Grown()
  {
    hide Channel.Inv, Channel.Safe, Channel.HasRequest, LogGrown, Channel.Logs, CancelsOnly;
    channel.LogGrownNow();
    for i := 0 to steps
      invariant channel.Valid() && channel.orphans == {} && channel.Grown()
      invariant forall q :: q in channel.submitted ==> q in old(channel.submitted) || fresh(q)
    {
      ghost var logs := channel.Logs();
      var now := NextTime(channel.lastTimeoutProcessed);
      var choice: nat := *;
      if choice == 0 {
        var qbuf: seq<byte> := *;
        var q := channel.Send(qbuf, now, {});
      } else if choice == 1 {
        channel.ProcessFds(now);
      } else {
        var resubmit: bool := *;
        ghost var cancelled := channel.links.all;
        channel.AllKnown();
        channel.Cancel(now, resubmit);
        LogGrownTwice(old(channel.Logs()), logs, channel.Logs());
        var owned := RequestsOwned(channel);
        if !owned {
          break;
        }
        NoneLeft(channel, cancelled);
      }
      if choice <= 1 {
        LogGrownTwice(old(channel.Logs()), logs, channel.Logs());
      }
    }
    channel.ValidIsSafe();
  }

  /** If every queued request belongs to a query that is not cancelled, no cancelled query has one. */
  lemma NoneLeft(channel: Channel, cancelled: seq<Query>)
    requires forall s, r :: 0 <= s < |channel.servers| && r in channel.servers[s].queue ==> OwnerKnown(r, channel.links.all)
    requires forall q :: q in cancelled ==> q !in channel.links.all
    requires forall q :: q in channel.orphans ==> q in cancelled && channel.HasRequest(q)
    ensures channel.orphans == {}
  {
    forall q: Query | channel.HasRequest(q) ensures q in channel.links.all {
      var s :| 0 <= s < |channel.servers| && q in Owners(channel.servers[s].queue);
      var r :| r in channel.servers[s].queue && r.owner == q;
      assert OwnerKnown(r, channel.links.all);
    }
  }

  /** A request may be queued when its query is cancelled: on a channel that keeps its connections open, a query that is
      sent over an open TCP connection and cancelled at once leaves a request behind that refers to it. */
  method RequestLeftBehind(qbuf: Request, now: Time) returns (channel: Channel, q: Query)
    requires now.Normal() && 0 < now.sec
    ensures q in channel.orphans && q !in channel.links.all && channel.HasRequest(q)
  {
    hide Channel.Inv, Channel.HasRequest, Channel.Grown, CancelsOnly, Among, Calls;
    channel, q := QueueOne(qbuf, now);
    channel.AllKnown();
    channel.Cancel(now, false);
  }

  /** A new channel over TCP whose connection could be opened, with one query. */
  method QueueOne(qbuf: Request, now: Time) returns (channel: Channel, q: Query)
    requires now.Normal() && 0 < now.sec
    ensures fresh(channel) && fresh(channel.servers) && fresh(channel.submitted)
    ensures channel.Valid() && channel.orphans == {} && channel.stayOpen && channel.lastTimeoutProcessed <= now.sec
    ensures q in channel.links.all && channel.HasRequest(q)
  {
    hide Channel.Inv, Channel.HasRequest, Channel.JustSent, NoLinks;
    channel := new Channel(1, 1, 1000, now, false, true, false, false, true, false, 0);
    channel.FirstConnection();
    q := SendOne(channel, qbuf, now);
    channel.JustQueued(q);
  }

  method SendOne(channel: Channel, qbuf: Request, now: Time) returns (q: Query)
    requires channel.Valid() && channel.useTcp && channel.links.all == [] && channel.submitted == {} && channel.orphans == {}
    requires channel.servers[channel.lastServer].tcpOpen
    requires now.Normal() && 0 < now.sec && channel.lastTimeoutProcessed <= now.sec
    modifies channel, channel.servers
    ensures channel.Valid() && channel.orphans == {} && channel.submitted == {q} && fresh(q)
    ensures channel.lastTimeoutProcessed == old(channel.lastTimeoutProcessed)
    ensures channel.links.all == [q] && channel.JustSent(q) && q.usingTcp
  {
    hide Channel.Inv, Channel.JustSent, Channel.Grown, KeptFor, Channel.Rotated, NextIndex, Channel.Views, LogGrown, Channel.Logs,
         IsEnded;
    var sent := channel.Send(qbuf, now, {});
    q := sent;
  }

  /** A reading of the clock, which does not go back. */
  method NextTime(last: nat) returns (now: Time)
    ensures now.Normal() && 0 < now.sec && last <= now.sec
  {
    var sec: nat, usec: nat := *, *;
    now := Time(if last < sec then sec else if last > 0 then last else 1, usec % 1_000_000);
  }
}
