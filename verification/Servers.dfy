/** One name server: its sockets, its TCP output queue and its TCP input buffer. */
module Servers {
  import opened Bytes
  import opened Framing
  import opened Queries

  /** A queued TCP request: the bytes still to be sent, which belong to the owner's buffer
      unless the request holds its own copy. */
  datatype SendRequest = SendRequest(data: seq<byte>, owner: Query?, ownCopy: bool)

  /** The bytes still queued. */
  function Pending(queue: seq<SendRequest>): seq<byte> {
    if queue == [] then [] else queue[0].data + Pending(queue[1..])
  }

  ghost function Owners(queue: seq<SendRequest>): set<Query?> {
    set r | r in queue :: r.owner
  }

  lemma {:induction false} PendingConcat(a: seq<SendRequest>, b: seq<SendRequest>)
    ensures Pending(a + b) == Pending(a) + Pending(b)
  {
    if a == [] {
      assert a + b == b;
    } else {
      assert (a + b)[1..] == a[1..] + b;
      PendingConcat(a[1..], b);
    }
  }

  lemma PendingAppend(queue: seq<SendRequest>, r: SendRequest)
    ensures Pending(queue + [r]) == Pending(queue) + r.data
  {
    PendingConcat(queue, [r]);
    assert Pending([r]) == r.data + Pending([r][1..]);
  }

  lemma Nothing()
    ensures Pending([]) == FrameAll([]) == []
  {
  }

  ghost predicate IsSuffix(s: seq<byte>, t: seq<byte>) {
    |s| <= |t| && s == t[|t| - |s|..]
  }

  /** A queued request is a non-empty suffix of its owner's framed request, or an owned copy, or a zeroed entry of a
      broken connection. On a tainted connection the bytes may be any. */
  ghost predicate RequestOk(r: SendRequest, broken: bool, tainted: bool, rewritten: Query?) {
    && (r.owner != null ==> !r.ownCopy && r.data != [])
    && (r.owner != null && !tainted ==> IsSuffix(r.data, Frame(RequestOf(r.owner, rewritten))))
    && (r.owner == null && !r.ownCopy ==> broken && r.data == [])
    && (!broken ==> r.data != [])
  }

  /** What passed over a TCP connection: the requests queued on it, the bytes written to it,
      the bytes read from it, and the messages delivered from it. It is tainted when a request was
      rewritten that was queued on it. */
  datatype Traffic = Traffic(
    queued: seq<seq<byte>>, written: seq<byte>, consumed: seq<byte>, delivered: seq<seq<byte>>, tainted: bool)

  const SILENCE := Traffic([], [], [], [], false)

  /** A connection from open to close, with the input left over at the end. */
  datatype Incarnation = Incarnation(generation: nat, traffic: Traffic, rest: seq<byte>)

  /** All messages delivered from the connections of the past and from the present one, in order. */
  function AllDelivered(past: seq<Incarnation>, t: Traffic): seq<seq<byte>> {
    PastDelivered(past) + t.delivered
  }

  function PastDelivered(past: seq<Incarnation>): seq<seq<byte>> {
    if past == [] then [] else PastDelivered(past[..|past| - 1]) + past[|past| - 1].traffic.delivered
  }

  lemma ClosedDelivers(past: seq<Incarnation>, closed: Incarnation)
    ensures AllDelivered(past + [closed], SILENCE) == AllDelivered(past, closed.traffic)
  {
    assert (past + [closed])[..|past|] == past;
  }

  /** More has passed over a connection than before. */
  ghost predicate TrafficGrown(s: Traffic, t: Traffic) {
    && s.queued <= t.queued && s.written <= t.written && s.consumed <= t.consumed && s.delivered <= t.delivered
    && (s.tainted ==> t.tainted)
  }

  /** Output is a prefix of what was queued; input is exactly the messages and an unfinished rest. */
  ghost predicate Sound(t: Traffic, rest: seq<byte>) {
    && Proper(t.queued) && (!t.tainted ==> t.written <= FrameAll(t.queued))
    && Proper(t.delivered) && Unfinished(rest)
    && t.consumed == FrameAll(t.delivered) + rest
  }

  /** What the two ends make of a sound connection: the messages delivered are those that the stream of the peer holds,
      and the peer has received the first of the requests queued, and nothing else. */
  lemma SoundEnds(t: Traffic, rest: seq<byte>)
    requires Sound(t, rest)
    ensures Deframe(t.consumed) == (t.delivered, rest)
    ensures !t.tainted ==> Deframe(t.written).0 <= t.queued
  {
    hide Deframe, FrameAll;
    DeframeExact(t.delivered, rest);
    if !t.tainted {
      PrefixDeframes(t.queued, t.written);
    }
  }

  ghost predicate PastSound(past: seq<Incarnation>, generation: nat) {
    forall i :: 0 <= i < |past| ==> past[i].generation < generation && Sound(past[i].traffic, past[i].rest)
  }

  lemma PastIsSound(past: seq<Incarnation>, generation: nat, i: nat)
    requires PastSound(past, generation) && i < |past|
    ensures Sound(past[i].traffic, past[i].rest)
  {
  }

  ghost predicate QueueOk(queue: seq<SendRequest>, broken: bool, tainted: bool, rewritten: Query?) {
    forall i :: 0 <= i < |queue| ==> RequestOk(queue[i], broken, tainted, rewritten)
  }

  /** The output side: what is written and queued, against what should be. */
  ghost predicate OutputOk(t: Traffic, queue: seq<SendRequest>, broken: bool, rewritten: Query?) {
    && Proper(t.queued)
    && (!t.tainted ==> t.written <= FrameAll(t.queued))
    && (!t.tainted && !broken ==> t.written + Pending(queue) == FrameAll(t.queued))
    && QueueOk(queue, broken, t.tainted, rewritten)
  }

  /** The input side: `rest` is what the length word and the buffer hold of an undelivered answer. */
  ghost predicate InputOk(consumed: seq<byte>, delivered: seq<seq<byte>>,
                          lenbuf: seq<byte>, length: nat, buffer: seq<byte>, delivering: bool)
  {
    && |lenbuf| <= 2
    && (|lenbuf| == 2 ==> length == Word(lenbuf[0], lenbuf[1]) && |buffer| <= length)
    && (delivering ==> |lenbuf| == 2 && |buffer| == length)
    && (!delivering && |lenbuf| == 2 ==> |buffer| < length || length == 0)
    && Proper(delivered)
    && consumed == FrameAll(delivered) + InputRest(lenbuf, buffer, delivering)
  }

  function InputRest(lenbuf: seq<byte>, buffer: seq<byte>, delivering: bool): seq<byte> {
    if delivering then [] else if |lenbuf| < 2 then lenbuf else lenbuf + buffer
  }

  lemma SilenceIsSound(length: nat, buffer: seq<byte>, rewritten: Query?)
    ensures OutputOk(SILENCE, [], false, rewritten) && InputOk([], [], [], length, buffer, false)
  {
    Nothing();
  }

  lemma TrafficIsSound(t: Traffic, queue: seq<SendRequest>, broken: bool, rewritten: Query?,
                       lenbuf: seq<byte>, length: nat, buffer: seq<byte>, delivering: bool)
    requires OutputOk(t, queue, broken, rewritten)
    requires InputOk(t.consumed, t.delivered, lenbuf, length, buffer, delivering)
    ensures Sound(t, InputRest(lenbuf, buffer, delivering))
  {
  }

  lemma {:induction false} SameData(a: seq<SendRequest>, b: seq<SendRequest>)
    requires |a| == |b| && forall i :: 0 <= i < |a| ==> a[i].data == b[i].data
    ensures Pending(a) == Pending(b)
  {
    if a != [] {
      SameData(a[1..], b[1..]);
    }
  }

  lemma DisownOk(t: Traffic, before: seq<SendRequest>, after: seq<SendRequest>, wasBroken: bool, broken: bool, rewritten: Query?)
    requires OutputOk(t, before, wasBroken, rewritten) && (wasBroken ==> broken)
    requires QueueOk(after, broken, t.tainted, rewritten)
    requires |after| == |before|
    requires !broken ==> forall i :: 0 <= i < |after| ==> after[i].data == before[i].data
    ensures OutputOk(t, after, broken, rewritten)
  {
    hide FrameAll, Proper, QueueOk;
    if !broken {
      SameData(before, after);
    }
  }

  lemma LengthOk(consumed: seq<byte>, delivered: seq<seq<byte>>, lenbuf: seq<byte>, length: nat, buffer: seq<byte>, chunk: seq<byte>)
    requires InputOk(consumed, delivered, lenbuf, length, buffer, false) && |lenbuf| < 2 && 0 < |chunk| <= 2 - |lenbuf|
    ensures |lenbuf + chunk| < 2 ==>
      InputOk(consumed + chunk, delivered, lenbuf + chunk, length, buffer, false)
    ensures |lenbuf + chunk| == 2 ==>
      InputOk(consumed + chunk, delivered, lenbuf + chunk,
              Word((lenbuf + chunk)[0], (lenbuf + chunk)[1]), [], false)
  {
    hide FrameAll;
    var all := FrameAll(delivered);
    assert all + lenbuf + chunk == all + (lenbuf + chunk);
    assert lenbuf + chunk + [] == lenbuf + chunk;
  }

  lemma BodyOk(consumed: seq<byte>, delivered: seq<seq<byte>>, lenbuf: seq<byte>, length: nat, buffer: seq<byte>, chunk: seq<byte>)
    requires InputOk(consumed, delivered, lenbuf, length, buffer, false) && |lenbuf| == 2 && 0 < |chunk| <= length - |buffer|
    ensures |buffer + chunk| < length ==>
      InputOk(consumed + chunk, delivered, lenbuf, length, buffer + chunk, false)
    ensures |buffer + chunk| == length ==>
      InputOk(consumed + chunk, delivered + [buffer + chunk], lenbuf, length, buffer + chunk, true)
  {
    var all, m := FrameAll(delivered), buffer + chunk;
    FrameAllAppend(delivered, m);
    HalvesOfWord(lenbuf[0], lenbuf[1]);
    hide FrameAll;
    assert all + (lenbuf + buffer) + chunk == all + (lenbuf + m);
    if |m| == length {
      assert Frame(m) == lenbuf + m;
      assert all + (lenbuf + m) + [] == all + (lenbuf + m);
    }
  }

  lemma FinishOk(consumed: seq<byte>, delivered: seq<seq<byte>>, lenbuf: seq<byte>, length: nat, buffer: seq<byte>, delivering: bool)
    requires InputOk(consumed, delivered, lenbuf, length, buffer, delivering) && (!delivering ==> lenbuf == [])
    ensures InputOk(consumed, delivered, [], length, [], false)
  {
  }

  lemma PastGrows(past: seq<Incarnation>, current: Incarnation, newGeneration: nat)
    requires PastSound(past, current.generation) && Sound(current.traffic, current.rest)
    requires current.generation < newGeneration
    ensures PastSound(past, newGeneration) && PastSound(past + [current], newGeneration)
  {
  }

  lemma EnqueueOk(t: Traffic, queue: seq<SendRequest>, broken: bool, q: Query, rewritten: Query?)
    requires OutputOk(t, queue, broken, rewritten)
    ensures var m := RequestOf(q, rewritten);
      OutputOk(t.(queued := t.queued + [m]), queue + [SendRequest(Frame(m), q, false)], broken, rewritten)
  {
    hide FrameAll, Pending;
    var m := RequestOf(q, rewritten);
    PendingAppend(queue, SendRequest(Frame(m), q, false));
    FrameAllAppend(t.queued, m);
    assert t.written + (Pending(queue) + Frame(m)) == t.written + Pending(queue) + Frame(m);
    assert IsSuffix(Frame(m), Frame(m));
  }

  /** A request that is rewritten while it is queued is not sent as it was queued, whatever stands after its new end. */
  lemma RewrittenIsAnother(b: Request, tail: seq<byte>)
    requires |tail| == EDNS_SIZE
    ensures |Frame(WithoutEdns(b)) + tail| == |Frame(b)| && Frame(WithoutEdns(b)) + tail != Frame(b)
  {
    WordOfHalves(|b|);
    WordOfHalves(|b| - EDNS_SIZE);
    assert (Frame(WithoutEdns(b)) + tail)[0] == Hi(|b| - EDNS_SIZE) && (Frame(WithoutEdns(b)) + tail)[1] == Lo(|b| - EDNS_SIZE);
  }

  /** The output side does not depend on the input. */
  lemma OutputOnly(t: Traffic, t': Traffic, queue: seq<SendRequest>, broken: bool, rewritten: Query?)
    requires OutputOk(t, queue, broken, rewritten)
    requires t'.queued == t.queued && t'.written == t.written && t'.tainted == t.tainted
    ensures OutputOk(t', queue, broken, rewritten)
  {
  }

  /** The requests of `q` hold other bytes, and the others are as they were. */
  ghost predicate Spoilt(before: seq<SendRequest>, after: seq<SendRequest>, q: Query, bytes: seq<seq<byte>>) {
    && |after| == |before| == |bytes|
    && forall i :: 0 <= i < |after| ==> |bytes[i]| == |before[i].data| && after[i] == SpoiltRequest(before[i], q, bytes[i])
  }

  function SpoiltRequest(r: SendRequest, q: Query, bytes: seq<byte>): SendRequest {
    if r.owner == q then r.(data := bytes) else r
  }

  lemma NoneOwned()
    ensures Owners([]) == {}
  {
  }

  /** A request is rewritten: the connections on which it is queued are tainted, and the others are sound still. */
  lemma RewriteOk(t: Traffic, before: seq<SendRequest>, after: seq<SendRequest>, broken: bool, q: Query, bytes: seq<seq<byte>>)
    requires OutputOk(t, before, broken, null) && Spoilt(before, after, q, bytes)
    ensures OutputOk(t.(tainted := t.tainted || q in Owners(before)), after, broken, q)
    ensures q !in Owners(before) ==> after == before
    ensures Owners(after) == Owners(before)
  {
    hide FrameAll, Pending, Proper;
    forall r | r in before ensures r.owner in Owners(after) {
      var i :| 0 <= i < |before| && before[i] == r;
      assert after[i].owner == r.owner;
    }
    var tainted := t.tainted || q in Owners(before);
    forall i | 0 <= i < |after| ensures RequestOk(after[i], broken, tainted, q) && (q in Owners(before) || after[i] == before[i]) {
      assert RequestOk(before[i], broken, t.tainted, null) && before[i] in before;
    }
    if q !in Owners(before) {
      assert after == before;
    }
  }

  lemma Resplit(w: seq<byte>, all: seq<byte>, n: nat)
    requires n <= |all|
    ensures w + all[..n] <= w + all
    ensures (w + all[..n]) + all[n..] == w + all
  {
    var whole, k := w + all, |w| + n;
    assert whole[..k] == w + all[..n];
    assert whole[k..] == all[n..];
    assert whole[..k] + whole[k..] == whole;
  }

  lemma AdvanceOk(t: Traffic, before: seq<SendRequest>, queue: seq<SendRequest>, numBytes: nat, rewritten: Query?)
    requires OutputOk(t, before, false, rewritten) && numBytes <= |Pending(before)|
    requires Pending(queue) == Pending(before)[numBytes..] && QueueOk(queue, false, t.tainted, rewritten)
    ensures OutputOk(t.(written := t.written + Pending(before)[..numBytes]), queue, false, rewritten)
  {
    hide FrameAll, Pending, QueueOk, Proper;
    Resplit(t.written, Pending(before), numBytes);
  }

  /** The queue after n bytes of its head were consumed, or the whole head. */
  function Dropped(queue: seq<SendRequest>, n: nat): seq<SendRequest>
    requires queue != []
  {
    if n >= |queue[0].data| then queue[1..] else [queue[0].(data := queue[0].data[n..])] + queue[1..]
  }

  function LeftOver(queue: seq<SendRequest>, n: nat): nat
    requires queue != []
  {
    if n >= |queue[0].data| then n - |queue[0].data| else 0
  }

  /** One round of consuming n bytes from the head. */
  lemma AdvanceStep(queue: seq<SendRequest>, n: nat, tainted: bool, rewritten: Query?)
    requires 0 < n <= |Pending(queue)| && QueueOk(queue, false, tainted, rewritten)
    ensures queue != []
    ensures LeftOver(queue, n) <= |Pending(Dropped(queue, n))|
    ensures Pending(Dropped(queue, n))[LeftOver(queue, n)..] == Pending(queue)[n..]
    ensures QueueOk(Dropped(queue, n), false, tainted, rewritten) && Owners(Dropped(queue, n)) <= Owners(queue)
    ensures Dropped(queue, n) == [] ==> LeftOver(queue, n) == 0
  {
    Nothing();
    assert queue != [];
    DroppedBytes(queue, n);
    DroppedOk(queue, n, tainted, rewritten);
    hide QueueOk, Owners;
  }

  lemma DroppedBytes(queue: seq<SendRequest>, n: nat)
    requires 0 < n <= |Pending(queue)| && queue != []
    ensures LeftOver(queue, n) <= |Pending(Dropped(queue, n))|
    ensures Pending(Dropped(queue, n))[LeftOver(queue, n)..] == Pending(queue)[n..]
    ensures Dropped(queue, n) == [] ==> LeftOver(queue, n) == 0
  {
    Nothing();
    var head, tail := queue[0], queue[1..];
    assert Pending(queue) == head.data + Pending(tail);
    if n < |head.data| {
      var cut := head.(data := head.data[n..]);
      assert ([cut] + tail)[1..] == tail;
      assert Pending([cut] + tail) == cut.data + Pending(tail);
    }
  }

  lemma DroppedOk(queue: seq<SendRequest>, n: nat, tainted: bool, rewritten: Query?)
    requires queue != [] && QueueOk(queue, false, tainted, rewritten)
    ensures QueueOk(Dropped(queue, n), false, tainted, rewritten) && Owners(Dropped(queue, n)) <= Owners(queue)
  {
    hide RequestOk;
    var after := Dropped(queue, n);
    CutOk(queue[0], n, tainted, rewritten);
    forall i | 0 <= i < |after| ensures RequestOk(after[i], false, tainted, rewritten) && after[i].owner in Owners(queue) {
      if n >= |queue[0].data| {
        assert after[i] == queue[i + 1] && queue[i + 1] in queue;
      } else {
        assert queue[i] in queue && (i > 0 ==> after[i] == queue[i]);
      }
    }
  }

  lemma CutOk(r: SendRequest, n: nat, tainted: bool, rewritten: Query?)
    ensures n < |r.data| && RequestOk(r, false, tainted, rewritten) ==> RequestOk(r.(data := r.data[n..]), false, tainted, rewritten)
  {
  }

  /** What the end of `q` does to a queued request: one of another query stays; one of its own becomes a copy, or
      is zeroed on a connection that is marked broken. */
  predicate HandedOver(before: SendRequest, after: SendRequest, q: Query, success: bool, broken: bool) {
    if before.owner != q then after == before
    else (success && after == SendRequest(before.data, null, true)) || (broken && after == SendRequest([], null, false))
  }

  ghost predicate Handed(before: seq<SendRequest>, after: seq<SendRequest>, q: Query, success: bool, broken: bool) {
    |after| == |before| && forall i :: 0 <= i < |after| ==> HandedOver(before[i], after[i], q, success, broken)
  }

  lemma OwnersAt(queue: seq<SendRequest>, k: nat)
    requires k < |queue|
    ensures queue[k].owner in Owners(queue)
  {
  }

  lemma OutputQueue(t: Traffic, queue: seq<SendRequest>, broken: bool, rewritten: Query?)
    requires OutputOk(t, queue, broken, rewritten)
    ensures QueueOk(queue, broken, t.tainted, rewritten)
  {
  }

  /** What handing over does to a whole queue. */
  lemma HandedAll(before: seq<SendRequest>, after: seq<SendRequest>, q: Query, success: bool, wasBroken: bool, broken: bool,
    tainted: bool, rewritten: Query?)
    requires Handed(before, after, q, success, broken) && QueueOk(before, wasBroken, tainted, rewritten) && (wasBroken ==> broken)
    requires broken != wasBroken ==> q in Owners(before)
    ensures QueueOk(after, broken, tainted, rewritten)
    ensures !broken ==> forall i :: 0 <= i < |after| ==> after[i].data == before[i].data
    ensures q !in Owners(after) && Owners(before) - {q} <= Owners(after) <= Owners(before) + {null}
    ensures q !in Owners(before) ==> after == before && broken == wasBroken
    ensures !success && q in Owners(before) ==> broken
  {
    forall i | 0 <= i < |after| ensures RequestOk(after[i], broken, tainted, rewritten) && after[i].owner != q {
      assert RequestOk(before[i], wasBroken, tainted, rewritten) && HandedOver(before[i], after[i], q, success, broken);
    }
    forall r | r in before && r.owner != q ensures r in after {
      var i :| 0 <= i < |before| && before[i] == r;
      assert HandedOver(before[i], after[i], q, success, broken);
    }
    forall r | r in after ensures r.owner in Owners(before) + {null} {
      var i :| 0 <= i < |after| && after[i] == r;
      assert HandedOver(before[i], after[i], q, success, broken) && before[i] in before;
    }
    if q !in Owners(before) {
      forall i | 0 <= i < |after| ensures after[i] == before[i] {
        assert before[i] in before;
      }
      assert after == before;
    } else {
      var r :| r in before && r.owner == q;
      var i :| 0 <= i < |before| && before[i] == r;
      assert HandedOver(before[i], after[i], q, success, broken);
    }
  }

  class Server {
    var udpOpen: bool
    var tcpOpen: bool
    var isBroken: bool
    var generation: nat
    var queue: seq<SendRequest>
    /** The length word as far as it was read; the length once it is complete; the answer so far. */
    var lenbuf: seq<byte>
    var length: nat
    var buffer: seq<byte>

    /** The traffic of the open TCP connection, and the connections before it. */
    ghost var traffic: Traffic
    ghost var past: seq<Incarnation>
    /** The buffer holds a complete answer that is being processed. */
    ghost var delivering: bool
    /** The query that fell back from EDNS, if any. */
    ghost var rewritten: Query?

    ghost predicate Valid()
      reads this
    {
      && generation > 0
      && (!tcpOpen ==> queue == [] && lenbuf == [] && !isBroken && !delivering && traffic == SILENCE)
      && OutputOk(traffic, queue, isBroken, rewritten)
      && InputOk(traffic.consumed, traffic.delivered, lenbuf, length, buffer, delivering)
      && PastSound(past, generation)
    }

    constructor (generation: nat)
      requires generation > 0
      ensures Valid() && this.generation == generation
      ensures !udpOpen && !tcpOpen && queue == [] && traffic == SILENCE && past == [] && rewritten == null
      ensures !delivering && Delivered() == []
    {
      udpOpen, tcpOpen, isBroken := false, false, false;
      this.generation := generation;
      queue, lenbuf, length, buffer := [], [], 0, [];
      traffic, past, delivering, rewritten := SILENCE, [], false, null;
      SilenceIsSound(0, [], null);
    }

    ghost function Delivered(): seq<seq<byte>>
      reads `past, `traffic
    {
      AllDelivered(past, traffic)
    }

    /** What passed over the k-th of the server's TCP connections, the last of which is the present one. */
    ghost function Connection(k: nat): Traffic
      requires k <= |past|
      reads `past, `traffic
    {
      if k < |past| then past[k].traffic else traffic
    }

    /** The output side, and everything else that a rewritten request does not change. */
    ghost function Output(): (Traffic, seq<SendRequest>)
      reads `traffic, `queue
    {
      (traffic, queue)
    }

    ghost function Rest(): (nat, bool, seq<byte>, bool, bool, bool, seq<Incarnation>)
      reads `generation, `delivering, `lenbuf, `tcpOpen, `udpOpen, `isBroken, `past
    {
      (generation, delivering, lenbuf, tcpOpen, udpOpen, isBroken, past)
    }

    /** The present connection as it would be remembered if it closed now. */
    ghost function Current(): Incarnation
      reads this
    {
      Incarnation(generation, traffic, InputRest(lenbuf, buffer, delivering))
    }

    /** Drops the output queue, resets the input, and closes both sockets. A closed TCP
        connection costs one number of the channel's generation counter. */
    method CloseSockets(counter: nat) returns (newCounter: nat)
      requires Valid() && generation <= counter
      modifies this
      ensures Valid()
      ensures !udpOpen && !tcpOpen && queue == [] && lenbuf == [] && !isBroken && !delivering && traffic == SILENCE
      ensures newCounter == (if old(tcpOpen) then counter + 1 else counter)
      ensures generation == (if old(tcpOpen) then counter + 1 else old(generation))
      ensures past == (if old(tcpOpen) then old(past) + [old(Current())] else old(past)) && rewritten == old(rewritten)
      ensures old(isBroken) ==> old(tcpOpen)
      ensures Delivered() == old(Delivered())
    {
      ghost var current := Current();
      ClosedDelivers(past, current);
      TrafficIsSound(traffic, queue, isBroken, rewritten, lenbuf, length, buffer, delivering);
      PastGrows(past, current, counter + 1);
      hide OutputOk, InputOk, PastSound, AllDelivered;
      newCounter := Reset(counter);
      SilenceIsSound(length, buffer, rewritten);
    }

    method Reset(counter: nat) returns (newCounter: nat)
      modifies this
      ensures !udpOpen && !tcpOpen && queue == [] && lenbuf == [] && !isBroken && !delivering && traffic == SILENCE
      ensures newCounter == (if old(tcpOpen) then counter + 1 else counter)
      ensures generation == (if old(tcpOpen) then counter + 1 else old(generation))
      ensures past == (if old(tcpOpen) then old(past) + [old(Current())] else old(past)) && rewritten == old(rewritten)
    {
      ghost var current := Current();
      while queue != []
        modifies `queue
      {
        queue := queue[1..];
      }
      lenbuf, buffer, isBroken := [], [], false;
      newCounter := counter;
      if tcpOpen {
        newCounter := counter + 1;
        tcpOpen, generation := false, newCounter;
        past := past + [current];
      }
      if udpOpen {
        udpOpen := false;
      }
      traffic, delivering := SILENCE, false;
    }

    method OpenUdp()
      requires Valid()
      modifies `udpOpen
      ensures Valid() && udpOpen
    {
      hide OutputOk, InputOk, PastSound;
      udpOpen := true;
    }

    /** Starts a new incarnation of the TCP connection. */
    method OpenTcp(counter: nat) returns (newCounter: nat)
      requires Valid() && generation <= counter && !tcpOpen
      modifies this
      ensures Valid() && tcpOpen && queue == [] && lenbuf == [] && !isBroken && !delivering && traffic == SILENCE
      ensures newCounter == generation == counter + 1
      ensures udpOpen == old(udpOpen) && past == old(past) && rewritten == old(rewritten)
      ensures old(queue) == [] && !old(isBroken) && Delivered() == old(Delivered())
    {
      PastGrows(past, Incarnation(generation, SILENCE, []), counter + 1) by { SilenceIsSound(0, [], null); }
      hide OutputOk, InputOk, Sound, PastSound;
      SilenceIsSound(length, [], rewritten);
      buffer := [];
      tcpOpen := true;
      newCounter := counter + 1;
      generation := newCounter;
      traffic := SILENCE;
    }

    /** Queues a query's framed request at the tail. */
    method Enqueue(q: Query, request: seq<byte>)
      requires Valid() && tcpOpen && request == RequestOf(q, rewritten)
      modifies `queue, `traffic
      ensures Valid()
      ensures queue == old(queue) + [SendRequest(Frame(request), q, false)]
      ensures traffic == old(traffic).(queued := old(traffic).queued + [request]) && Delivered() == old(Delivered())
      ensures Owners(queue) == old(Owners(queue)) + {q}
    {
      hide Sound;
      EnqueueOk(traffic, queue, isBroken, q, rewritten);
      queue := queue + [SendRequest(Frame(request), q, false)];
      traffic := traffic.(queued := traffic.queued + [request]);
    }

    /** `numBytes` queued bytes were written: takes them off the head of the output queue. */
    method AdvanceSendQueue(numBytes: nat)
      requires Valid() && tcpOpen && !isBroken && numBytes <= |Pending(queue)|
      modifies `queue, `traffic
      ensures Valid()
      ensures traffic == old(traffic).(written := old(traffic).written + old(Pending(queue))[..numBytes])
      ensures Delivered() == old(Delivered())
      ensures Pending(queue) == old(Pending(queue))[numBytes..]
      ensures Owners(queue) <= old(Owners(queue))
    {
      ghost var before, t := queue, traffic;
      Consume(numBytes);
      traffic := t.(written := t.written + Pending(before)[..numBytes]);
      AdvanceOk(t, before, queue, numBytes, rewritten);
      hide OutputOk, PastSound, FrameAll;
    }

    method Consume(numBytes: nat)
      requires numBytes <= |Pending(queue)|
      requires QueueOk(queue, false, traffic.tainted, rewritten)
      modifies `queue
      ensures Pending(queue) == old(Pending(queue))[numBytes..]
      ensures QueueOk(queue, false, traffic.tainted, rewritten)
      ensures Owners(queue) <= old(Owners(queue))
    {
      hide RequestOk, QueueOk, Pending, Owners;
      ghost var all := Pending(queue);
      var n := numBytes;
      while n > 0
        invariant 0 <= n <= |Pending(queue)|
        invariant Pending(queue)[n..] == all[numBytes..]
        invariant QueueOk(queue, false, traffic.tainted, rewritten)
        invariant Owners(queue) <= old(Owners(queue))
        modifies `queue
        decreases |queue|, n
      {
        AdvanceStep(queue, n, traffic.tainted, rewritten);
        var head := queue[0];
        if n >= |head.data| {
          n := n - |head.data|;
          queue := queue[1..];
          if queue == [] {
            break;
          }
        } else {
          queue := [head.(data := head.data[n..])] + queue[1..];
          n := 0;
        }
      }
    }

    /** Bytes of the right number for every request queued. */
    ghost predicate Fitting(bytes: seq<seq<byte>>)
      reads `queue
    {
      |bytes| == |queue| && forall i :: 0 <= i < |queue| ==> |bytes[i]| == |queue[i].data|
    }

    /** The request of `q` is rewritten in its buffer: what is queued of it elsewhere is not what it was, but `bytes`, and
        the connection is tainted. */
    method Rewrite(q: Query, bytes: seq<seq<byte>>)
      requires Valid() && rewritten == null && Fitting(bytes)
      modifies `queue, `traffic, `rewritten
      ensures Valid() && rewritten == q
      ensures traffic == old(traffic).(tainted := old(traffic).tainted || q in old(Owners(queue)))
      ensures Spoilt(old(queue), queue, q, bytes)
      ensures q !in old(Owners(queue)) ==> queue == old(queue)
      ensures Owners(queue) == old(Owners(queue)) && Delivered() == old(Delivered())
      ensures !tcpOpen ==> traffic == old(traffic)
    {
      ghost var before := queue;
      hide OutputOk, InputOk, PastSound, Owners;
      assert tcpOpen || queue == [];
      Spoil(q, bytes);
      RewriteOk(traffic, before, queue, isBroken, q, bytes);
      traffic := traffic.(tainted := traffic.tainted || q in Owners(before));
      rewritten := q;
      NoneOwned();
    }

    /** Puts other bytes for those of the requests of `q`. */
    method Spoil(q: Query, bytes: seq<seq<byte>>)
      requires Fitting(bytes)
      modifies `queue
      ensures Spoilt(old(queue), queue, q, bytes)
    {
      var k := 0;
      while k < |queue|
        invariant 0 <= k <= |queue| == |old(queue)|
        invariant forall i :: k <= i < |queue| ==> queue[i] == old(queue)[i]
        invariant forall i :: 0 <= i < k ==> queue[i] == SpoiltRequest(old(queue)[i], q, bytes[i])
        modifies `queue
      {
        if queue[k].owner == q {
          queue := queue[k := queue[k].(data := bytes[k])];
        }
        k := k + 1;
      }
    }

    /** The query `q` ends: its queued requests get their own copy of the bytes if it succeeded
        and the copy can be allocated, and otherwise are zeroed and the connection is marked broken. */
    method Disown(q: Query, success: bool)
      requires Valid()
      modifies `queue, `isBroken
      ensures Valid()
      ensures q !in Owners(queue) && old(Owners(queue)) - {q} <= Owners(queue) <= old(Owners(queue)) + {null}
      ensures |queue| == |old(queue)|
      ensures forall i :: 0 <= i < |queue| ==> HandedOver(old(queue)[i], queue[i], q, success, isBroken)
      ensures q !in old(Owners(queue)) ==> queue == old(queue) && isBroken == old(isBroken)
      ensures old(isBroken) ==> isBroken
      ensures !success && q in old(Owners(queue)) ==> isBroken
    {
      ghost var before, t := queue, traffic;
      assert tcpOpen || queue == [];
      hide OutputOk, InputOk, PastSound, Owners, Handed;
      OutputQueue(traffic, queue, isBroken, rewritten);
      HandOver(q, success);
      HandedAll(before, queue, q, success, old(isBroken), isBroken, t.tainted, rewritten);
      DisownOk(t, before, queue, old(isBroken), isBroken, rewritten);
    }

    method HandOver(q: Query, success: bool)
      requires QueueOk(queue, isBroken, traffic.tainted, rewritten)
      modifies `queue, `isBroken
      ensures Handed(old(queue), queue, q, success, isBroken)
      ensures old(isBroken) ==> isBroken
      ensures isBroken != old(isBroken) ==> q in old(Owners(queue))
    {
      hide RequestOk, Owners;
      ghost var before := queue;
      var k := 0;
      while k < |queue|
        invariant 0 <= k <= |queue| == |before|
        invariant forall i :: k <= i < |queue| ==> queue[i] == before[i]
        invariant forall i :: 0 <= i < k ==> HandedOver(before[i], queue[i], q, success, isBroken)
        invariant old(isBroken) ==> isBroken
        invariant isBroken != old(isBroken) ==> q in Owners(before)
        modifies `queue, `isBroken
      {
        var r := queue[k];
        if r.owner == q {
          OwnersAt(before, k);
          var copied: bool := *;
          if success && copied {
            queue := queue[k := SendRequest(r.data, null, true)];
          } else {
            isBroken := true;
            queue := queue[k := SendRequest([], null, false)];
          }
        }
        k := k + 1;
      }
    }

    /** Reads part or the rest of the length word of the next answer. */
    method ReadLength(chunk: seq<byte>)
      requires Valid() && tcpOpen && !delivering && |lenbuf| < 2 && 0 < |chunk| <= 2 - |lenbuf|
      modifies `lenbuf, `length, `buffer, `traffic
      ensures Valid() && lenbuf == old(lenbuf) + chunk
      ensures |lenbuf| == 2 ==> length == Word(lenbuf[0], lenbuf[1]) && buffer == []
      ensures traffic == old(traffic).(consumed := old(traffic).consumed + chunk) && Delivered() == old(Delivered())
    {
      hide OutputOk, InputOk, PastSound;
      LengthOk(traffic.consumed, traffic.delivered, lenbuf, length, buffer, chunk);
      OutputOnly(traffic, traffic.(consumed := traffic.consumed + chunk), queue, isBroken, rewritten);
      traffic := traffic.(consumed := traffic.consumed + chunk);
      lenbuf := lenbuf + chunk;
      if |lenbuf| == 2 {
        length, buffer := Word(lenbuf[0], lenbuf[1]), [];
      }
    }

    /** Reads part or the rest of the answer; a complete answer is about to be delivered. */
    method ReadBody(chunk: seq<byte>) returns (complete: bool)
      requires Valid() && tcpOpen && !delivering && |lenbuf| == 2 && 0 < |chunk| <= length - |buffer|
      modifies `buffer, `traffic, `delivering
      ensures Valid() && delivering == complete
      ensures buffer == old(buffer) + chunk && (complete <==> |buffer| == length)
      ensures complete ==> traffic == old(traffic).(consumed := old(traffic).consumed + chunk,
                                                    delivered := old(traffic).delivered + [buffer])
      ensures !complete ==> traffic == old(traffic).(consumed := old(traffic).consumed + chunk)
      ensures Delivered() == old(Delivered()) + if complete then [buffer] else []
    {
      hide OutputOk, InputOk, PastSound;
      BodyOk(traffic.consumed, traffic.delivered, lenbuf, length, buffer, chunk);
      ghost var more := traffic.(consumed := traffic.consumed + chunk);
      OutputOnly(traffic, more, queue, isBroken, rewritten);
      OutputOnly(traffic, more.(delivered := more.delivered + [buffer + chunk]), queue, isBroken, rewritten);
      traffic := traffic.(consumed := traffic.consumed + chunk);
      buffer := buffer + chunk;
      complete := |buffer| == length;
      if complete {
        traffic := traffic.(delivered := traffic.delivered + [buffer]);
        delivering := true;
      }
    }

    /** After the answer was processed: ready for the next length word, on this connection or,
        if it was closed meanwhile, on a new one. */
    method FinishAnswer()
      requires Valid()
      requires !delivering ==> lenbuf == []
      modifies `lenbuf, `buffer, `delivering
      ensures Valid() && !delivering && lenbuf == [] && buffer == []
    {
      hide OutputOk, InputOk, PastSound;
      FinishOk(traffic.consumed, traffic.delivered, lenbuf, length, buffer, delivering);
      lenbuf, buffer := [], [];
      delivering := false;
    }
  }

  /** Such a connection: a request that is rewritten while it is queued whole, and then written, whatever stands after its
      new end. What was written is not a prefix of what was queued. */
  method RewrittenStream(b: Request, tail: seq<byte>) returns (server: Server, q: Query)
    requires |tail| == EDNS_SIZE
    ensures server.Valid() && server.tcpOpen && server.rewritten == q
    ensures server.traffic.queued == [b] && server.traffic.written == Frame(WithoutEdns(b)) + tail
    ensures !(server.traffic.written <= FrameAll(server.traffic.queued))
  {
    hide Server.Valid, Query.Valid;
    server := new Server(1);
    var counter := server.OpenTcp(1);
    q := new Query(b, 0, 1, true);
    server.Enqueue(q, b);
    var bytes := Frame(WithoutEdns(b)) + tail;
    RewrittenIsAnother(b, tail);
    QueuedAlone(SendRequest(Frame(b), q, false), b);
    QueuedAlone(SendRequest(bytes, q, false), b);
    server.Rewrite(q, [bytes]);
    assert server.queue == [SendRequest(bytes, q, false)];
    server.AdvanceSendQueue(|bytes|);
    assert bytes[..|bytes|] == bytes;
  }

  lemma QueuedAlone(r: SendRequest, b: seq<byte>)
    ensures Pending([r]) == r.data && FrameAll([b]) == Frame(b)
  {
    Nothing();
  }
}
