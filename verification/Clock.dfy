/** Time stamps, deadlines and the retransmission back-off. */
module Clock {
  datatype Time = Time(sec: int, usec: int) {
    predicate Normal() { 0 <= usec < 1_000_000 }

    /** The instant as one number, the meaning of the two fields. */
    function Micros(): int { sec * 1_000_000 + usec }
  }

  /** True when `now` is exactly `check` or later. */
  function TimedOut(now: Time, check: Time): bool {
    var secs := now.sec - check.sec;
    if secs > 0 then true
    else if secs < 0 then false
    else now.usec - check.usec >= 0
  }

  lemma TimedOutMeaning(now: Time, check: Time)
    requires now.Normal() && check.Normal()
    ensures TimedOut(now, check) <==> check.Micros() <= now.Micros()
  {
  }

  /** The time stamp `millisecs` after `t`, carrying microseconds into seconds. */
  function TimeAdd(t: Time, millisecs: nat): (r: Time)
    requires t.Normal()
    ensures r.Normal() && r.Micros() == t.Micros() + 1000 * millisecs
    ensures t.sec <= r.sec
  {
    var sec := t.sec + millisecs / 1000;
    var usec := t.usec + millisecs % 1000 * 1000;
    if usec >= 1_000_000 then Time(sec + 1, usec - 1_000_000) else Time(sec, usec)
  }

  function Pow2(k: nat): (p: nat)
    ensures p >= 1
  {
    if k == 0 then 1 else 2 * Pow2(k - 1)
  }

  /** The full wait at try count `tryCount`: the timeout, shifted once per round of servers. */
  function FullWait(timeout: nat, nservers: nat, tryCount: nat): nat
    requires nservers > 0
  {
    timeout * Pow2(tryCount / nservers)
  }

  /** The wait with jitter: between nine and sixteen sixteenths of the full wait. */
  function JitteredWait(timeout: nat, nservers: nat, tryCount: nat, jitter: nat): nat
    requires nservers > 0
  {
    FullWait(timeout, nservers, tryCount) * (9 + jitter % 8) / 16
  }

  predicate WaitInRange(timeout: nat, nservers: nat, tryCount: nat, wait: nat)
    requires nservers > 0
  {
    FullWait(timeout, nservers, tryCount) * 9 / 16 <= wait <= FullWait(timeout, nservers, tryCount)
  }

  lemma SixteenthsInRange(full: nat, k: nat)
    requires 9 <= k <= 16
    ensures full * 9 / 16 <= full * k / 16 <= full
  {
    assert full * 9 <= full * k <= full * 16;
  }

  lemma JitterStaysInRange(timeout: nat, nservers: nat, tryCount: nat, jitter: nat)
    requires nservers > 0
    ensures WaitInRange(timeout, nservers, tryCount, JitteredWait(timeout, nservers, tryCount, jitter))
  {
    SixteenthsInRange(FullWait(timeout, nservers, tryCount), 9 + jitter % 8);
  }

  /** With a timeout of at least two milliseconds, or after the first round over the servers, no send gets a zero wait. */
  lemma WaitIsPositive(timeout: nat, nservers: nat, tryCount: nat, wait: nat)
    requires nservers > 0 && timeout > 0 && WaitInRange(timeout, nservers, tryCount, wait)
    requires timeout >= 2 || tryCount >= nservers
    ensures wait > 0
  {
    var p := Pow2(tryCount / nservers);
    if timeout >= 2 {
      assert timeout * p >= 2 * p;
    } else {
      RoundsDone(nservers, tryCount);
      assert p == 2 * Pow2(tryCount / nservers - 1);
      assert timeout * p == p;
    }
  }

  lemma RoundsDone(n: nat, c: nat)
    requires 0 < n <= c
    ensures c / n >= 1
  {
  }

  /** The sum of the full waits of try counts 0 .. n. */
  function TotalWait(timeout: nat, nservers: nat, n: nat): nat
    requires nservers > 0
  {
    if n == 0 then 0 else TotalWait(timeout, nservers, n - 1) + FullWait(timeout, nservers, n - 1)
  }

  lemma QuotientOfRound(n: nat, q: nat, r: nat)
    requires r < n
    ensures (n * q + r) / n == q
  {
    var d := (n * q + r) / n;
    assert n * d <= n * q + r < n * d + n;
    QuotientUnique(n, q, d);
  }

  lemma ProductGrows(n: nat, a: nat, b: nat)
    requires a < b
    ensures n * a + n <= n * b
  {
    Distribute(a + 1, b - a - 1, n);
  }

  lemma QuotientUnique(n: nat, q: nat, d: nat)
    requires n > 0 && n * d < n * q + n && n * q < n * d + n
    ensures q == d
  {
    if q < d {
      ProductGrows(n, q, d);
    } else if d < q {
      ProductGrows(n, d, q);
    }
  }

  /** One round over all the servers at back-off level `level` adds nservers equal waits. */
  lemma {:induction false} RoundOfWaits(timeout: nat, nservers: nat, level: nat, k: nat)
    requires nservers > 0 && k <= nservers
    ensures TotalWait(timeout, nservers, nservers * level + k)
         == TotalWait(timeout, nservers, nservers * level) + k * (timeout * Pow2(level))
  {
    if k > 0 {
      var w := timeout * Pow2(level);
      var before := nservers * level;
      RoundOfWaits(timeout, nservers, level, k - 1);
      QuotientOfRound(nservers, level, k - 1);
      assert FullWait(timeout, nservers, before + k - 1) == w;
      assert TotalWait(timeout, nservers, before + k) == TotalWait(timeout, nservers, before + k - 1) + w;
      Distribute(k - 1, 1, w);
    }
  }

  lemma Distribute(a: int, b: int, c: int)
    ensures (a + b) * c == a * c + b * c
  {
  }

  /** The full waits of all tries sum to nservers * timeout * (2^tries - 1) milliseconds. */
  lemma {:induction false} FullBudget(timeout: nat, nservers: nat, tries: nat)
    requires nservers > 0
    ensures TotalWait(timeout, nservers, nservers * tries) == nservers * timeout * (Pow2(tries) - 1)
  {
    if tries == 0 {
      assert nservers * tries == 0;
    } else {
      var p := Pow2(tries - 1);
      var before := nservers * (tries - 1);
      FullBudget(timeout, nservers, tries - 1);
      RoundOfWaits(timeout, nservers, tries - 1, nservers);
      DoubleBudget(nservers, timeout, p);
      assert before + nservers == nservers * tries by { Distribute(tries - 1, 1, nservers); }
      assert Pow2(tries) == 2 * p;
    }
  }

  lemma DoubleBudget(n: nat, t: nat, p: nat)
    ensures n * t * (p - 1) + n * (t * p) == n * t * (2 * p - 1)
  {
    assert n * (t * p) == n * t * p;
    Distribute(p - 1, p, n * t);
  }

  function Sum(waits: seq<nat>): nat {
    if waits == [] then 0 else Sum(waits[..|waits| - 1]) + waits[|waits| - 1]
  }

  /** The waits of a query, one for each try count so far, and zero for a try without a send. */
  ghost predicate WaitsOk(timeout: nat, nservers: nat, waits: seq<nat>)
    requires nservers > 0
  {
    forall c :: 0 <= c < |waits| ==> waits[c] == 0 || WaitInRange(timeout, nservers, c, waits[c])
  }

  /** A wait at try count c becomes the last one. */
  function Waited(waits: seq<nat>, c: nat, wait: nat): (r: seq<nat>)
    ensures |r| == c + 1 && r[c] == wait
  {
    (if c <= |waits| then waits[..c] else waits + seq(c - |waits|, _ => 0)) + [wait]
  }

  lemma WaitedOk(timeout: nat, nservers: nat, waits: seq<nat>, c: nat, wait: nat)
    requires nservers > 0 && WaitsOk(timeout, nservers, waits) && WaitInRange(timeout, nservers, c, wait)
    ensures WaitsOk(timeout, nservers, Waited(waits, c, wait))
  {
    hide WaitInRange;
  }

  lemma {:induction false} WaitsBelowFull(timeout: nat, nservers: nat, waits: seq<nat>)
    requires nservers > 0 && WaitsOk(timeout, nservers, waits)
    ensures Sum(waits) <= TotalWait(timeout, nservers, |waits|)
  {
    if waits != [] {
      var n := |waits| - 1;
      WaitsBelowFull(timeout, nservers, waits[..n]);
      assert waits[n] == 0 || WaitInRange(timeout, nservers, n, waits[n]);
    }
  }

  lemma {:induction false} TotalGrows(timeout: nat, nservers: nat, m: nat, n: nat)
    requires nservers > 0 && m <= n
    ensures TotalWait(timeout, nservers, m) <= TotalWait(timeout, nservers, n)
  {
    if m < n {
      TotalGrows(timeout, nservers, m, n - 1);
    }
  }

  /** Over all its tries a query waits at most nservers * timeout * (2^tries - 1) milliseconds. */
  lemma WaitBudget(timeout: nat, nservers: nat, tries: nat, waits: seq<nat>)
    requires nservers > 0 && WaitsOk(timeout, nservers, waits) && |waits| <= nservers * tries
    ensures Sum(waits) <= nservers * timeout * (Pow2(tries) - 1)
  {
    WaitsBelowFull(timeout, nservers, waits);
    TotalGrows(timeout, nservers, |waits|, nservers * tries);
    FullBudget(timeout, nservers, tries);
  }

  /** Some jitter makes the wait zero exactly if the full wait is at most one millisecond. */
  lemma ZeroWait(timeout: nat, nservers: nat, tryCount: nat)
    requires nservers > 0
    ensures (exists jitter: nat :: JitteredWait(timeout, nservers, tryCount, jitter) == 0)
      <==> FullWait(timeout, nservers, tryCount) <= 1
  {
    var full := FullWait(timeout, nservers, tryCount);
    assert JitteredWait(timeout, nservers, tryCount, 0) == full * 9 / 16;
    forall jitter: nat ensures JitteredWait(timeout, nservers, tryCount, jitter) >= full * 9 / 16 {
      SixteenthsInRange(full, 9 + jitter % 8);
    }
  }

  /** Whatever the jitter, no send but the first gets a zero wait: exactly if the timeout is at least two milliseconds, or
      there is one server only. */
  lemma LaterWaits(timeout: nat, nservers: nat)
    requires timeout > 0 && nservers > 0
    ensures (forall c: nat, jitter: nat :: c >= 1 ==> JitteredWait(timeout, nservers, c, jitter) > 0)
      <==> timeout >= 2 || nservers == 1
  {
    if timeout >= 2 || nservers == 1 {
      forall c: nat, jitter: nat | c >= 1 ensures JitteredWait(timeout, nservers, c, jitter) > 0 {
        JitterStaysInRange(timeout, nservers, c, jitter);
        WaitIsPositive(timeout, nservers, c, JitteredWait(timeout, nservers, c, jitter));
      }
    } else {
      ZeroAtOne(nservers);
    }
  }

  /** With a timeout of one millisecond and several servers the second send may get one. */
  lemma ZeroAtOne(nservers: nat)
    requires nservers >= 2
    ensures JitteredWait(1, nservers, 1, 0) == 0
  {
    assert 1 / nservers == 0;
    assert FullWait(1, nservers, 1) == 1;
  }
}
