/**
 The service: its layout of I/O services and threads, and the round-robin choice of an I/O service by a counter
 that wraps around at the width of `size_t`.
 */
module RoundRobin {

  const WRAP: nat := 0x1_0000_0000_0000_0000

  /** The I/O service that the `k`-th call after `start` returns, of `n`. */
  function Slot(start: nat, k: nat, n: nat): nat
    requires n > 0
  {
    (start + k) % WRAP % n
  }

  /** How many of the first `m` calls after `start` return `r`. */
  function Hits(start: nat, m: nat, n: nat, r: nat): nat
    requires n > 0
  {
    if m == 0 then 0 else Hits(start, m - 1, n, r) + (if Slot(start, m, n) == r then 1 else 0)
  }

  lemma DivIs(a: int, n: int, q: int)
    requires n > 0 && q * n <= a < q * n + n
    ensures a / n == q && a % n == a - q * n
  {
    var d, r := a / n, a % n;
    assert a == d * n + r;
    var e := d - q;
    assert e * n == d * n - q * n;
    Between(e, n);
  }

  /** The only multiple of `n` strictly between `-n` and `n` is 0. */
  lemma Between(e: int, n: int)
    requires n > 0
    ensures -n < e * n < n ==> e == 0
  {
    if e >= 1 {
      assert e * n >= 1 * n;
    } else if e <= -1 {
      assert e * n <= -1 * n;
    }
  }

  /** One more index adds one to the count of indices below it that are `r` modulo `n`, if it is one of them. */
  lemma CountStep(x: nat, n: nat, r: nat)
    requires r < n
    ensures (x + n - r) / n == (x + n - 1 - r) / n + (if x % n == r then 1 else 0)
  {
    var q, t := x / n, x % n;
    assert x == q * n + t;
    assert (q + 1) * n == q * n + n;
    DivIs(x + n - 1 - r, n, if t >= r + 1 then q + 1 else q);
    DivIs(x + n - r, n, if t >= r then q + 1 else q);
  }

  lemma {:induction false} HitsClosed(start: nat, m: nat, n: nat, r: nat)
    requires r < n && (start + m < WRAP || WRAP % n == 0)
    ensures Hits(start, m, n, r) == (start + m + n - r) / n - (start + n - r) / n
  {
    if m > 0 {
      HitsClosed(start, m - 1, n, r);
      CountStep(start + m, n, r);
      NoWrapSeen(start + m, n);
    }
  }

  lemma NoWrapSeen(x: nat, n: nat)
    requires n > 0 && (x < WRAP || WRAP % n == 0)
    ensures x % WRAP % n == x % n
  {
    if x < WRAP {
      DivIs(x, WRAP, 0);
    } else {
      ModMod(x, n);
    }
  }

  lemma ModMod(x: nat, n: nat)
    requires n > 0 && WRAP % n == 0
    ensures x % WRAP % n == x % n
  {
    var q, t, w := x / WRAP, x % WRAP, WRAP / n;
    assert x == q * WRAP + t && WRAP == w * n;
    var d := t / n;
    assert t == d * n + t % n;
    assert x == (q * w + d) * n + t % n by {
      assert q * WRAP == (q * w) * n;
    }
    DivIs(x, n, q * w + d);
  }

  lemma FloorDifference(u: nat, m: nat, n: nat)
    requires n > 0
    ensures m / n <= (u + m) / n - u / n <= (m + n - 1) / n
  {
    var a, s, b, t := u / n, u % n, m / n, m % n;
    Carry(u, a, s, m, b, t, n);
  }

  lemma Carry(u: nat, a: nat, s: nat, m: nat, b: nat, t: nat, n: nat)
    requires s < n && t < n && u == a * n + s && m == b * n + t
    ensures u / n == a && m / n == b
    ensures (u + m) / n == if s + t < n then a + b else a + b + 1
    ensures (m + n - 1) / n == if t == 0 then b else b + 1
  {
    assert (a + b) * n == a * n + b * n;
    assert (a + b + 1) * n == a * n + b * n + n;
    assert (b + 1) * n == b * n + n;
    DivIs(u, n, a);
    DivIs(m, n, b);
    DivIs(u + m, n, if s + t < n then a + b else a + b + 1);
    DivIs(m + n - 1, n, if t == 0 then b else b + 1);
  }

  /**
   Fairness: over any `m` calls in which the counter does not wrap around, each of the `n` services is returned
   `m / n` times, rounded down or up.  If `n` divides the modulus this holds for any number of calls.
   */
  lemma Fairness(start: nat, m: nat, n: nat, r: nat)
    requires r < n && (start + m < WRAP || WRAP % n == 0)
    ensures m / n <= Hits(start, m, n, r) <= (m + n - 1) / n
  {
    HitsClosed(start, m, n, r);
    FloorDifference(start + n - r, m, n);
    assert start + m + n - r == start + n - r + m;
  }

  /** Any `n` consecutive calls return each service exactly once. */
  lemma EachOnce(start: nat, n: nat, r: nat)
    requires r < n && (start + n < WRAP || WRAP % n == 0)
    ensures Hits(start, n, n, r) == 1
  {
    Fairness(start, n, n, r);
    DivIs(n, n, 1);
    DivIs(n + n - 1, n, 1);
  }

  lemma {:induction false} HitsMonotone(start: nat, a: nat, b: nat, n: nat, r: nat)
    requires n > 0 && a <= b
    ensures Hits(start, a, n, r) <= Hits(start, b, n, r)
  {
    if a < b { HitsMonotone(start, a, b - 1, n, r); }
  }

  /** `n` consecutive calls that start anywhere return pairwise different services. */
  ghost predicate Permutes(start: nat, n: nat)
    requires n > 0
  {
    forall i: nat, j: nat :: 1 <= i < j <= n ==> Slot(start, i, n) != Slot(start, j, n)
  }

  lemma EachOncePermutes(start: nat, n: nat)
    requires n > 0 && (start + n < WRAP || WRAP % n == 0)
    ensures Permutes(start, n)
  {
    forall i: nat, j: nat | 1 <= i < j <= n
      ensures Slot(start, i, n) != Slot(start, j, n)
    {
      var r := Slot(start, i, n);
      EachOnce(start, n, r);
      HitsMonotone(start, i, j - 1, n, r);
      HitsMonotone(start, j, n, n, r);
    }
  }

  lemma AtLeastOne(w: nat, n: nat, q: nat)
    requires w * n + q == WRAP && q < n < WRAP
    ensures w >= 1 && w * n >= n
  {
    if w >= 1 {
      assert w * n >= 1 * n;
    }
  }

  /** Across the wrap-around every window of `n` calls is a permutation if and only if `n` divides the modulus. */
  lemma WrapAround(n: nat)
    requires 0 < n < WRAP
    ensures (forall start: nat :: start < WRAP ==> Permutes(start, n)) <==> WRAP % n == 0
  {
    if WRAP % n == 0 {
      forall start: nat | start < WRAP
        ensures Permutes(start, n)
      {
        EachOncePermutes(start, n);
      }
    } else {
      var q, w := WRAP % n, WRAP / n;
      var start := WRAP - q - 1;
      assert WRAP == w * n + q;
      AtLeastOne(w, n, q);
      DivIs(start + 1, WRAP, 0);
      DivIs(w * n, n, w);
      DivIs(start + q + 1, WRAP, 1);
      assert Slot(start, 1, n) == 0;
      assert Slot(start, q + 1, n) == 0 % n == 0;
      assert !Permutes(start, n);
    }
  }

  /** What becomes of a call of `start`; it spins until some thread has run the start handler. */
  datatype Outcome = Refused | Started | SpinsForever

  class Service {
    var services: seq<nat>   // handles of the I/O services
    var threads: seq<nat>    // for each thread, the index of the service it runs once started
    var strandNeeded: bool
    var polling: bool
    var started: bool
    var index: nat

    ghost predicate Valid()
      reads this
    {
      && |services| > 0 && index < WRAP
      && (forall i :: 0 <= i < |services| ==> services[i] == i)
      && (!strandNeeded ==> |threads| <= |services|)
    }

    /** No threads: one service.  Otherwise a service per thread, or one service for all threads and a strand. */
    constructor (numThreads: nat, ownIo: bool)
      ensures Valid() && index == 0 && !started
      ensures |threads| == numThreads
      ensures |services| == if numThreads == 0 || ownIo then 1 else numThreads
      ensures strandNeeded <==> numThreads > 0 && ownIo
    {
      strandNeeded, polling, started, index := false, false, false, 0;
      services, threads := [], [];
      new;
      if numThreads == 0 {
        services := [0];
      } else if !ownIo {
        for i := 0 to numThreads
          invariant |services| == |threads| == i
          invariant forall k :: 0 <= k < i ==> services[k] == k
          invariant index == 0 && !started && !strandNeeded
        {
          services := services + [i];
          threads := threads + [0];
        }
      } else {
        services := [0];
        for i := 0 to numThreads
          invariant |threads| == i && services == [0]
          invariant index == 0 && !started
        {
          threads := threads + [0];
        }
        strandNeeded := true;
      }
    }

    /**
     Every thread is bound to a service; without a strand no service gets two threads.  `served` tells whether
     some thread outside this object runs its I/O services; without any thread the call never returns.
     */
    method Start(poll: bool, served: bool) returns (outcome: Outcome)
      requires Valid()
      modifies this
      ensures Valid() && (outcome.Refused? <==> old(started))
      ensures outcome.SpinsForever? <==> !old(started) && |threads| == 0 && !served
      ensures started == !outcome.SpinsForever?
      ensures |threads| == old(|threads|) && services == old(services) && strandNeeded == old(strandNeeded)
      ensures !outcome.Refused? ==> index == 0 && polling == poll
      ensures !outcome.Refused? ==> forall i :: 0 <= i < |threads| ==> threads[i] == i % |services|
      ensures !outcome.Refused? && !strandNeeded ==>
        forall i, j :: 0 <= i < j < |threads| ==> threads[i] != threads[j]
    {
      if started {
        return Refused;
      }
      polling := poll;
      index := 0;
      var i := 0;
      while i < |threads|
        invariant 0 <= i <= |threads| == old(|threads|)
        invariant services == old(services) && strandNeeded == old(strandNeeded)
        invariant !started && index == 0 && polling == poll
        invariant forall k :: 0 <= k < i ==> threads[k] == k % |services|
      {
        threads := threads[i := i % |services|];
        i := i + 1;
      }
      if !strandNeeded {
        forall k | 0 <= k < |threads|
          ensures threads[k] == k
        {
          DivIs(k, |services|, 0);
        }
      }
      if |threads| == 0 && !served {
        return SpinsForever;
      }
      started := true;
      return Started;
    }

    /** The next service in turn. */
    method GetIoService() returns (io: nat)
      requires Valid()
      modifies this`index
      ensures Valid() && index == (old(index) + 1) % WRAP
      ensures io == services[Slot(old(index), 1, |services|)]
    {
      index := (index + 1) % WRAP;
      io := services[index % |services|];
    }
  }

  /** Consecutive calls compose: `k` calls leave the counter where the `k`-th slot was taken from. */
  lemma SlotsCompose(start: nat, k: nat, n: nat)
    requires n > 0
    ensures Slot((start + k) % WRAP, 1, n) == Slot(start, k + 1, n)
  {
    var q, t := (start + k) / WRAP, (start + k) % WRAP;
    assert start + k == q * WRAP + t;
    assert (q + 1) * WRAP == q * WRAP + WRAP;
    if t + 1 < WRAP {
      DivIs(start + k + 1, WRAP, q);
      DivIs(t + 1, WRAP, 0);
    } else {
      DivIs(start + k + 1, WRAP, q + 1);
      DivIs(t + 1, WRAP, 1);
    }
  }
}
