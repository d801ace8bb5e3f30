/** The round-robin balancer. Its counter is a 64-bit integer that wraps. */
module RoundRobin {
  const MIN: int := -0x8000_0000_0000_0000
  const MAX: int := 0x7fff_ffff_ffff_ffff

  datatype WorkerStats = WorkerStats(id: nat, isActive: bool, jobCount: int)

  /** An index out of range panics. */
  datatype Choice = Nobody | Chosen(worker: WorkerStats) | Panic

  /** The workers that are not busy, in order. */
  function Available(workers: seq<WorkerStats>): seq<WorkerStats> {
    if workers == [] then []
    else
      var rest := Available(workers[..|workers| - 1]);
      var last := workers[|workers| - 1];
      if last.isActive then rest else rest + [last]
  }

  /** The remainder truncates towards zero. */
  function Remainder(x: int, n: nat): int
    requires n > 0
  {
    if x >= 0 then x % n else -((-x) % n)
  }

  function Pick(free: seq<WorkerStats>, current: int): Choice {
    if free == [] then Nobody
    else
      var i := Remainder(current, |free|);
      if 0 <= i < |free| then Chosen(free[i]) else Panic
  }

  function Next(current: int): int {
    if current == MAX then MIN else current + 1
  }

  class RoundRobinBalancer {
    var current: int

    constructor ()
      ensures current == 0
    {
      current := 0;
    }

    /** Only a selection moves the counter. */
    method SelectWorker(workers: seq<WorkerStats>) returns (r: Choice)
      modifies this
      ensures r == Pick(Available(workers), old(current))
      ensures current ==
        if !r.Chosen? then old(current) else if old(current) == MAX then MIN else old(current) + 1
      ensures r.Nobody? <==> forall w :: w in workers ==> w.isActive
      ensures r.Chosen? ==> r.worker in workers && !r.worker.isActive
      ensures r.Panic? <==> var n := |Available(workers)|; n > 0 && old(current) < 0 && -old(current) % n != 0
    {
      AvailableExactly(workers);
      if |workers| == 0 {
        return Nobody;
      }
      var available: seq<WorkerStats> := [];
      for i := 0 to |workers|
        invariant available == Available(workers[..i])
      {
        assert workers[..i + 1][..i] == workers[..i];
        if !workers[i].isActive {
          available := available + [workers[i]];
        }
      }
      assert workers[..|workers|] == workers;
      if |available| == 0 {
        assert forall w :: w in workers && !w.isActive ==> w in available;
        return Nobody;
      }
      assert available[0] in workers && !available[0].isActive;
      var i := Remainder(current, |available|);
      if i < 0 || i >= |available| {
        return Panic;
      }
      assert available[i] in workers && !available[i].isActive;
      r := Chosen(available[i]);
      current := Next(current);
    }
  }

  lemma {:induction false} AvailableExactly(workers: seq<WorkerStats>)
    ensures forall w :: w in Available(workers) <==> w in workers && !w.isActive
  {
    if workers != [] {
      AvailableExactly(workers[..|workers| - 1]);
      assert workers == workers[..|workers| - 1] + [workers[|workers| - 1]];
    }
  }

  /** The choices of m consecutive calls with unchanged workers. */
  function Choices(free: seq<WorkerStats>, current: int, m: nat): (r: seq<Choice>)
    ensures |r| == m
    decreases m
  {
    if m == 0 then []
    else
      var choice := Pick(free, current);
      [choice] + Choices(free, if choice.Chosen? then Next(current) else current, m - 1)
  }

  function Times(choices: seq<Choice>, c: Choice): nat {
    if choices == [] then 0 else (if choices[0] == c then 1 else 0) + Times(choices[1..], c)
  }

  predicate Distinct(free: seq<WorkerStats>) {
    forall i, j :: 0 <= i < j < |free| ==> free[i] != free[j]
  }

  /** How many of the first x numbers leave remainder k. */
  function Below(x: nat, n: nat, k: nat): int
    requires k < n
  {
    (x + n - 1 - k) / n
  }

  lemma AtLeast(d: int, n: nat)
    requires d >= 1
    ensures d * n >= n
  {
  }

  lemma Quotient(x: int, n: nat, q: int, r: int)
    requires n > 0 && x == q * n + r && 0 <= r < n
    ensures x / n == q && x % n == r
  {
    var p := x / n;
    assert x == p * n + x % n;
    assert (q - p) * n == q * n - p * n;
    assert (p - q) * n == p * n - q * n;
    if q > p {
      AtLeast(q - p, n);
    } else if p > q {
      AtLeast(p - q, n);
    }
  }

  lemma BelowSteps(x: nat, n: nat, k: nat)
    requires k < n
    ensures Below(x + 1, n, k) == Below(x, n, k) + if x % n == k then 1 else 0
  {
    var q, r := x / n, x % n;
    if r <= k {
      Quotient(x + n - 1 - k, n, q, r + n - 1 - k);
    } else {
      Quotient(x + n - 1 - k, n, q + 1, r - 1 - k);
    }
    if r < k {
      Quotient(x + n - k, n, q, r + n - k);
    } else {
      Quotient(x + n - k, n, q + 1, r - k);
    }
  }

  lemma {:induction false} TimesIsBelow(free: seq<WorkerStats>, current: nat, m: nat, k: nat)
    requires Distinct(free) && k < |free| && current + m <= MAX
    ensures Times(Choices(free, current, m), Chosen(free[k]))
         == Below(current + m, |free|, k) - Below(current, |free|, k)
    decreases m
  {
    if m > 0 {
      var i := current % |free|;
      assert Pick(free, current) == Chosen(free[i]);
      assert free[i] == free[k] <==> i == k;
      TimesIsBelow(free, current + 1, m - 1, k);
      BelowSteps(current, |free|, k);
    }
  }

  lemma BelowSpreads(x: nat, m: nat, n: nat, k: nat)
    requires k < n
    ensures m / n <= Below(x + m, n, k) - Below(x, n, k) <= (m + n - 1) / n
  {
    var y := x + n - 1 - k;
    var q, r, p, t := y / n, y % n, m / n, m % n;
    if r + t < n {
      Quotient(y + m, n, q + p, r + t);
    } else {
      Quotient(y + m, n, q + p + 1, r + t - n);
    }
    if t == 0 {
      Quotient(m + n - 1, n, p, n - 1);
    } else {
      Quotient(m + n - 1, n, p + 1, t - 1);
    }
  }

  /** The available list keeps the order, and no worker comes in twice: the idle worker at `i` stands behind
      exactly those that come from before `i`. */
  lemma {:induction false} AvailableAt(workers: seq<WorkerStats>, i: nat)
    requires i < |workers| && !workers[i].isActive
    ensures var p := |Available(workers[..i])|; p < |Available(workers)| && Available(workers)[p] == workers[i]
  {
    var n := |workers| - 1;
    if i < n {
      assert workers[..n][..i] == workers[..i];
      AvailableAt(workers[..n], i);
    }
  }

  lemma {:induction false} AvailableDistinct(workers: seq<WorkerStats>)
    requires Distinct(workers)
    ensures Distinct(Available(workers))
  {
    if workers != [] {
      var n := |workers| - 1;
      var before, last := workers[..n], workers[n];
      AvailableDistinct(before);
      AvailableExactly(before);
      assert forall i :: 0 <= i < |before| ==> before[i] == workers[i] != last;
    }
  }

  lemma {:induction false} DistinctSize(s: seq<WorkerStats>)
    requires Distinct(s)
    ensures |s| == |set w | w in s|
  {
    if s == [] {
      assert (set w | w in s) == {};
    } else {
      var n := |s| - 1;
      var before := s[..n];
      DistinctSize(before);
      assert s == before + [s[n]] && s[n] !in before;
      assert (set w | w in s) == (set w | w in before) + {s[n]};
    }
  }

  /** Fairness: over m consecutive selections from the same distinct workers, n of them idle, each idle one
      is chosen m/n times, rounded down or up, wherever the counter starts below its overflow. */
  lemma SelectionIsFair(workers: seq<WorkerStats>, current: nat, m: nat, w: WorkerStats)
    requires Distinct(workers) && w in workers && !w.isActive && current + m <= MAX
    ensures var n := |set v | v in workers && !v.isActive|;
      n > 0 && m / n <= Times(Choices(Available(workers), current, m), Chosen(w)) <= (m + n - 1) / n
  {
    var free := Available(workers);
    AvailableExactly(workers);
    AvailableDistinct(workers);
    DistinctSize(free);
    assert (set v | v in free) == set v | v in workers && !v.isActive;
    var k :| 0 <= k < |free| && free[k] == w;
    TimesIsBelow(free, current, m, k);
    BelowSpreads(current, m, |free|, k);
  }
}
