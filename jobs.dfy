/** The enumeration arithmetic of main.go: where a run resumes, how large a
    job is, how many jobs the aggregator waits for, and the half-open index
    ranges the producer loop hands out. Go's `int` is 64 bits wide; counts of
    registry entries stay far below that, so no wrap-around is modelled. */
module Jobs {

  /** A job of main.go:40-44: the half-open registry range `[start, end)`. */
  datatype Job = Job(start: int, end: int, dexExchange: string)

  /** The largest number of indices in one job (main.go:166). */
  const MaxStep: nat := 300

  function JobLength(j: Job): int {
    j.end - j.start
  }

  /** The number of registry indices a list of jobs asks for. */
  function TotalLength(jobs: seq<Job>): int {
    if jobs == [] then 0 else JobLength(jobs[0]) + TotalLength(jobs[1..])
  }

  lemma {:induction false} TotalLengthAppend(a: seq<Job>, b: seq<Job>)
    ensures TotalLength(a + b) == TotalLength(a) + TotalLength(b)
  {
    if a != [] {
      assert (a + b)[1..] == a[1..] + b;
      TotalLengthAppend(a[1..], b);
    } else {
      assert a + b == b;
    }
  }

  // ---------------------------------------------------------------------------
  // Resume offset, step, job count (main.go:162-180)

  /** `len(data.Tokens) - 1`, raised to 0 for an empty dataset. */
  function ResumeOffset(stored: nat): (n: nat)
    ensures stored > 0 ==> n == stored - 1
    ensures stored == 0 ==> n == 0
  {
    var n := stored - 1;
    if n < 0 then 0 else n
  }

  /** `step := 300`, lowered to `pairCount` when the registry is smaller. */
  function Step(pairCount: nat): (step: nat)
    ensures step <= MaxStep && step <= pairCount
    ensures step == MaxStep || step == pairCount
    ensures step > 0 <==> pairCount > 0
  {
    var step := MaxStep;
    if step > pairCount then pairCount else step
  }

  /** Go's integer `/`: the quotient truncated toward zero. */
  function GoDiv(a: int, b: int): int
    requires b > 0
  {
    if a >= 0 then a / b else -((-a) / b)
  }

  /** Go's integer `%`: the remainder takes the sign of the dividend. */
  function GoRem(a: int, b: int): int
    requires b > 0
  {
    a - GoDiv(a, b) * b
  }

  lemma GoDivRem(a: int, b: int)
    requires b > 0
    ensures a == GoDiv(a, b) * b + GoRem(a, b)
    ensures a >= 0 ==> GoDiv(a, b) == a / b && GoRem(a, b) == a % b
    ensures a < 0 ==> -b < GoRem(a, b) <= 0 && GoRem(a, b) == -((-a) % b)
  {
    if a < 0 {
      assert -a == ((-a) / b) * b + (-a) % b;
    }
  }

  /** `jobCount` as main.go:170-174 computes it with Go's truncating operators
      (the division by `step` panics when `step == 0`; the caller checks that). */
  function JobCount(pairCount: int, n: int, step: nat): int
    requires step > 0
  {
    var q := GoDiv(pairCount - n, step);
    if GoRem(pairCount - n, step) != 0 then q + 1 else q
  }

  /** When the run has work, `jobCount` is the ceiling of `(pairCount - n) / step`:
      the least count of `step`-sized jobs that covers the remaining indices. */
  lemma JobCountIsCeiling(pairCount: int, n: int, step: nat)
    requires step > 0 && n <= pairCount
    ensures var c := JobCount(pairCount, n, step);
      c >= 0 && c * step >= pairCount - n && (n < pairCount ==> (c - 1) * step < pairCount - n)
    ensures n == pairCount ==> JobCount(pairCount, n, step) == 0
    ensures n < pairCount ==> JobCount(pairCount, n, step) >= 1
  {
    var a := pairCount - n;
    GoDivRem(a, step);
    var q, r := a / step, a % step;
    assert a == q * step + r && 0 <= r < step;
    if r == 0 {
      assert JobCount(pairCount, n, step) * step == a;
      assert (q - 1) * step == a - step;
    } else {
      assert (q + 1) * step == a - r + step;
    }
  }

  /** When the stored dataset reaches past the registry (`n > pairCount`),
      Go's truncating division gives a job count of at most one: exactly one
      when the overrun is shorter than a step, zero or negative otherwise. */
  lemma OverrunJobCount(pairCount: int, n: int, step: nat)
    requires step > 0 && n > pairCount
    ensures JobCount(pairCount, n, step) <= 1
    ensures JobCount(pairCount, n, step) == 1 <==> n - pairCount < step
  {
    var a := pairCount - n;
    GoDivRem(a, step);
    var q, r := (-a) / step, (-a) % step;
    assert -a == q * step + r && 0 <= r < step;
    assert GoDiv(a, step) == -q;
    if q == 0 {
      assert r == -a && r != 0;
    } else {
      assert q >= 1;
      assert -a >= step;
    }
  }

  /** The worker count: `cores`, lowered to `jobCount` (main.go:178-180). */
  function WorkerCount(cores: int, jobCount: int): (w: int)
    ensures w <= cores && w <= jobCount
    ensures w == cores || w == jobCount
  {
    if jobCount < cores then jobCount else cores
  }

  // ---------------------------------------------------------------------------
  // Job ranges (main.go:193-199)

  /** The jobs the producer loop sends from index `i` on, in sending order. */
  function Partition(i: int, pairCount: int, step: nat, dexExchange: string): seq<Job>
    requires step > 0
    decreases pairCount - i
  {
    if i >= pairCount then []
    else
      var end := if i + step > pairCount then pairCount else i + step;
      [Job(i, end, dexExchange)] + Partition(i + step, pairCount, step, dexExchange)
  }

  /** The producer loop of main.go:193-199; the sequence of jobs it sends on
      the job channel. */
  method ProduceJobs(n: int, pairCount: int, step: nat, dexExchange: string) returns (sent: seq<Job>)
    requires step > 0
    ensures sent == Partition(n, pairCount, step, dexExchange)
  {
    sent := [];
    var i := n;
    while i < pairCount
      invariant sent + Partition(i, pairCount, step, dexExchange) == Partition(n, pairCount, step, dexExchange)
      decreases pairCount - i
    {
      if i + step > pairCount {
        sent := sent + [Job(i, pairCount, dexExchange)];
      } else {
        sent := sent + [Job(i, i + step, dexExchange)];
      }
      i := i + step;
    }
  }

  /** Every job is non-empty, at most `step` long, inside `[i, pairCount)`,
      and each starts where the previous one ended: the first at `i`, the
      last ending at `pairCount`. No job at all when `i >= pairCount`. */
  lemma {:induction false} PartitionShape(i: int, pairCount: int, step: nat, dexExchange: string)
    requires step > 0
    ensures var p := Partition(i, pairCount, step, dexExchange);
      (|p| == 0 <==> i >= pairCount) &&
      (forall k :: 0 <= k < |p| ==>
        i <= p[k].start < p[k].end <= pairCount && p[k].end - p[k].start <= step &&
        p[k].dexExchange == dexExchange) &&
      (forall k :: 0 <= k < |p| - 1 ==> p[k].end == p[k + 1].start) &&
      (|p| > 0 ==> p[0].start == i && p[|p| - 1].end == pairCount)
    decreases pairCount - i
  {
    if i < pairCount {
      PartitionShape(i + step, pairCount, step, dexExchange);
      var p := Partition(i, pairCount, step, dexExchange);
      var rest := Partition(i + step, pairCount, step, dexExchange);
      assert p == [p[0]] + rest;
      assert forall k :: 1 <= k < |p| ==> p[k] == rest[k - 1];
    }
  }

  /** The ranges are pairwise disjoint: an earlier job ends before a later one starts. */
  lemma {:induction false} PartitionDisjoint(i: int, pairCount: int, step: nat, dexExchange: string)
    requires step > 0
    ensures var p := Partition(i, pairCount, step, dexExchange);
      forall k1, k2 :: 0 <= k1 < k2 < |p| ==> p[k1].end <= p[k2].start
    decreases pairCount - i
  {
    if i < pairCount {
      PartitionDisjoint(i + step, pairCount, step, dexExchange);
      PartitionShape(i + step, pairCount, step, dexExchange);
      var p := Partition(i, pairCount, step, dexExchange);
      var rest := Partition(i + step, pairCount, step, dexExchange);
      assert forall k :: 1 <= k < |p| ==> p[k] == rest[k - 1];
    }
  }

  /** Index `x` lies in the range of one of the jobs. */
  predicate InSomeJob(jobs: seq<Job>, x: int) {
    exists k :: 0 <= k < |jobs| && jobs[k].start <= x < jobs[k].end
  }

  /** An index lies in a job of `[head] + rest` exactly when it lies in
      `head` or in a job of `rest`. */
  lemma InSomeJobCons(head: Job, rest: seq<Job>, x: int)
    ensures InSomeJob([head] + rest, x) <==> (head.start <= x < head.end || InSomeJob(rest, x))
  {
    var p := [head] + rest;
    assert p[0] == head;
    if InSomeJob(p, x) {
      var k :| 0 <= k < |p| && p[k].start <= x < p[k].end;
      if k > 0 {
        assert p[k] == rest[k - 1];
      }
    }
    if InSomeJob(rest, x) {
      var k :| 0 <= k < |rest| && rest[k].start <= x < rest[k].end;
      assert p[k + 1] == rest[k];
    }
  }

  /** The union of the ranges is exactly `[i, pairCount)`. */
  lemma {:induction false} PartitionCovers(i: int, pairCount: int, step: nat, dexExchange: string, x: int)
    requires step > 0
    ensures (i <= x < pairCount) <==> InSomeJob(Partition(i, pairCount, step, dexExchange), x)
    decreases pairCount - i
  {
    if i < pairCount {
      var end := if i + step > pairCount then pairCount else i + step;
      var rest := Partition(i + step, pairCount, step, dexExchange);
      PartitionCovers(i + step, pairCount, step, dexExchange, x);
      InSomeJobCons(Job(i, end, dexExchange), rest, x);
    }
  }

  /** Every job the producer sends asks for at least one index. */
  lemma PartitionJobsNonEmpty(i: int, pairCount: int, step: nat, dexExchange: string)
    requires step > 0
    ensures forall j :: j in Partition(i, pairCount, step, dexExchange) ==> j.start < j.end
  {
    var p := Partition(i, pairCount, step, dexExchange);
    PartitionShape(i, pairCount, step, dexExchange);
    forall j | j in p
      ensures j.start < j.end
    {
      var k :| 0 <= k < |p| && p[k] == j;
    }
  }

  /** When `k` whole steps fit before `pairCount`, the first `k` jobs are
      full: they ask for `k * step` indices. */
  lemma {:induction false} PartitionPrefixLength(i: int, pairCount: int, step: nat, dexExchange: string, k: nat)
    requires step > 0 && i + k * step <= pairCount
    ensures |Partition(i, pairCount, step, dexExchange)| >= k
    ensures TotalLength(Partition(i, pairCount, step, dexExchange)[..k]) == k * step
    decreases k
  {
    if k > 0 {
      var p := Partition(i, pairCount, step, dexExchange);
      var rest := Partition(i + step, pairCount, step, dexExchange);
      PartitionPrefixLength(i + step, pairCount, step, dexExchange, k - 1);
      assert p == [Job(i, i + step, dexExchange)] + rest;
      var prefix := p[..k];
      assert prefix[0] == Job(i, i + step, dexExchange);
      assert prefix[1..] == rest[..k - 1];
    }
  }

  /** More than `2 * cores` jobs inside the registry: the worker count is
      `cores`, the producer has more jobs than the channels hold, and the
      first `cores` jobs are whole steps. */
  lemma ManyJobs(pairCount: int, n: int, step: nat, cores: int, dexExchange: string)
    requires step > 0 && n < pairCount && cores >= 0
    requires JobCount(pairCount, n, step) > 2 * cores
    ensures WorkerCount(cores, JobCount(pairCount, n, step)) == cores
    ensures |Partition(n, pairCount, step, dexExchange)| > 2 * cores
    ensures n + cores * step <= pairCount
  {
    var c := JobCount(pairCount, n, step);
    JobCountIsCeiling(pairCount, n, step);
    PartitionCount(n, pairCount, step, dexExchange);
    assert (c - 1 - cores) * step >= 0;
    assert (c - 1) * step == (c - 1 - cores) * step + cores * step;
  }

  /** Together the jobs ask for every index of `[i, pairCount)` once. */
  lemma {:induction false} PartitionTotalLength(i: int, pairCount: int, step: nat, dexExchange: string)
    requires step > 0
    ensures TotalLength(Partition(i, pairCount, step, dexExchange)) == if i < pairCount then pairCount - i else 0
    decreases pairCount - i
  {
    if i < pairCount {
      PartitionTotalLength(i + step, pairCount, step, dexExchange);
      var p := Partition(i, pairCount, step, dexExchange);
      assert p[1..] == Partition(i + step, pairCount, step, dexExchange);
    }
  }

  /** Euclidean division is unique: a quotient and remainder in range are `/` and `%`. */
  lemma DivUnique(a: int, s: int, q: int, r: int)
    requires s > 0 && a == q * s + r && 0 <= r < s
    ensures q == a / s && r == a % s
  {
    var d := q - a / s;
    assert d * s == a % s - r;
    assert d >= 1 ==> d * s >= s;
    assert d <= -1 ==> d * s <= -s;
  }

  lemma DivShift(a: int, s: int)
    requires s > 0 && a >= s
    ensures a / s == (a - s) / s + 1 && a % s == (a - s) % s
  {
    var q, r := (a - s) / s, (a - s) % s;
    assert a - s == q * s + r && 0 <= r < s;
    assert a == (q + 1) * s + r;
    DivUnique(a, s, q + 1, r);
  }

  /** The producer sends exactly `jobCount` jobs whenever `n <= pairCount`, so
      the aggregator's fixed number of reads matches the number of results. */
  lemma {:induction false} PartitionCount(i: int, pairCount: int, step: nat, dexExchange: string)
    requires step > 0 && i <= pairCount
    ensures |Partition(i, pairCount, step, dexExchange)| == JobCount(pairCount, i, step)
    decreases pairCount - i
  {
    var a := pairCount - i;
    GoDivRem(a, step);
    if a > step {
      PartitionCount(i + step, pairCount, step, dexExchange);
      GoDivRem(a - step, step);
      DivShift(a, step);
    } else if a == step {
      DivUnique(a, step, 1, 0);
    } else if a > 0 {
      DivUnique(a, step, 0, a);
    }
  }

  /** Past the end of the registry the producer sends nothing. */
  lemma OverrunSendsNothing(i: int, pairCount: int, step: nat, dexExchange: string)
    requires step > 0 && i >= pairCount
    ensures Partition(i, pairCount, step, dexExchange) == []
  {
  }

  /** A registry of five pairs: with steps of 2 the jobs are [0,2) [2,4) [4,5);
      with the real step, `min(300, 5) == 5`, a single job [0,5). */
  lemma PartitionExample()
    ensures Partition(0, 5, 2, "uniswap") ==
      [Job(0, 2, "uniswap"), Job(2, 4, "uniswap"), Job(4, 5, "uniswap")]
    ensures Partition(0, 5, Step(5), "uniswap") == [Job(0, 5, "uniswap")]
    ensures JobCount(5, 0, 2) == 3 && JobCount(5, 0, Step(5)) == 1
  {
    assert Partition(4, 5, 2, "uniswap") == [Job(4, 5, "uniswap")];
    assert Partition(2, 5, 2, "uniswap") == [Job(2, 4, "uniswap"), Job(4, 5, "uniswap")];
  }
}
