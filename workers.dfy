/** What one worker does with one job (`getPairs`, main.go:86-109), the shared
    progress counter it bumps (main.go:64-65), and the concatenation of the
    workers' batches that the aggregator builds (main.go:202-208). */
module Workers {
  import opened Wrappers
  import opened DexExchange
  import opened Dex
  import opened Jobs

  /** The node the program talks to: whether an RPC client can be opened for
      NODE_URL, what each factory answers to `allPairsLength()` (`None` is a
      failed call), and what it answers to the calls `GetPair(n)` makes. */
  datatype Node = Node(
    clientOk: bool,
    pairNumber: Address -> Option<nat>,
    answers: (Address, int) -> PairAnswers)

  /** `d.GetPair(int64(i))` for every index `i`: what fetching an index gives. */
  function Fetch(ex: Exchange, node: Node): int -> Result<Pair> {
    i => PairRecord(ex, node.answers(ex.factory, i))
  }

  /** The records `getPairs(start, end)` returns: the successful fetches of
      `start, start + 1, ..., end - 1`, in that order, failed indices skipped. */
  function Fetched(fetch: int -> Result<Pair>, start: int, end: int): seq<Pair>
    decreases end - start
  {
    if end <= start then []
    else
      var last := fetch(end - 1);
      Fetched(fetch, start, end - 1) + (if last.Ok? then [last.value] else [])
  }

  /** The shared `counter` of main.go:64, guarded there by a read-write mutex. */
  class Progress {
    var counter: int

    constructor ()
      ensures counter == 0
    {
      counter := 0;
    }
  }

  /** `getPairs`: one attempt per index in increasing order, the counter
      raised after every attempt whether it failed or not, failures logged and
      skipped. */
  method GetPairs(progress: Progress, ex: Exchange, node: Node, start: int, end: int) returns (res: seq<Pair>)
    modifies progress
    ensures res == Fetched(Fetch(ex, node), start, end)
    ensures progress.counter == old(progress.counter) + (if start < end then end - start else 0)
  {
    res := [];
    var i := start;
    while i < end
      invariant start <= end ==> start <= i <= end
      invariant start > end ==> i == start
      invariant res == Fetched(Fetch(ex, node), start, i)
      invariant progress.counter == old(progress.counter) + (i - start)
      decreases end - i
    {
      var pair := GetPair(ex, node.answers(ex.factory, i));
      assert pair == Fetch(ex, node)(i);
      progress.counter := progress.counter + 1;
      if pair.Err? {
        i := i + 1;
        continue;
      }
      res := res + [pair.value];
      i := i + 1;
    }
  }

  // ---------------------------------------------------------------------------
  // Properties of one batch

  /** Fetching `[a, c)` is fetching `[a, b)` and then `[b, c)`: records come in
      index order. */
  lemma {:induction false} FetchedSplit(fetch: int -> Result<Pair>, a: int, b: int, c: int)
    requires a <= b <= c
    ensures Fetched(fetch, a, c) == Fetched(fetch, a, b) + Fetched(fetch, b, c)
    decreases c - b
  {
    if b < c {
      FetchedSplit(fetch, a, b, c - 1);
    }
  }

  /** A batch holds a record exactly when some index of its range was fetched
      successfully as that record. */
  lemma {:induction false} FetchedMembers(fetch: int -> Result<Pair>, start: int, end: int, p: Pair)
    ensures p in Fetched(fetch, start, end) <==>
      exists i :: start <= i < end && fetch(i) == Ok(p)
    decreases end - start
  {
    if start < end {
      FetchedMembers(fetch, start, end - 1, p);
      if fetch(end - 1) == Ok(p) {
        assert p in Fetched(fetch, start, end);
      }
      if exists i :: start <= i < end && fetch(i) == Ok(p) {
        var i :| start <= i < end && fetch(i) == Ok(p);
        if i < end - 1 {
          assert p in Fetched(fetch, start, end - 1);
        }
      }
    }
  }

  /** A batch is never longer than its range. */
  lemma {:induction false} FetchedBound(fetch: int -> Result<Pair>, start: int, end: int)
    ensures |Fetched(fetch, start, end)| <= if start < end then end - start else 0
    decreases end - start
  {
    if start < end {
      FetchedBound(fetch, start, end - 1);
    }
  }

  /** With no failed index a batch has one record per index, the record of
      index `start + k` at position `k`. */
  lemma {:induction false} FetchedComplete(fetch: int -> Result<Pair>, start: int, end: int)
    requires start <= end
    requires forall i :: start <= i < end ==> fetch(i).Ok?
    ensures |Fetched(fetch, start, end)| == end - start
    ensures forall k :: 0 <= k < end - start ==> Fetched(fetch, start, end)[k] == fetch(start + k).value
    decreases end - start
  {
    if start < end {
      FetchedComplete(fetch, start, end - 1);
      var init := Fetched(fetch, start, end - 1);
      var all := Fetched(fetch, start, end);
      assert all == init + [fetch(end - 1).value];
      forall k | 0 <= k < end - start
        ensures all[k] == fetch(start + k).value
      {
        if k < end - 1 - start {
          assert all[k] == init[k];
        }
      }
    }
  }

  // ---------------------------------------------------------------------------
  // Concatenated batches

  /** The records a sequence of jobs contributes when their batches are
      appended in that order. */
  function Collected(fetch: int -> Result<Pair>, jobs: seq<Job>): seq<Pair> {
    if jobs == [] then []
    else
      var last := jobs[|jobs| - 1];
      Collected(fetch, jobs[..|jobs| - 1]) + Fetched(fetch, last.start, last.end)
  }

  lemma {:induction false} CollectedAppend(fetch: int -> Result<Pair>, a: seq<Job>, b: seq<Job>)
    ensures Collected(fetch, a + b) == Collected(fetch, a) + Collected(fetch, b)
    decreases |b|
  {
    if b == [] {
      assert a + b == a;
    } else {
      var b' := b[..|b| - 1];
      var last := b[|b| - 1];
      assert (a + b)[..|a + b| - 1] == a + b';
      assert (a + b)[|a + b| - 1] == last;
      assert Collected(fetch, a + b) == Collected(fetch, a + b') + Fetched(fetch, last.start, last.end);
      assert Collected(fetch, b) == Collected(fetch, b') + Fetched(fetch, last.start, last.end);
      CollectedAppend(fetch, a, b');
    }
  }

  /** Appending the batches of the producer's jobs in sending order gives
      exactly the batch of the whole range `[i, pairCount)`. */
  lemma {:induction false} CollectedPartition(fetch: int -> Result<Pair>, i: int, pairCount: int, step: nat, dexExchange: string)
    requires step > 0
    ensures Collected(fetch, Partition(i, pairCount, step, dexExchange)) == Fetched(fetch, i, pairCount)
    decreases pairCount - i
  {
    if i < pairCount {
      var p := Partition(i, pairCount, step, dexExchange);
      var rest := Partition(i + step, pairCount, step, dexExchange);
      assert p == [p[0]] + rest;
      CollectedAppend(fetch, [p[0]], rest);
      assert Collected(fetch, [p[0]]) == Fetched(fetch, p[0].start, p[0].end);
      CollectedPartition(fetch, i + step, pairCount, step, dexExchange);
      if i + step <= pairCount {
        FetchedSplit(fetch, i, i + step, pairCount);
      }
    }
  }

  /** Taking one job out of the middle of a sequence takes exactly its batch
      out of the collected records. */
  lemma CollectedWithout(fetch: int -> Result<Pair>, before: seq<Job>, j: Job, after: seq<Job>)
    ensures multiset(Collected(fetch, before + [j] + after)) ==
      multiset(Collected(fetch, before + after)) + multiset(Fetched(fetch, j.start, j.end))
  {
    CollectedAppend(fetch, before + [j], after);
    CollectedAppend(fetch, before, [j]);
    CollectedAppend(fetch, before, after);
    assert Collected(fetch, [j]) == Fetched(fetch, j.start, j.end);
  }

  lemma TotalLengthWithout(before: seq<Job>, j: Job, after: seq<Job>)
    ensures TotalLength(before + [j] + after) == TotalLength(before + after) + JobLength(j)
  {
    TotalLengthAppend(before + [j], after);
    TotalLengthAppend(before, [j]);
    TotalLengthAppend(before, after);
  }

  /** Two sequences holding the same jobs, each as often. */
  lemma SplitAt(js1: seq<Job>, js2: seq<Job>) returns (before: seq<Job>, after: seq<Job>)
    requires js1 != [] && multiset(js1) == multiset(js2)
    ensures js2 == before + [js1[|js1| - 1]] + after
    ensures multiset(before + after) == multiset(js1[..|js1| - 1])
  {
    var j := js1[|js1| - 1];
    var init := js1[..|js1| - 1];
    assert js1 == init + [j];
    assert j in multiset(js2);
    var t :| 0 <= t < |js2| && js2[t] == j;
    before, after := js2[..t], js2[t + 1..];
    assert js2 == before + [j] + after;
    calc {
      multiset(init) + multiset{j};
      multiset(js1);
      multiset(js2);
      multiset(before + [j]) + multiset(after);
      multiset(before) + multiset{j} + multiset(after);
    }
    assert multiset(before + after) == multiset(before) + multiset(after);
    assert multiset(init) == multiset(js1) - multiset{j};
    assert multiset(before + after) == multiset(js2) - multiset{j};
  }

  /** Any arrival order of the same jobs contributes the same records, up to
      order. */
  lemma {:induction false} CollectedPermutation(fetch: int -> Result<Pair>, js1: seq<Job>, js2: seq<Job>)
    requires multiset(js1) == multiset(js2)
    ensures multiset(Collected(fetch, js1)) == multiset(Collected(fetch, js2))
    decreases |js1|
  {
    if js1 == [] {
      assert |js2| == |multiset(js2)| == 0;
    } else {
      var j := js1[|js1| - 1];
      var init := js1[..|js1| - 1];
      var before, after := SplitAt(js1, js2);
      CollectedPermutation(fetch, init, before + after);
      CollectedWithout(fetch, before, j, after);
      assert Collected(fetch, js1) == Collected(fetch, init) + Fetched(fetch, j.start, j.end);
    }
  }

  /** Any arrival order of the same jobs asks for the same number of indices. */
  lemma {:induction false} TotalLengthPermutation(js1: seq<Job>, js2: seq<Job>)
    requires multiset(js1) == multiset(js2)
    ensures TotalLength(js1) == TotalLength(js2)
    decreases |js1|
  {
    if js1 == [] {
      assert |js2| == |multiset(js2)| == 0;
    } else {
      var j := js1[|js1| - 1];
      var init := js1[..|js1| - 1];
      var before, after := SplitAt(js1, js2);
      TotalLengthPermutation(init, before + after);
      TotalLengthWithout(before, j, after);
      assert js1 == init + [j];
      TotalLengthAppend(init, [j]);
    }
  }

  /** What the pool adds for the producer's jobs over `[n, pairCount)`, in
      any arrival order: the records of the range, each as often, at most
      one per index and exactly one per index when no fetch fails; in
      sending order, the records in registry order. */
  lemma PoolRecords(fetch: int -> Result<Pair>, arrival: seq<Job>, n: int, pairCount: int, step: nat, dexExchange: string)
    requires step > 0 && n <= pairCount
    requires multiset(arrival) == multiset(Partition(n, pairCount, step, dexExchange))
    ensures multiset(Collected(fetch, arrival)) == multiset(Fetched(fetch, n, pairCount))
    ensures |Collected(fetch, arrival)| <= pairCount - n
    ensures arrival == Partition(n, pairCount, step, dexExchange) ==> Collected(fetch, arrival) == Fetched(fetch, n, pairCount)
    ensures (forall i :: n <= i < pairCount ==> fetch(i).Ok?) ==> |Collected(fetch, arrival)| == pairCount - n
  {
    var jobs := Partition(n, pairCount, step, dexExchange);
    var added := Collected(fetch, arrival);
    CollectedPartition(fetch, n, pairCount, step, dexExchange);
    CollectedPermutation(fetch, arrival, jobs);
    assert |added| == |multiset(added)| == |multiset(Fetched(fetch, n, pairCount))| == |Fetched(fetch, n, pairCount)|;
    FetchedBound(fetch, n, pairCount);
    if forall i :: n <= i < pairCount ==> fetch(i).Ok? {
      FetchedComplete(fetch, n, pairCount);
    }
  }
}
