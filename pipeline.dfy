/** The rest of main.go: the factory table and `getDex`, loading the input
    file, the decisions `main` takes before any pair is fetched, and the run
    itself, with the worker pool and the aggregation loop run one job at a
    time in an order the scheduler picks. */
module Pipeline {
  import opened Wrappers
  import opened DexExchange
  import opened Dex
  import opened Jobs
  import opened Workers
  import opened Channels

  // ---------------------------------------------------------------------------
  // Exchanges (main.go:18-38, 126-133)

  const FactoryContracts: map<string, map<int, map<int, Address>>> := map[
    "pancakeswap" := map[
      56 := map[
        1 := "0xbcfccbde45ce874adcb698cc183debcf17952812",
        2 := "0xca143ce32fe78f1f7019d7d551a6402fc5350c73"]],
    "uniswap" := map[
      1 := map[
        1 := "0xc0a47dfe034b400b47bdad5fecda2621de6c4d95",
        2 := "0x5c69bee701ef814a2b6a3edd4b1652cb9cc5aa6f",
        3 := "0x1f98431c8ad98523631ae4a59f267346ea31f984"]]]

  /** `factoryContracts[dexId][chainId][dexVersion]`: a Go map yields its
      zero value for a missing key, so an unknown family, chain or version
      gives the zero address, not an error. */
  function FactoryAddress(dexId: string, chainId: int, dexVersion: int): (a: Address)
    ensures a == ZeroAddress <==>
      !(dexId in FactoryContracts && chainId in FactoryContracts[dexId] &&
        dexVersion in FactoryContracts[dexId][chainId])
  {
    if dexId in FactoryContracts && chainId in FactoryContracts[dexId] &&
       dexVersion in FactoryContracts[dexId][chainId]
    then FactoryContracts[dexId][chainId][dexVersion]
    else ZeroAddress
  }

  /** `getDex`: the receiver for the named family; `clientOk` stands for
      `jsonrpc.NewClient(NODE_URL)` succeeding. */
  function GetDex(dexId: string, dexVersion: int, chainId: int, clientOk: bool): (r: Result<Exchange>)
    ensures r.Ok? ==> r.value.chainId == chainId && r.value.factory == FactoryAddress(dexId, chainId, dexVersion)
  {
    if dexId == "uniswap" then
      if clientOk then Ok(Exchange(Uniswap, FactoryAddress(dexId, chainId, dexVersion), chainId))
      else Err("cannot open rpc client")
    else if dexId == "pancakeswap" then
      if clientOk then Ok(Exchange(PancakeSwap, FactoryAddress(dexId, chainId, dexVersion), chainId))
      else Err("cannot open rpc client")
    else Err("no appropriate DEX found")
  }

  /** With a working client, `getDex` fails exactly for an unknown family
      name, and otherwise picks the family the name says; a chain or version
      missing from the table is not an error. */
  lemma GetDexDispatch(dexId: string, dexVersion: int, chainId: int)
    ensures GetDex(dexId, dexVersion, chainId, true).Err? <==> dexId != "uniswap" && dexId != "pancakeswap"
    ensures dexId == "uniswap" ==> GetDex(dexId, dexVersion, chainId, true).value.family == Uniswap
    ensures dexId == "pancakeswap" ==> GetDex(dexId, dexVersion, chainId, true).value.family == PancakeSwap
    ensures GetDex(dexId, dexVersion, chainId, false).Err?
  {
  }

  lemma FactoryExamples()
    ensures FactoryAddress("uniswap", 1, 2) == "0x5c69bee701ef814a2b6a3edd4b1652cb9cc5aa6f"
    ensures FactoryAddress("pancakeswap", 56, 2) == "0xca143ce32fe78f1f7019d7d551a6402fc5350c73"
    ensures FactoryAddress("uniswap", 56, 2) == ZeroAddress
    ensures FactoryAddress("pancakeswap", 56, 3) == ZeroAddress
  {
  }

  // ---------------------------------------------------------------------------
  // The dataset file (main.go:50-84)

  datatype Version = Version(major: int, minor: int, patch: int)

  /** The fields of `fileTemplate` that a run reads or writes; `Timestamp` is
      left out. */
  datatype Document = Document(name: string, version: Version, keywords: seq<string>, tokens: seq<Pair>)

  const EmptyDocument: Document := Document("", Version(0, 0, 0), [], [])

  /** The state of the input file: absent, present but not readable or not
      valid JSON, or holding a document. */
  datatype Checkpoint = Missing | Unreadable | Parsed(doc: Document)

  /** `getDataFromFile`: an absent file gives an empty template; an unreadable
      one gives nil (`None`) together with the error. */
  function Load(c: Checkpoint): (r: Option<Document>)
    ensures r.None? <==> c.Unreadable?
    ensures c.Missing? ==> r == Some(EmptyDocument)
    ensures c.Parsed? ==> r == Some(c.doc)
  {
    match c
    case Missing => Some(EmptyDocument)
    case Unreadable => None
    case Parsed(doc) => Some(doc)
  }

  /** The `*fileTemplate` that `main` holds and the aggregator appends to. */
  class FileTemplate {
    var name: string
    var version: Version
    var keywords: seq<string>
    var tokens: seq<Pair>

    function Contents(): Document
      reads this
    {
      Document(name, version, keywords, tokens)
    }

    constructor (doc: Document)
      ensures Contents() == doc
    {
      name, version, keywords, tokens := doc.name, doc.version, doc.keywords, doc.tokens;
    }
  }

  /** `result` of main.go:45-48: a job's batch and a job-level error that the
      workers never set. */
  datatype JobResult = JobResult(pairs: seq<Pair>, err: Option<string>)

  // ---------------------------------------------------------------------------
  // The worker pool and the aggregator (main.go:186-208)

  /** One round of the pool: job `k` of `pending` moves to the arrivals, its
      batch to the records and its length to the counter. `base` and `counter`
      are the records and the count before the pool started; they cancel, but
      stating each step on top of them gives it the exact shape of the loop
      invariants of `RunPool`, which then need no reassociation. */
  lemma PoolStep(fetch: int -> Result<Pair>, jobs: seq<Job>, arrival: seq<Job>, pending: seq<Job>, k: nat,
                 base: seq<Pair>, counter: int)
    requires k < |pending|
    requires multiset(arrival) + multiset(pending) == multiset(jobs)
    ensures multiset(arrival + [pending[k]]) + multiset(pending[..k] + pending[k + 1..]) == multiset(jobs)
    ensures base + Collected(fetch, arrival) + Fetched(fetch, pending[k].start, pending[k].end) ==
      base + Collected(fetch, arrival + [pending[k]])
    ensures counter + TotalLength(arrival) + JobLength(pending[k]) == counter + TotalLength(arrival + [pending[k]])
  {
    var j := pending[k];
    PendingRemove(jobs, arrival, pending, k);
    CollectedAppend(fetch, arrival, [j]);
    assert Collected(fetch, [j]) == Fetched(fetch, j.start, j.end) by {
      assert [j][..0] == [];
    }
    TotalLengthAppend(arrival, [j]);
  }

  lemma PendingRemove(jobs: seq<Job>, arrival: seq<Job>, pending: seq<Job>, k: nat)
    requires k < |pending|
    requires multiset(arrival) + multiset(pending) == multiset(jobs)
    ensures multiset(arrival + [pending[k]]) + multiset(pending[..k] + pending[k + 1..]) == multiset(jobs)
  {
    var j := pending[k];
    assert pending == pending[..k] + [j] + pending[k + 1..];
    assert multiset(pending) == multiset(pending[..k] + pending[k + 1..]) + multiset{j};
  }

  /** One job through the pool: a worker runs `getPairs` on it and sends
      its `result`; the aggregator appends the batch to `data.Tokens`. */
  method RunJob(data: FileTemplate, progress: Progress, ex: Exchange, node: Node, j: Job)
    requires j.start < j.end
    modifies data`tokens, progress
    ensures data.tokens == old(data.tokens) + Fetched(Fetch(ex, node), j.start, j.end)
    ensures progress.counter == old(progress.counter) + JobLength(j)
  {
    var pairs := GetPairs(progress, ex, node, j.start, j.end);
    var r := JobResult(pairs, None);
    data.tokens := data.tokens + r.pairs;
  }

  /** The pool as a sequential fold: each round some job not yet done (any
      one: completion order is up to the scheduler) goes through `RunJob`.
      `arrival` is the order the results came in. */
  method RunPool(data: FileTemplate, progress: Progress, ex: Exchange, node: Node, jobs: seq<Job>)
    returns (ghost arrival: seq<Job>)
    requires forall j :: j in jobs ==> j.start < j.end
    modifies data`tokens, progress
    ensures multiset(arrival) == multiset(jobs)
    ensures data.tokens == old(data.tokens) + Collected(Fetch(ex, node), arrival)
    ensures progress.counter == old(progress.counter) + TotalLength(jobs)
  {
    ghost var fetch := Fetch(ex, node);
    var pending := jobs;
    arrival := [];
    while pending != []
      invariant multiset(arrival) + multiset(pending) == multiset(jobs)
      invariant data.tokens == old(data.tokens) + Collected(fetch, arrival)
      invariant progress.counter == old(progress.counter) + TotalLength(arrival)
      decreases |pending|
    {
      var k :| 0 <= k < |pending|;
      var j := pending[k];
      PoolStep(fetch, jobs, arrival, pending, k, old(data.tokens), old(progress.counter));
      assert j in multiset(jobs);
      RunJob(data, progress, ex, node, j);
      pending := pending[..k] + pending[k + 1..];
      arrival := arrival + [j];
    }
    TotalLengthPermutation(arrival, jobs);
  }

  /** The workers of a run whose producer blocks for good: each runs
      `getPairs` on the job it took and then blocks sending its result, which
      main never receives. */
  method FetchHeld(progress: Progress, ex: Exchange, node: Node, taken: seq<Job>)
    requires forall j :: j in taken ==> j.start < j.end
    modifies progress
    ensures progress.counter == old(progress.counter) + TotalLength(taken)
  {
    var i := 0;
    while i < |taken|
      invariant 0 <= i <= |taken|
      invariant progress.counter == old(progress.counter) + TotalLength(taken[..i])
    {
      var j := taken[i];
      var held := GetPairs(progress, ex, node, j.start, j.end);
      TotalLengthAppend(taken[..i], [j]);
      assert taken[..i + 1] == taken[..i] + [j];
      assert TotalLength([j]) == JobLength(j);
      i := i + 1;
    }
    assert taken[..|taken|] == taken;
  }

  // ---------------------------------------------------------------------------
  // main (main.go:135-216)

  /** The command-line flags that matter to a run; the file names and their
      defaults are left out with the file system. */
  datatype Config = Config(dexExchange: string, chainId: int, dexVersion: int, cores: int)

  datatype PanicReason =
    | CannotGetDex         // panic("Cannot Get DEX")
    | NilDataset           // len(data.Tokens) on the nil template of an unreadable file
    | DivideByZero         // (pairCount - n) / step with step == 0
    | NegativeChannelSize  // make(chan job, cores) with cores < 0

  datatype Outcome =
    | Panic(reason: PanicReason)
    | Exit                 // main returns without writing the output file
    | Hang                 // blocked for good: the process hangs or Go aborts it; nothing is saved
    | Save(doc: Document)  // saveToFile is called with this document

  /** How `main` goes: a final outcome before any fetch; a run that blocks
      for good after its workers have fetched the jobs `taken`; or a run that
      goes ahead, with the exchange, the loaded document, the registry size,
      the resume offset, the step, the job count, the worker count and the
      jobs the producer sends. */
  datatype Plan =
    | Stop(outcome: Outcome)
    | Blocked(taken: seq<Job>)
    | Proceed(ex: Exchange, doc: Document, pairCount: nat, n: nat, step: nat, jobCount: int,
              workers: nat, jobs: seq<Job>)

  /** main.go:148-161 up to the first fetch: the exchange, the registry
      size and the stored document, check by check in the source's order. */
  function MakePlan(config: Config, node: Node, checkpoint: Checkpoint): Plan {
    match GetDex(config.dexExchange, config.dexVersion, config.chainId, node.clientOk)
    case Err(_) => Stop(Panic(CannotGetDex))
    case Ok(ex) =>
      match node.pairNumber(ex.factory)
      case None => Stop(Exit)
      case Some(pairCount) =>
        match Load(checkpoint)
        case None => Stop(Panic(NilDataset))
        case Some(doc) => PlanJobs(config, ex, doc, pairCount)
  }

  /** main.go:162-199: the resume offset, the step, the job count, the
      workers and the jobs, with the ways each can stop the run. The workers
      start before the producer loop, so a run that blocks has fetched some
      jobs: with more jobs than the channels hold, the first job of each
      worker (main.go:186-199); with fewer jobs than `jobCount`, all of them,
      main then waiting for results that never come (main.go:202-203). */
  function PlanJobs(config: Config, ex: Exchange, doc: Document, pairCount: nat): Plan {
    var n := ResumeOffset(|doc.tokens|);
    var step := Step(pairCount);
    if step == 0 then Stop(Panic(DivideByZero))
    else
      var jobCount := JobCount(pairCount, n, step);
      if jobCount == 0 then Stop(Exit)
      else
        var workers := WorkerCount(config.cores, jobCount);
        if workers < 0 then Stop(Panic(NegativeChannelSize))
        else
          var jobs := Partition(n, pairCount, step, config.dexExchange);
          if !ProducerFinishes(workers, |jobs|) then Blocked(jobs[..workers])
          else if |jobs| < jobCount then Blocked(jobs)
          else Proceed(ex, doc, pairCount, n, step, jobCount, workers, jobs)
  }

  /** The arithmetic behind a run that goes ahead: when the job count is
      non-zero, the channel size non-negative and the producer gets every job
      out, the run starts inside the registry, sends `jobCount` non-empty jobs
      and asks for every remaining index once. */
  lemma ProceedArithmetic(pairCount: int, n: int, step: nat, cores: int, dexExchange: string)
    requires step > 0
    ensures var jobCount := JobCount(pairCount, n, step);
      var workers := WorkerCount(cores, jobCount);
      var jobs := Partition(n, pairCount, step, dexExchange);
      jobCount != 0 && workers >= 0 && ProducerFinishes(workers, |jobs|) && |jobs| >= jobCount ==>
        n < pairCount && |jobs| == jobCount && 1 <= workers && jobCount <= 2 * workers &&
        TotalLength(jobs) == pairCount - n && (forall j :: j in jobs ==> j.start < j.end)
  {
    var jobs := Partition(n, pairCount, step, dexExchange);
    if n > pairCount {
      OverrunJobCount(pairCount, n, step);
      OverrunSendsNothing(n, pairCount, step, dexExchange);
    } else {
      JobCountIsCeiling(pairCount, n, step);
      PartitionCount(n, pairCount, step, dexExchange);
      PartitionTotalLength(n, pairCount, step, dexExchange);
      PartitionJobsNonEmpty(n, pairCount, step, dexExchange);
    }
  }

  /** The document written at the end of a run whose results arrived in
      order `arrival`. */
  function Saved(p: Plan, node: Node, arrival: seq<Job>): Document
    requires p.Proceed?
  {
    p.doc.(tokens := p.doc.tokens + Collected(Fetch(p.ex, node), arrival))
  }

  /** `main`. */
  method Run(config: Config, node: Node, checkpoint: Checkpoint, progress: Progress)
    returns (outcome: Outcome, ghost arrival: seq<Job>)
    modifies progress
    ensures var p := MakePlan(config, node, checkpoint);
      p.Stop? ==> outcome == p.outcome && progress.counter == old(progress.counter)
    ensures var p := MakePlan(config, node, checkpoint);
      p.Blocked? ==> outcome == Hang && progress.counter == old(progress.counter) + TotalLength(p.taken)
    ensures var p := MakePlan(config, node, checkpoint);
      p.Proceed? ==>
        multiset(arrival) == multiset(p.jobs) &&
        outcome == Save(Saved(p, node, arrival)) &&
        progress.counter == old(progress.counter) + (p.pairCount - p.n)
  {
    arrival := [];
    var exchange := GetDex(config.dexExchange, config.dexVersion, config.chainId, node.clientOk);
    if exchange.Err? {
      return Panic(CannotGetDex), arrival;
    }
    var ex := exchange.value;
    var pn := node.pairNumber(ex.factory);
    if pn.None? {
      return Exit, arrival;
    }
    var pairCount := pn.value;
    var loaded := Load(checkpoint);
    if loaded.None? {
      return Panic(NilDataset), arrival;
    }
    var data := new FileTemplate(loaded.value);
    outcome, arrival := FetchAndSave(config, node, ex, data, pairCount, progress);
  }

  /** main.go:162-211 on the loaded template. */
  method FetchAndSave(config: Config, node: Node, ex: Exchange, data: FileTemplate, pairCount: nat, progress: Progress)
    returns (outcome: Outcome, ghost arrival: seq<Job>)
    modifies data`tokens, progress
    ensures var p := PlanJobs(config, ex, old(data.Contents()), pairCount);
      p.Stop? ==> outcome == p.outcome && progress.counter == old(progress.counter)
    ensures var p := PlanJobs(config, ex, old(data.Contents()), pairCount);
      p.Blocked? ==> outcome == Hang && progress.counter == old(progress.counter) + TotalLength(p.taken)
    ensures var p := PlanJobs(config, ex, old(data.Contents()), pairCount);
      p.Proceed? ==>
        multiset(arrival) == multiset(p.jobs) &&
        outcome == Save(Saved(p, node, arrival)) &&
        progress.counter == old(progress.counter) + (p.pairCount - p.n)
  {
    arrival := [];
    ghost var doc := data.Contents();
    var n := ResumeOffset(|data.tokens|);
    var step := Step(pairCount);
    if step == 0 {
      return Panic(DivideByZero), arrival;
    }
    var jobCount := JobCount(pairCount, n, step);
    if jobCount == 0 {
      return Exit, arrival;
    }
    var cores := WorkerCount(config.cores, jobCount);
    if cores < 0 {
      return Panic(NegativeChannelSize), arrival;
    }
    var jobs := ProduceJobs(n, pairCount, step, config.dexExchange);
    if !ProducerFinishes(cores, |jobs|) {
      var taken := jobs[..cores];
      assert PlanJobs(config, ex, doc, pairCount) == Blocked(taken);
      PartitionJobsNonEmpty(n, pairCount, step, config.dexExchange);
      assert forall j :: j in taken ==> j in jobs;
      FetchHeld(progress, ex, node, taken);
      return Hang, arrival;
    }
    if |jobs| < jobCount {
      assert PlanJobs(config, ex, doc, pairCount) == Blocked(jobs);
      PartitionJobsNonEmpty(n, pairCount, step, config.dexExchange);
      arrival := RunPool(data, progress, ex, node, jobs);
      return Hang, arrival;
    }
    ghost var plan := Proceed(ex, doc, pairCount, n, step, jobCount, cores, jobs);
    assert PlanJobs(config, ex, doc, pairCount) == plan;
    ProceedArithmetic(pairCount, n, step, config.cores, config.dexExchange);
    arrival := RunPool(data, progress, ex, node, jobs);
    outcome := Save(data.Contents());
    assert data.Contents() == Saved(plan, node, arrival);
  }

  // ---------------------------------------------------------------------------
  // When a run saves, and what it saves

  /** The checks before the first fetch that do not depend on the numbers:
      the exchange is found, the registry answers, the file is readable. */
  predicate Reachable(config: Config, node: Node, checkpoint: Checkpoint) {
    var dex := GetDex(config.dexExchange, config.dexVersion, config.chainId, node.clientOk);
    dex.Ok? && node.pairNumber(dex.value.factory).Some? && !checkpoint.Unreadable?
  }

  function PairCount(config: Config, node: Node, checkpoint: Checkpoint): nat
    requires Reachable(config, node, checkpoint)
  {
    node.pairNumber(GetDex(config.dexExchange, config.dexVersion, config.chainId, node.clientOk).value.factory).value
  }

  function Offset(checkpoint: Checkpoint): nat
    requires !checkpoint.Unreadable?
  {
    ResumeOffset(|Load(checkpoint).value.tokens|)
  }

  /** Past the first checks, a run fetches and saves exactly when the resume
      offset lies inside the registry and there are at most twice as many
      jobs as `-cores` workers. */
  lemma ProceedIff(config: Config, node: Node, checkpoint: Checkpoint)
    requires Reachable(config, node, checkpoint)
    ensures var pairCount, n := PairCount(config, node, checkpoint), Offset(checkpoint);
      MakePlan(config, node, checkpoint).Proceed? <==>
        n < pairCount && JobCount(pairCount, n, Step(pairCount)) <= 2 * config.cores
  {
    var pairCount, n := PairCount(config, node, checkpoint), Offset(checkpoint);
    var step := Step(pairCount);
    if step > 0 {
      ProceedArithmetic(pairCount, n, step, config.cores, config.dexExchange);
      if n < pairCount {
        JobCountIsCeiling(pairCount, n, step);
        PartitionCount(n, pairCount, step, config.dexExchange);
      }
    }
  }

  /** What a run that goes ahead settles on: the exchange `getDex` returns,
      the loaded document, and the producer's jobs over `[n, pairCount)`,
      one per worker slot at most twice over. */
  lemma ProceedShape(config: Config, node: Node, checkpoint: Checkpoint)
    requires MakePlan(config, node, checkpoint).Proceed?
    ensures Reachable(config, node, checkpoint)
    ensures var p := MakePlan(config, node, checkpoint);
      p.ex == GetDex(config.dexExchange, config.dexVersion, config.chainId, node.clientOk).value &&
      p.doc == Load(checkpoint).value &&
      p.pairCount == PairCount(config, node, checkpoint) &&
      p.n == Offset(checkpoint) && p.n < p.pairCount &&
      p.step == Step(p.pairCount) && p.step > 0 &&
      p.jobs == Partition(p.n, p.pairCount, p.step, config.dexExchange) &&
      |p.jobs| == p.jobCount && 1 <= p.workers <= config.cores && p.jobCount <= 2 * p.workers
  {
    var p := MakePlan(config, node, checkpoint);
    ProceedArithmetic(p.pairCount, p.n, p.step, config.cores, config.dexExchange);
  }

  /** The file a run saves keeps the stored records as they were and appends
      the records of `[n, pairCount)`: in registry order when the results
      arrive in sending order, and as the same records, each as often, in any
      other arrival order; one per index when no fetch fails. */
  lemma SavedRecords(config: Config, node: Node, checkpoint: Checkpoint, arrival: seq<Job>)
    requires MakePlan(config, node, checkpoint).Proceed?
    requires multiset(arrival) == multiset(MakePlan(config, node, checkpoint).jobs)
    ensures var p := MakePlan(config, node, checkpoint);
      var fetch := Fetch(p.ex, node);
      var stored := p.doc.tokens;
      var saved := Saved(p, node, arrival);
      saved.name == p.doc.name && saved.version == p.doc.version && saved.keywords == p.doc.keywords &&
      saved.tokens[..|stored|] == stored &&
      multiset(saved.tokens[|stored|..]) == multiset(Fetched(fetch, p.n, p.pairCount)) &&
      |saved.tokens| <= |stored| + (p.pairCount - p.n) &&
      (arrival == p.jobs ==> saved.tokens[|stored|..] == Fetched(fetch, p.n, p.pairCount)) &&
      ((forall i :: p.n <= i < p.pairCount ==> fetch(i).Ok?) ==>
        |saved.tokens| == |stored| + (p.pairCount - p.n))
  {
    var p := MakePlan(config, node, checkpoint);
    ProceedShape(config, node, checkpoint);
    var stored := p.doc.tokens;
    var added := Collected(Fetch(p.ex, node), arrival);
    assert (stored + added)[..|stored|] == stored;
    assert (stored + added)[|stored|..] == added;
    PoolRecords(Fetch(p.ex, node), arrival, p.n, p.pairCount, p.step, config.dexExchange);
  }

  /** An empty registry makes the job-count division divide by zero. */
  lemma EmptyRegistryPanics(config: Config, node: Node, checkpoint: Checkpoint)
    requires Reachable(config, node, checkpoint) && PairCount(config, node, checkpoint) == 0
    ensures MakePlan(config, node, checkpoint) == Stop(Panic(DivideByZero))
  {
  }

  /** A stored file that already reaches past the registry is never saved
      again: a file of `pairCount + 1` records (one full run plus the
      resumed one) makes the next run exit, and one a little longer makes it
      hang without fetching anything, main waiting for the single result the
      count promises. */
  lemma StoredPastRegistry(config: Config, node: Node, checkpoint: Checkpoint)
    requires Reachable(config, node, checkpoint)
    requires 0 < PairCount(config, node, checkpoint) <= Offset(checkpoint)
    ensures !MakePlan(config, node, checkpoint).Proceed?
    ensures Offset(checkpoint) == PairCount(config, node, checkpoint) ==> MakePlan(config, node, checkpoint) == Stop(Exit)
    ensures var pairCount, n := PairCount(config, node, checkpoint), Offset(checkpoint);
      pairCount < n < pairCount + Step(pairCount) && config.cores >= 0 ==> MakePlan(config, node, checkpoint) == Blocked([])
  {
    var pairCount, n := PairCount(config, node, checkpoint), Offset(checkpoint);
    var step := Step(pairCount);
    ProceedIff(config, node, checkpoint);
    OverrunSendsNothing(n, pairCount, step, config.dexExchange);
    if n == pairCount {
      JobCountIsCeiling(pairCount, n, step);
    } else {
      OverrunJobCount(pairCount, n, step);
    }
  }

  /** More jobs than two per worker: the producer blocks for good after each
      of the `-cores` workers has fetched one full job of `step` indices. */
  lemma ManyJobsHang(config: Config, node: Node, checkpoint: Checkpoint)
    requires Reachable(config, node, checkpoint)
    requires var pairCount, n := PairCount(config, node, checkpoint), Offset(checkpoint);
      n < pairCount && config.cores >= 0 && JobCount(pairCount, n, Step(pairCount)) > 2 * config.cores
    ensures var pairCount, n := PairCount(config, node, checkpoint), Offset(checkpoint);
      |Partition(n, pairCount, Step(pairCount), config.dexExchange)| > 2 * config.cores
    ensures var pairCount, n := PairCount(config, node, checkpoint), Offset(checkpoint);
      MakePlan(config, node, checkpoint) == Blocked(Partition(n, pairCount, Step(pairCount), config.dexExchange)[..config.cores])
    ensures MakePlan(config, node, checkpoint).Blocked? &&
      TotalLength(MakePlan(config, node, checkpoint).taken) == config.cores * Step(PairCount(config, node, checkpoint))
  {
    var pairCount, n := PairCount(config, node, checkpoint), Offset(checkpoint);
    var step := Step(pairCount);
    var jobs := Partition(n, pairCount, step, config.dexExchange);
    ManyJobs(pairCount, n, step, config.cores, config.dexExchange);
    PartitionPrefixLength(n, pairCount, step, config.dexExchange, config.cores);
    assert MakePlan(config, node, checkpoint) == PlanJobs(config, GetDex(config.dexExchange, config.dexVersion, config.chainId, node.clientOk).value, Load(checkpoint).value, pairCount);
    assert PlanJobs(config, GetDex(config.dexExchange, config.dexVersion, config.chainId, node.clientOk).value, Load(checkpoint).value, pairCount) == Blocked(jobs[..config.cores]);
  }

  /** A first run over a registry of 3000 pairs on four cores: ten jobs of
      300, eight of which fit in the channels, so it hangs after the four
      workers have fetched 1200 pairs. */
  lemma FreshRunOnFourCoresHangs(node: Node)
    requires node.clientOk
    requires node.pairNumber(FactoryAddress("uniswap", 1, 2)) == Some(3000)
    ensures MakePlan(Config("uniswap", 1, 2, 4), node, Missing).Blocked?
    ensures |MakePlan(Config("uniswap", 1, 2, 4), node, Missing).taken| == 4
    ensures TotalLength(MakePlan(Config("uniswap", 1, 2, 4), node, Missing).taken) == 1200
  {
    var config := Config("uniswap", 1, 2, 4);
    assert JobCount(3000, 0, 300) == 10;
    ManyJobsHang(config, node, Missing);
  }

  // ---------------------------------------------------------------------------
  // The resume offset (main.go:162-165)

  /** The offset the checkpoint evidently calls for: the number of records
      already stored, so the first index fetched is the first one missing. */
  function ResumeOffsetIntended(stored: nat): (n: nat)
    ensures stored > 0 ==> n == ResumeOffset(stored) + 1
    ensures stored == 0 ==> n == ResumeOffset(stored)
  {
    stored
  }

  /** As written: after a gapless earlier run over `[0, L)`, resuming from
      `len - 1` fetches index `L - 1` again, so its record follows the stored
      copy; the node is taken to answer as in the earlier run, and the first
      resumed batch to arrive is the one starting at `L - 1`. */
  lemma ResumeDuplicatesLastRecord(fetch: int -> Result<Pair>, stored: nat, pairCount: int)
    requires 0 < stored <= pairCount
    requires |Fetched(fetch, 0, stored)| == stored
    ensures var len := |Fetched(fetch, 0, stored)|;
      var all := Fetched(fetch, 0, stored) + Fetched(fetch, ResumeOffset(len), pairCount);
      |all| > len && all[len] == all[len - 1]
  {
    FetchedBound(fetch, 0, stored - 1);
    var v := fetch(stored - 1).value;
    assert Fetched(fetch, 0, stored) == Fetched(fetch, 0, stored - 1) + [v];
    FetchedSplit(fetch, stored - 1, stored, pairCount);
    assert Fetched(fetch, stored - 1, stored) == [v];
  }

  /** Corrected: after a gapless earlier run over `[0, L)`, resuming from
      the stored length `len == L` continues that run exactly, giving the
      file a single run over the whole registry would give. After a run
      with a failed fetch the stored length is below `L` and even this
      offset fetches stored indices again. */
  lemma IntendedResumeContinues(fetch: int -> Result<Pair>, stored: nat, pairCount: int)
    requires stored <= pairCount
    requires |Fetched(fetch, 0, stored)| == stored
    ensures var len := |Fetched(fetch, 0, stored)|;
      Fetched(fetch, 0, stored) + Fetched(fetch, ResumeOffsetIntended(len), pairCount) ==
        Fetched(fetch, 0, pairCount)
  {
    FetchedSplit(fetch, 0, stored, pairCount);
  }
}
