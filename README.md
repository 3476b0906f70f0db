# dex-pairs in Dafny

dex-pairs is a command-line tool that builds a JSON dataset of the trading
pairs listed by a decentralised exchange's factory contract (Uniswap on
Ethereum, PancakeSwap on BNB Smart Chain). It asks the factory how many pairs
exist, resumes from the dataset already on disk, splits the remaining
registry indices into jobs of at most 300 indices, fetches the jobs on a pool
of worker goroutines, appends every batch to the dataset and writes the
dataset back.

This project models that core and proves properties of the model:

- `wrappers.dfy` (`Wrappers`): `Option` and `Result`.
- `dex_exchange.dfy` (`DexExchange`): the symbol whitelist
  `^[ \w.'+\-$%/]+$` as a matcher. The model proves the matcher equal to a
  character-class reading of the pattern. It also holds the zero address.
- `dex.dfy` (`Dex`): the pair record and `GetPair`. Uniswap's and
  PancakeSwap's bodies are identical, so they share one model. The node's
  answers to the contract calls are an input (`PairAnswers`). What remains is
  the normalisation: the zero-address check, the whitelist, `UNK`, the
  13-character cut, the name format, lowercasing, and Go's zero values for
  calls whose errors are ignored. `GetPair` is the statement-by-statement
  method. `PairRecord` is the function it is proved equal to.
- `jobs.dfy` (`Jobs`): the resume offset, `step`, `jobCount` with Go's
  truncating `/` and `%`, the worker count, and the producer loop
  (`ProduceJobs`), proved to send `Partition`. The job ranges are shown to
  be disjoint. Together they cover exactly `[n, pairCount)` and number
  `jobCount`.
- `workers.dfy` (`Workers`): `getPairs` as a loop over a shared progress
  counter (`Progress`), proved to return `Fetched`. It also holds the
  concatenation of batches (`Collected`) and its laws. Sending-order arrival
  gives the registry order. Any arrival order gives the same records, each
  as often.
- `channels.dfy` (`Channels`): the job channel (capacity `cores`), the
  unbuffered result channel and the workers while the producer loop runs, as
  a state machine over all schedules. The producer finishes exactly when
  there are at most twice as many jobs as workers.
- `pipeline.dfy` (`Pipeline`): the factory table, `getDex`, loading the
  input file, `main`'s checks in the source's order (`MakePlan`), the worker
  pool and aggregator as a loop that takes any pending job (`RunPool`), and
  `main` itself (`Run`). `Run` ends in a panic, an exit without saving, a
  hang after the workers have fetched the jobs they took, or a save of a
  document that `SavedRecords` describes.

The model follows the code, including where it does not do what one might
expect:

- One might expect the run to resume at `len(tokens)`. It resumes at
  `len(tokens) - 1` (main.go:162-165). The last stored record is fetched again (see Findings).
- A run with nothing to fetch (`jobCount == 0`) returns without writing the
  output file (main.go:175-177).
- A factory table without the chosen chain or version is not an error. Go's
  map lookup yields the zero address, and the run goes on against it
  (main.go:128, 130).
- An empty registry makes `step` zero, and the division at main.go:170
  panics.
- An unreadable or malformed input file only logs an error. `data` is then
  nil, and `len(data.Tokens)` dereferences it (main.go:158-162).
- With a negative `-cores`, `make(chan job, cores)` panics
  (main.go:182). With `-cores 0` the producer blocks on its first send.
- A dataset already longer than the registry can make `jobCount` 1 while the
  producer loop sends nothing. The aggregator then waits for a result that
  never comes (main.go:193-208).
- For a registry of five pairs, `step` is `min(300, 5) == 5`, which gives one job
  `[0, 5)`. With a step of 2 the ranges would be `[0,2) [2,4) [4,5)`
  (`Jobs.PartitionExample`).

## Model

| member | source | states |
|---|---|---|
| DexExchange.IsWordChar | dex/dex_exchange.go:9 | computes RE2's `\w`: an ASCII letter, digit or `_` |
| DexExchange.InAllowedClass | dex/dex_exchange.go:9 | computes the bracketed class: `\w`, space, or one of `.'+-$%/` |
| DexExchange.MatchesAllowed | dex/dex_exchange.go:9 | computes how the anchored pattern matches: one class character, then the end of the text or another match |
| DexExchange.MatchesAllowedIff | dex/dex_exchange.go:9 | the anchored whitelist accepts a symbol if and only if it is non-empty and every character is a space, an ASCII letter, digit or `_`, or one of `.'+-$%/` |
| DexExchange.EmptyRejected | dex/dex_exchange.go:9 | the `+` rejects the empty symbol |
| DexExchange.OneBadCharRejects | dex/dex_exchange.go:9 | one character outside the class anywhere rejects the whole symbol |
| DexExchange.AcceptedIsAscii | dex/dex_exchange.go:9 | `\w` is ASCII only, so every accepted symbol is ASCII and its length in characters is its byte length |
| DexExchange.TrailingNewlineRejected | dex/dex_exchange.go:9 | `$` is end of text, so a symbol followed by a newline is rejected |
| DexExchange.WhitelistExamples | dex/dex_exchange.go:9 | `UNK` and `Cake-LP` pass; `US@D` and a symbol with a non-ASCII letter fail |
| Dex.Lower | dex/uniswap.go:72-75 | `strings.ToLower` on an address keeps its length and lowercases each ASCII letter |
| Dex.LowerIdempotent | dex/uniswap.go:72-75 | lowercasing a stored address again changes nothing |
| Dex.LowerHasNoUpper | dex/uniswap.go:72-75 | a stored address has no upper-case ASCII letter |
| Dex.LowerFixesLowercase | dex/uniswap.go:72-75 | text without upper-case letters is its own lowercase form |
| Dex.LowerZeroAddress | dex/dex_exchange.go:10 | the zero address is stored as written |
| Dex.Truncate | dex/uniswap.go:64-66 | `s[:13]` when longer than 13: a prefix of at most 13 characters, the whole symbol when it is short, exactly 13 characters when it is long |
| Dex.TokenSymbol | dex/uniswap.go:50-63 | the symbol before truncation always passes the whitelist; the zero address gets `UNK`; otherwise the fetched symbol when the call succeeded and passes, else `UNK` |
| Dex.ShownSymbols | dex/uniswap.go:64-69 | as written: token0's shown symbol has at most 13 characters; it is token0's cut symbol when token1's symbol is short, and token1's first 13 characters when that is long; token1's symbol is never cut |
| Dex.ShownSymbolsIntended | dex/uniswap.go:64-69 | corrected: each token shows a prefix of its own symbol of at most 13 characters, the whole symbol when short |
| Dex.ShownSymbolsAgreeIff | dex/pancake_swap.go:66-71 | the code as written and the corrected cut agree if and only if token1's symbol has at most 13 characters |
| Dex.LongToken1SymbolOverwritesToken0 | dex/pancake_swap.go:66-71 | WETH against a 16-character token1 symbol is named `ABCDEFGHIJKLM/ABCDEFGHIJKLMNOP` instead of `WETH/ABCDEFGHIJKLM` |
| Dex.PairName | dex/uniswap.go:74 | the name is the pair name, ` - `, token0's shown symbol, `/`, token1's shown symbol, with the lengths adding up |
| Dex.PairRecord | dex/uniswap.go:33-81 | a record is an error exactly when the factory's `allPairs` call fails, with that error; otherwise the chain id, the lowercased pair and token addresses (the zero address for a failed token call), the pair symbol (`""` if failed) and decimals (0 if failed) |
| Dex.GetPair | dex/pancake_swap.go:34-83 | the statement-by-statement `GetPair` returns `PairRecord` of the node's answers |
| Dex.RecordName | dex/uniswap.go:74 | a fetched record's name is the pair name, token0's shown symbol (possibly overwritten) and token1's symbol, as `Sprintf("%s - %s/%s")` formats them |
| Dex.NameShape | dex/uniswap.go:50-74 | every fetched name is `pairName - X/Y` with X whitelisted and at most 13 characters, and Y token1's whitelisted symbol |
| Dex.PrefixAllowed | dex/uniswap.go:64-69 | cutting a whitelisted symbol leaves it whitelisted |
| Dex.ZeroTokenShowsUnknown | dex/uniswap.go:44-57 | a zero or unknown token0 address is stored as the zero address and shows `UNK` unless token1's long symbol overwrites it |
| Dex.RejectedSymbolShowsUnknown | dex/pancake_swap.go:60-65 | a failed or rejected token1 symbol makes the name `pairName - X/UNK` for some shown token0 symbol X |
| Dex.ShortSymbolsShownInFull | dex/uniswap.go:50-74 | two accepted symbols of at most 13 characters appear in the name in full |
| Dex.LongToken0SymbolCut | dex/uniswap.go:64-66 | a long token0 symbol appears as its first 13 characters when token1's is short |
| Jobs.JobLength | main.go:40-44 | computes how many indices a job asks for, `end - start` |
| Jobs.TotalLength | main.go:193-199 | computes how many indices a list of jobs asks for in all |
| Jobs.TotalLengthAppend | main.go:193-199 | the indices asked for by two lists of jobs add up |
| Jobs.ResumeOffset | main.go:162-165 | the resume offset is the stored length minus one, and 0 for an empty dataset |
| Jobs.Step | main.go:166-169 | the step is 300 or the registry size, whichever is smaller; it is positive if and only if the registry is not empty |
| Jobs.GoDiv | main.go:170 | computes Go's integer `/`, truncating toward zero |
| Jobs.GoRem | main.go:172 | computes Go's integer `%`, whose sign follows the dividend |
| Jobs.JobCount | main.go:170-174 | computes `jobCount`: Go's quotient of `pairCount - n` by `step`, plus one when the remainder is not zero |
| Jobs.GoDivRem | main.go:170-174 | Go's truncating `/` and `%` recombine to the dividend, agree with Dafny's for a non-negative dividend, and give a non-positive remainder otherwise |
| Jobs.JobCountIsCeiling | main.go:170-174 | inside the registry `jobCount` is the ceiling of `(pairCount - n) / step`: at least 1 when there is work, 0 when `n == pairCount` |
| Jobs.OverrunJobCount | main.go:170-174 | past the registry `jobCount` is at most 1, and exactly 1 if and only if the overrun is shorter than a step |
| Jobs.WorkerCount | main.go:178-180 | the worker count is `cores` or `jobCount`, whichever is smaller |
| Jobs.Partition | main.go:193-199 | computes the jobs the producer loop sends: from `n` in steps of `step`, each ending at the next step or at `pairCount` |
| Jobs.ProduceJobs | main.go:193-199 | the producer loop sends exactly `Partition(n, pairCount, step)` |
| Jobs.PartitionShape | main.go:193-199 | no jobs exactly when `n >= pairCount`; every job is a non-empty range inside `[n, pairCount)` of at most `step` indices labelled with the exchange; consecutive jobs touch; the first starts at `n` and the last ends at `pairCount` |
| Jobs.PartitionDisjoint | main.go:193-199 | an earlier job ends before a later one starts |
| Jobs.PartitionCovers | main.go:193-199 | an index lies in some job if and only if it lies in `[n, pairCount)` |
| Jobs.PartitionJobsNonEmpty | main.go:193-199 | every job the producer sends asks for at least one index |
| Jobs.PartitionPrefixLength | main.go:193-199 | when `k` whole steps fit before `pairCount`, the first `k` jobs ask for `k * step` indices |
| Jobs.PartitionTotalLength | main.go:193-199 | the jobs ask for `pairCount - n` indices in all when `n < pairCount` |
| Jobs.PartitionCount | main.go:170-199 | for `n <= pairCount` the producer sends exactly `jobCount` jobs, the number of results main waits for |
| Jobs.OverrunSendsNothing | main.go:193 | from `n >= pairCount` the producer sends nothing |
| Jobs.PartitionExample | main.go:166-199 | five pairs with step 2 give `[0,2) [2,4) [4,5)`; the real step gives the single job `[0,5)` |
| Workers.Fetch | main.go:95 | computes what `d.GetPair(int64(i))` gives for each index: the record built from the node's answers to that factory |
| Workers.Fetched | main.go:93-108 | computes `getPairs`' result: the successful records of `[start, end)` in index order, failures skipped |
| Workers.Progress.constructor | main.go:64 | the shared counter starts at 0 |
| Workers.GetPairs | main.go:86-109 | `getPairs` returns the successful records of `[start, end)` in index order and raises the counter once per index, failed or not |
| Workers.FetchedSplit | main.go:94-107 | the batch of `[a, c)` is the batch of `[a, b)` followed by that of `[b, c)` |
| Workers.FetchedMembers | main.go:94-107 | a record is in a batch if and only if some index of the range fetched it |
| Workers.FetchedBound | main.go:94-107 | a batch has at most one record per index |
| Workers.FetchedComplete | main.go:94-107 | with no failed index the batch has one record per index, that of `start + k` at position `k` |
| Workers.Collected | main.go:202-208 | computes what the aggregator appends: the batches of the jobs in their order of arrival |
| Workers.CollectedAppend | main.go:202-208 | appending the batches of two lists of jobs appends their records |
| Workers.PoolRecords | main.go:186-208 | for the producer's jobs over `[n, pairCount)` in any arrival order, the batches hold the records of that range, each as often, at most one per index, exactly one per index when no fetch fails, and in registry order when jobs arrive in sending order |
| Workers.CollectedPartition | main.go:193-208 | the batches of the producer's jobs in sending order are the batch of `[n, pairCount)` |
| Workers.CollectedWithout | main.go:202-208 | taking one job out of an arrival order takes out exactly its records |
| Workers.SplitAt | main.go:202-208 | a job of one arrival order sits somewhere in any other order of the same jobs |
| Workers.CollectedPermutation | main.go:186-208 | any arrival order of the same jobs gives the same records, each as often |
| Workers.TotalLengthPermutation | main.go:186-208 | any arrival order asks for the same number of indices |
| Channels.Enabled | main.go:182-201 | computes when a channel operation can happen: a send needs a free buffer slot and jobs left, a take a buffered job and an idle worker, a delivery a reading main and a holding worker |
| Channels.Apply | main.go:182-201 | computes the state after one channel operation |
| Channels.Execute | main.go:182-201 | computes the state a schedule of operations reaches, or none when some operation cannot happen |
| Channels.Stuck | main.go:182-201 | computes whether no operation can happen, which blocks every goroutine |
| Channels.Consistent | main.go:182-201 | computes the invariant of the channel protocol: jobs are conserved and neither the buffer nor the workers exceed `cores` |
| Channels.ExecuteConsistent | main.go:182-201 | in every reachable state each sent job is buffered, held by a worker or delivered; neither the buffer nor the workers exceed `cores`; nothing is delivered before main reads |
| Channels.ProducerSendsAtMostTwiceWorkers | main.go:182-201 | as written, before main reads, at most twice `cores` jobs can be sent |
| Channels.ProducerNeverStuckWhenJobsFit | main.go:182-201 | with at most twice `cores` jobs, the producer is never blocked for good before sending them all |
| Channels.ProducerFinishes | main.go:193-199 | computes whether the producer loop runs to its end: at most twice as many jobs as workers |
| Channels.ProducerFinishesIff | main.go:182-201 | the producer loop finishes if and only if there are at most twice as many jobs as workers |
| Channels.FillSchedule | main.go:182-199 | computes the schedule that hands one job to each worker and then fills the buffer |
| Channels.FillScheduleState | main.go:182-201 | the schedule that hands every worker a job and then fills the buffer reaches the state counted |
| Channels.FillWorkers | main.go:182-192 | while some worker is idle, each job sent is taken at once: after `k <= w` jobs every one is held by a worker and the buffer is empty |
| Channels.FillBuffer | main.go:182-199 | once every worker holds a job, each further job stays in the buffer: after `w < k <= 2w` jobs `k - w` are buffered |
| Channels.StuckWorkersHoldOneEach | main.go:182-201 | in every state where the producer is blocked for good, each worker holds one job and the buffer is full: `2 * cores` jobs sent, `cores` of them taken; the channel hands jobs out in sending order, so those are the first `cores` |
| Channels.ProducerDeadlocks | main.go:182-201 | as written, with more than twice `cores` jobs, a state is reached where every goroutine is blocked after `2 * cores` sends |
| Channels.ReadingWhileProducingNeverStuck | main.go:182-201 | corrected: when results are read while jobs are produced, one worker suffices and no state is stuck before every job is sent |
| Pipeline.FactoryAddress | main.go:24-38 | the factory is the table entry for family, chain and version, and the zero address exactly when there is none |
| Pipeline.GetDex | main.go:126-133 | a found exchange carries the chosen chain and the table's factory |
| Pipeline.GetDexDispatch | main.go:126-133 | with a working client, `getDex` fails if and only if the family is neither `uniswap` nor `pancakeswap`, and picks the named family; without a client it fails |
| Pipeline.FactoryExamples | main.go:18-38 | Uniswap v2 on chain 1 and PancakeSwap v2 on chain 56 are the listed contracts; Uniswap on chain 56 and PancakeSwap v3 are the zero address |
| Pipeline.Load | main.go:67-84 | a missing file gives an empty template, an unreadable one nil, a parsed one its document |
| Pipeline.FileTemplate.constructor | main.go:50-62 | the template holds the loaded document |
| Pipeline.FileTemplate.Contents | main.go:50-56 | computes the document the template holds: name, version, keywords and records |
| Pipeline.PoolStep | main.go:186-208 | one round moves one pending job to the arrivals, its batch to the records and its length to the counter |
| Pipeline.FetchHeld | main.go:186-192 | the workers of a blocked run each run `getPairs` on the job they took, and the counter rises by those jobs' indices |
| Pipeline.RunJob | main.go:186-206 | one job through a worker and the aggregator appends its batch to `data.Tokens` and adds its length to the counter, touching nothing else |
| Pipeline.RunPool | main.go:186-208 | whatever order the jobs finish in, every job arrives once, `data.Tokens` gains the batches in arrival order, and the counter rises by the indices asked for |
| Pipeline.ProceedArithmetic | main.go:170-201 | when `jobCount` is non-zero, the channel size non-negative and every job gets out, the run starts inside the registry with `jobCount` jobs, at least one worker and at most two jobs per worker, covering `pairCount - n` non-empty indices |
| Pipeline.MakePlan | main.go:148-199 | computes how `main` goes: the `getDex` panic, the exit on a failed `GetPairNumber` and the nil-dataset panic before any fetch, then `PlanJobs` |
| Pipeline.PlanJobs | main.go:162-203 | computes the rest of `main`'s checks in source order: the division by zero for an empty registry, the exit for no jobs and a negative channel size, all before any fetch; then a block for good, whose workers have already fetched the first job of each worker when the producer cannot send every job, or every job when fewer jobs are sent than `jobCount`; otherwise the offset, step, jobs and worker count |
| Pipeline.Saved | main.go:202-211 | computes the saved document: the loaded one with the arrived batches appended |
| Pipeline.Run | main.go:135-216 | `main` ends as `MakePlan` says: a stop before fetching leaves the counter unchanged; a run that blocks hangs after raising the counter by the indices of the jobs its workers took; a run that proceeds saves the loaded document with the arrived batches appended, and the counter rises by `pairCount - n` |
| Pipeline.FetchAndSave | main.go:162-211 | the part of `main` after loading ends as `PlanJobs` says for the loaded document: a stop leaves the counter unchanged; a block hangs after the counter rises by the jobs taken; when it proceeds every job arrives once, the document gains the arrived batches and nothing else, and the counter rises by `pairCount - n` |
| Jobs.ManyJobs | main.go:170-199 | with more than `2 * cores` jobs inside the registry the worker count is `cores`, the producer has more jobs than the channels hold, and the first `cores` jobs fit inside the registry as whole steps |
| Pipeline.ProceedIff | main.go:148-201 | after the first checks, a run fetches and saves if and only if `n < pairCount` and `jobCount <= 2 * cores` |
| Pipeline.ProceedShape | main.go:148-201 | a run that goes ahead uses `getDex`'s exchange, the loaded document, the resume offset, the real step and exactly the producer's jobs |
| Pipeline.SavedRecords | main.go:162-211 | the saved file keeps name, version, keywords and the stored records; its new records are those of `[n, pairCount)`, each as often, in registry order for sending-order arrival, one per index when no fetch fails |
| Pipeline.EmptyRegistryPanics | main.go:166-170 | an empty registry panics with a division by zero |
| Pipeline.StoredPastRegistry | main.go:162-208 | a stored file reaching past the registry is never saved; `pairCount + 1` records exit; a slightly larger overrun blocks without fetching anything |
| Pipeline.ManyJobsHang | main.go:178-201 | inside the registry, more than two jobs per core block the run after the `cores` workers have fetched the first `cores` jobs, one each, `cores * step` indices in all |
| Pipeline.FreshRunOnFourCoresHangs | main.go:140-201 | a first run over 3000 Uniswap v2 pairs on four cores blocks after its four workers have fetched 1200 pairs |
| Pipeline.ResumeOffsetIntended | main.go:162-165 | corrected: the offset is one past the as-written offset for a non-empty dataset |
| Pipeline.ResumeDuplicatesLastRecord | main.go:162-165 | as written: after a gapless earlier run over `[0, L)`, resuming at `len - 1` fetches index `L - 1` again, and in sending order its record directly follows the stored copy; this takes the node to answer index `L - 1` as it did before |
| Pipeline.IntendedResumeContinues | main.go:162-165 | corrected: after a gapless earlier run over `[0, L)`, resuming at the stored length gives the stored records followed by exactly the records a single run over the whole registry adds; after a run with a failed fetch the stored length is below `L`, so even this offset fetches stored indices again |

## Left out

- Contract bindings and the RPC client: every answer the node gives is an
  input (`Node`, `PairAnswers`). The binding code under `contracts/` is not
  part of this model.
- Address formatting: an address is a text that identifies it. EIP-55
  checksumming and hex parsing are not modelled. Lowercasing is ASCII only,
  which covers every address text.
- The goroutines beyond their channel protocol. The pool is a loop that
  takes any pending job next, and the channel protocol is a separate state
  machine. Interleavings inside a job are not modelled, and neither is the
  mutex around the counter. A worker's `getDex` (main.go:88) repeats main's
  call with the same arguments and opens a new client for the same
  `NODE_URL` (dex/uniswap.go:21, dex/pancake_swap.go:22). The model takes
  every open to succeed when main's did, so the worker's
  `panic("Cannot Get DEX")` at main.go:89-91 is not modelled.
- Flags, environment (`NODE_URL`), `runtime.GOMAXPROCS`, logging (and
  its reads of the counter), `fmt.Println`, JSON encoding, and the file
  system. `saveToFile` is the `Save` outcome. Its own write errors only end
  the run.
- `Timestamp` of the file template, which a run carries unchanged.
- Integer widths: `int64(i)`, `pn.Int64()` and Go's `int` are unbounded
  here. `Uint8` keeps decimals below 256.
- A node that changes between runs: `Node` gives the same answer to the
  same call every time, so a resumed run sees what the earlier run saw. A
  retry that fails, or a symbol call that fails only the second time, gives
  no copy or a different copy of the record that
  `ResumeDuplicatesLastRecord` shows twice.
- How the Go runtime ends a blocked run: the `Hang` outcome is a run whose
  goroutines are all blocked for good, after its workers have fetched the
  jobs they took (the plan's `taken`, which raise the counter). The process
  then hangs, or Go aborts it with "all goroutines are asleep - deadlock!"
  when no goroutine of the RPC library is alive. Either way nothing is
  saved. What main holds in memory at that point is not stated.
- `job.dexExchange` is carried but never read by the workers, as in the
  source.

## Findings

| source | as written | input that shows it | evidently intended | confidence | as-written member | corrected member |
|---|---|---|---|---|---|---|
| main.go:162-165 | the run resumes at `len(tokens) - 1` | a stored file of `L > 0` records from a run without failures: index `L - 1` is fetched again and appended | resume at `len(tokens)`, the first missing index | high, not executed | Pipeline.ResumeDuplicatesLastRecord | Pipeline.IntendedResumeContinues |
| dex/uniswap.go:67-69 | a long token1 symbol is cut into `token0Symbol` (the same in dex/pancake_swap.go:69-71) | token0 `WETH`, token1 `ABCDEFGHIJKLMNOP`: name `… - ABCDEFGHIJKLM/ABCDEFGHIJKLMNOP` | cut token1's symbol into `token1Symbol` | high, not executed | Dex.LongToken1SymbolOverwritesToken0 | Dex.ShownSymbolsIntended |
| main.go:182-201 | main receives results only after sending every job on a channel of capacity `cores` | 3000 pairs, `-cores 4`: ten jobs, eight handed out, the ninth send blocks for good | produce jobs while receiving results | high, not executed | Channels.ProducerDeadlocks | Channels.ReadingWhileProducingNeverStuck |

The rest of the model keeps the code's behaviour. The corrected members
stand beside the as-written ones, with their properties proved.
