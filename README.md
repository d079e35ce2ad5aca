# SushiSwap pairs token list — a verified model

This project models the generator in `generators/buildTokenList.sushiswap-pairs.go` in Dafny. The generator builds the
"SushiSwap Token Pairs" token list. It works in four steps:

1. For every supported chain, it reads the `PairCreated` events of that chain's SushiSwap V2 factory contracts. It reads
   them in block windows, from a resume point up to the chain's current head.
2. It counts, for each token address, the pair sides it appears on in the events read. Any address whose count reaches
   `SUSHI_PAIR_THRESHOLD` (3), and that is not ignored on that chain, becomes a candidate of the chain. The count is of
   pair sides read, not of distinct pairs. A pair read twice at a window boundary adds 2, and so does a pair of a token
   with itself (`Scanner.BoundaryPairCountedTwice`, `Scanner.TwiceCounted`).
3. It enriches each chain's candidates with their on-chain name, symbol and decimals. It drops nameless or symbolless
   tokens and tokens the list rejects.
4. It stores the head it scanned up to as the metadata entry `lastBlockSyncFor_<chainID>`. The next run resumes from
   there.

Modules, one file each:

| module | file | what it holds |
|---|---|---|
| `Types` | `types.dfy` | 64-bit unsigned range, 160-bit addresses, `Option`, the factory contract record, a `PairCreated` log entry |
| `Decimal` | `decimal.dfy` | `strconv.FormatUint` and `strconv.ParseUint(s, 10, 64)`, including the syntax and range errors |
| `Counting` | `counting.dfy` | how the `allTokens` table is updated from log entries |
| `Scanner` | `scanner.dfy` | the window loop over one factory contract, with its retry-on-error behaviour |
| `Threshold` | `threshold.dfy` | the candidate filter |
| `Checkpoint` | `checkpoint.dfy` | reading the resume point and merging new checkpoints into the metadata |
| `Enrich` | `enrich.dfy` | `handleSushiswapPairsTokenList` |
| `Pipeline` | `pipeline.dfy` | `fetchSushiswapPairsTokenList` and `buildSushiswapPairsTokenList` |

Go leaves the iteration order of a map unspecified. The model handles this in two ways:

- The chain order and the merge order are explicit parameters. Each must be a duplicate-free listing of the map's keys.
- Iteration over `allTokens` is a nondeterministic choice, and the contracts hold for every choice.

## Behaviour of the generator that the model makes explicit

- **Counts carry over between chains.** `allTokens` is created once, before the chain loop, and is never reset. An
  address counted 3 times on one chain is therefore a candidate of every later supported chain that does not ignore it.
  This holds even when that chain has no pair with it. See `Pipeline.CandidatesCarryOver` and
  `Pipeline.ChainStepCandidates`.
- **The threshold is 3.** The comment above the chain loop says a token must be in at least 10 pairs. The code compares
  against `SUSHI_PAIR_THRESHOLD`, which is 3. The model follows the code.
- **Window boundaries are read twice.** A window runs from `s` to `min(s + W, head)`, and both ends are included. The
  next window starts at `s + W`, so each boundary block belongs to two windows. A pair created in such a block is
  counted twice. See `Scanner.WindowsChained` and `Scanner.BoundaryPairCountedTwice`.
- **A resumed scan reads the checkpoint block again.** The stored checkpoint is the head that was scanned up to, and the
  next run starts at that same block. See `Scanner.ResumeAtHeadRequeriesHead`.
- **A failed log query is retried without limit.** The loop undoes its step (`-= W` followed by `+= W`), so it asks for
  the same window again. The model bounds the number of calls with a budget. A run that exhausts the budget is reported
  as one that has not returned. A window that always fails is never passed (`Scanner.FailingWindowBlocksScan`, `Scanner.AlwaysFailingNeverFinishes`).
- **A failed head read resets the checkpoint.** If `BlockNumber` fails, the head is 0. No window is scanned unless the scan
  starts at block 0, in which case only [0, 0] is queried. Either way "0" is written as the chain's checkpoint. The next run then starts again from each factory's deployment block, because a
  stored 0 is treated as "no checkpoint". See `Pipeline.BuildSushiswapPairsTokenList`, whose checkpoint guarantee covers
  a head of 0.
- **Parse errors are discarded.** `ParseUint`'s error is dropped. A text that `ParseUint` rejects with a syntax
  error resumes from the deployment block: the empty text, or a sign or letter met before any overflow. A text whose
  digits overflow 64 bits before its first non-digit is a range error instead. Such a text, like any number too large for
  64 bits, resumes at `maxUint64`, so nothing more is scanned. See
  `Checkpoint.ResumePoint`.

## Model

| member | source | states |
|---|---|---|
| `Decimal.FormatUint` | generators/buildTokenList.sushiswap-pairs.go:77 | the decimal text of a number is non-empty, all digits, and has no leading zero |
| `Decimal.ParseUint` | generators/buildTokenList.sushiswap-pairs.go:80 | the parsed value never exceeds maxUint64; it is 0 on a syntax error and maxUint64 on a range error |
| `Decimal.ParseUintAccepts` | generators/buildTokenList.sushiswap-pairs.go:80 | parsing succeeds exactly when the text is non-empty, all digits and at most maxUint64, and then it yields the text's decimal value |
| `Decimal.ValueOfFormat` | generators/buildTokenList.sushiswap-pairs.go:126 | the decimal text of n has value n |
| `Decimal.FormatParseRoundTrip` | generators/buildTokenList.sushiswap-pairs.go:126 | a written checkpoint parses back, without error, to the number written |
| `Decimal.FormatUintInjective` | generators/buildTokenList.sushiswap-pairs.go:156-157 | distinct numbers have distinct decimal texts |
| `Decimal.DigitsNeverSyntaxError` | generators/buildTokenList.sushiswap-pairs.go:80 | a non-empty all-digit text is never a syntax error |
| `Decimal.ParseOverflow` | generators/buildTokenList.sushiswap-pairs.go:80 | an all-digit text whose value exceeds maxUint64 parses to maxUint64 with a range error |
| `Decimal.ParseOfNonCanonical` | generators/buildTokenList.sushiswap-pairs.go:80 | "007" parses to 7; "+7" and "" are syntax errors that yield 0 |
| `Counting.RecordLogsCounts` | generators/buildTokenList.sushiswap-pairs.go:107-120 | after reading log entries, each address's count is its old count plus the number of times the well-formed entries name it; the keys are the old keys plus the named addresses |
| `Counting.RecordLogsGrows` | generators/buildTokenList.sushiswap-pairs.go:111-119 | reading log entries never lowers a count |
| `Counting.RecordEvents` | generators/buildTokenList.sushiswap-pairs.go:107-120 | the loop over one query's log entries skips erroneous entries, adds 1 for token0 and 1 for token1 of every other entry, and leaves unnamed addresses alone |
| `Scanner.WindowSize` | generators/buildTokenList.sushiswap-pairs.go:84-87 | the window width is 5000 on chain 56 and 100000 on every other chain, and is never 0 |
| `Scanner.WindowsBounded` | generators/buildTokenList.sushiswap-pairs.go:95-99 | every window lies within [start, head], with from <= to |
| `Scanner.WindowsChained` | generators/buildTokenList.sushiswap-pairs.go:95-99 | the first window starts at the start block and the last ends at the head; each next window starts W blocks further on, at the previous window's end block, so that block is read twice |
| `Scanner.WindowsCover` | generators/buildTokenList.sushiswap-pairs.go:95-99 | every block from start to head lies in some window |
| `Scanner.ResumeAtHeadRequeriesHead` | generators/buildTokenList.sushiswap-pairs.go:95 | a scan starting at the head still queries the single window [head, head] |
| `Scanner.RunLength` | generators/buildTokenList.sushiswap-pairs.go:95-125 | a scan makes at most budget calls; a scan that does not reach the head has used all of them |
| `Scanner.RunCalls` | generators/buildTokenList.sushiswap-pairs.go:95-106 | call i queries its own window, which starts at the loop counter, lies within [start, head], and has the shape [from, min(from+W, head)]; the first call starts at the start block |
| `Scanner.RunCallsChained` | generators/buildTokenList.sushiswap-pairs.go:121-124 | after a failed call the next call starts at the same block; after a successful one it starts W blocks further on |
| `Scanner.RunFollowsWindows` | generators/buildTokenList.sushiswap-pairs.go:95-125 | the successful calls' windows are, in order, a prefix of the windows of [start, head], and all of them once the scan reaches the head |
| `Scanner.AlwaysFailingNeverFinishes` | generators/buildTokenList.sushiswap-pairs.go:121-124 | if the first window's query always fails, no budget suffices to reach the head, and every call asks for that first window |
| `Scanner.FailingWindowBlocksScan` | generators/buildTokenList.sushiswap-pairs.go:95-124 | if the query of any window of [start, head] always fails, no budget suffices to reach the head |
| `Scanner.ReliableScanFinishes` | generators/buildTokenList.sushiswap-pairs.go:95-125 | with a provider that never fails and one call per window, the scan reaches the head using exactly the windows of [start, head] |
| `Scanner.BoundaryPairCountedTwice` | generators/buildTokenList.sushiswap-pairs.go:95-119 | one pair created at block 100000 and scanned over 0..200000 with W = 100000 leaves both of its tokens counted twice |
| `Scanner.TwiceCounted` | generators/buildTokenList.sushiswap-pairs.go:111-119 | reading the same pair event twice counts each of its tokens twice (four times when both sides name one token) |
| `Scanner.ScanContract` | generators/buildTokenList.sushiswap-pairs.go:95-125 | the window loop makes exactly the calls of the scan specification; the table grows by the events of the successful calls; reaching the head means the successful windows are exactly the windows of [start, head]; otherwise they are a prefix, and the whole budget was used |
| `Threshold.Candidates` | generators/buildTokenList.sushiswap-pairs.go:133-140 | an address is a candidate of a chain exactly when it is not ignored on that chain and its count is at least SUSHI_PAIR_THRESHOLD |
| `Threshold.ThresholdBoundary` | generators/buildTokenList.sushiswap-pairs.go:16 | a count of 3 qualifies, a count of 2 does not, and an ignored address never does |
| `Threshold.FilterCandidates` | generators/buildTokenList.sushiswap-pairs.go:133-140 | the list built by the loop over the table holds exactly the candidates, each once |
| `Checkpoint.CheckpointKeyDecodes` | generators/buildTokenList.sushiswap-pairs.go:77-79 | the metadata key is "lastBlockSyncFor_" followed by a text that parses back to the chain ID |
| `Checkpoint.CheckpointKeyInjective` | generators/buildTokenList.sushiswap-pairs.go:156-157 | distinct chains have distinct checkpoint keys |
| `Checkpoint.ScanStart` | generators/buildTokenList.sushiswap-pairs.go:90-93 | a factory's scan starts at the later of its deployment block and the checkpoint |
| `Checkpoint.ResumePoint` | generators/buildTokenList.sushiswap-pairs.go:77-93 | with no stored checkpoint, or one that is a syntax error, the scan starts at the deployment block; with a number that fits, at the later of the two; with one too large, at maxUint64 |
| `Checkpoint.WrittenCheckpointReadBack` | generators/buildTokenList.sushiswap-pairs.go:155-157 | a checkpoint written as the decimal text of h reads back as h |
| `Checkpoint.MergeCheckpoints` | generators/buildTokenList.sushiswap-pairs.go:152-158 | after the merge each chain's key holds that chain's checkpoint text; the keys are the old keys plus the written ones; every other entry is unchanged |
| `Enrich.KeptTokensMembers` | generators/buildTokenList.sushiswap-pairs.go:31-47 | a chain's result is no longer than its list; each token in it comes from a listed address whose information has a name and a symbol, carries that chain's ID and an empty logo, and is accepted; each such address yields its token |
| `Enrich.EnrichChain` | generators/buildTokenList.sushiswap-pairs.go:30-48 | the per-chain loop produces exactly the tokens of its listed addresses whose information is present, named and accepted, in list order |
| `Enrich.AllKeptByChain` | generators/buildTokenList.sushiswap-pairs.go:18-54 | a merged token belongs to its own chain's result; every token of every chain's result is in the merged list |
| `Enrich.HandleSushiswapPairsTokenList` | generators/buildTokenList.sushiswap-pairs.go:18-54 | the merged list is the chains' results one after another; no chain's token is lost or attributed to another chain |
| `Pipeline.ScanContractsReadsChainEvents` | generators/buildTokenList.sushiswap-pairs.go:89-127 | scanning a chain's factories returns exactly when every scan reaches the head; the table is then the incoming table, holding the earlier chains' counts, with that chain's events read into it |
| `Pipeline.FetchCandidateKeys` | generators/buildTokenList.sushiswap-pairs.go:67-71 | every supported chain, and no unsupported one, gets a candidate list |
| `Pipeline.FetchCheckpoints` | generators/buildTokenList.sushiswap-pairs.go:83-126 | every supported chain with a factory, and no other chain, gets a checkpoint, and it is the decimal text of the head read at the chain's start |
| `Pipeline.FetchCountsGrow` | generators/buildTokenList.sushiswap-pairs.go:58 | counts never fall from one chain to the next: allTokens is not reset |
| `Pipeline.ChainStepCandidates` | generators/buildTokenList.sushiswap-pairs.go:89-140 | an address is a candidate of a chain exactly when it is not ignored there and its count carried in from earlier chains, plus its mentions in that chain's events, reaches the threshold |
| `Pipeline.CandidatesCarryOver` | generators/buildTokenList.sushiswap-pairs.go:58-140 | an address already counted 3 times is a candidate of every later supported chain that does not ignore it |
| `Pipeline.ScanFactories` | generators/buildTokenList.sushiswap-pairs.go:89-127 | the factory loop of a chain computes the chain-scan specification, and it sets the chain's checkpoint to the head when the chain has a factory |
| `Pipeline.ScanChains` | generators/buildTokenList.sushiswap-pairs.go:56-142 | the chain loop returns exactly when the specification does; its candidate lists and checkpoints are the specification's, and each list is duplicate-free |
| `Pipeline.FetchSushiswapPairsTokenList` | generators/buildTokenList.sushiswap-pairs.go:56-144 | the fetch returns exactly when every scan reaches its head; it then returns the specification's checkpoints and the enrichment of one candidate list per supported chain |
| `Pipeline.BuildSushiswapPairsTokenList` | generators/buildTokenList.sushiswap-pairs.go:146-158 | the list is renamed; every scanned chain's checkpoint reads back as its head, so the next run resumes each factory at the later of its deployment and that head; every other metadata entry is kept |

## Left out

- RPC access: `BlockNumber` and `FilterPairCreated` become functions in the environment (`Env.head`, `Env.logs`). `GetRPC`
  and `NewSushiV2Factory` are folded into `Env.logs`, which is keyed by chain ID and factory address. The binding error
  that line 94 discards is not modelled: every factory is taken to bind. A failed head
  read is the value 0, and a failed log query is `None`. Iterator-level errors appear as `LogError` entries.
- Concurrency in `handleSushiswapPairsTokenList`: the goroutines, the wait group and the `sync.Map` are not modelled.
  Each goroutine writes only its own chain's entry, so the model runs the chains one after another.
- `initSyncMap`, `extractSyncMap`, `retrieveBasicInformations`, `SetToken`, `IsChainIDSupported` and `IsIgnoredToken`
  are not part of this model. `initSyncMap` is taken to give every chain an empty `[]TokenListToken`. `extractSyncMap` is
  taken to concatenate the chains' lists in some order of the chains (`mergeOrder`). The other four are parameters:
  `Env.lookup`, `Env.accept` (which reduces `SetToken` to accept or reject), `Env.supported` and `Env.ignored`.
- Address text: `Hex()` and `HexToAddress` are treated as mutually inverse. Addresses are numbers below 2^160, and the
  string keys of `allTokens` are those numbers.
- JSON loading and saving (`loadTokenListFromJsonFile`, `saveTokenListInJsonFile` with `Append`), and logging.
  Metadata values are modelled as strings, which is what this generator writes and reads.
- The nil-metadata case: Go's nil map is modelled as an empty map. A metadata value that is not a string would panic at
  the type assertion on line 80; the model has no such values.
- `FetchSushiswapPairsTokenList`: retries without limit are bounded by `Env.budget`, so a scan that has not returned is
  reported as `None` rather than as non-termination.
- `ScanContract`: the window end `s + W` and the counter are unbounded integers. The uint64 wrap-around of
  `startBlockToTest + threshold` is not modelled; it could only happen with a head within W blocks of maxUint64.
- `SushiswapContractsPerChainID` is an input (`config`), not the repository's constant table.
