/** fetchSushiswapPairsTokenList and buildSushiswapPairsTokenList: scan every supported chain's
    factory contracts, filter the counted tokens, enrich them, and write the checkpoints back. */
module Pipeline {
  import opened Types
  import opened Decimal
  import opened Counting
  import opened Scanner
  import opened Threshold
  import opened Checkpoint
  import opened Enrich

  /** The collaborators of one run. */
  datatype Env = Env(
    supported: uint64 -> bool,                              // helpers.IsChainIDSupported
    ignored: Ignored,                                       // helpers.IsIgnoredToken
    head: uint64 -> uint64,                                 // client.BlockNumber, 0 when it fails
    logs: (uint64, Address, nat, Window) -> Option<seq<LogItem>>, // FilterPairCreated of a chain's factory
    lookup: Lookup,                                         // retrieveBasicInformations
    accept: Accept,                                         // whether SetToken succeeds
    budget: nat)                                            // calls per factory before the model stops

  /** The log query of one factory contract on one chain. */
  function FactoryQuery(env: Env, chainID: uint64, factory: Address): Query {
    (k: nat, win: Window) => env.logs(chainID, factory, k, win)
  }

  /** The scan of one factory contract, from its resume point to the chain's head. */
  function FactoryRun(env: Env, chainID: uint64, contract: SushiContract, checkpoint: uint64, head: uint64): Scan {
    Run(ScanStart(contract.blockNumber, checkpoint), head, WindowSize(chainID),
        FactoryQuery(env, chainID, contract.contractAddress), 0, env.budget)
  }

  /** The table after scanning a chain's factory contracts in order; None when one of them does
      not reach the head within the budget. */
  function ScanContracts(counts: map<Address, nat>, contracts: seq<SushiContract>, checkpoint: uint64,
                         head: uint64, chainID: uint64, env: Env): Option<map<Address, nat>>
    decreases |contracts|
  {
    if |contracts| == 0 then Some(counts)
    else
      var run := FactoryRun(env, chainID, contracts[0], checkpoint, head);
      if !run.done then None
      else ScanContracts(RecordLogs(counts, Events(run.calls)), contracts[1..], checkpoint, head, chainID, env)
  }

  /** The log entries read on a chain, factory after factory. */
  function ChainEvents(contracts: seq<SushiContract>, checkpoint: uint64, head: uint64, chainID: uint64, env: Env)
    : Option<seq<LogItem>>
    decreases |contracts|
  {
    if |contracts| == 0 then Some([])
    else
      var run := FactoryRun(env, chainID, contracts[0], checkpoint, head);
      if !run.done then None
      else match ChainEvents(contracts[1..], checkpoint, head, chainID, env)
        case None => None
        case Some(rest) => Some(Events(run.calls) + rest)
  }

  /** Scanning a chain reads that chain's events into the table it was given, which still holds
      the counts of every chain scanned before. */
  lemma {:induction false} ScanContractsReadsChainEvents(counts: map<Address, nat>, contracts: seq<SushiContract>,
                                                         checkpoint: uint64, head: uint64, chainID: uint64, env: Env)
    ensures ScanContracts(counts, contracts, checkpoint, head, chainID, env).Some? <==>
            ChainEvents(contracts, checkpoint, head, chainID, env).Some?
    ensures ScanContracts(counts, contracts, checkpoint, head, chainID, env).Some? ==>
            ScanContracts(counts, contracts, checkpoint, head, chainID, env).value ==
            RecordLogs(counts, ChainEvents(contracts, checkpoint, head, chainID, env).value)
    decreases |contracts|
  {
    if |contracts| > 0 {
      var run := FactoryRun(env, chainID, contracts[0], checkpoint, head);
      if run.done {
        var counts' := RecordLogs(counts, Events(run.calls));
        ScanContractsReadsChainEvents(counts', contracts[1..], checkpoint, head, chainID, env);
        var rest := ChainEvents(contracts[1..], checkpoint, head, chainID, env);
        if rest.Some? {
          RecordLogsAppend(counts, Events(run.calls), rest.value);
        }
      }
    }
  }

  /** fetchSushiswapPairsTokenList's locals after some chains: allTokens, the candidate set of
      each chain done (tokensPerChainID, as sets), and lastBlockSync. */
  datatype Progress = Progress(allTokens: map<Address, nat>, candidates: map<uint64, set<Address>>,
                               lastBlockSync: map<uint64, string>)

  /** One supported chain: scan its factories, keep the qualifying addresses of the whole table,
      and record the head (read once, at the start of the chain) as its checkpoint. */
  function ChainStep(p: Progress, chainID: uint64, contracts: seq<SushiContract>,
                     extra: map<string, string>, env: Env): Option<Progress>
  {
    if !env.supported(chainID) then Some(p)
    else
      var head := env.head(chainID);
      match ScanContracts(p.allTokens, contracts, StoredCheckpoint(extra, chainID), head, chainID, env)
      case None => None
      case Some(counts) =>
        Some(Progress(counts, p.candidates[chainID := Candidates(counts, chainID, env.ignored)],
                      if |contracts| > 0 then p.lastBlockSync[chainID := FormatUint(head)] else p.lastBlockSync))
  }

  /** The chain loop, in the order Go's map iteration visits the chains. */
  function Fetch(p: Progress, config: map<uint64, seq<SushiContract>>, order: seq<uint64>,
                 extra: map<string, string>, env: Env): Option<Progress>
    requires forall c :: c in order ==> c in config
    decreases |order|
  {
    if |order| == 0 then Some(p)
    else match ChainStep(p, order[0], config[order[0]], extra, env)
      case None => None
      case Some(p') => Fetch(p', config, order[1..], extra, env)
  }

  /** A run that returns gives each supported chain of the order a candidate set; unsupported
      chains get none, and chains outside the order keep what they had. */
  lemma {:induction false} FetchCandidateKeys(p: Progress, config: map<uint64, seq<SushiContract>>, order: seq<uint64>,
                                              extra: map<string, string>, env: Env)
    requires forall c :: c in order ==> c in config
    requires Fetch(p, config, order, extra, env).Some?
    ensures var q := Fetch(p, config, order, extra, env).value;
      && (forall c :: c in q.candidates <==> c in p.candidates || (c in order && env.supported(c)))
      && (forall c :: c in p.candidates && c !in order ==> q.candidates[c] == p.candidates[c])
    decreases |order|
  {
    if |order| > 0 {
      var p' := ChainStep(p, order[0], config[order[0]], extra, env).value;
      FetchCandidateKeys(p', config, order[1..], extra, env);
      assert forall c :: c in order <==> c == order[0] || c in order[1..];
    }
  }

  /** A run that returns records, for each supported chain of the order with a factory, the
      decimal text of the head it read; other chains of the order get no checkpoint, and chains
      outside the order keep theirs. */
  lemma {:induction false} FetchCheckpoints(p: Progress, config: map<uint64, seq<SushiContract>>, order: seq<uint64>,
                                            extra: map<string, string>, env: Env)
    requires forall c :: c in order ==> c in config
    requires Fetch(p, config, order, extra, env).Some?
    ensures var q := Fetch(p, config, order, extra, env).value;
      && (forall c :: c in q.lastBlockSync <==>
            c in p.lastBlockSync || (c in order && env.supported(c) && |config[c]| > 0))
      && (forall c :: c in order && env.supported(c) && |config[c]| > 0 ==>
            q.lastBlockSync[c] == FormatUint(env.head(c)))
      && (forall c :: c in p.lastBlockSync && c !in order ==> q.lastBlockSync[c] == p.lastBlockSync[c])
    decreases |order|
  {
    if |order| > 0 {
      var p' := ChainStep(p, order[0], config[order[0]], extra, env).value;
      FetchCheckpoints(p', config, order[1..], extra, env);
      assert forall c :: c in order <==> c == order[0] || c in order[1..];
    }
  }

  /** Counts only grow from chain to chain: allTokens is never reset. */
  lemma {:induction false} FetchCountsGrow(p: Progress, config: map<uint64, seq<SushiContract>>, order: seq<uint64>,
                                           extra: map<string, string>, env: Env)
    requires forall c :: c in order ==> c in config
    requires Fetch(p, config, order, extra, env).Some?
    ensures forall a :: CountOf(Fetch(p, config, order, extra, env).value.allTokens, a) >= CountOf(p.allTokens, a)
    decreases |order|
  {
    if |order| > 0 {
      var c := order[0];
      var p' := ChainStep(p, c, config[c], extra, env).value;
      if env.supported(c) {
        ScanContractsReadsChainEvents(p.allTokens, config[c], StoredCheckpoint(extra, c), env.head(c), c, env);
        RecordLogsGrows(p.allTokens, ChainEvents(config[c], StoredCheckpoint(extra, c), env.head(c), c, env).value);
      }
      FetchCountsGrow(p', config, order[1..], extra, env);
    }
  }

  /** The candidates of a chain: an address is one exactly when it is not ignored there and its
      count carried in from the chains before, plus the times that chain's events name it,
      reaches the threshold. */
  lemma ChainStepCandidates(p: Progress, chainID: uint64, contracts: seq<SushiContract>,
                            extra: map<string, string>, env: Env, a: Address)
    requires env.supported(chainID)
    requires ChainStep(p, chainID, contracts, extra, env).Some?
    ensures var ev := ChainEvents(contracts, StoredCheckpoint(extra, chainID), env.head(chainID), chainID, env);
      && ev.Some?
      && (a in ChainStep(p, chainID, contracts, extra, env).value.candidates[chainID] <==>
            !env.ignored(chainID, a) &&
            CountOf(p.allTokens, a) + multiset(Mentions(ev.value))[a] >= SUSHI_PAIR_THRESHOLD)
  {
    var checkpoint, head := StoredCheckpoint(extra, chainID), env.head(chainID);
    ScanContractsReadsChainEvents(p.allTokens, contracts, checkpoint, head, chainID, env);
    RecordLogsCounts(p.allTokens, ChainEvents(contracts, checkpoint, head, chainID, env).value);
  }

  /** Counts carry over between chains: an address already counted at least
      SUSHI_PAIR_THRESHOLD times becomes a candidate of every later supported chain that does
      not ignore it, whether or not that chain has a pair with it. */
  lemma {:induction false} CandidatesCarryOver(p: Progress, config: map<uint64, seq<SushiContract>>, order: seq<uint64>,
                                               extra: map<string, string>, env: Env, a: Address, c: uint64)
    requires forall c :: c in order ==> c in config
    requires NoDuplicates(order)
    requires Fetch(p, config, order, extra, env).Some?
    requires CountOf(p.allTokens, a) >= SUSHI_PAIR_THRESHOLD
    requires c in order && env.supported(c) && !env.ignored(c, a)
    ensures c in Fetch(p, config, order, extra, env).value.candidates
    ensures a in Fetch(p, config, order, extra, env).value.candidates[c]
    decreases |order|
  {
    var c0 := order[0];
    var p' := ChainStep(p, c0, config[c0], extra, env).value;
    var rest := order[1..];
    assert NoDuplicates(rest) by {
      forall i, j | 0 <= i < j < |rest| ensures rest[i] != rest[j] {
        assert rest[i] == order[i + 1] && rest[j] == order[j + 1];
      }
    }
    assert c0 !in rest by {
      forall j | 0 <= j < |rest| ensures rest[j] != c0 {
        assert rest[j] == order[j + 1];
      }
    }
    FetchCandidateKeys(p', config, rest, extra, env);
    if c != c0 {
      assert c in rest;
      if env.supported(c0) {
        var checkpoint, head := StoredCheckpoint(extra, c0), env.head(c0);
        ScanContractsReadsChainEvents(p.allTokens, config[c0], checkpoint, head, c0, env);
        RecordLogsGrows(p.allTokens, ChainEvents(config[c0], checkpoint, head, c0, env).value);
      }
      CandidatesCarryOver(p', config, rest, extra, env, a, c);
    } else {
      var checkpoint, head := StoredCheckpoint(extra, c0), env.head(c0);
      ScanContractsReadsChainEvents(p.allTokens, config[c0], checkpoint, head, c0, env);
      RecordLogsGrows(p.allTokens, ChainEvents(config[c0], checkpoint, head, c0, env).value);
    }
  }

  /** The candidate sets of tokensPerChainID. */
  function AsSets(tokensPerChainID: map<uint64, seq<Address>>): map<uint64, set<Address>> {
    map c | c in tokensPerChainID :: set a | a in tokensPerChainID[c]
  }

  lemma AsSetsUpdate(tokensPerChainID: map<uint64, seq<Address>>, chainID: uint64, list: seq<Address>, s: set<Address>)
    requires forall a :: a in list <==> a in s
    ensures AsSets(tokensPerChainID[chainID := list]) == AsSets(tokensPerChainID)[chainID := s]
  {
    assert (set a | a in list) == s;
    var m, m' := AsSets(tokensPerChainID[chainID := list]), AsSets(tokensPerChainID)[chainID := s];
    assert m.Keys == m'.Keys;
    forall c | c in m ensures m[c] == m'[c] {
    }
  }

  /** One supported chain of the chain loop, with the scan finished and the candidate list
      filtered: the rest of the loop continues from the updated locals. */
  lemma SupportedChainAdvance(config: map<uint64, seq<SushiContract>>, order: seq<uint64>, i: nat,
                              extra: map<string, string>, env: Env,
                              allTokens: map<Address, nat>, perChain: map<uint64, seq<Address>>,
                              lastBlockSync: map<uint64, string>, allTokens': map<Address, nat>,
                              lastBlockSync': map<uint64, string>, list: seq<Address>)
    requires forall c :: c in order ==> c in config
    requires i < |order| && env.supported(order[i])
    requires ScanContracts(allTokens, config[order[i]], StoredCheckpoint(extra, order[i]), env.head(order[i]),
                           order[i], env) == Some(allTokens')
    requires lastBlockSync' == if |config[order[i]]| > 0 then lastBlockSync[order[i] := FormatUint(env.head(order[i]))]
                               else lastBlockSync
    requires forall a :: a in list <==> a in Candidates(allTokens', order[i], env.ignored)
    ensures Fetch(Progress(allTokens, AsSets(perChain), lastBlockSync), config, order[i..], extra, env) ==
            Fetch(Progress(allTokens', AsSets(perChain[order[i] := list]), lastBlockSync'), config, order[i + 1..], extra, env)
  {
    assert order[i..][0] == order[i] && order[i..][1..] == order[i + 1..];
    AsSetsUpdate(perChain, order[i], list, Candidates(allTokens', order[i], env.ignored));
  }

  /** One factory of the contract loop: a scan that reached the head hands its table to the next
      factory; one that did not ends the chain without a result. */
  lemma FactoryAdvance(counts: map<Address, nat>, contracts: seq<SushiContract>, j: nat, checkpoint: uint64,
                       head: uint64, chainID: uint64, env: Env, scan: Scan, counts': map<Address, nat>)
    requires j < |contracts|
    requires scan == FactoryRun(env, chainID, contracts[j], checkpoint, head)
    requires counts' == RecordLogs(counts, Events(scan.calls))
    ensures ScanContracts(counts, contracts[j..], checkpoint, head, chainID, env) ==
            if scan.done then ScanContracts(counts', contracts[j + 1..], checkpoint, head, chainID, env) else None
  {
    assert contracts[j..][0] == contracts[j] && contracts[j..][1..] == contracts[j + 1..];
  }

  /** Lines 89-127 for one chain: scan each factory contract from its resume point to the head
      read at the start of the chain, and after each one set the chain's checkpoint to that head.
      done is false when a scan did not reach the head within the budget. */
  method ScanFactories(allTokens: map<Address, nat>, lastBlockSync: map<uint64, string>, chainID: uint64,
                       contracts: seq<SushiContract>, checkpoint: uint64, head: uint64, env: Env)
    returns (allTokens': map<Address, nat>, lastBlockSync': map<uint64, string>, done: bool)
    ensures done <==> ScanContracts(allTokens, contracts, checkpoint, head, chainID, env).Some?
    ensures done ==> allTokens' == ScanContracts(allTokens, contracts, checkpoint, head, chainID, env).value
    ensures done ==>
      lastBlockSync' == if |contracts| > 0 then lastBlockSync[chainID := FormatUint(head)] else lastBlockSync
  {
    allTokens', lastBlockSync' := allTokens, lastBlockSync;
    var threshold := WindowSize(chainID);
    var j := 0;
    while j < |contracts|
      invariant 0 <= j <= |contracts|
      invariant ScanContracts(allTokens, contracts, checkpoint, head, chainID, env) ==
                ScanContracts(allTokens', contracts[j..], checkpoint, head, chainID, env)
      invariant lastBlockSync' == if j > 0 then lastBlockSync[chainID := FormatUint(head)] else lastBlockSync
    {
      var contract := contracts[j];
      var start := ScanStart(contract.blockNumber, checkpoint);
      var counts, calls, reached := ScanContract(allTokens', start, head, threshold,
                                                 FactoryQuery(env, chainID, contract.contractAddress), env.budget);
      FactoryAdvance(allTokens', contracts, j, checkpoint, head, chainID, env, Scan(calls, reached), counts);
      if !reached {
        // The Go loop would still be retrying; it has not returned.
        return allTokens', lastBlockSync', false;
      }
      allTokens' := counts;
      lastBlockSync' := lastBlockSync'[chainID := FormatUint(head)];
      j := j + 1;
    }
    done := true;
  }

  /** The chain loop of fetchSushiswapPairsTokenList (lines 56-142), with the chains visited in
      the given order: allTokens starts empty once and is shared by every chain. done is false when
      some factory scan did not reach its head within the budget. */
  method ScanChains(extra: map<string, string>, config: map<uint64, seq<SushiContract>>, order: seq<uint64>, env: Env)
    returns (tokensPerChainID: map<uint64, seq<Address>>, lastBlockSync: map<uint64, string>, done: bool)
    requires forall c :: c in order ==> c in config
    ensures done <==> Fetch(Progress(map[], map[], map[]), config, order, extra, env).Some?
    ensures done ==>
      var q := Fetch(Progress(map[], map[], map[]), config, order, extra, env).value;
      AsSets(tokensPerChainID) == q.candidates && lastBlockSync == q.lastBlockSync
    ensures forall c :: c in tokensPerChainID ==> NoDuplicates(tokensPerChainID[c])
  {
    var allTokens: map<Address, nat> := map[];
    lastBlockSync := map[];
    tokensPerChainID := map[];
    var i := 0;
    while i < |order|
      invariant 0 <= i <= |order|
      invariant forall c :: c in tokensPerChainID ==> NoDuplicates(tokensPerChainID[c])
      invariant Fetch(Progress(map[], map[], map[]), config, order, extra, env) ==
                Fetch(Progress(allTokens, AsSets(tokensPerChainID), lastBlockSync), config, order[i..], extra, env)
    {
      var chainID := order[i];
      ghost var p := Progress(allTokens, AsSets(tokensPerChainID), lastBlockSync);
      assert order[i..][0] == chainID && order[i..][1..] == order[i + 1..];
      if !env.supported(chainID) {
        i := i + 1;
        continue;
      }
      var checkpoint := StoredCheckpoint(extra, chainID);
      var head := env.head(chainID);
      var scanned;
      allTokens, lastBlockSync, scanned := ScanFactories(allTokens, lastBlockSync, chainID, config[chainID], checkpoint, head, env);
      if !scanned {
        return tokensPerChainID, lastBlockSync, false;
      }
      var list := FilterCandidates(allTokens, chainID, env.ignored);
      SupportedChainAdvance(config, order, i, extra, env, p.allTokens, tokensPerChainID, p.lastBlockSync,
                            allTokens, lastBlockSync, list);
      tokensPerChainID := tokensPerChainID[chainID := list];
      i := i + 1;
    }
    assert order[i..] == [];
    done := true;
  }

  /** The outcome of fetchSushiswapPairsTokenList: the enriched tokens and the new checkpoints. */
  datatype Fetched = Fetched(tokens: seq<Token>, lastBlockSync: map<uint64, string>)

  /** fetchSushiswapPairsTokenList, with the chains visited in the given order and the candidate
      lists handed to enrichment in the order mergeOrder. None: some factory scan did not reach
      its head within the budget (the Go loop is still retrying). */
  method FetchSushiswapPairsTokenList(extra: map<string, string>, config: map<uint64, seq<SushiContract>>,
                                      order: seq<uint64>, mergeOrder: seq<uint64>, env: Env)
    returns (result: Option<Fetched>, ghost tokensPerChainID: map<uint64, seq<Address>>)
    requires forall c :: c in order <==> c in config
    requires NoDuplicates(order)
    requires forall c :: c in mergeOrder <==> c in config && env.supported(c)
    requires NoDuplicates(mergeOrder)
    ensures result.Some? <==> Fetch(Progress(map[], map[], map[]), config, order, extra, env).Some?
    ensures result.Some? ==>
      var q := Fetch(Progress(map[], map[], map[]), config, order, extra, env).value;
      && AsSets(tokensPerChainID) == q.candidates
      && (forall c :: c in tokensPerChainID ==> NoDuplicates(tokensPerChainID[c]))
      && (forall c :: c in mergeOrder <==> c in tokensPerChainID)
      && result.value.lastBlockSync == q.lastBlockSync
      && result.value.tokens == AllKept(tokensPerChainID, mergeOrder, env.lookup, env.accept)
  {
    var perChain, lastBlockSync, done := ScanChains(extra, config, order, env);
    tokensPerChainID := perChain;
    if !done {
      return None, tokensPerChainID;
    }
    FetchCandidateKeys(Progress(map[], map[], map[]), config, order, extra, env);
    assert forall c :: c in mergeOrder <==> c in AsSets(perChain);
    var tokens := HandleSushiswapPairsTokenList(perChain, mergeOrder, env.lookup, env.accept);
    result := Some(Fetched(tokens, lastBlockSync));
  }

  const LIST_NAME: string := "SushiSwap Token Pairs"
  const LIST_LOGO_URI: string := "https://raw.githubusercontent.com/sushiswap/art/master/sushi/logo-256x256.png"

  /** The parts of sushiswap-pairs.json that the build reads and rewrites. */
  datatype TokenList = TokenList(name: string, logoURI: string, metadata: map<string, string>)

  /** The chains whose checkpoint a run that returns rewrites: supported, with a factory. */
  function ScannedChains(config: map<uint64, seq<SushiContract>>, env: Env): set<uint64> {
    set c | c in config && env.supported(c) && |config[c]| > 0
  }

  /** buildSushiswapPairsTokenList: fetch from the loaded list's checkpoints, rename the list and
      merge the new checkpoints into its metadata. Returns the list to save and its new tokens;
      None when the fetch does not return. Each rewritten checkpoint reads back as that chain's
      head, so the next run resumes every factory at the later of its deployment and that head
      (at its deployment when the head could not be read and 0 was stored); every other
      metadata entry is kept. */
  method BuildSushiswapPairsTokenList(loaded: TokenList, config: map<uint64, seq<SushiContract>>,
                                      order: seq<uint64>, mergeOrder: seq<uint64>, env: Env)
    returns (result: Option<(TokenList, seq<Token>)>, ghost tokensPerChainID: map<uint64, seq<Address>>)
    requires forall c :: c in order <==> c in config
    requires NoDuplicates(order)
    requires forall c :: c in mergeOrder <==> c in config && env.supported(c)
    requires NoDuplicates(mergeOrder)
    ensures result.Some? <==> Fetch(Progress(map[], map[], map[]), config, order, loaded.metadata, env).Some?
    ensures result.Some? ==>
      var (list, tokens) := result.value;
      && list.name == LIST_NAME && list.logoURI == LIST_LOGO_URI
      && (forall c :: c in mergeOrder <==> c in tokensPerChainID)
      && AsSets(tokensPerChainID) ==
           Fetch(Progress(map[], map[], map[]), config, order, loaded.metadata, env).value.candidates
      && tokens == AllKept(tokensPerChainID, mergeOrder, env.lookup, env.accept)
      && list.metadata.Keys == loaded.metadata.Keys + WrittenKeys(ScannedChains(config, env))
      && (forall k :: k in loaded.metadata && k !in WrittenKeys(ScannedChains(config, env)) ==>
            list.metadata[k] == loaded.metadata[k])
      && (forall c :: c in ScannedChains(config, env) ==> StoredCheckpoint(list.metadata, c) == env.head(c))
      && (forall c, deployment: uint64 :: c in ScannedChains(config, env) ==>
            ScanStart(deployment, StoredCheckpoint(list.metadata, c)) == Max(deployment, env.head(c)))
  {
    var fetched;
    fetched, tokensPerChainID := FetchSushiswapPairsTokenList(loaded.metadata, config, order, mergeOrder, env);
    if fetched.None? {
      return None, tokensPerChainID;
    }
    var lastBlockSync := fetched.value.lastBlockSync;
    FetchCheckpoints(Progress(map[], map[], map[]), config, order, loaded.metadata, env);
    assert lastBlockSync.Keys == ScannedChains(config, env);
    var metadata := MergeCheckpoints(loaded.metadata, lastBlockSync);
    forall c | c in ScannedChains(config, env)
      ensures StoredCheckpoint(metadata, c) == env.head(c)
    {
      WrittenCheckpointReadBack(metadata, c, env.head(c));
    }
    result := Some((TokenList(LIST_NAME, LIST_LOGO_URI, metadata), fetched.value.tokens));
  }
}
