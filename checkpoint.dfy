/** The per-chain resume checkpoint: read from the token list's metadata bag at the start of a
    run, written back under lastBlockSyncFor_<chainID> at its end. */
module Checkpoint {
  import opened Types
  import opened Decimal

  const KEY_PREFIX: string := "lastBlockSyncFor_"

  /** The metadata key of a chain's checkpoint: the prefix, then the chain ID in decimal. */
  function CheckpointKey(chainID: uint64): string {
    KEY_PREFIX + FormatUint(chainID)
  }

  /** A checkpoint key names its chain: after the prefix, ParseUint reads back the chain ID. */
  lemma CheckpointKeyDecodes(chainID: uint64)
    ensures |CheckpointKey(chainID)| > |KEY_PREFIX|
    ensures CheckpointKey(chainID)[..|KEY_PREFIX|] == KEY_PREFIX
    ensures ParseUint(CheckpointKey(chainID)[|KEY_PREFIX|..]) == Parsed(chainID, NoError)
  {
    assert CheckpointKey(chainID)[|KEY_PREFIX|..] == FormatUint(chainID);
    FormatParseRoundTrip(chainID);
  }

  /** Two chains never share a checkpoint key. */
  lemma CheckpointKeyInjective(a: uint64, b: uint64)
    requires CheckpointKey(a) == CheckpointKey(b)
    ensures a == b
  {
    CheckpointKeyDecodes(a);
    CheckpointKeyDecodes(b);
  }

  /** The checkpoint a run starts from: ParseUint of the stored text, 0 when there is none
      (an unparsable text also gives 0, an out-of-range one maxUint64). */
  function StoredCheckpoint(extra: map<string, string>, chainID: uint64): uint64 {
    if CheckpointKey(chainID) in extra then ParseUint(extra[CheckpointKey(chainID)]).value else 0
  }

  /** Where the scan of a factory contract starts: the checkpoint when it is set and later than
      the deployment block, the deployment block otherwise. */
  function ScanStart(deployment: uint64, checkpoint: uint64): (start: uint64)
    ensures start == Max(deployment, checkpoint)
  {
    if checkpoint != 0 && checkpoint > deployment then checkpoint else deployment
  }

  /** How the stored text decides the start: absent or a syntax error (empty, a sign, a letter),
      the deployment block; a number that fits in 64 bits, the later of it and the deployment
      block; a number that does not, maxUint64. */
  lemma ResumePoint(extra: map<string, string>, chainID: uint64, deployment: uint64)
    ensures var key := CheckpointKey(chainID);
      var start := ScanStart(deployment, StoredCheckpoint(extra, chainID));
      && (key !in extra ==> start == deployment)
      && (key in extra && ParseUint(extra[key]).err == NoError ==>
            AllDigits(extra[key]) && start == Max(deployment, Value(extra[key])))
      && (key in extra && ParseUint(extra[key]).err == ErrSyntax ==> start == deployment)
      && (key in extra && ParseUint(extra[key]).err == ErrRange ==> start == MAX_UINT64)
  {
    var key := CheckpointKey(chainID);
    if key in extra {
      ParseUintAccepts(extra[key]);
    }
  }

  /** A checkpoint written as the decimal text of h is read back as h by the next run. */
  lemma WrittenCheckpointReadBack(extra: map<string, string>, chainID: uint64, h: uint64)
    requires CheckpointKey(chainID) in extra && extra[CheckpointKey(chainID)] == FormatUint(h)
    ensures StoredCheckpoint(extra, chainID) == h
  {
    FormatParseRoundTrip(h);
  }

  /** The metadata keys that a merge of lastBlockSync writes. */
  function WrittenKeys(chains: set<uint64>): set<string> {
    set c | c in chains :: CheckpointKey(c)
  }

  /** The bag after writing the checkpoints of the chains in done: those keys hold their
      lastBlockSync text, every other key is as it was. */
  ghost predicate MergedUpTo(metadata: map<string, string>, lastBlockSync: map<uint64, string>,
                             merged: map<string, string>, done: set<uint64>)
  {
    && done <= lastBlockSync.Keys
    && (forall c :: c in done ==> CheckpointKey(c) in merged && merged[CheckpointKey(c)] == lastBlockSync[c])
    && merged.Keys == metadata.Keys + WrittenKeys(done)
    && (forall k :: k in metadata && k !in WrittenKeys(done) ==> merged[k] == metadata[k])
  }

  /** Writing one more chain's checkpoint clobbers no other chain's. */
  lemma MergeOne(metadata: map<string, string>, lastBlockSync: map<uint64, string>,
                 merged: map<string, string>, todo: set<uint64>, chainID: uint64)
    requires todo <= lastBlockSync.Keys
    requires MergedUpTo(metadata, lastBlockSync, merged, lastBlockSync.Keys - todo)
    requires chainID in todo
    ensures MergedUpTo(metadata, lastBlockSync, merged[CheckpointKey(chainID) := lastBlockSync[chainID]],
                       lastBlockSync.Keys - (todo - {chainID}))
  {
    var done := lastBlockSync.Keys - todo;
    var key := CheckpointKey(chainID);
    var merged' := merged[key := lastBlockSync[chainID]];
    assert lastBlockSync.Keys - (todo - {chainID}) == done + {chainID};
    forall c | c in done + {chainID}
      ensures CheckpointKey(c) in merged' && merged'[CheckpointKey(c)] == lastBlockSync[c]
    {
      if c != chainID && CheckpointKey(c) == key {
        CheckpointKeyInjective(c, chainID);
      }
    }
    assert WrittenKeys(done + {chainID}) == WrittenKeys(done) + {key};
  }

  /** buildSushiswapPairsTokenList's merge: a nil bag becomes an empty one, then every entry of
      lastBlockSync is written under its chain's key. */
  method MergeCheckpoints(metadata: map<string, string>, lastBlockSync: map<uint64, string>)
    returns (merged: map<string, string>)
    ensures forall c :: c in lastBlockSync ==> CheckpointKey(c) in merged && merged[CheckpointKey(c)] == lastBlockSync[c]
    ensures merged.Keys == metadata.Keys + WrittenKeys(lastBlockSync.Keys)
    ensures forall k :: k in metadata && k !in WrittenKeys(lastBlockSync.Keys) ==> merged[k] == metadata[k]
  {
    merged := metadata;
    var todo := lastBlockSync.Keys;
    assert WrittenKeys({}) == {};
    while todo != {}
      invariant todo <= lastBlockSync.Keys
      invariant MergedUpTo(metadata, lastBlockSync, merged, lastBlockSync.Keys - todo)
      decreases |todo|
    {
      var chainID :| chainID in todo;
      MergeOne(metadata, lastBlockSync, merged, todo, chainID);
      merged := merged[CheckpointKey(chainID) := lastBlockSync[chainID]];
      todo := todo - {chainID};
    }
    assert lastBlockSync.Keys - todo == lastBlockSync.Keys;
  }
}
