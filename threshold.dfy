/** The threshold filter of fetchSushiswapPairsTokenList: which addresses of allTokens become
    candidates for a chain. */
module Threshold {
  import opened Types
  import opened Counting

  /** SUSHI_PAIR_THRESHOLD: the least number of pair sides a token must appear in. */
  const SUSHI_PAIR_THRESHOLD: nat := 3

  /** helpers.IsIgnoredToken: a static per-chain ignore list, not part of this model. */
  type Ignored = (uint64, Address) -> bool

  /** The candidates of a chain: the addresses of the table, not ignored on that chain, counted
      at least SUSHI_PAIR_THRESHOLD times. */
  function Candidates(counts: map<Address, nat>, chainID: uint64, ignored: Ignored): (r: set<Address>)
    ensures forall a :: a in r <==> !ignored(chainID, a) && CountOf(counts, a) >= SUSHI_PAIR_THRESHOLD
  {
    set a | a in counts && !ignored(chainID, a) && counts[a] >= SUSHI_PAIR_THRESHOLD
  }

  /** The boundary of the filter: a count of 3 is in, a count of 2 is out, and an ignored
      address is out whatever its count. */
  lemma ThresholdBoundary(counts: map<Address, nat>, chainID: uint64, ignored: Ignored, a: Address)
    ensures CountOf(counts, a) == 3 && !ignored(chainID, a) ==> a in Candidates(counts, chainID, ignored)
    ensures CountOf(counts, a) == 2 ==> a !in Candidates(counts, chainID, ignored)
    ensures ignored(chainID, a) ==> a !in Candidates(counts, chainID, ignored)
  {
  }

  /** The `for address, count := range allTokens` loop: visit every key once, in no particular
      order, and append the address when it is not ignored and its count reaches the threshold. */
  method FilterCandidates(counts: map<Address, nat>, chainID: uint64, ignored: Ignored) returns (list: seq<Address>)
    ensures forall a :: a in list <==> a in Candidates(counts, chainID, ignored)
    ensures NoDuplicates(list)
  {
    list := [];
    var todo := counts.Keys;
    while todo != {}
      invariant todo <= counts.Keys
      invariant forall a :: a in list <==> a in Candidates(counts, chainID, ignored) && a !in todo
      invariant NoDuplicates(list)
      decreases |todo|
    {
      var address :| address in todo;
      todo := todo - {address};
      var count := counts[address];
      if ignored(chainID, address) {
        continue;
      }
      if count >= SUSHI_PAIR_THRESHOLD {
        list := list + [address];
      }
    }
  }
}
