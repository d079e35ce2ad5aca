/** handleSushiswapPairsTokenList: turn each chain's candidate addresses into token records,
    keeping only those the metadata lookup knows by a name and a symbol. */
module Enrich {
  import opened Types

  /** One entry of retrieveBasicInformations' result. */
  datatype BasicInfo = BasicInfo(address: Address, name: string, symbol: string, decimals: nat)

  /** A TokenListToken as SetToken builds it. */
  datatype Token = Token(address: Address, name: string, symbol: string, logoURI: string, chainID: uint64, decimals: int)

  /** retrieveBasicInformations: one batch lookup per chain; addresses it does not know are
      simply absent from the result. */
  type Lookup = (uint64, seq<Address>) -> map<Address, BasicInfo>

  /** Whether SetToken accepts the fields it is given (it returns an error otherwise). */
  type Accept = Token -> bool

  /** The token SetToken is asked to build for a lookup entry: no logo, the chain's ID. */
  function Build(chainID: uint64, info: BasicInfo): Token {
    Token(info.address, info.name, info.symbol, "", chainID, info.decimals)
  }

  /** Whether a candidate address yields a token: found by the lookup, with a non-empty name and
      symbol, and accepted by SetToken. */
  predicate Keeps(chainID: uint64, a: Address, info: map<Address, BasicInfo>, accept: Accept) {
    a in info && info[a].name != "" && info[a].symbol != "" && accept(Build(chainID, info[a]))
  }

  /** The tokens a chain's candidate list yields, in list order. */
  function KeptTokens(chainID: uint64, list: seq<Address>, info: map<Address, BasicInfo>, accept: Accept): seq<Token> {
    if |list| == 0 then []
    else
      var a := list[|list| - 1];
      KeptTokens(chainID, list[..|list| - 1], info, accept) +
        (if Keeps(chainID, a, info, accept) then [Build(chainID, info[a])] else [])
  }

  /** Enrichment keeps the order of the list: enriching two halves and concatenating is
      enriching the whole. */
  lemma {:induction false} KeptTokensAppend(chainID: uint64, l1: seq<Address>, l2: seq<Address>,
                                            info: map<Address, BasicInfo>, accept: Accept)
    ensures KeptTokens(chainID, l1 + l2, info, accept) ==
      KeptTokens(chainID, l1, info, accept) + KeptTokens(chainID, l2, info, accept)
    decreases |l2|
  {
    if |l2| == 0 {
      assert l1 + l2 == l1;
    } else {
      assert (l1 + l2)[..|l1 + l2| - 1] == l1 + l2[..|l2| - 1];
      KeptTokensAppend(chainID, l1, l2[..|l2| - 1], info, accept);
    }
  }

  /** Exactly the kept addresses yield a token, each one carrying the chain's ID, an empty logo
      URI and a non-empty name and symbol; no token comes from anywhere else. */
  lemma {:induction false} KeptTokensMembers(chainID: uint64, list: seq<Address>,
                                             info: map<Address, BasicInfo>, accept: Accept)
    ensures |KeptTokens(chainID, list, info, accept)| <= |list|
    ensures forall a :: a in list && Keeps(chainID, a, info, accept) ==>
      Build(chainID, info[a]) in KeptTokens(chainID, list, info, accept)
    ensures forall t :: t in KeptTokens(chainID, list, info, accept) ==>
      exists a :: a in list && Keeps(chainID, a, info, accept) && t == Build(chainID, info[a])
    ensures forall t :: t in KeptTokens(chainID, list, info, accept) ==>
      t.chainID == chainID && t.logoURI == "" && t.name != "" && t.symbol != "" && accept(t)
    decreases |list|
  {
    if |list| > 0 {
      var init := list[..|list| - 1];
      KeptTokensMembers(chainID, init, info, accept);
      assert forall a :: a in init ==> a in list;
      assert list == init + [list[|list| - 1]];
    }
  }

  /** One chain's goroutine: look the whole list up once, then append a token for every
      address found with a name and a symbol that SetToken accepts. */
  method EnrichChain(chainID: uint64, list: seq<Address>, lookup: Lookup, accept: Accept)
    returns (tokens: seq<Token>)
    ensures tokens == KeptTokens(chainID, list, lookup(chainID, list), accept)
    ensures forall t :: t in tokens ==> t.chainID == chainID && t.logoURI == "" && t.name != "" && t.symbol != ""
  {
    var tokensInfo := lookup(chainID, list);
    tokens := [];
    var i := 0;
    while i < |list|
      invariant 0 <= i <= |list|
      invariant tokens == KeptTokens(chainID, list[..i], tokensInfo, accept)
    {
      assert list[..i + 1][..i] == list[..i];
      var address := list[i];
      if address in tokensInfo {
        var token := tokensInfo[address];
        if token.name == "" || token.symbol == "" {
          i := i + 1;
          continue;
        }
        var newToken := Token(token.address, token.name, token.symbol, "", chainID, token.decimals);
        if accept(newToken) {
          tokens := tokens + [newToken];
        }
      }
      i := i + 1;
    }
    assert list[..i] == list;
    KeptTokensMembers(chainID, list, tokensInfo, accept);
  }

  /** The merged result: every chain's tokens, chain after chain in the given order. */
  function AllKept(tokensPerChainID: map<uint64, seq<Address>>, order: seq<uint64>, lookup: Lookup, accept: Accept): seq<Token>
    requires forall c :: c in order ==> c in tokensPerChainID
  {
    if |order| == 0 then []
    else
      var c := order[|order| - 1];
      AllKept(tokensPerChainID, order[..|order| - 1], lookup, accept) +
        KeptTokens(c, tokensPerChainID[c], lookup(c, tokensPerChainID[c]), accept)
  }

  /** A token of the merged list comes from its own chain's list, and every token a chain's list
      yields is in the merged list: no chain's result is lost or leaks into another's. */
  lemma {:induction false} AllKeptByChain(tokensPerChainID: map<uint64, seq<Address>>, order: seq<uint64>,
                                          lookup: Lookup, accept: Accept)
    requires forall c :: c in order ==> c in tokensPerChainID
    ensures forall t :: t in AllKept(tokensPerChainID, order, lookup, accept) ==>
      && t.chainID in order
      && t in KeptTokens(t.chainID, tokensPerChainID[t.chainID], lookup(t.chainID, tokensPerChainID[t.chainID]), accept)
    ensures forall c, t :: c in order && t in KeptTokens(c, tokensPerChainID[c], lookup(c, tokensPerChainID[c]), accept) ==>
      t in AllKept(tokensPerChainID, order, lookup, accept)
    decreases |order|
  {
    if |order| > 0 {
      var init, c := order[..|order| - 1], order[|order| - 1];
      AllKeptByChain(tokensPerChainID, init, lookup, accept);
      KeptTokensMembers(c, tokensPerChainID[c], lookup(c, tokensPerChainID[c]), accept);
      assert order == init + [c];
    }
  }

  /** handleSushiswapPairsTokenList with the chains taken in the given order (the order the sync
      map yields them in, which Go leaves unspecified). */
  method HandleSushiswapPairsTokenList(tokensPerChainID: map<uint64, seq<Address>>, order: seq<uint64>,
                                       lookup: Lookup, accept: Accept)
    returns (tokens: seq<Token>)
    requires forall c :: c in order <==> c in tokensPerChainID
    requires NoDuplicates(order)
    ensures tokens == AllKept(tokensPerChainID, order, lookup, accept)
    ensures forall t :: t in tokens ==>
      && t.chainID in tokensPerChainID
      && t in KeptTokens(t.chainID, tokensPerChainID[t.chainID], lookup(t.chainID, tokensPerChainID[t.chainID]), accept)
    ensures forall c, t :: c in tokensPerChainID && t in KeptTokens(c, tokensPerChainID[c], lookup(c, tokensPerChainID[c]), accept) ==>
      t in tokens
  {
    tokens := [];
    var i := 0;
    while i < |order|
      invariant 0 <= i <= |order|
      invariant tokens == AllKept(tokensPerChainID, order[..i], lookup, accept)
    {
      assert order[..i + 1][..i] == order[..i];
      var chainID := order[i];
      var chainTokens := EnrichChain(chainID, tokensPerChainID[chainID], lookup, accept);
      tokens := tokens + chainTokens;
      i := i + 1;
    }
    assert order[..i] == order;
    AllKeptByChain(tokensPerChainID, order, lookup, accept);
  }
}
