/** Value types shared by the SushiSwap pair-discovery model. */
module Types {

  /** Go's uint64: block numbers and chain identifiers. */
  const MAX_UINT64: nat := 0xFFFF_FFFF_FFFF_FFFF
  type uint64 = n: nat | n <= MAX_UINT64

  /** A 20-byte Ethereum address (common.Address); its Hex() form is a key of allTokens. */
  type Address = a: nat | a < 0x1_0000_0000_0000_0000_0000_0000_0000_0000_0000

  datatype Option<+T> = None | Some(value: T)

  /** One step of the FilterPairCreated iterator: an event, or an entry whose Error() is non-nil. */
  datatype LogItem = PairCreated(token0: Address, token1: Address) | LogError

  /** A SushiSwap V2 factory contract and the block it was deployed at. */
  datatype SushiContract = SushiContract(contractAddress: Address, blockNumber: uint64)

  function Min(a: int, b: int): int { if a <= b then a else b }
  function Max(a: int, b: int): int { if a >= b then a else b }

  predicate NoDuplicates<T(==)>(s: seq<T>) {
    forall i, j :: 0 <= i < j < |s| ==> s[i] != s[j]
  }
}
