/** The occurrence table allTokens: how many PairCreated events name each token. */
module Counting {
  import opened Types

  /** allTokens[a], with Go's zero value for an absent key. */
  function CountOf(counts: map<Address, nat>, a: Address): nat {
    if a in counts then counts[a] else 0
  }

  /** The token addresses one log entry names: token0 then token1 of an event, nothing for an error. */
  function Named(item: LogItem): seq<Address> {
    if item.PairCreated? then [item.token0, item.token1] else []
  }

  /** The token addresses the error-free events of items name, in order. */
  function Mentions(items: seq<LogItem>): seq<Address> {
    if |items| == 0 then [] else Mentions(items[..|items| - 1]) + Named(items[|items| - 1])
  }

  /** One step of the log iterator: an event raises token0 and token1 by one each. */
  function RecordLog(counts: map<Address, nat>, item: LogItem): map<Address, nat> {
    match item
    case LogError => counts
    case PairCreated(t0, t1) =>
      var c0 := counts[t0 := CountOf(counts, t0) + 1];
      c0[t1 := CountOf(c0, t1) + 1]
  }

  /** The table after reading items in order. */
  function RecordLogs(counts: map<Address, nat>, items: seq<LogItem>): map<Address, nat> {
    if |items| == 0 then counts else RecordLog(RecordLogs(counts, items[..|items| - 1]), items[|items| - 1])
  }

  /** Reading two batches of events is reading their concatenation. */
  lemma {:induction false} RecordLogsAppend(counts: map<Address, nat>, a: seq<LogItem>, b: seq<LogItem>)
    ensures RecordLogs(counts, a + b) == RecordLogs(RecordLogs(counts, a), b)
    decreases |b|
  {
    if |b| == 0 {
      assert a + b == a;
    } else {
      assert (a + b)[..|a + b| - 1] == a + b[..|b| - 1];
      assert (a + b)[|a + b| - 1] == b[|b| - 1];
      RecordLogsAppend(counts, a, b[..|b| - 1]);
    }
  }

  /** Each address's count grows by the number of times error-free events name it (two for a
      pair of a token with itself); new keys are exactly the newly named tokens. */
  lemma {:induction false} RecordLogsCounts(counts: map<Address, nat>, items: seq<LogItem>)
    ensures forall a :: CountOf(RecordLogs(counts, items), a) == CountOf(counts, a) + multiset(Mentions(items))[a]
    ensures forall a :: a in RecordLogs(counts, items) <==> a in counts || a in Mentions(items)
    decreases |items|
  {
    if |items| > 0 {
      var init, last := items[..|items| - 1], items[|items| - 1];
      var before := RecordLogs(counts, init);
      RecordLogsCounts(counts, init);
      RecordLogCounts(before, last);
      forall a ensures CountOf(RecordLogs(counts, items), a) == CountOf(counts, a) + multiset(Mentions(items))[a] {
        calc {
          multiset(Mentions(items))[a];
          (multiset(Mentions(init)) + multiset(Named(last)))[a];
          multiset(Mentions(init))[a] + multiset(Named(last))[a];
        }
      }
    }
  }

  /** One log entry: the same statement for a single step. */
  lemma RecordLogCounts(counts: map<Address, nat>, item: LogItem)
    ensures forall a :: CountOf(RecordLog(counts, item), a) == CountOf(counts, a) + multiset(Named(item))[a]
    ensures forall a :: a in RecordLog(counts, item) <==> a in counts || a in Named(item)
  {
  }

  /** Reading events never lowers a count. */
  lemma RecordLogsGrows(counts: map<Address, nat>, items: seq<LogItem>)
    ensures forall a :: CountOf(RecordLogs(counts, items), a) >= CountOf(counts, a)
  {
    RecordLogsCounts(counts, items);
  }

  /** The `for log.Next()` loop: skip entries whose Error() is non-nil, create absent keys at 0,
      then increment token0's and token1's counts. */
  method RecordEvents(counts: map<Address, nat>, items: seq<LogItem>) returns (counts': map<Address, nat>)
    ensures counts' == RecordLogs(counts, items)
    ensures forall a :: CountOf(counts', a) == CountOf(counts, a) + multiset(Mentions(items))[a]
    ensures forall a :: a in counts' <==> a in counts || a in Mentions(items)
  {
    counts' := counts;
    var i := 0;
    while i < |items|
      invariant 0 <= i <= |items|
      invariant counts' == RecordLogs(counts, items[..i])
    {
      assert items[..i + 1][..i] == items[..i];
      var item := items[i];
      if item.LogError? {
        i := i + 1;
        continue;
      }
      var t0, t1 := item.token0, item.token1;
      if t0 !in counts' {
        counts' := counts'[t0 := 0];
      }
      if t1 !in counts' {
        counts' := counts'[t1 := 0];
      }
      counts' := counts'[t0 := counts'[t0] + 1];
      counts' := counts'[t1 := counts'[t1] + 1];
      i := i + 1;
    }
    assert items[..i] == items;
    RecordLogsCounts(counts, items);
  }
}
