/** The window scanner of fetchSushiswapPairsTokenList: for one factory contract, query the
    PairCreated logs of [start, head] window by window, counting the tokens of every event. */
module Scanner {
  import opened Types
  import opened Counting

  /** A FilterOpts range: Start and End blocks, both inclusive. */
  datatype Window = Window(from: nat, to: nat)

  /** One FilterPairCreated call: the window asked for and the iterator it returned, or None
      when the call returned an error. */
  datatype Call = Call(window: Window, result: Option<seq<LogItem>>)

  /** The calls a scan made, and whether it reached the head. */
  datatype Scan = Scan(calls: seq<Call>, done: bool)

  /** The RPC log query, as an oracle of the call number (counted from 0 per contract) and the
      window; a provider may fail a window once and answer it on a later call. */
  type Query = (nat, Window) -> Option<seq<LogItem>>

  /** Blocks per query ("threshold"): 5 000 on chain 56, 100 000 elsewhere. */
  function WindowSize(chainID: uint64): (w: nat)
    ensures w > 0
    ensures chainID == 56 ==> w == 5_000
    ensures chainID != 56 ==> w == 100_000
  {
    if chainID == 56 then 5_000 else 100_000
  }

  /** The window that starts at s: it ends W blocks later, or at the head. */
  function WindowAt(s: nat, head: nat, w: nat): Window {
    Window(s, Min(s + w, head))
  }

  /** The windows a scan without failures asks for, in order. */
  function Windows(s: nat, head: nat, w: nat): seq<Window>
    requires w > 0
    decreases head + 1 - s
  {
    if s > head then [] else [WindowAt(s, head, w)] + Windows(s + w, head, w)
  }

  /** The window loop, call by call, with at most fuel calls: a successful call moves the
      start on by W, a failed one (start -= W, then += W) leaves it where it was. */
  function Run(s: nat, head: nat, w: nat, query: Query, k: nat, fuel: nat): Scan
    requires w > 0
    decreases fuel
  {
    if s > head then Scan([], true)
    else if fuel == 0 then Scan([], false)
    else
      var win := WindowAt(s, head, w);
      var r := query(k, win);
      var rest := Run(if r.Some? then s + w else s, head, w, query, k + 1, fuel - 1);
      Scan([Call(win, r)] + rest.calls, rest.done)
  }

  /** The log entries of the successful calls, in call order. */
  function Events(calls: seq<Call>): seq<LogItem> {
    if |calls| == 0 then []
    else
      var last := calls[|calls| - 1];
      Events(calls[..|calls| - 1]) + (if last.result.Some? then last.result.value else [])
  }

  /** The windows of the successful calls, in call order. */
  function Successes(calls: seq<Call>): seq<Window> {
    if |calls| == 0 then []
    else (if calls[0].result.Some? then [calls[0].window] else []) + Successes(calls[1..])
  }

  /** Every window of a scan ends W blocks after it starts or at the head, whichever is
      first, and lies inside [s, head]. */
  lemma {:induction false} WindowsBounded(s: nat, head: nat, w: nat)
    requires w > 0
    ensures forall win :: win in Windows(s, head, w) ==>
      s <= win.from <= win.to <= head && win.to == Min(win.from + w, head)
    decreases head + 1 - s
  {
    if s <= head {
      WindowsBounded(s + w, head, w);
    }
  }

  /** Each window starts W blocks after the one before it, exactly where that one ends, so
      the boundary block is queried twice; the first starts at s and the last ends at the head. */
  lemma {:induction false} WindowsChained(s: nat, head: nat, w: nat)
    requires w > 0
    ensures var ws := Windows(s, head, w);
      && (forall i :: 0 <= i < |ws| - 1 ==> ws[i + 1].from == ws[i].from + w == ws[i].to)
      && (s <= head <==> |ws| > 0)
      && (|ws| > 0 ==> ws[0].from == s && ws[|ws| - 1].to == head)
    decreases head + 1 - s
  {
    if s <= head {
      WindowsChained(s + w, head, w);
      var ws, rest := Windows(s, head, w), Windows(s + w, head, w);
      assert ws == [WindowAt(s, head, w)] + rest;
      forall i | 0 <= i < |ws| - 1
        ensures ws[i + 1].from == ws[i].from + w == ws[i].to
      {
        if i > 0 {
          assert ws[i] == rest[i - 1] && ws[i + 1] == rest[i];
        }
      }
      if |rest| > 0 {
        assert ws[|ws| - 1] == rest[|rest| - 1];
      }
    }
  }

  /** Every block of [s, head] lies in some window. */
  lemma {:induction false} WindowsCover(s: nat, head: nat, w: nat, b: nat)
    requires w > 0
    requires s <= b <= head
    ensures exists i :: 0 <= i < |Windows(s, head, w)| && Windows(s, head, w)[i].from <= b <= Windows(s, head, w)[i].to
    decreases head + 1 - s
  {
    var ws := Windows(s, head, w);
    if b > Min(s + w, head) {
      WindowsCover(s + w, head, w, b);
      var i :| 0 <= i < |Windows(s + w, head, w)| &&
        Windows(s + w, head, w)[i].from <= b <= Windows(s + w, head, w)[i].to;
      assert ws[i + 1] == Windows(s + w, head, w)[i];
    } else {
      assert ws[0].from <= b <= ws[0].to;
    }
  }

  /** Resuming at a checkpoint equal to the head still queries that one block again. */
  lemma ResumeAtHeadRequeriesHead(h: nat, w: nat)
    requires w > 0
    ensures Windows(h, h, w) == [Window(h, h)]
  {
  }

  /** A scan makes at most fuel calls, and one that stops short of the head has used all of them. */
  lemma {:induction false} RunLength(s: nat, head: nat, w: nat, query: Query, k: nat, fuel: nat)
    requires w > 0
    ensures |Run(s, head, w, query, k, fuel).calls| <= fuel
    ensures !Run(s, head, w, query, k, fuel).done ==> |Run(s, head, w, query, k, fuel).calls| == fuel && s <= head
    decreases fuel
  {
    if s <= head && fuel > 0 {
      var r := query(k, WindowAt(s, head, w));
      RunLength(if r.Some? then s + w else s, head, w, query, k + 1, fuel - 1);
    }
  }

  /** Each call asks the oracle, under its own call number, about a window of [s, head] that
      starts where the loop counter stands, the first one at s. */
  lemma {:induction false} RunCalls(s: nat, head: nat, w: nat, query: Query, k: nat, fuel: nat)
    requires w > 0
    ensures var calls := Run(s, head, w, query, k, fuel).calls;
      && (|calls| > 0 ==> calls[0].window.from == s)
      && (forall i :: 0 <= i < |calls| ==>
            && calls[i].window == WindowAt(calls[i].window.from, head, w)
            && s <= calls[i].window.from <= calls[i].window.to <= head
            && calls[i].result == query(k + i, calls[i].window))
    decreases fuel
  {
    if s <= head && fuel > 0 {
      var r := query(k, WindowAt(s, head, w));
      var s' := if r.Some? then s + w else s;
      RunCalls(s', head, w, query, k + 1, fuel - 1);
      var calls, rest := Run(s, head, w, query, k, fuel).calls, Run(s', head, w, query, k + 1, fuel - 1).calls;
      assert forall i :: 1 <= i < |calls| ==> calls[i] == rest[i - 1];
    }
  }

  /** Where the loop counter stands after a call: W blocks further on after a success, back at the
      same block after a failure. */
  function NextFrom(call: Call, w: nat): nat {
    call.window.from + (if call.result.Some? then w else 0)
  }

  /** After a failure the next call asks for the same window again, after a success for the
      window W blocks further on. */
  lemma {:induction false} RunCallsChained(s: nat, head: nat, w: nat, query: Query, k: nat, fuel: nat)
    requires w > 0
    ensures forall i :: 0 < i < |Run(s, head, w, query, k, fuel).calls| ==>
      Run(s, head, w, query, k, fuel).calls[i].window.from == NextFrom(Run(s, head, w, query, k, fuel).calls[i - 1], w)
    decreases fuel
  {
    if s <= head && fuel > 0 {
      var r := query(k, WindowAt(s, head, w));
      var s' := if r.Some? then s + w else s;
      RunCallsChained(s', head, w, query, k + 1, fuel - 1);
      var calls, rest := Run(s, head, w, query, k, fuel).calls, Run(s', head, w, query, k + 1, fuel - 1).calls;
      assert calls == [Call(WindowAt(s, head, w), r)] + rest;
      forall i | 0 < i < |calls|
        ensures calls[i].window.from == NextFrom(calls[i - 1], w)
      {
        if i == 1 {
          assert rest[0] == Run(s', head, w, query, k + 1, fuel - 1).calls[0];
        } else {
          assert calls[i] == rest[i - 1] && calls[i - 1] == rest[i - 2];
        }
      }
    }
  }

  /** The successful windows are the failure-free windows in order: a prefix of them, and all of
      them once the scan has reached the head. */
  lemma {:induction false} RunFollowsWindows(s: nat, head: nat, w: nat, query: Query, k: nat, fuel: nat)
    requires w > 0
    ensures Successes(Run(s, head, w, query, k, fuel).calls) <= Windows(s, head, w)
    ensures Run(s, head, w, query, k, fuel).done ==> Successes(Run(s, head, w, query, k, fuel).calls) == Windows(s, head, w)
    decreases fuel
  {
    if s <= head && fuel > 0 {
      var win := WindowAt(s, head, w);
      var r := query(k, win);
      var s' := if r.Some? then s + w else s;
      var run, rest := Run(s, head, w, query, k, fuel), Run(s', head, w, query, k + 1, fuel - 1);
      RunFollowsWindows(s', head, w, query, k + 1, fuel - 1);
      assert run.calls == [Call(win, r)] + rest.calls;
      assert run.calls[1..] == rest.calls;
    }
  }

  /** A window that fails on every call is retried forever: however many calls are allowed,
      the scan never reaches the head, and every call asks for the first window. */
  lemma {:induction false} AlwaysFailingNeverFinishes(s: nat, head: nat, w: nat, query: Query, k: nat, fuel: nat)
    requires w > 0
    requires s <= head
    requires forall j :: query(j, WindowAt(s, head, w)).None?
    ensures !Run(s, head, w, query, k, fuel).done
    ensures forall c :: c in Run(s, head, w, query, k, fuel).calls ==> c.window == WindowAt(s, head, w)
    decreases fuel
  {
    if fuel > 0 {
      AlwaysFailingNeverFinishes(s, head, w, query, k + 1, fuel - 1);
    }
  }

  /** A window listed among the successes was asked for by a call that succeeded. */
  lemma {:induction false} SuccessfulCall(calls: seq<Call>, x: Window)
    requires x in Successes(calls)
    ensures exists i :: 0 <= i < |calls| && calls[i].window == x && calls[i].result.Some?
    decreases |calls|
  {
    if calls[0].result.Some? && calls[0].window == x {
      assert calls[0].window == x && calls[0].result.Some?;
    } else {
      SuccessfulCall(calls[1..], x);
      var i :| 0 <= i < |calls[1..]| && calls[1..][i].window == x && calls[1..][i].result.Some?;
      assert calls[i + 1] == calls[1..][i];
    }
  }

  /** Any window of [s, head] whose query always fails, not only the first, keeps the scan from
      ever reaching the head, however many calls it is allowed. */
  lemma FailingWindowBlocksScan(s: nat, head: nat, w: nat, query: Query, k: nat, fuel: nat, x: Window)
    requires w > 0
    requires x in Windows(s, head, w)
    requires forall j :: query(j, x).None?
    ensures !Run(s, head, w, query, k, fuel).done
  {
    var run := Run(s, head, w, query, k, fuel);
    if run.done {
      RunFollowsWindows(s, head, w, query, k, fuel);
      RunCalls(s, head, w, query, k, fuel);
      SuccessfulCall(run.calls, x);
      assert false;
    }
  }

  /** With a provider that never fails and one call per window, the scan reaches the head and
      asks for exactly the windows of [s, head]. */
  lemma {:induction false} ReliableScanFinishes(s: nat, head: nat, w: nat, query: Query, k: nat, fuel: nat)
    requires w > 0
    requires forall j, win :: query(j, win).Some?
    requires fuel >= |Windows(s, head, w)|
    ensures Run(s, head, w, query, k, fuel).done
    ensures Successes(Run(s, head, w, query, k, fuel).calls) == Windows(s, head, w)
    decreases fuel
  {
    if s <= head {
      ReliableScanFinishes(s + w, head, w, query, k + 1, fuel - 1);
    }
    RunFollowsWindows(s, head, w, query, k, fuel);
  }

  /** A provider that answers every query, with one PairCreated(t0, t1) mined at block 100 000. */
  function BoundaryOracle(t0: Address, t1: Address): Query {
    (k, win: Window) => if win.from <= 100_000 <= win.to then Some([PairCreated(t0, t1)]) else Some([])
  }

  lemma BoundaryRun(t0: Address, t1: Address)
    ensures Run(0, 200_000, 100_000, BoundaryOracle(t0, t1), 0, 3) == Scan([
      Call(Window(0, 100_000), Some([PairCreated(t0, t1)])),
      Call(Window(100_000, 200_000), Some([PairCreated(t0, t1)])),
      Call(Window(200_000, 200_000), Some([]))], true)
  {
    var q := BoundaryOracle(t0, t1);
    assert Run(300_000, 200_000, 100_000, q, 3, 0) == Scan([], true);
    RunStep(200_000, 200_000, 100_000, q, 2, 1);
    RunStep(100_000, 200_000, 100_000, q, 1, 2);
    RunStep(0, 200_000, 100_000, q, 0, 3);
  }

  lemma BoundaryEvents(t0: Address, t1: Address)
    ensures Events(Run(0, 200_000, 100_000, BoundaryOracle(t0, t1), 0, 3).calls) == [PairCreated(t0, t1), PairCreated(t0, t1)]
  {
    var e := PairCreated(t0, t1);
    var c0 := Call(Window(0, 100_000), Some([e]));
    var c1 := Call(Window(100_000, 200_000), Some([e]));
    var c2 := Call(Window(200_000, 200_000), Some([]));
    BoundaryRun(t0, t1);
    assert [] + [c0] == [c0] && [c0] + [c1] == [c0, c1] && [c0, c1] + [c2] == [c0, c1, c2];
    EventsSnoc([], c0);
    EventsSnoc([c0], c1);
    EventsSnoc([c0, c1], c2);
  }

  /** Reading the same PairCreated(t0, t1) twice counts each token twice (four times when the
      pair names one token on both sides). */
  lemma TwiceCounted(t0: Address, t1: Address)
    ensures CountOf(RecordLogs(map[], [PairCreated(t0, t1), PairCreated(t0, t1)]), t0) == if t0 == t1 then 4 else 2
    ensures CountOf(RecordLogs(map[], [PairCreated(t0, t1), PairCreated(t0, t1)]), t1) == if t0 == t1 then 4 else 2
  {
    var e := PairCreated(t0, t1);
    assert [e, e][..1] == [e] && [e][..0] == [];
    var m1 := RecordLog(map[], e);
    assert RecordLogs(map[], [e]) == m1;
    assert CountOf(m1, t0) == CountOf(m1, t1) == if t0 == t1 then 2 else 1;
    assert RecordLogs(map[], [e, e]) == RecordLog(m1, e);
  }

  /** A pair created at a window boundary is read by both windows, so its tokens are counted
      twice: scanning [0, 200 000] with W = 100 000, one PairCreated(t0, t1) at block 100 000
      leaves both tokens at count 2. */
  lemma BoundaryPairCountedTwice(t0: Address, t1: Address)
    requires t0 != t1
    ensures Run(0, 200_000, 100_000, BoundaryOracle(t0, t1), 0, 3).done
    ensures CountOf(RecordLogs(map[], Events(Run(0, 200_000, 100_000, BoundaryOracle(t0, t1), 0, 3).calls)), t0) == 2
    ensures CountOf(RecordLogs(map[], Events(Run(0, 200_000, 100_000, BoundaryOracle(t0, t1), 0, 3).calls)), t1) == 2
  {
    BoundaryRun(t0, t1);
    BoundaryEvents(t0, t1);
    TwiceCounted(t0, t1);
  }

  /** One more call: its events follow those of the calls before it. */
  lemma EventsSnoc(calls: seq<Call>, c: Call)
    ensures Events(calls + [c]) == Events(calls) + (if c.result.Some? then c.result.value else [])
  {
    assert (calls + [c])[..|calls|] == calls;
  }

  /** One turn of the loop, seen from the specification: the call at s, then the rest of the run. */
  lemma RunStep(s: nat, head: nat, w: nat, query: Query, k: nat, fuel: nat)
    requires w > 0 && s <= head && fuel > 0
    ensures var win := WindowAt(s, head, w);
      var rest := Run(if query(k, win).Some? then s + w else s, head, w, query, k + 1, fuel - 1);
      Run(s, head, w, query, k, fuel) == Scan([Call(win, query(k, win))] + rest.calls, rest.done)
  {
  }

  /** The window loop of fetchSushiswapPairsTokenList for one factory contract, run for at most
      budget calls. It reports the calls it made (the "start/end" progress lines) and whether it
      reached the head; the table grows by the events of the successful windows. */
  method ScanContract(counts: map<Address, nat>, start: nat, head: nat, w: nat, query: Query, budget: nat)
    returns (counts': map<Address, nat>, calls: seq<Call>, done: bool)
    requires w > 0
    ensures Scan(calls, done) == Run(start, head, w, query, 0, budget)
    ensures counts' == RecordLogs(counts, Events(calls))
    ensures done ==> Successes(calls) == Windows(start, head, w)
    ensures !done ==> Successes(calls) <= Windows(start, head, w) && |calls| == budget
  {
    counts' := counts;
    calls := [];
    var s: int := start;
    var k: nat := 0;
    while s <= head && k < budget
      invariant start <= s && k <= budget
      invariant Run(start, head, w, query, 0, budget).calls == calls + Run(s, head, w, query, k, budget - k).calls
      invariant Run(start, head, w, query, 0, budget).done == Run(s, head, w, query, k, budget - k).done
      invariant counts' == RecordLogs(counts, Events(calls))
      decreases budget - k
    {
      ghost var before, s0, counts0 := calls, s, counts';
      var end := s + w;
      if end > head {
        end := head;
      }
      var window := Window(s, end);
      var result := query(k, window);
      if result.Some? {
        counts' := RecordEvents(counts', result.value);
      } else {
        s := s - w;
      }
      calls := calls + [Call(window, result)];
      k := k + 1;
      s := s + w;
      assert counts' == RecordLogs(counts, Events(calls)) by {
        CountsStep(counts, before, Call(window, result));
      }
      assert window == WindowAt(s0, head, w);
      RunAdvance(start, head, w, query, budget, before, s0, k - 1, window, result, calls, s, k);
    }
    done := s > head;
    assert Scan(calls, done) == Run(start, head, w, query, 0, budget) by {
      assert calls + [] == calls;
    }
    RunFollowsWindows(start, head, w, query, 0, budget);
    RunLength(start, head, w, query, 0, budget);
  }

  /** The loop invariant is kept by one turn of the loop, from counter s and call number k
      to counter s' and call number k'. */
  lemma RunAdvance(start: nat, head: nat, w: nat, query: Query, budget: nat,
                   calls: seq<Call>, s: nat, k: nat, window: Window, result: Option<seq<LogItem>>,
                   calls': seq<Call>, s': nat, k': nat)
    requires w > 0 && s <= head && k < budget
    requires window == WindowAt(s, head, w) && result == query(k, window)
    requires s' == (if result.Some? then s + w else s) && k' == k + 1
    requires calls' == calls + [Call(window, result)]
    requires Run(start, head, w, query, 0, budget).calls == calls + Run(s, head, w, query, k, budget - k).calls
    requires Run(start, head, w, query, 0, budget).done == Run(s, head, w, query, k, budget - k).done
    ensures Run(start, head, w, query, 0, budget).calls == calls' + Run(s', head, w, query, k', budget - k').calls
    ensures Run(start, head, w, query, 0, budget).done == Run(s', head, w, query, k', budget - k').done
  {
    var rest := Run(s', head, w, query, k', budget - k');
    RunStep(s, head, w, query, k, budget - k);
    assert calls + ([Call(window, result)] + rest.calls) == (calls + [Call(window, result)]) + rest.calls;
  }

  /** The table after one more call: the old table with that call's events read. */
  lemma CountsStep(counts: map<Address, nat>, calls: seq<Call>, c: Call)
    ensures RecordLogs(counts, Events(calls + [c])) ==
      if c.result.Some? then RecordLogs(RecordLogs(counts, Events(calls)), c.result.value)
      else RecordLogs(counts, Events(calls))
  {
    EventsSnoc(calls, c);
    if c.result.Some? {
      RecordLogsAppend(counts, Events(calls), c.result.value);
    } else {
      assert Events(calls) + [] == Events(calls);
    }
  }
}
