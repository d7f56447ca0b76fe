/** The source-code analyzer stage manager: a pool of at most three analyzer
  * tasks fed from the document queue, harvested into the product queue only
  * while that queue holds fewer than three products. */
module AnalyzerManager {
  import opened Sequences

  /** Ceiling on the downstream product queue, checked before each forward. */
  const MaxAnalyzerQueueCount: nat := 3
  /** Size of the analyzer thread pool; also the cap on tracked futures. */
  const MaxThreadCount: nat := 3

  /** What `get()` on a finished analyzer future yields. */
  datatype Outcome<P> =
    | Product(product: P)   // a product
    | Null                  // the analyzer returned null
    | Failed                // get() threw ExecutionException

  datatype Status<P> = Running | Finished(outcome: Outcome<P>)

  /** One tracked future: the document it analyzes and its completion state. */
  datatype Slot<D, P> = Slot(doc: D, status: Status<P>)

  /** A finished future that carries a product. */
  predicate Deliverable<D, P>(s: Slot<D, P>)
  {
    s.status.Finished? && s.status.outcome.Product?
  }

  predicate Failure<D, P>(s: Slot<D, P>)
  {
    s.status.Finished? && s.status.outcome.Failed?
  }

  predicate NullResult<D, P>(s: Slot<D, P>)
  {
    s.status.Finished? && s.status.outcome.Null?
  }

  /** Fresh futures for the documents, in order. */
  function Submitted<D, P>(docs: seq<D>): (r: seq<Slot<D, P>>)
    ensures |r| == |docs|
    ensures forall i :: 0 <= i < |docs| ==> r[i] == Slot(docs[i], Running)
  {
    if docs == [] then [] else [Slot(docs[0], Running)] + Submitted(docs[1..])
  }

  /** The products carried by the slots, in slot order. */
  function Products<D, P>(slots: seq<Slot<D, P>>): (r: seq<P>)
    ensures |r| <= |slots|
  {
    if slots == [] then []
    else
      var last := slots[|slots| - 1];
      Products(slots[..|slots| - 1]) + (if Deliverable(last) then [last.status.outcome.product] else [])
  }

  lemma ProductsSnoc<D, P>(slots: seq<Slot<D, P>>, s: Slot<D, P>)
    requires Deliverable(s)
    ensures Products(slots + [s]) == Products(slots) + [s.status.outcome.product]
  {
    assert (slots + [s])[..|slots|] == slots;
  }

  // ---------------------------------------------------------------------------
  // fillFuturesArray

  /** The document queue and the tracked futures. */
  datatype Stage<D, P> = Stage(queue: seq<D>, futures: seq<Slot<D, P>>)

  /** One submission at a time, as the loop of fillFuturesArray does it. */
  function Filled<D, P>(queue: seq<D>, futures: seq<Slot<D, P>>): (r: Stage<D, P>)
    ensures |r.queue| <= |queue| && |r.futures| >= |futures|
    decreases |queue|
  {
    if queue != [] && |futures| < MaxThreadCount then
      Filled(queue[1..], futures + [Slot(queue[0], Running)])
    else
      Stage(queue, futures)
  }

  /** How many documents a fill submits: as many as free pool slots allow. */
  function FillCount(queued: nat, tracked: nat): nat
  {
    if tracked < MaxThreadCount then Min(queued, MaxThreadCount - tracked) else 0
  }

  /** A fill takes the first FillCount documents off the front of the queue and
    * tracks one new future per document, in queue order. */
  lemma {:induction false} FilledTakesFromFront<D, P>(queue: seq<D>, futures: seq<Slot<D, P>>)
    ensures FillCount(|queue|, |futures|) <= |queue|
    ensures var k := FillCount(|queue|, |futures|);
      Filled(queue, futures) == Stage(queue[k..], futures + Submitted<D, P>(queue[..k]))
  {
    var k := FillCount(|queue|, |futures|);
    if queue != [] && |futures| < MaxThreadCount {
      var next := futures + [Slot(queue[0], Running)];
      FilledTakesFromFront(queue[1..], next);
      assert FillCount(|queue[1..]|, |next|) == k - 1;
      assert queue[1..][k - 1..] == queue[k..];
      assert queue[..k][1..] == queue[1..][..k - 1];
      assert Submitted<D, P>(queue[..k]) == [Slot(queue[0], Running)] + Submitted<D, P>(queue[1..][..k - 1]);
    } else {
      assert k == 0;
      assert queue[..0] == [];
    }
  }

  /** With an empty queue or a full pool, a fill changes nothing. */
  lemma FillBlocked<D, P>(queue: seq<D>, futures: seq<Slot<D, P>>)
    requires queue == [] || |futures| >= MaxThreadCount
    ensures Filled(queue, futures) == Stage(queue, futures)
  {
  }

  /** A fill never tracks more than the pool size, and when it starts below
    * the pool size it stops only with an empty queue or a full pool. */
  lemma {:induction false} FillRespectsPool<D, P>(queue: seq<D>, futures: seq<Slot<D, P>>)
    ensures var s := Filled(queue, futures);
      (|futures| <= MaxThreadCount ==> |s.futures| <= MaxThreadCount) &&
      (|futures| < MaxThreadCount ==> s.queue == [] || |s.futures| == MaxThreadCount)
  {
    FilledTakesFromFront(queue, futures);
  }

  /** A fill moves documents, never loses or duplicates one. */
  lemma {:induction false} FillConserves<D, P>(queue: seq<D>, futures: seq<Slot<D, P>>)
    ensures var s := Filled(queue, futures);
      |s.queue| + |s.futures| == |queue| + |futures| && |s.futures| >= |futures|
  {
    FilledTakesFromFront(queue, futures);
  }

  // ---------------------------------------------------------------------------
  // emptyFuturesArray

  /** The effect of one scan: futures still tracked, futures removed with their
    * product forwarded (in forwarding order), and whether the scan ended with
    * a NullPointerException. */
  datatype Harvested<D, P> = Harvested(kept: seq<Slot<D, P>>, forwarded: seq<Slot<D, P>>, crashed: bool)

  /** The scan of emptyFuturesArray over the futures, last index first, with
    * `queued` products already in the downstream queue. A finished future
    * is looked at only while the downstream queue is below its ceiling; a
    * product is forwarded and its future removed, a failed `get()` leaves the
    * future tracked, and a null product is dereferenced before its null check,
    * which ends the scan with the future and all lower ones still tracked. */
  function Harvest<D, P>(futures: seq<Slot<D, P>>, queued: nat): (r: Harvested<D, P>)
    ensures |r.kept| + |r.forwarded| == |futures|
    decreases |futures|
  {
    if futures == [] then Harvested([], [], false)
    else
      var last := futures[|futures| - 1];
      var front := futures[..|futures| - 1];
      if last.status.Finished? && queued < MaxAnalyzerQueueCount then
        match last.status.outcome
        case Product(_) =>
          var h := Harvest(front, queued + 1);
          Harvested(h.kept, [last] + h.forwarded, h.crashed)
        case Null =>
          Harvested(futures, [], true)
        case Failed =>
          var h := Harvest(front, queued);
          Harvested(h.kept + [last], h.forwarded, h.crashed)
      else
        var h := Harvest(front, queued);
        Harvested(h.kept + [last], h.forwarded, h.crashed)
  }

  /** How far a scan over `all` has got once the indices above `i` are done:
    * what remains is the scan of `all[..i + 1]`, after `held` stayed tracked
    * and `sent` was forwarded. */
  ghost predicate ScanReached<D, P>(all: seq<Slot<D, P>>, i: int, queued: nat, held: seq<Slot<D, P>>,
                                    sent: seq<Slot<D, P>>, goal: Harvested<D, P>)
    requires -1 <= i < |all|
  {
    var rest := Harvest(all[..i + 1], queued);
    rest.kept + held == goal.kept && sent + rest.forwarded == goal.forwarded && rest.crashed == goal.crashed
  }

  /** The scan step at index `i` for a future whose product is forwarded. */
  lemma ScanForwardStep<D, P>(all: seq<Slot<D, P>>, i: nat, queued: nat, held: seq<Slot<D, P>>,
                              sent: seq<Slot<D, P>>, goal: Harvested<D, P>)
    requires i < |all| && Deliverable(all[i]) && queued < MaxAnalyzerQueueCount
    requires ScanReached(all, i, queued, held, sent, goal)
    ensures ScanReached(all, i - 1, queued + 1, held, sent + [all[i]], goal)
  {
    assert all[..i + 1][..i] == all[..i];
    var g := Harvest(all[..i], queued + 1);
    assert Harvest(all[..i + 1], queued) == Harvested(g.kept, [all[i]] + g.forwarded, g.crashed);
    assert (sent + [all[i]]) + g.forwarded == sent + ([all[i]] + g.forwarded);
  }

  /** The scan step at index `i` for a future that stays tracked. */
  lemma ScanHoldStep<D, P>(all: seq<Slot<D, P>>, i: nat, queued: nat, held: seq<Slot<D, P>>,
                           sent: seq<Slot<D, P>>, goal: Harvested<D, P>)
    requires i < |all|
    requires !all[i].status.Finished? || queued >= MaxAnalyzerQueueCount || Failure(all[i])
    requires ScanReached(all, i, queued, held, sent, goal)
    ensures ScanReached(all, i - 1, queued, [all[i]] + held, sent, goal)
    ensures all[..i] + ([all[i]] + held) == all[..i + 1] + held
  {
    assert all[..i + 1][..i] == all[..i];
    var g := Harvest(all[..i], queued);
    assert Harvest(all[..i + 1], queued) == Harvested(g.kept + [all[i]], g.forwarded, g.crashed);
    assert (g.kept + [all[i]]) + held == g.kept + ([all[i]] + held);
    assert all[..i + 1] == all[..i] + [all[i]];
  }

  /** One step of the scan at index `i`, for a future whose product is null. */
  lemma HarvestStepNull<D, P>(all: seq<Slot<D, P>>, i: nat, queued: nat)
    requires i < |all| && NullResult(all[i]) && queued < MaxAnalyzerQueueCount
    ensures Harvest(all[..i + 1], queued) == Harvested(all[..i + 1], [], true)
  {
  }

  /** Only finished futures carrying a product leave the tracked list. */
  lemma {:induction false} HarvestForwardsDeliverable<D, P>(futures: seq<Slot<D, P>>, queued: nat)
    ensures forall s :: s in Harvest(futures, queued).forwarded ==> Deliverable(s)
    decreases |futures|
  {
    if futures != [] {
      var last := futures[|futures| - 1];
      var front := futures[..|futures| - 1];
      HarvestForwardsDeliverable(front, queued + 1);
      HarvestForwardsDeliverable(front, queued);
    }
  }

  /** Every tracked future is either still tracked or forwarded, exactly once. */
  lemma {:induction false} HarvestConserves<D, P>(futures: seq<Slot<D, P>>, queued: nat)
    ensures var h := Harvest(futures, queued);
      multiset(h.kept) + multiset(h.forwarded) == multiset(futures)
    decreases |futures|
  {
    if futures != [] {
      var last := futures[|futures| - 1];
      var front := futures[..|futures| - 1];
      var whole := Harvest(futures, queued);
      assert multiset(futures) == multiset(front) + multiset{last} by {
        assert futures == front + [last];
      }
      if last.status.Finished? && queued < MaxAnalyzerQueueCount && last.status.outcome.Product? {
        var h := Harvest(front, queued + 1);
        assert whole == Harvested(h.kept, [last] + h.forwarded, h.crashed);
        HarvestConserves(front, queued + 1);
        assert multiset(whole.forwarded) == multiset{last} + multiset(h.forwarded);
      } else if last.status.Finished? && queued < MaxAnalyzerQueueCount && last.status.outcome.Null? {
        assert whole == Harvested(futures, [], true);
      } else {
        var h := Harvest(front, queued);
        assert whole == Harvested(h.kept + [last], h.forwarded, h.crashed);
        HarvestConserves(front, queued);
        assert multiset(whole.kept) == multiset(h.kept) + multiset{last};
      }
    }
  }

  /** The number of forwarded products never lifts the downstream queue over
    * its ceiling. */
  lemma {:induction false} HarvestRespectsCeiling<D, P>(futures: seq<Slot<D, P>>, queued: nat)
    requires queued <= MaxAnalyzerQueueCount
    ensures queued + |Harvest(futures, queued).forwarded| <= MaxAnalyzerQueueCount
    decreases |futures|
  {
    if futures != [] {
      var last := futures[|futures| - 1];
      var front := futures[..|futures| - 1];
      if last.status.Finished? && queued < MaxAnalyzerQueueCount {
        match last.status.outcome
        case Product(_) =>
          HarvestRespectsCeiling(front, queued + 1);
        case Null =>
        case Failed =>
          HarvestRespectsCeiling(front, queued);
      } else {
        HarvestRespectsCeiling(front, queued);
      }
    }
  }

  /** A downstream queue already at its ceiling receives nothing, and every
    * future stays tracked. */
  lemma {:induction false} HarvestWhenFull<D, P>(futures: seq<Slot<D, P>>, queued: nat)
    requires queued >= MaxAnalyzerQueueCount
    ensures Harvest(futures, queued) == Harvested(futures, [], false)
    decreases |futures|
  {
    if futures != [] {
      var last := futures[|futures| - 1];
      var front := futures[..|futures| - 1];
      HarvestWhenFull(front, queued);
      assert front + [last] == futures;
    }
  }

  /** Futures that stay tracked keep their original relative order. */
  lemma {:induction false} HarvestKeepsOrder<D, P>(futures: seq<Slot<D, P>>, queued: nat)
    ensures IsSubsequence(Harvest(futures, queued).kept, futures)
    decreases |futures|
  {
    if futures != [] {
      var last := futures[|futures| - 1];
      var front := futures[..|futures| - 1];
      assert futures == front + [last];
      if last.status.Finished? && queued < MaxAnalyzerQueueCount {
        match last.status.outcome
        case Product(_) =>
          HarvestKeepsOrder(front, queued + 1);
          SubsequenceExtend(Harvest(front, queued + 1).kept, front, last);
        case Null =>
          SubsequenceReflexive(futures);
        case Failed =>
          HarvestKeepsOrder(front, queued);
          SubsequenceAppend(Harvest(front, queued).kept, front, last);
      } else {
        HarvestKeepsOrder(front, queued);
        SubsequenceAppend(Harvest(front, queued).kept, front, last);
      }
    }
  }

  /** Products are forwarded in reverse tracking order: read backwards, the
    * forwarded futures are a subsequence of the tracked list. */
  lemma {:induction false} HarvestForwardsLastFirst<D, P>(futures: seq<Slot<D, P>>, queued: nat)
    ensures IsSubsequence(Reversed(Harvest(futures, queued).forwarded), futures)
    decreases |futures|
  {
    if futures != [] {
      var last := futures[|futures| - 1];
      var front := futures[..|futures| - 1];
      assert futures == front + [last];
      if last.status.Finished? && queued < MaxAnalyzerQueueCount {
        match last.status.outcome
        case Product(_) =>
          var h := Harvest(front, queued + 1);
          HarvestForwardsLastFirst(front, queued + 1);
          assert ([last] + h.forwarded)[1..] == h.forwarded;
          assert Reversed([last] + h.forwarded) == Reversed(h.forwarded) + [last];
          SubsequenceAppend(Reversed(h.forwarded), front, last);
        case Null =>
          SubsequenceEmpty(futures);
        case Failed =>
          HarvestForwardsLastFirst(front, queued);
          SubsequenceExtend(Reversed(Harvest(front, queued).forwarded), front, last);
      } else {
        HarvestForwardsLastFirst(front, queued);
        SubsequenceExtend(Reversed(Harvest(front, queued).forwarded), front, last);
      }
    }
  }

  /** Backpressure: a finished future with a product that is still tracked
    * after a complete scan was held because the downstream queue was full. */
  lemma {:induction false} HarvestHoldsOnlyWhenFull<D, P>(futures: seq<Slot<D, P>>, queued: nat, s: Slot<D, P>)
    requires !Harvest(futures, queued).crashed
    requires s in Harvest(futures, queued).kept && Deliverable(s)
    ensures queued + |Harvest(futures, queued).forwarded| >= MaxAnalyzerQueueCount
    decreases |futures|
  {
    var last := futures[|futures| - 1];
    var front := futures[..|futures| - 1];
    if last.status.Finished? && queued < MaxAnalyzerQueueCount {
      match last.status.outcome
      case Product(_) =>
        HarvestHoldsOnlyWhenFull(front, queued + 1, s);
      case Failed =>
        if s != last {
          HarvestHoldsOnlyWhenFull(front, queued, s);
        }
    } else if s != last {
      HarvestHoldsOnlyWhenFull(front, queued, s);
    }
  }

  /** A scan ends early only on a finished future whose product is null,
    * reached while the downstream queue still had room. */
  lemma {:induction false} HarvestCrashesOnlyOnNull<D, P>(futures: seq<Slot<D, P>>, queued: nat)
    requires Harvest(futures, queued).crashed
    ensures exists s :: s in futures && NullResult(s)
    ensures exists s :: s in Harvest(futures, queued).kept && NullResult(s)
    ensures queued + |Harvest(futures, queued).forwarded| < MaxAnalyzerQueueCount
    decreases |futures|
  {
    var last := futures[|futures| - 1];
    var front := futures[..|futures| - 1];
    assert futures == front + [last];
    if last.status.Finished? && queued < MaxAnalyzerQueueCount {
      match last.status.outcome
      case Product(_) =>
        HarvestCrashesOnlyOnNull(front, queued + 1);
      case Null =>
        assert last in futures && last in Harvest(futures, queued).kept;
      case Failed =>
        HarvestCrashesOnlyOnNull(front, queued);
        var s :| s in Harvest(front, queued).kept && NullResult(s);
        assert s in Harvest(futures, queued).kept;
    } else {
      HarvestCrashesOnlyOnNull(front, queued);
      var s :| s in Harvest(front, queued).kept && NullResult(s);
      assert s in Harvest(futures, queued).kept;
    }
  }

  /** The null check never protects: a scan that completes without the
    * exception met every null product only while the product queue was full. */
  lemma {:induction false} NullHeldOnlyWhenFull<D, P>(futures: seq<Slot<D, P>>, queued: nat, s: Slot<D, P>)
    requires !Harvest(futures, queued).crashed
    requires s in futures && NullResult(s)
    ensures queued + |Harvest(futures, queued).forwarded| >= MaxAnalyzerQueueCount
    decreases |futures|
  {
    var last := futures[|futures| - 1];
    var front := futures[..|futures| - 1];
    assert futures == front + [last];
    if s != last {
      assert s in front;
    }
    if last.status.Finished? && queued < MaxAnalyzerQueueCount {
      match last.status.outcome
      case Product(_) =>
        NullHeldOnlyWhenFull(front, queued + 1, s);
      case Failed =>
        NullHeldOnlyWhenFull(front, queued, s);
    } else if s != last {
      NullHeldOnlyWhenFull(front, queued, s);
    }
  }

  /** Held, not dropped: running futures and failed ones stay tracked, every
    * occurrence of them. */
  lemma HarvestHoldsUndeliverable<D, P>(futures: seq<Slot<D, P>>, queued: nat, s: Slot<D, P>)
    requires !Deliverable(s)
    ensures multiset(Harvest(futures, queued).kept)[s] == multiset(futures)[s]
  {
    HarvestConserves(futures, queued);
    HarvestForwardsDeliverable(futures, queued);
    assert s !in Harvest(futures, queued).forwarded;
  }

  /** One product per forwarded future, in forwarding order. */
  lemma {:induction false} ProductsOfDeliverable<D, P>(slots: seq<Slot<D, P>>)
    requires forall i :: 0 <= i < |slots| ==> Deliverable(slots[i])
    ensures |Products(slots)| == |slots|
    ensures forall i :: 0 <= i < |slots| ==>
      Deliverable(slots[i]) && Products(slots)[i] == slots[i].status.outcome.product
  {
    if slots != [] {
      var front := slots[..|slots| - 1];
      ProductsOfDeliverable(front);
    }
  }

  /** Three failed futures occupy the whole pool for good: no document is
    * submitted and the scan releases none of them. */
  lemma PoolWedgedByFailures<D, P>(queue: seq<D>, futures: seq<Slot<D, P>>, queued: nat)
    requires |futures| == MaxThreadCount
    requires forall i :: 0 <= i < |futures| ==> Failure(futures[i])
    ensures Filled(queue, futures) == Stage(queue, futures)
    ensures Harvest(futures, queued) == Harvested(futures, [], false)
  {
    var f1 := futures[..2];
    var f0 := futures[..1];
    assert f1[..1] == f0;
    assert f0[..0] == [];
    assert Harvest(f0[..0], queued) == Harvested([], [], false);
    assert Harvest(f0, queued) == Harvested([futures[0]], [], false);
    assert Harvest(f1, queued) == Harvested(f0 + [futures[1]], [], false);
    assert f0 + [futures[1]] == f1;
    assert f1 + [futures[2]] == futures;
  }

  // ---------------------------------------------------------------------------
  // The manager object

  /** Why a bounded run of the manager's loop stopped. */
  datatype Stop = LimitReached | Crashed | Polling

  /** One executor completion observed by the manager. */
  datatype Completion<P> = Completion(index: nat, outcome: Outcome<P>)

  /** What the other threads do during one iteration of the manager's loop:
    * the upstream stage adds documents, the downstream stage takes products
    * off the front of the product queue, and analyzer tasks finish. */
  datatype Round<D, P> = Round(arrived: seq<D>, consumed: nat, completions: seq<Completion<P>>)

  /** The executor finishes the task of the future at `c.index`, if that one
    * is still running; any other completion changes nothing. */
  function CompleteOne<D, P>(futures: seq<Slot<D, P>>, c: Completion<P>): (r: seq<Slot<D, P>>)
    ensures |r| == |futures|
    ensures forall i :: 0 <= i < |r| ==>
      r[i] == futures[i] || (futures[i].status.Running? && r[i] == Slot(futures[i].doc, Finished(c.outcome)))
  {
    if c.index < |futures| && futures[c.index].status.Running? then
      futures[c.index := Slot(futures[c.index].doc, Finished(c.outcome))]
    else futures
  }

  /** The completions of one round, applied in order. */
  function Completed<D, P>(futures: seq<Slot<D, P>>, cs: seq<Completion<P>>): (r: seq<Slot<D, P>>)
    ensures |r| == |futures|
    decreases |cs|
  {
    if cs == [] then futures else CompleteOne(Completed(futures, cs[..|cs| - 1]), cs[|cs| - 1])
  }

  /** The manager's fields, as one value. */
  datatype ManagerState<D, P> =
    ManagerState(futures: seq<Slot<D, P>>, sourceQueue: seq<D>, productQueue: seq<P>, count: int)

  /** The state after one iteration of run's loop, and whether its scan
    * ended with the NullPointerException. */
  datatype RoundResult<D, P> = RoundResult(state: ManagerState<D, P>, crashed: bool)

  /** One iteration of run's loop: documents arrive and products are taken
    * downstream, then fillFuturesArray, then the round's completions, then
    * emptyFuturesArray. */
  function PlayRound<D, P>(m: ManagerState<D, P>, round: Round<D, P>): (r: RoundResult<D, P>)
    ensures r.state.count >= m.count
  {
    var queue := m.sourceQueue + round.arrived;
    var products := m.productQueue[Min(round.consumed, |m.productQueue|)..];
    var fill := Filled(queue, m.futures);
    var h := Harvest(Completed(fill.futures, round.completions), |products|);
    RoundResult(ManagerState(h.kept, fill.queue, products + Products(h.forwarded), m.count + |h.forwarded|),
                h.crashed)
  }

  /** The outcome of running the loop over the given rounds: the final state,
    * why it stopped, and the count with which each executed round began. */
  datatype Ran<D, P> = Ran(state: ManagerState<D, P>, stop: Stop, starts: seq<int>)

  /** run: the loop test `docsAnalyzedCount < docLimit` comes before every
    * round; the exception of a scan ends the loop. */
  function RunRounds<D, P>(m: ManagerState<D, P>, rounds: seq<Round<D, P>>, limit: int): (r: Ran<D, P>)
    ensures |r.starts| <= |rounds|
    decreases |rounds|
  {
    if m.count >= limit then Ran(m, LimitReached, [])
    else if rounds == [] then Ran(m, Polling, [])
    else
      var step := PlayRound(m, rounds[0]);
      if step.crashed then Ran(step.state, Crashed, [m.count])
      else
        var rest := RunRounds(step.state, rounds[1..], limit);
        Ran(rest.state, rest.stop, [m.count] + rest.starts)
  }

  /** One round keeps the pool within its size and the product queue within
    * its ceiling, and a round whose scan crashed leaves the null future
    * tracked. */
  lemma RoundFacts<D, P>(m: ManagerState<D, P>, round: Round<D, P>)
    ensures var r := PlayRound(m, round);
      (|m.futures| <= MaxThreadCount ==> |r.state.futures| <= MaxThreadCount) &&
      (|m.productQueue| <= MaxAnalyzerQueueCount ==> |r.state.productQueue| <= MaxAnalyzerQueueCount) &&
      (r.crashed ==> exists i :: 0 <= i < |r.state.futures| && NullResult(r.state.futures[i]))
  {
    var queue := m.sourceQueue + round.arrived;
    var products := m.productQueue[Min(round.consumed, |m.productQueue|)..];
    var fill := Filled(queue, m.futures);
    var done := Completed(fill.futures, round.completions);
    FillRespectsPool(queue, m.futures);
    HarvestFacts(done, |products|);
    var h := Harvest(done, |products|);
    if h.crashed {
      HarvestCrashesOnlyOnNull(done, |products|);
      var s :| s in h.kept && NullResult(s);
      var i :| 0 <= i < |h.kept| && h.kept[i] == s;
      assert PlayRound(m, round).state.futures[i] == s;
    }
  }

  /** Every round of a run begins below the limit; a run stops LimitReached
    * only at the limit, and Polling only below it after using every round. */
  lemma {:induction false} RunStartsBelowLimit<D, P>(m: ManagerState<D, P>, rounds: seq<Round<D, P>>, limit: int)
    ensures var res := RunRounds(m, rounds, limit);
      |res.starts| <= |rounds| &&
      (forall i :: 0 <= i < |res.starts| ==> m.count <= res.starts[i] < limit) &&
      (res.starts != [] ==> res.starts[0] == m.count) &&
      (res.stop == LimitReached ==> res.state.count >= limit) &&
      (res.stop == Polling ==> res.state.count < limit && |res.starts| == |rounds|) &&
      (res.stop == Crashed ==> res.starts != []) &&
      res.state.count >= m.count
    decreases |rounds|
  {
    if m.count < limit && rounds != [] {
      var step := PlayRound(m, rounds[0]);
      if !step.crashed {
        RunStartsBelowLimit(step.state, rounds[1..], limit);
        var rest := RunRounds(step.state, rounds[1..], limit);
        assert RunRounds(m, rounds, limit) == Ran(rest.state, rest.stop, [m.count] + rest.starts);
      } else {
        assert RunRounds(m, rounds, limit) == Ran(step.state, Crashed, [m.count]);
      }
    }
  }

  /** A crashed run ends with the null future still tracked. */
  lemma {:induction false} RunCrashesOnNull<D, P>(m: ManagerState<D, P>, rounds: seq<Round<D, P>>, limit: int)
    requires RunRounds(m, rounds, limit).stop == Crashed
    ensures var f := RunRounds(m, rounds, limit).state.futures;
      exists i :: 0 <= i < |f| && NullResult(f[i])
    decreases |rounds|
  {
    var step := PlayRound(m, rounds[0]);
    if step.crashed {
      RoundFacts(m, rounds[0]);
    } else {
      RunCrashesOnNull(step.state, rounds[1..], limit);
    }
  }

  /** A run keeps the pool within its size and the product queue within its
    * ceiling. */
  lemma {:induction false} RunKeepsBounds<D, P>(m: ManagerState<D, P>, rounds: seq<Round<D, P>>, limit: int)
    ensures var res := RunRounds(m, rounds, limit);
      (|m.futures| <= MaxThreadCount ==> |res.state.futures| <= MaxThreadCount) &&
      (|m.productQueue| <= MaxAnalyzerQueueCount ==> |res.state.productQueue| <= MaxAnalyzerQueueCount)
    decreases |rounds|
  {
    if m.count < limit && rounds != [] {
      RoundFacts(m, rounds[0]);
      var step := PlayRound(m, rounds[0]);
      if !step.crashed {
        RunKeepsBounds(step.state, rounds[1..], limit);
      }
    }
  }

  /** Completions change nothing in a pool of failed futures: only a running
    * future can finish. */
  lemma {:induction false} CompletedLeavesFailures<D, P>(futures: seq<Slot<D, P>>, cs: seq<Completion<P>>)
    requires forall i :: 0 <= i < |futures| ==> Failure(futures[i])
    ensures Completed(futures, cs) == futures
    decreases |cs|
  {
    if cs != [] {
      CompletedLeavesFailures(futures, cs[..|cs| - 1]);
      var r := CompleteOne(futures, cs[|cs| - 1]);
      assert forall i :: 0 <= i < |r| ==> r[i] == futures[i];
    }
  }

  /** Three failed futures wedge the manager for good: over any rounds, the
    * pool keeps exactly those futures, no product is ever counted, and the
    * run never crashes. */
  lemma {:induction false} RunWedged<D, P>(m: ManagerState<D, P>, rounds: seq<Round<D, P>>, limit: int)
    requires |m.futures| == MaxThreadCount
    requires forall i :: 0 <= i < |m.futures| ==> Failure(m.futures[i])
    ensures var res := RunRounds(m, rounds, limit);
      res.state.futures == m.futures && res.state.count == m.count && res.stop != Crashed
    decreases |rounds|
  {
    if m.count < limit && rounds != [] {
      var round := rounds[0];
      var queue := m.sourceQueue + round.arrived;
      var products := m.productQueue[Min(round.consumed, |m.productQueue|)..];
      PoolWedgedByFailures(queue, m.futures, |products|);
      CompletedLeavesFailures(m.futures, round.completions);
      var step := PlayRound(m, round);
      assert step.state.futures == m.futures && step.state.count == m.count && !step.crashed;
      RunWedged(step.state, rounds[1..], limit);
    }
  }

  class SourceCodeAnalyzerManager<D, P> {
    /** futuresArray: the futures submitted to the executor and not yet removed. */
    var futures: seq<Slot<D, P>>
    /** bqMFSourceCode: documents waiting for analysis. */
    var sourceQueue: seq<D>
    /** bqMFProduct: products waiting for the database stage. */
    var productQueue: seq<P>
    var docsAnalyzedCount: int
    const docLimit: int

    /** The pool never tracks more futures than it has threads. */
    ghost predicate Valid()
      reads this
    {
      |futures| <= MaxThreadCount
    }

    /** The downstream queue is within its ceiling. */
    ghost predicate Bounded()
      reads this
    {
      |productQueue| <= MaxAnalyzerQueueCount
    }

    constructor (sourceQueue: seq<D>, productQueue: seq<P>, docLimit: int)
      ensures Valid()
      ensures this.sourceQueue == sourceQueue && this.productQueue == productQueue
      ensures this.docLimit == docLimit
      ensures futures == [] && docsAnalyzedCount == 0
    {
      this.sourceQueue := sourceQueue;
      this.productQueue := productQueue;
      this.docLimit := docLimit;
      futures := [];
      docsAnalyzedCount := 0;
    }

    /** fillFuturesArray: submit queued documents while the pool has room. */
    method FillFuturesArray()
      modifies this`futures, this`sourceQueue
      ensures Stage(sourceQueue, futures) == Filled(old(sourceQueue), old(futures))
      ensures var k := FillCount(|old(sourceQueue)|, |old(futures)|);
        sourceQueue == old(sourceQueue)[k..] && futures == old(futures) + Submitted<D, P>(old(sourceQueue)[..k])
      ensures old(Valid()) ==> Valid()
    {
      if sourceQueue != [] && |futures| < MaxThreadCount {
        while sourceQueue != []
          invariant Filled(sourceQueue, futures) == Filled(old(sourceQueue), old(futures))
          decreases |sourceQueue|
        {
          if |futures| < MaxThreadCount {
            var doc := sourceQueue[0];
            sourceQueue := sourceQueue[1..];
            futures := futures + [Slot(doc, Running)];
          } else {
            break;
          }
        }
      }
      FilledTakesFromFront<D, P>(old(sourceQueue), old(futures));
      FillRespectsPool<D, P>(old(sourceQueue), old(futures));
    }

    /** emptyFuturesArray: scan the futures from the last index to the first,
      * forwarding finished products while the product queue has room.
      * `npe` reports the NullPointerException a null product raises. */
    method EmptyFuturesArray() returns (npe: bool)
      modifies this`futures, this`productQueue, this`docsAnalyzedCount
      ensures var h := Harvest(old(futures), |old(productQueue)|);
        futures == h.kept &&
        productQueue == old(productQueue) + Products(h.forwarded) &&
        docsAnalyzedCount == old(docsAnalyzedCount) + |h.forwarded| &&
        npe == h.crashed
      ensures docsAnalyzedCount - old(docsAnalyzedCount) == |productQueue| - |old(productQueue)|
      ensures old(Bounded()) ==> Bounded()
      ensures |futures| <= |old(futures)|
    {
      ghost var all := futures;
      ghost var start := productQueue;
      ghost var goal := Harvest(all, |start|);
      ghost var held: seq<Slot<D, P>> := [];
      ghost var sent: seq<Slot<D, P>> := [];
      var futureIndex := |futures| - 1;
      assert all[..futureIndex + 1] == all;
      assert goal.kept + held == goal.kept && sent + goal.forwarded == goal.forwarded;
      while futureIndex > -1
        invariant -1 <= futureIndex < |all|
        invariant futures == all[..futureIndex + 1] + held
        invariant productQueue == start + Products(sent)
        invariant |productQueue| == |start| + |sent|
        invariant docsAnalyzedCount == old(docsAnalyzedCount) + |sent|
        invariant ScanReached(all, futureIndex, |productQueue|, held, sent, goal)
        decreases futureIndex
      {
        var slot := futures[futureIndex];
        assert slot == all[futureIndex];
        if slot.status.Finished? && |productQueue| < MaxAnalyzerQueueCount {
          match slot.status.outcome {
            case Product(p) =>
              ScanForwardStep(all, futureIndex, |productQueue|, held, sent, goal);
              ProductsSnoc(sent, slot);
              RemoveAtBoundary(all, futureIndex, held);
              productQueue := productQueue + [p];
              docsAnalyzedCount := docsAnalyzedCount + 1;
              futures := futures[..futureIndex] + futures[futureIndex + 1..];
              sent := sent + [slot];
            case Null =>
              HarvestStepNull(all, futureIndex, |productQueue|);
              npe := true;
              assert sent + [] == sent;
              HarvestFacts(all, |start|);
              return;
            case Failed =>
              ScanHoldStep(all, futureIndex, |productQueue|, held, sent, goal);
              held := [slot] + held;
          }
        } else {
          ScanHoldStep(all, futureIndex, |productQueue|, held, sent, goal);
          held := [slot] + held;
        }
        futureIndex := futureIndex - 1;
      }
      npe := false;
      assert all[..0] == [];
      assert sent + [] == sent;
      HarvestFacts(all, |start|);
    }

    /** An executor thread finishes the task of a running future. */
    method Complete(c: Completion<P>)
      modifies this`futures
      ensures futures == CompleteOne(old(futures), c)
    {
      if c.index < |futures| && futures[c.index].status.Running? {
        futures := futures[c.index := Slot(futures[c.index].doc, Finished(c.outcome))];
      }
    }

    function State(): ManagerState<D, P>
      reads this
    {
      ManagerState(futures, sourceQueue, productQueue, docsAnalyzedCount)
    }

    /** One iteration of run's loop, with what the other threads do first:
      * `round` supplies the arriving documents, the products taken downstream
      * and the task completions seen before the scan. */
    method Iterate(round: Round<D, P>) returns (npe: bool)
      modifies this`futures, this`sourceQueue, this`productQueue, this`docsAnalyzedCount
      ensures RoundResult(State(), npe) == PlayRound(old(State()), round)
    {
      ghost var m := State();
      ghost var fill := Filled(m.sourceQueue + round.arrived, m.futures);
      sourceQueue := sourceQueue + round.arrived;
      productQueue := productQueue[Min(round.consumed, |productQueue|)..];
      FillFuturesArray();
      assert futures == fill.futures && sourceQueue == fill.queue;
      CompleteAll(round.completions);
      npe := EmptyFuturesArray();
    }

    /** The completions of one round, in order. */
    method CompleteAll(cs: seq<Completion<P>>)
      modifies this`futures
      ensures futures == Completed(old(futures), cs)
    {
      var c := 0;
      while c < |cs|
        invariant 0 <= c <= |cs|
        invariant futures == Completed(old(futures), cs[..c])
      {
        assert cs[..c + 1][..c] == cs[..c];
        Complete(cs[c]);
        c := c + 1;
      }
      assert cs[..c] == cs;
    }

    /** run: repeat fill and scan while fewer than docLimit products have been
      * forwarded. The rounds supply what the other threads do meanwhile; a
      * run that uses them all while still below the limit stops `Polling`. */
    method Run(rounds: seq<Round<D, P>>) returns (stop: Stop)
      modifies this`futures, this`sourceQueue, this`productQueue, this`docsAnalyzedCount
      ensures var res := RunRounds(old(State()), rounds, docLimit);
        State() == res.state && stop == res.stop
      ensures old(Valid()) ==> Valid()
      ensures old(Bounded()) ==> Bounded()
      ensures docsAnalyzedCount >= old(docsAnalyzedCount)
      ensures stop == LimitReached ==> docsAnalyzedCount >= docLimit
      ensures stop == Polling ==> docsAnalyzedCount < docLimit
      ensures stop == Crashed ==> exists i :: 0 <= i < |futures| && NullResult(futures[i])
      ensures old(docsAnalyzedCount) >= docLimit ==> stop == LimitReached && State() == old(State())
    {
      ghost var goal := RunRounds(State(), rounds, docLimit);
      RunStartsBelowLimit(State(), rounds, docLimit);
      RunKeepsBounds(State(), rounds, docLimit);
      if goal.stop == Crashed {
        RunCrashesOnNull(State(), rounds, docLimit);
      }
      var r := 0;
      while docsAnalyzedCount < docLimit && r < |rounds|
        invariant 0 <= r <= |rounds|
        invariant RunRounds(State(), rounds[r..], docLimit).state == goal.state
        invariant RunRounds(State(), rounds[r..], docLimit).stop == goal.stop
        decreases |rounds| - r
      {
        var round := rounds[r];
        assert rounds[r..][0] == round && rounds[r..][1..] == rounds[r + 1..];
        var npe := Iterate(round);
        if npe {
          return Crashed;
        }
        r := r + 1;
      }
      assert r == |rounds| ==> rounds[r..] == [];
      stop := if docsAnalyzedCount >= docLimit then LimitReached else Polling;
    }
  }

  /** The facts about a scan the manager relies on, gathered in one place. */
  lemma HarvestFacts<D, P>(futures: seq<Slot<D, P>>, queued: nat)
    ensures var h := Harvest(futures, queued);
      |Products(h.forwarded)| == |h.forwarded| &&
      |h.kept| <= |futures| &&
      (queued <= MaxAnalyzerQueueCount ==> queued + |h.forwarded| <= MaxAnalyzerQueueCount)
  {
    HarvestForwardsDeliverable(futures, queued);
    ProductsOfDeliverable(Harvest(futures, queued).forwarded);
    if queued <= MaxAnalyzerQueueCount {
      HarvestRespectsCeiling(futures, queued);
    }
    HarvestConserves(futures, queued);
    var h := Harvest(futures, queued);
    assert |multiset(h.kept)| + |multiset(h.forwarded)| == |multiset(futures)|;
  }
}
