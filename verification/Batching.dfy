/** The flush thresholds decide how records are grouped, never what they are. */
module Batching {
  import opened Numerals
  import opened CallSites
  import opened TraceModel
  import opened Runs

  /** Same depth limit and cap; the two flush thresholds are free. */
  predicate SameGates(a: TraceLimits, b: TraceLimits) {
    a.maxDepth == b.maxDepth && a.bufferCap == b.bufferCap
  }

  /** The same event, up to the budget a begin's gate happened to read. */
  predicate SameEvent(a: Event, b: Event) {
    match (a, b)
    case (BeginEvent(c1, e1, _), BeginEvent(c2, e2, _)) => c1 == c2 && e1 == e2
    case (EndEvent(_, _), EndEvent(_, _)) => a == b
    case _ => false
  }

  /** Two runs that differ only in how their contents are batched. */
  ghost predicate SameContents(r: Run, q: Run) {
    && SameGates(r.trace.limits, q.trace.limits)
    && r.trace.callIdSeq == q.trace.callIdSeq && r.trace.stack == q.trace.stack
    && r.trace.dict.keys == q.trace.dict.keys
    && r.trace.virtualDepth == q.trace.virtualDepth && r.trace.droppedBegins == q.trace.droppedBegins
    && Emitted(r) == Emitted(q) && Journal(r) == Journal(q) && r.drops == q.drops
  }

  lemma SamePop(r: Run, q: Run, exit: ExitSnapshots, abnormal: bool)
    requires SameContents(r, q) && r.trace.stack != []
    ensures SameContents(PopMove(r, exit, abnormal), PopMove(q, exit, abnormal))
  {
    var c := RecordOf(r.trace.stack[|r.trace.stack| - 1], exit, abnormal);
    assert Emitted(PopMove(r, exit, abnormal)) == Emitted(r) + [c];
    assert Emitted(PopMove(q, exit, abnormal)) == Emitted(q) + [c];
    assert Journal(PopMove(r, exit, abnormal)) == Journal(r);
    assert Journal(PopMove(q, exit, abnormal)) == Journal(q);
  }

  lemma SameEnd(r: Run, q: Run, exit: ExitSnapshots, abnormal: bool)
    requires SameContents(r, q)
    ensures SameContents(Step(r, EndEvent(exit, abnormal)), Step(q, EndEvent(exit, abnormal)))
  {
    EndMoves(r, exit, abnormal);
    EndMoves(q, exit, abnormal);
    var r1, q1 := r.(trace := EndGate(r.trace).0), q.(trace := EndGate(q.trace).0);
    if r.trace.droppedBegins == 0 && r.trace.stack != [] {
      SamePop(r1, q1, exit, abnormal);
      FlushKeepsContents(PopMove(r1, exit, abnormal));
      FlushKeepsContents(PopMove(q1, exit, abnormal));
    }
  }

  lemma SameBegin(r: Run, q: Run, cat: Categorised, entry: EntrySnapshots, s1: nat, s2: nat)
    requires SameContents(r, q)
    requires CapSilent(r.trace, BeginEvent(cat, entry, s1)) && CapSilent(q.trace, BeginEvent(cat, entry, s2))
    ensures SameContents(Step(r, BeginEvent(cat, entry, s1)), Step(q, BeginEvent(cat, entry, s2)))
  {
    hide Step, CapSilent, Emitted, Journal, OpenedFrame;
    BeginMoves(r, cat, entry, s1);
    BeginMoves(q, cat, entry, s2);
    var depth := SatIncU32(r.trace.virtualDepth);
    if depth > r.trace.limits.maxDepth {
      CountersKeepContents(r, depth);
      CountersKeepContents(q, depth);
    } else {
      SameOpened(r, q, cat, entry, depth - 1, Step(r, BeginEvent(cat, entry, s1)), Step(q, BeginEvent(cat, entry, s2)));
    }
  }

  lemma SameOpened(r: Run, q: Run, cat: Categorised, entry: EntrySnapshots, depth: nat, r1: Run, q1: Run)
    requires SameContents(r, q) && r1.drops == r.drops && q1.drops == q.drops
    requires OpenedFrame(r, cat, entry, depth, r1) && OpenedFrame(q, cat, entry, depth, q1)
    ensures SameContents(r1, q1)
  {
  }

  lemma CountersKeepContents(r: Run, depth: nat)
    ensures var s := r.(trace := RecordDrop(r.trace.(virtualDepth := depth)), drops := r.drops + 1);
      Emitted(s) == Emitted(r) && Journal(s) == Journal(r)
  {
  }

  lemma StepKeepsLimits(r: Run, e: Event)
    ensures Step(r, e).trace.limits == r.trace.limits
  {
  }

  lemma {:induction false} SameReplay(id: nat, a: TraceLimits, b: TraceLimits, es: seq<Event>, fs: seq<Event>)
    requires SameGates(a, b) && |es| == |fs|
    requires forall k :: 0 <= k < |es| ==> SameEvent(es[k], fs[k])
    requires CapNeverBinds(NewRun(id, a), es) && CapNeverBinds(NewRun(id, b), fs)
    ensures SameContents(Replay(NewRun(id, a), es), Replay(NewRun(id, b), fs))
    ensures Replay(NewRun(id, a), es).trace.limits == a && Replay(NewRun(id, b), fs).trace.limits == b
  {
    if es != [] {
      hide Step, SameContents, CapSilent, NewRun;
      var n := |es| - 1;
      CapPrefix(NewRun(id, a), es, n);
      CapPrefix(NewRun(id, b), fs, n);
      SameReplay(id, a, b, es[..n], fs[..n]);
      var r, q := Replay(NewRun(id, a), es[..n]), Replay(NewRun(id, b), fs[..n]);
      assert SameEvent(es[n], fs[n]) && CapSilent(r.trace, es[n]) && CapSilent(q.trace, fs[n]);
      match es[n] {
        case BeginEvent(cat, entry, s1) => SameBegin(r, q, cat, entry, s1, fs[n].snapshot);
        case EndEvent(exit, abnormal) => SameEnd(r, q, exit, abnormal);
      }
      StepKeepsLimits(r, es[n]);
      StepKeepsLimits(q, fs[n]);
    }
  }

  lemma {:induction false} SameDrain(r: Run, q: Run, exit: ExitSnapshots)
    requires SameContents(r, q)
    ensures SameContents(DrainMove(r, exit), DrainMove(q, exit))
    decreases |r.trace.stack|
  {
    if r.trace.stack != [] {
      SamePop(r, q, exit, true);
      SameDrain(PopMove(r, exit, true), PopMove(q, exit, true), exit);
    }
  }

  /** Changing `flush_records` and `flush_bytes`, and with them every budget
      reading, changes neither the records nor the entries a request hands off,
      as long as the cap binds in neither run. */
  lemma BatchingTransparent(id: nat, a: TraceLimits, b: TraceLimits, es: seq<Event>, fs: seq<Event>,
                            exit: ExitSnapshots, r: Run, q: Run)
    requires r == Replay(NewRun(id, a), es) && q == Replay(NewRun(id, b), fs)
    requires SameGates(a, b) && |es| == |fs|
    requires forall k :: 0 <= k < |es| ==> SameEvent(es[k], fs[k])
    requires CapNeverBinds(NewRun(id, a), es) && CapNeverBinds(NewRun(id, b), fs)
    ensures Calls(Finish(r, exit)) == Calls(Finish(q, exit))
    ensures DictLists(Finish(r, exit)) == DictLists(Finish(q, exit))
    ensures r.drops == q.drops
  {
    SameReplay(id, a, b, es, fs);
    SameDrain(r, q, exit);
    EstimatesExact(id, a, es, exit);
    EstimatesExact(id, b, fs, exit);
    FinishMoves(r, exit);
    FinishMoves(q, exit);
  }

  // --- Batch sizes ----------------------------------------------------------------

  predicate BatchesWithin(batches: seq<Batch>, n: nat) {
    forall i :: 0 <= i < |batches| ==> 0 < |batches[i].calls| <= n
  }

  /** Fewer than `flush_records` records pending, and batches no larger. */
  predicate Sized(r: Run) {
    |r.trace.buffer| < r.trace.limits.flushRecords && BatchesWithin(r.flushed, r.trace.limits.flushRecords)
  }

  lemma SizedStep(r: Run, e: Event)
    requires Sized(r)
    ensures Sized(Step(r, e)) && Step(r, e).trace.limits == r.trace.limits
  {
    if e.EndEvent? {
      EndMoves(r, e.exit, e.abnormal);
    }
  }

  /** Every batch meets a threshold. */
  ghost predicate AllDue(batches: seq<Batch>, limits: TraceLimits) {
    forall i :: 0 <= i < |batches| ==>
      |batches[i].calls| >= limits.flushRecords || batches[i].sizeEstimate >= limits.flushBytes
  }

  /** For every event sequence: no batch leaves mid-request before it is due. */
  lemma {:induction false} MidRequestBatchesDue(id: nat, limits: TraceLimits, events: seq<Event>, r: Run)
    requires r == Replay(NewRun(id, limits), events)
    ensures r.trace.limits == limits && AllDue(r.flushed, limits)
  {
    if events != [] {
      var before := Replay(NewRun(id, limits), events[..|events| - 1]);
      MidRequestBatchesDue(id, limits, events[..|events| - 1], before);
      DueStep(before, events[|events| - 1]);
    }
  }

  lemma DueStep(r: Run, e: Event)
    requires AllDue(r.flushed, r.trace.limits)
    ensures Step(r, e).trace.limits == r.trace.limits && AllDue(Step(r, e).flushed, r.trace.limits)
  {
    if e.EndEvent? {
      EndFlushesIff(r.trace, e.exit, e.abnormal);
    }
  }

  /** For every event sequence: between events fewer than `flush_records` records
      are pending, every batch of the request holds between one and
      `flush_records` records, and the shutdown batch at most
      `flush_records - 1` plus the frames still open. */
  lemma {:induction false} BatchSizes(id: nat, limits: TraceLimits, events: seq<Event>, exit: ExitSnapshots)
    requires limits.flushRecords > 0
    ensures var r := Replay(NewRun(id, limits), events);
      && r.trace.limits == limits && Sized(r)
      && (Finish(r, exit) == r.flushed
          || exists last: Batch :: Finish(r, exit) == r.flushed + [last]
               && 0 < |last.calls| <= limits.flushRecords - 1 + |r.trace.stack|)
  {
    var r := Replay(NewRun(id, limits), events);
    if events != [] {
      BatchSizes(id, limits, events[..|events| - 1], exit);
      SizedStep(Replay(NewRun(id, limits), events[..|events| - 1]), events[|events| - 1]);
    }
    DrainLength(r.trace, exit);
    var drained := Drain(r.trace, exit);
    if drained.buffer != [] {
      var last := TakeBatch(drained).1;
      assert Finish(r, exit) == r.flushed + [last];
    }
  }

  lemma {:induction false} DrainLength(t: Trace, exit: ExitSnapshots)
    ensures |Drain(t, exit).buffer| == |t.buffer| + |t.stack|
    decreases |t.stack|
  {
    if t.stack != [] {
      DrainLength(PopRecord(t, exit, true), exit);
    }
  }
}
