/** A whole request as a sequence of observer events. The budget read by each
    begin's cap gate is part of the event: other threads may change it at any
    time, so statements over all event sequences hold under every interleaving. */
module Runs {
  import opened Wrappers
  import opened Numerals
  import opened FunctionKeys
  import opened CallSites
  import opened Dictionaries
  import opened TraceModel

  datatype Event =
    | BeginEvent(cat: Categorised, entry: EntrySnapshots, snapshot: nat)
    | EndEvent(exit: ExitSnapshots, abnormal: bool)

  /** The trace, the batches it handed off so far, and its gate drops. */
  datatype Run = Run(trace: Trace, flushed: seq<Batch>, drops: nat)

  function NewRun(id: nat, limits: TraceLimits): Run { Run(NewTrace(id, limits), [], 0) }

  function HandOff(r: Run, out: (Trace, Option<Batch>)): Run {
    r.(trace := out.0, flushed := if out.1.Some? then r.flushed + [out.1.value] else r.flushed)
  }

  function Step(r: Run, e: Event): Run {
    match e
    case BeginEvent(cat, entry, snapshot) =>
      var (t, accepted) := Begin(r.trace, cat, entry, snapshot);
      r.(trace := t, drops := if accepted then r.drops else r.drops + 1)
    case EndEvent(exit, abnormal) => HandOff(r, End(r.trace, exit, abnormal))
  }

  function Replay(r: Run, events: seq<Event>): Run {
    if events == [] then r
    else Step(Replay(r, events[..|events| - 1]), events[|events| - 1])
  }

  /** The batches of a whole request, shutdown included. */
  function Finish(r: Run, exit: ExitSnapshots): seq<Batch> {
    HandOff(r, Shutdown(r.trace, exit)).flushed
  }

  function Calls(batches: seq<Batch>): seq<CallRecord> {
    if batches == [] then []
    else Calls(batches[..|batches| - 1]) + batches[|batches| - 1].calls
  }

  function DictLists(batches: seq<Batch>): seq<DictEntry> {
    if batches == [] then []
    else DictLists(batches[..|batches| - 1]) + batches[|batches| - 1].dict
  }

  /** Every record emitted so far, in order, flushed or not. */
  function Emitted(r: Run): seq<CallRecord> { Calls(r.flushed) + r.trace.buffer }

  /** Every dictionary entry staged so far, in order, flushed or not. */
  function Journal(r: Run): seq<DictEntry> { DictLists(r.flushed) + r.trace.dict.staged }

  lemma {:induction false} ReplayConcat(r: Run, a: seq<Event>, b: seq<Event>)
    ensures Replay(r, a + b) == Replay(Replay(r, a), b)
  {
    if b == [] {
      assert a + b == a;
    } else {
      var last := |b| - 1;
      ReplayConcat(r, a, b[..last]);
      assert (a + b)[..|a + b| - 1] == a + b[..last];
    }
  }

  lemma ReplayOne(r: Run, e: Event)
    ensures Replay(r, [e]) == Step(r, e)
  {
  }

  // --- The moves a run is made of ------------------------------------------------

  /** A frame popped into a buffered record. */
  function PopMove(r: Run, exit: ExitSnapshots, abnormal: bool): Run
    requires r.trace.stack != []
  {
    r.(trace := PopRecord(r.trace, exit, abnormal))
  }

  /** The pending batch handed off. */
  function FlushMove(r: Run): Run {
    var (t, batch) := TakeBatch(r.trace);
    Run(t, r.flushed + [batch], r.drops)
  }

  lemma FlushKeepsContents(r: Run)
    ensures Emitted(FlushMove(r)) == Emitted(r)
    ensures Journal(FlushMove(r)) == Journal(r)
  {
  }

  // --- Order of first sight --------------------------------------------------------

  /** Keys known after meeting `cats` in order. */
  function SeenKeys(keys: seq<FunctionKey>, cats: seq<Categorised>): seq<FunctionKey>
    decreases |cats|
  {
    if cats == [] then keys
    else SeenKeys(if cats[0].key in keys then keys else keys + [cats[0].key], cats[1..])
  }

  /** One entry per key met for the first time, described by that first site. */
  function FirstSights(keys: seq<FunctionKey>, cats: seq<Categorised>): seq<DictEntry>
    decreases |cats|
  {
    if cats == [] then []
    else if cats[0].key in keys then FirstSights(keys, cats[1..])
    else [EntryFor(|keys| + 1, cats[0])] + FirstSights(keys + [cats[0].key], cats[1..])
  }

  lemma {:induction false} SeenConcat(keys: seq<FunctionKey>, a: seq<Categorised>, b: seq<Categorised>)
    ensures SeenKeys(keys, a + b) == SeenKeys(SeenKeys(keys, a), b)
    ensures FirstSights(keys, a + b) == FirstSights(keys, a) + FirstSights(SeenKeys(keys, a), b)
    decreases |a|
  {
    if a == [] {
      assert a + b == b;
    } else {
      assert (a + b)[1..] == a[1..] + b;
      var keys1 := if a[0].key in keys then keys else keys + [a[0].key];
      SeenConcat(keys1, a[1..], b);
    }
  }

  lemma SeenOne(keys: seq<FunctionKey>, cat: Categorised)
    ensures SeenKeys(keys, [cat]) == if cat.key in keys then keys else keys + [cat.key]
    ensures FirstSights(keys, [cat]) == if cat.key in keys then [] else [EntryFor(|keys| + 1, cat)]
  {
  }

  /** The sites of the accepted begins, in order: call `i` is at the `i`-th. */
  function Sites(r: Run, events: seq<Event>): seq<Categorised> {
    if events == [] then []
    else
      var before := events[..|events| - 1];
      Sites(r, before) + SiteOf(Replay(r, before), events[|events| - 1])
  }

  function SiteOf(r: Run, e: Event): seq<Categorised> {
    match e
    case BeginEvent(cat, entry, snapshot) => if Begin(r.trace, cat, entry, snapshot).1 then [cat] else []
    case EndEvent(_, _) => []
  }

  // --- When the cap does not bind ---------------------------------------------------

  /** The cap gate refuses nothing here: it is not reached, or it admits. */
  predicate CapSilent(t: Trace, e: Event) {
    e.BeginEvent? && SatIncU32(t.virtualDepth) <= t.limits.maxDepth ==>
      CapAdmits(t.limits, e.snapshot, WouldAdd(t.dict, e.cat))
  }

  /** The cap refuses no begin of the run. */
  predicate CapNeverBinds(r: Run, events: seq<Event>) {
    forall k :: 0 <= k < |events| ==> CapSilent(Replay(r, events[..k]).trace, events[k])
  }

  /** A silent cap is one that leaves the decision to the depth gate. */
  lemma CapSilentIff(t: Trace, cat: Categorised, entry: EntrySnapshots, snapshot: nat)
    ensures CapSilent(t, BeginEvent(cat, entry, snapshot)) <==>
      (Begin(t, cat, entry, snapshot).1 <==> SatIncU32(t.virtualDepth) <= t.limits.maxDepth)
  {
    hide WouldAdd, BeginAccept;
  }

  /** With a silent cap the depth gate alone decides. */
  lemma BeginWithRoom(t: Trace, cat: Categorised, entry: EntrySnapshots, snapshot: nat)
    requires CapSilent(t, BeginEvent(cat, entry, snapshot))
    ensures var t1 := t.(virtualDepth := SatIncU32(t.virtualDepth));
      Begin(t, cat, entry, snapshot)
        == if t1.virtualDepth > t.limits.maxDepth then (RecordDrop(t1), false)
           else (BeginAccept(t1, cat, entry).0, true)
  {
    hide WouldAdd, BeginAccept, CapAdmits;
  }

  lemma CapPrefix(r: Run, events: seq<Event>, n: nat)
    requires n <= |events| && CapNeverBinds(r, events)
    ensures CapNeverBinds(r, events[..n])
  {
    hide CapSilent;
    forall k | 0 <= k < n ensures CapSilent(Replay(r, events[..n][..k]).trace, events[..n][k]) {
      assert events[..n][..k] == events[..k];
    }
  }

  lemma CapConcat(r: Run, a: seq<Event>, b: seq<Event>)
    requires CapNeverBinds(r, a + b)
    ensures CapNeverBinds(r, a) && CapNeverBinds(Replay(r, a), b)
  {
    hide CapSilent;
    CapPrefix(r, a + b, |a|);
    assert (a + b)[..|a|] == a;
    forall k | 0 <= k < |b| ensures CapSilent(Replay(Replay(r, a), b[..k]).trace, b[k]) {
      ReplayConcat(r, a, b[..k]);
      assert (a + b)[..|a| + k] == a + b[..k] && (a + b)[|a| + k] == b[k];
    }
  }

  /** `s` is `r` with a frame opened at depth `depth`: keys and journal grow by
      one on a miss and not at all on a hit. */
  ghost predicate OpenedFrame(r: Run, cat: Categorised, entry: EntrySnapshots, depth: nat, s: Run) {
    var keys := r.trace.dict.keys;
    && s.trace.dict.keys == (if cat.key in keys then keys else keys + [cat.key])
    && s.trace.stack == r.trace.stack
         + [CallFrame(r.trace.callIdSeq + 1, TopId(r.trace.stack), IdOf(s.trace.dict.keys, cat.key), CastU16(depth),
                      entry)]
    && s.trace.callIdSeq == r.trace.callIdSeq + 1
    && s.trace.virtualDepth == depth + 1 && s.trace.droppedBegins == r.trace.droppedBegins
    && s.trace.limits == r.trace.limits
    && Journal(s) == (if cat.key in keys then Journal(r) else Journal(r) + [EntryFor(|keys| + 1, cat)])
    && Emitted(s) == Emitted(r) && s.flushed == r.flushed && s.trace.buffer == r.trace.buffer
  }

  lemma AcceptOpens(r: Run, t1: Trace, cat: Categorised, entry: EntrySnapshots)
    requires t1.virtualDepth > 0 && t1 == r.trace.(virtualDepth := t1.virtualDepth)
    ensures OpenedFrame(r, cat, entry, t1.virtualDepth - 1, r.(trace := BeginAccept(t1, cat, entry).0))
  {
    hide MissCost, DictLists, Calls, IdOf;
    var s := r.(trace := BeginAccept(t1, cat, entry).0);
    assert s.trace.dict.staged
        == if cat.key in r.trace.dict.keys then r.trace.dict.staged
           else r.trace.dict.staged + [EntryFor(|r.trace.dict.keys| + 1, cat)];
  }

  /** A begin under a silent cap opens a frame, or is one more drop. */
  lemma BeginMoves(r: Run, cat: Categorised, entry: EntrySnapshots, snapshot: nat)
    requires CapSilent(r.trace, BeginEvent(cat, entry, snapshot))
    ensures var depth := SatIncU32(r.trace.virtualDepth);
      var s := Step(r, BeginEvent(cat, entry, snapshot));
      if depth > r.trace.limits.maxDepth
      then s == r.(trace := RecordDrop(r.trace.(virtualDepth := depth)), drops := r.drops + 1)
      else OpenedFrame(r, cat, entry, depth - 1, s) && s.drops == r.drops
  {
    hide OpenedFrame, Begin, BeginAccept, CapSilent;
    BeginWithRoom(r.trace, cat, entry, snapshot);
    var depth := SatIncU32(r.trace.virtualDepth);
    if depth <= r.trace.limits.maxDepth {
      AcceptOpens(r, r.trace.(virtualDepth := depth), cat, entry);
    }
  }

  /** An end changes nothing but counters, or pops one frame and perhaps flushes. */
  lemma EndMoves(r: Run, exit: ExitSnapshots, abnormal: bool)
    ensures var t1 := EndGate(r.trace).0;
      var r1 := Step(r, EndEvent(exit, abnormal));
      if r.trace.droppedBegins > 0 || r.trace.stack == [] then r1 == r.(trace := t1)
      else
        var popped := PopMove(r.(trace := t1), exit, abnormal);
        r1 == if Trigger(popped.trace).Some? then FlushMove(popped) else popped
  {
  }

  function DrainMove(r: Run, exit: ExitSnapshots): Run
    decreases |r.trace.stack|
  {
    if r.trace.stack == [] then r else DrainMove(PopMove(r, exit, true), exit)
  }

  lemma {:induction false} DrainMoveIsDrain(r: Run, exit: ExitSnapshots)
    ensures DrainMove(r, exit) == r.(trace := Drain(r.trace, exit))
    decreases |r.trace.stack|
  {
    if r.trace.stack != [] {
      DrainMoveIsDrain(PopMove(r, exit, true), exit);
    }
  }

  /** The shutdown is a drain and, when records are pending, one flush. */
  lemma FinishMoves(r: Run, exit: ExitSnapshots)
    ensures var drained := DrainMove(r, exit);
      && drained.trace.stack == []
      && Finish(r, exit) == (if drained.trace.buffer == [] then drained else FlushMove(drained)).flushed
      && Calls(Finish(r, exit)) == Emitted(drained)
      && (TraceInv(r.trace) ==> DictLists(Finish(r, exit)) == Journal(drained) == Journal(r))
  {
    DrainMoveIsDrain(r, exit);
    var drained := DrainMove(r, exit);
    FlushKeepsContents(drained);
    if TraceInv(r.trace) {
      DrainInv(r.trace, exit);
    }
  }

  // --- Exact estimates over a run ----------------------------------------------------

  ghost predicate RunInv(r: Run) {
    TraceInv(r.trace) && forall i :: 0 <= i < |r.flushed| ==> BatchInv(r.flushed[i])
  }

  lemma StepInv(r: Run, e: Event)
    requires RunInv(r)
    ensures RunInv(Step(r, e))
  {
    match e {
      case BeginEvent(cat, entry, snapshot) =>
        var (t1, accepted) := BeginGate(r.trace, cat, snapshot);
        if accepted {
          BeginAcceptInv(t1, cat, entry);
        }
      case EndEvent(exit, abnormal) => EndMoves(r, exit, abnormal);
    }
  }

  /** After any events the running estimate is the whole-batch formula, and so
      is the estimate of every batch handed off, the shutdown one included. */
  lemma {:induction false} EstimatesExact(id: nat, limits: TraceLimits, events: seq<Event>, exit: ExitSnapshots)
    ensures var r := Replay(NewRun(id, limits), events);
      && RunInv(r)
      && forall i :: 0 <= i < |Finish(r, exit)| ==> BatchInv(Finish(r, exit)[i])
  {
    if events != [] {
      EstimatesExact(id, limits, events[..|events| - 1], exit);
      StepInv(Replay(NewRun(id, limits), events[..|events| - 1]), events[|events| - 1]);
    }
    ShutdownLeavesNothing(Replay(NewRun(id, limits), events).trace, exit);
  }

  // --- Depth never saturates ---------------------------------------------------------

  /** No begin finds the `u32` depth at its maximum. */
  predicate NeverSaturates(r: Run, events: seq<Event>) {
    forall k :: 0 <= k < |events| && events[k].BeginEvent? ==> Replay(r, events[..k]).trace.virtualDepth < U32_MAX
  }

  lemma NeverSaturatesPrefix(r: Run, events: seq<Event>)
    requires events != [] && NeverSaturates(r, events)
    ensures NeverSaturates(r, events[..|events| - 1])
    ensures events[|events| - 1].BeginEvent? ==> Replay(r, events[..|events| - 1]).trace.virtualDepth < U32_MAX
  {
    var prefix := events[..|events| - 1];
    assert forall k :: 0 <= k < |prefix| ==> prefix[k] == events[k] && prefix[..k] == events[..k];
  }

  /** Fewer than 2^32 events are enough. */
  lemma ShortRunsNeverSaturate(id: nat, limits: TraceLimits, events: seq<Event>)
    requires |events| <= U32_MAX
    ensures NeverSaturates(NewRun(id, limits), events)
  {
    forall k | 0 <= k < |events| ensures Replay(NewRun(id, limits), events[..k]).trace.virtualDepth <= k {
      DepthBound(NewRun(id, limits), events[..k]);
    }
  }

  lemma {:induction false} DepthBound(r: Run, events: seq<Event>)
    ensures Replay(r, events).trace.virtualDepth <= r.trace.virtualDepth + |events|
  {
    if events != [] {
      DepthBound(r, events[..|events| - 1]);
    }
  }
}
