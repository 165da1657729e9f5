/** How ends find their begins: `dropped_begins` is a counter, not a stack. */
module Matching {
  import opened Wrappers
  import opened Numerals
  import opened Text
  import opened FunctionKeys
  import opened CallSites
  import opened Dictionaries
  import opened TraceModel
  import opened Runs

  /** After any events, unmatched ends included, the depth counter is open
      frames plus pending drops, and the open frames respect the depth limit. */
  lemma {:induction false} MatchedAlways(id: nat, limits: TraceLimits, events: seq<Event>)
    requires NeverSaturates(NewRun(id, limits), events)
    ensures Matched(Replay(NewRun(id, limits), events).trace)
    ensures Replay(NewRun(id, limits), events).trace.limits == limits
  {
    if events != [] {
      NeverSaturatesPrefix(NewRun(id, limits), events);
      var before := events[..|events| - 1];
      MatchedAlways(id, limits, before);
      var r := Replay(NewRun(id, limits), before);
      match events[|events| - 1] {
        case BeginEvent(cat, entry, snapshot) => BeginMatchedIff(r.trace, cat, entry, snapshot);
        case EndEvent(exit, abnormal) => EndMatched(r.trace, exit, abnormal);
      }
    }
  }

  // --- Which begin an end closes -----------------------------------------------

  /** The begins not yet closed, outermost first: the call id of an accepted
      one, `None` for a dropped one. This is the pairing the engine means. */
  type Begins = seq<Option<nat>>

  function TrackStep(begins: Begins, r: Run, e: Event): Begins {
    match e
    case BeginEvent(cat, entry, snapshot) =>
      var (t, accepted) := Begin(r.trace, cat, entry, snapshot);
      begins + [if accepted then Some(TopId(t.stack)) else None]
    case EndEvent(_, _) => if begins == [] then [] else begins[..|begins| - 1]
  }

  function Track(r: Run, events: seq<Event>): Begins {
    if events == [] then []
    else
      var before := events[..|events| - 1];
      TrackStep(Track(r, before), Replay(r, before), events[|events| - 1])
  }

  /** The next end would act on exactly the begin it closes: pop its frame if
      that begin was accepted, consume a drop if not, do nothing if there is none. */
  predicate NextEndPairs(r: Run, begins: Begins) {
    if begins == [] then r.trace.stack == [] && r.trace.droppedBegins == 0
    else
      match begins[|begins| - 1]
      case Some(id) => r.trace.droppedBegins == 0 && r.trace.stack != [] && TopId(r.trace.stack) == id
      case None => r.trace.droppedBegins > 0
  }

  predicate PairsAt(r: Run, events: seq<Event>, k: nat)
    requires k <= |events|
  {
    NextEndPairs(Replay(r, events[..k]), Track(r, events[..k]))
  }

  /** No begin is accepted while a dropped one is open. */
  predicate AcceptsOnlyWithoutDrops(r: Run, events: seq<Event>) {
    forall k :: 0 <= k < |events| ==> AcceptClean(Replay(r, events[..k]), events[k])
  }

  predicate AcceptClean(r: Run, e: Event) {
    match e
    case BeginEvent(cat, entry, snapshot) => Begin(r.trace, cat, entry, snapshot).1 ==> r.trace.droppedBegins == 0
    case EndEvent(_, _) => true
  }

  /** The open begins are the frames of the stack, then the pending drops. */
  ghost predicate Stacked(r: Run, begins: Begins) {
    && |begins| == |r.trace.stack| + r.trace.droppedBegins
    && (forall i :: 0 <= i < |r.trace.stack| ==> begins[i] == Some(r.trace.stack[i].callId))
    && (forall i :: |r.trace.stack| <= i < |begins| ==> begins[i] == None)
  }

  lemma StackedStep(r: Run, begins: Begins, e: Event)
    requires Stacked(r, begins) && AcceptClean(r, e)
    requires Matched(r.trace) && (e.BeginEvent? ==> r.trace.virtualDepth < U32_MAX)
    ensures Stacked(Step(r, e), TrackStep(begins, r, e))
  {
    hide MissCost, CapAdmits, WouldAdd, InternSpec, RecordOf;
    match e {
      case BeginEvent(cat, entry, snapshot) =>
        var (t1, accepted) := BeginGate(r.trace, cat, snapshot);
        if accepted {
          var t2 := BeginAccept(t1, cat, entry).0;
          assert forall i :: 0 <= i < |r.trace.stack| ==> t2.stack[i] == r.trace.stack[i];
        }
      case EndEvent(exit, abnormal) => EndMoves(r, exit, abnormal);
    }
  }

  lemma {:induction false} StackedAlways(id: nat, limits: TraceLimits, events: seq<Event>)
    requires NeverSaturates(NewRun(id, limits), events)
    requires AcceptsOnlyWithoutDrops(NewRun(id, limits), events)
    ensures Stacked(Replay(NewRun(id, limits), events), Track(NewRun(id, limits), events))
  {
    if events != [] {
      var r0 := NewRun(id, limits);
      var n := |events| - 1;
      hide Stacked, Step, TrackStep, AcceptClean, NeverSaturates, NewRun;
      NeverSaturatesPrefix(r0, events);
      CleanPrefix(r0, events, n);
      StackedAlways(id, limits, events[..n]);
      MatchedAlways(id, limits, events[..n]);
      assert AcceptClean(Replay(r0, events[..n]), events[n]);
      StackedStep(Replay(r0, events[..n]), Track(r0, events[..n]), events[n]);
    }
  }

  lemma UncleanAcceptMispairs(r: Run, begins: Begins, e: Event)
    requires !AcceptClean(r, e)
    ensures !NextEndPairs(Step(r, e), TrackStep(begins, r, e))
  {
  }

  lemma StackedPairs(r: Run, begins: Begins)
    requires Stacked(r, begins)
    ensures NextEndPairs(r, begins)
  {
  }

  lemma CleanPrefix(r: Run, events: seq<Event>, k: nat)
    requires k <= |events| && NeverSaturates(r, events) && AcceptsOnlyWithoutDrops(r, events)
    ensures NeverSaturates(r, events[..k]) && AcceptsOnlyWithoutDrops(r, events[..k])
  {
    var prefix := events[..k];
    assert forall j :: 0 <= j < k ==> prefix[j] == events[j] && prefix[..j] == events[..j];
  }

  lemma PrefixStep(r: Run, events: seq<Event>, k: nat)
    requires k < |events|
    ensures Replay(r, events[..k + 1]) == Step(Replay(r, events[..k]), events[k])
    ensures Track(r, events[..k + 1]) == TrackStep(Track(r, events[..k]), Replay(r, events[..k]), events[k])
  {
    assert events[..k + 1][..k] == events[..k];
  }

  lemma UncleanRunMispairs(r: Run, events: seq<Event>, k: nat)
    requires k < |events| && !AcceptClean(Replay(r, events[..k]), events[k])
    ensures !PairsAt(r, events, k + 1)
  {
    PrefixStep(r, events, k);
    UncleanAcceptMispairs(Replay(r, events[..k]), Track(r, events[..k]), events[k]);
  }

  lemma CleanRunPairs(id: nat, limits: TraceLimits, events: seq<Event>, k: nat)
    requires k <= |events| && NeverSaturates(NewRun(id, limits), events)
    requires AcceptsOnlyWithoutDrops(NewRun(id, limits), events)
    ensures PairsAt(NewRun(id, limits), events, k)
  {
    CleanPrefix(NewRun(id, limits), events, k);
    StackedAlways(id, limits, events[..k]);
    StackedPairs(Replay(NewRun(id, limits), events[..k]), Track(NewRun(id, limits), events[..k]));
  }

  /** At every point of the run an end arriving next would act on the begin it
      closes exactly when no begin is accepted while a dropped begin is open. */
  lemma PairingIff(id: nat, limits: TraceLimits, events: seq<Event>)
    requires NeverSaturates(NewRun(id, limits), events)
    ensures (forall k :: 0 <= k <= |events| ==> PairsAt(NewRun(id, limits), events, k))
       <==> AcceptsOnlyWithoutDrops(NewRun(id, limits), events)
  {
    var r0 := NewRun(id, limits);
    if AcceptsOnlyWithoutDrops(r0, events) {
      forall k | 0 <= k <= |events| ensures PairsAt(r0, events, k) {
        CleanRunPairs(id, limits, events, k);
      }
    } else {
      var k :| 0 <= k < |events| && !AcceptClean(Replay(r0, events[..k]), events[k]);
      UncleanRunMispairs(r0, events, k);
    }
  }

  // --- The ends of the run itself -----------------------------------------------------

  /** The ids of the accepted begins among them, in order. */
  function Accepted(begins: Begins): seq<nat> {
    if begins == [] then []
    else
      var last := begins[|begins| - 1];
      Accepted(begins[..|begins| - 1]) + if last.Some? then [last.value] else []
  }

  function Drops(begins: Begins): nat {
    if begins == [] then 0
    else Drops(begins[..|begins| - 1]) + if begins[|begins| - 1].None? then 1 else 0
  }

  function StackIds(stack: seq<CallFrame>): seq<nat> {
    seq(|stack|, i requires 0 <= i < |stack| => stack[i].callId)
  }

  /** Frames and pending drops are those of the open begins, in whatever order
      the begins were accepted and dropped. */
  ghost predicate Interleaved(r: Run, begins: Begins) {
    StackIds(r.trace.stack) == Accepted(begins) && r.trace.droppedBegins == Drops(begins)
  }

  /** An end arriving now closes a dropped begin, none at all, or an accepted one
      that lies inside no dropped one. */
  predicate InsideNoDrop(begins: Begins) {
    begins != [] && begins[|begins| - 1].Some? ==> None !in begins
  }

  lemma {:induction false} DropsCounted(begins: Begins)
    ensures Drops(begins) == 0 <==> None !in begins
    ensures Drops(begins) == 0 ==> |Accepted(begins)| == |begins|
  {
    if begins != [] {
      var n := |begins| - 1;
      DropsCounted(begins[..n]);
      assert begins == begins[..n] + [begins[n]];
    }
  }

  /** With frames and drops those of the open begins, the next end pairs exactly
      when the begin it closes is inside no dropped one. */
  lemma PairsIffInsideNoDrop(r: Run, begins: Begins)
    requires Interleaved(r, begins)
    ensures NextEndPairs(r, begins) <==> InsideNoDrop(begins)
  {
    DropsCounted(begins);
    if begins == [] {
      assert |StackIds(r.trace.stack)| == 0;
    } else if begins[|begins| - 1].Some? {
      var ids := Accepted(begins);
      assert ids[|ids| - 1] == begins[|begins| - 1].value;
      assert |r.trace.stack| == |ids| && r.trace.stack[|ids| - 1].callId == StackIds(r.trace.stack)[|ids| - 1];
    }
  }

  lemma InterleavedStep(r: Run, begins: Begins, e: Event)
    requires Interleaved(r, begins) && Matched(r.trace)
    requires if e.BeginEvent? then r.trace.virtualDepth < U32_MAX else InsideNoDrop(begins)
    ensures Interleaved(Step(r, e), TrackStep(begins, r, e))
  {
    match e {
      case BeginEvent(cat, entry, snapshot) => InterleavedBegin(r, begins, cat, entry, snapshot);
      case EndEvent(exit, abnormal) => InterleavedEnd(r, begins, exit, abnormal);
    }
  }

  lemma InterleavedBegin(r: Run, begins: Begins, cat: Categorised, entry: EntrySnapshots, snapshot: nat)
    requires Interleaved(r, begins) && Matched(r.trace) && r.trace.virtualDepth < U32_MAX
    ensures var e := BeginEvent(cat, entry, snapshot); Interleaved(Step(r, e), TrackStep(begins, r, e))
  {
    hide MissCost, CapAdmits, WouldAdd;
    var (t1, accepted) := BeginGate(r.trace, cat, snapshot);
    var tracked := TrackStep(begins, r, BeginEvent(cat, entry, snapshot));
    assert tracked[..|tracked| - 1] == begins;
    if accepted {
      hide InternSpec;
      var t2 := BeginAccept(t1, cat, entry).0;
      assert StackIds(t2.stack) == StackIds(r.trace.stack) + [t2.callIdSeq];
    }
  }

  lemma InterleavedEnd(r: Run, begins: Begins, exit: ExitSnapshots, abnormal: bool)
    requires Interleaved(r, begins) && InsideNoDrop(begins)
    ensures var e := EndEvent(exit, abnormal); Interleaved(Step(r, e), TrackStep(begins, r, e))
  {
    DropsCounted(begins);
    EndMoves(r, exit, abnormal);
    if begins == [] {
      assert |StackIds(r.trace.stack)| == 0;
    } else if begins[|begins| - 1].Some? {
      var n := |r.trace.stack| - 1;
      assert |StackIds(r.trace.stack)| == |Accepted(begins)|;
      assert StackIds(r.trace.stack[..n]) == StackIds(r.trace.stack)[..n] == Accepted(begins[..|begins| - 1]);
    }
  }

  /** After a run whose ends all paired, or all closed begins inside no drop. */
  lemma {:induction false} InterleavedWhile(id: nat, limits: TraceLimits, events: seq<Event>)
    requires NeverSaturates(NewRun(id, limits), events)
    requires forall k :: 0 <= k < |events| && events[k].EndEvent? ==>
      PairsAt(NewRun(id, limits), events, k) || InsideNoDrop(Track(NewRun(id, limits), events[..k]))
    ensures Interleaved(Replay(NewRun(id, limits), events), Track(NewRun(id, limits), events))
  {
    if events != [] {
      hide Interleaved, Step, TrackStep, InsideNoDrop, NextEndPairs, NewRun;
      var (r0, n) := (NewRun(id, limits), |events| - 1);
      var before := events[..n];
      NeverSaturatesPrefix(r0, events);
      assert forall k :: 0 <= k < n ==> before[k] == events[k] && before[..k] == events[..k];
      InterleavedWhile(id, limits, before);
      MatchedAlways(id, limits, before);
      PairsIffInsideNoDrop(Replay(r0, before), Track(r0, before));
      InterleavedStep(Replay(r0, before), Track(r0, before), events[n]);
    } else {
      assert StackIds([]) == [];
    }
  }

  /** The exact condition. Every end of the run acts on exactly the begin it closes
      if and only if no accepted call that ends lies inside a dropped one. */
  lemma EndsPairIff(id: nat, limits: TraceLimits, events: seq<Event>)
    requires NeverSaturates(NewRun(id, limits), events)
    ensures (forall k :: 0 <= k < |events| && events[k].EndEvent? ==> PairsAt(NewRun(id, limits), events, k))
       <==> (forall k :: 0 <= k < |events| && events[k].EndEvent? ==>
               InsideNoDrop(Track(NewRun(id, limits), events[..k])))
  {
    var r0 := NewRun(id, limits);
    if forall k :: 0 <= k < |events| && events[k].EndEvent? ==> PairsAt(r0, events, k) {
      forall k | 0 <= k < |events| && events[k].EndEvent? ensures InsideNoDrop(Track(r0, events[..k])) {
        EndPairsIff(id, limits, events, k);
      }
    }
    if forall k :: 0 <= k < |events| && events[k].EndEvent? ==> InsideNoDrop(Track(r0, events[..k])) {
      forall k | 0 <= k < |events| && events[k].EndEvent? ensures PairsAt(r0, events, k) {
        EndPairsIff(id, limits, events, k);
      }
    }
  }

  /** One end of a run whose earlier ends met either side of the condition. */
  lemma EndPairsIff(id: nat, limits: TraceLimits, events: seq<Event>, k: nat)
    requires k < |events| && NeverSaturates(NewRun(id, limits), events)
    requires forall j :: 0 <= j < k && events[j].EndEvent? ==>
      PairsAt(NewRun(id, limits), events, j) || InsideNoDrop(Track(NewRun(id, limits), events[..j]))
    ensures PairsAt(NewRun(id, limits), events, k) <==> InsideNoDrop(Track(NewRun(id, limits), events[..k]))
  {
    hide Interleaved, InsideNoDrop, NextEndPairs, NewRun;
    var (r0, before) := (NewRun(id, limits), events[..k]);
    assert forall j :: 0 <= j < k ==> before[j] == events[j] && before[..j] == events[..j];
    InterleavedWhile(id, limits, before);
    PairsIffInsideNoDrop(Replay(r0, before), Track(r0, before));
  }

  // --- The depth gate alone ---------------------------------------------------------

  /** While a drop of the depth gate is pending, the stack is full. */
  predicate DropsLast(t: Trace) { t.droppedBegins > 0 ==> |t.stack| == t.limits.maxDepth }

  lemma DropsLastStep(r: Run, e: Event)
    requires Matched(r.trace) && DropsLast(r.trace) && CapSilent(r.trace, e)
    requires e.BeginEvent? ==> r.trace.virtualDepth < U32_MAX
    ensures DropsLast(Step(r, e).trace) && AcceptClean(r, e)
  {
    match e {
      case BeginEvent(cat, entry, snapshot) =>
        hide CapSilent, Begin;
        BeginWithRoom(r.trace, cat, entry, snapshot);
      case EndEvent(exit, abnormal) =>
        EndMoves(r, exit, abnormal);
    }
  }

  lemma {:induction false} DepthDropsLast(id: nat, limits: TraceLimits, events: seq<Event>)
    requires NeverSaturates(NewRun(id, limits), events)
    requires CapNeverBinds(NewRun(id, limits), events)
    ensures DropsLast(Replay(NewRun(id, limits), events).trace)
  {
    if events != [] {
      hide Step, CapSilent, DropsLast, AcceptClean;
      var (r0, n) := (NewRun(id, limits), |events| - 1);
      NeverSaturatesPrefix(r0, events);
      CapPrefix(r0, events, n);
      DepthDropsLast(id, limits, events[..n]);
      MatchedAlways(id, limits, events[..n]);
      DropsLastStep(Replay(r0, events[..n]), events[n]);
    }
  }

  /** With the cap never binding, drops come from the depth gate only and every
      end pairs with its own begin. */
  lemma DepthGateAlonePairs(id: nat, limits: TraceLimits, events: seq<Event>)
    requires NeverSaturates(NewRun(id, limits), events)
    requires CapNeverBinds(NewRun(id, limits), events)
    ensures forall k :: 0 <= k <= |events| ==> PairsAt(NewRun(id, limits), events, k)
  {
    var r0 := NewRun(id, limits);
    hide CapSilent, AcceptClean, DropsLast, Step, PairsAt;
    forall k | 0 <= k < |events| ensures AcceptClean(Replay(r0, events[..k]), events[k]) {
      var prefix := events[..k];
      assert forall j :: 0 <= j < k ==> prefix[j] == events[j] && prefix[..j] == events[..j];
      CapPrefix(r0, events, k);
      DepthDropsLast(id, limits, prefix);
      MatchedAlways(id, limits, prefix);
      DropsLastStep(Replay(r0, prefix), events[k]);
    }
    PairingIff(id, limits, events);
  }

  // --- The three-begin counterexample ------------------------------------------------

  lemma ReplayFive(r: Run, a: Event, b: Event, c: Event, d: Event, e: Event)
    ensures Replay(r, [a, b, c, d, e]) == Step(Step(Step(Step(Step(r, a), b), c), d), e)
  {
    var all := [a, b, c, d, e];
    assert all[..4] == [a, b, c, d] && [a, b, c, d][..3] == [a, b, c] && [a, b, c][..2] == [a, b] && [a, b][..1] == [a];
    ReplayOne(r, a);
    assert Replay(r, [a, b]) == Step(Step(r, a), b);
    assert Replay(r, [a, b, c]) == Step(Step(Step(r, a), b), c);
    assert Replay(r, [a, b, c, d]) == Step(Step(Step(Step(r, a), b), c), d);
  }

  const SITE_F := Categorised(Internal("f"), InternalKind, "f", "", 0)
  const SMALL_CAP := TraceLimits(10, 1000, 10, 1024)

  /** The trace of the counterexample in mid-run. */
  function Mid(calls: nat, stack: seq<CallFrame>, depth: nat, dropped: nat): Run {
    var dict := Dict([Internal("f")], [EntryFor(1, SITE_F)]);
    Run(Trace(0, SMALL_CAP, calls, stack, [], dict, 25, depth, dropped), [], dropped)
  }

  lemma AcceptA(entry: EntrySnapshots)
    ensures Step(NewRun(0, SMALL_CAP), BeginEvent(SITE_F, entry, 0)) == Mid(1, [CallFrame(1, 0, 1, 0, entry)], 1, 0)
  {
    assert Utf8Len("f") == 1 && Utf8Len("") == 0;
    assert MissCost(EMPTY_DICT, SITE_F) == 25;
  }

  lemma DropB(entry: EntrySnapshots)
    ensures var a := CallFrame(1, 0, 1, 0, entry);
      Step(Mid(1, [a], 1, 0), BeginEvent(SITE_F, entry, 1000)) == Mid(1, [a], 2, 1)
  {
  }

  lemma AcceptC(entry: EntrySnapshots)
    ensures var a := CallFrame(1, 0, 1, 0, entry);
      Step(Mid(1, [a], 2, 1), BeginEvent(SITE_F, entry, 0)) == Mid(2, [a, CallFrame(2, 1, 1, 2, entry)], 3, 1)
  {
  }

  /** Accept A, drop B at the cap, accept C: C's end consumes B's drop and B's
      end emits C. C's record carries B's exit snapshot, sits two levels below
      its parent A, and A is still open. */
  lemma CapDropMispairs(entry: EntrySnapshots, exitC: ExitSnapshots, exitB: ExitSnapshots)
    ensures var low, full := BeginEvent(SITE_F, entry, 0), BeginEvent(SITE_F, entry, 1000);
      var r := Replay(NewRun(0, SMALL_CAP), [low, full, low, EndEvent(exitC, false), EndEvent(exitB, false)]);
      && r.drops == 1
      && Emitted(r) == [RecordOf(CallFrame(2, 1, 1, 2, entry), exitB, false)]
      && r.trace.stack == [CallFrame(1, 0, 1, 0, entry)]
  {
    hide Step, Replay, Emitted, NewRun, RecordOf;
    var low, full := BeginEvent(SITE_F, entry, 0), BeginEvent(SITE_F, entry, 1000);
    var endC, endB := EndEvent(exitC, false), EndEvent(exitB, false);
    ReplayFive(NewRun(0, SMALL_CAP), low, full, low, endC, endB);
    AcceptA(entry);
    DropB(entry);
    AcceptC(entry);
    var a, c := CallFrame(1, 0, 1, 0, entry), CallFrame(2, 1, 1, 2, entry);
    ConsumeThenPop(a, c, exitC, exitB);
  }

  lemma ConsumeThenPop(a: CallFrame, c: CallFrame, exitC: ExitSnapshots, exitB: ExitSnapshots)
    ensures var r := Step(Step(Mid(2, [a, c], 3, 1), EndEvent(exitC, false)), EndEvent(exitB, false));
      r.drops == 1 && Emitted(r) == [RecordOf(c, exitB, false)] && r.trace.stack == [a]
  {
    EndMoves(Mid(2, [a, c], 3, 1), exitC, false);
    EndMoves(Mid(2, [a, c], 2, 0).(drops := 1), exitB, false);
  }
}
