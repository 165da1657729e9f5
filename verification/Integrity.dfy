/** What a whole request hands off, for every event sequence: each call id
    once, parents after children, and every function id already defined. */
module Integrity {
  import opened Numerals
  import opened FunctionKeys
  import opened CallSites
  import opened Dictionaries
  import opened TraceModel
  import opened Runs

  // --- Call ids ---------------------------------------------------------------

  function Ids(calls: seq<CallRecord>): seq<nat> {
    seq(|calls|, i requires 0 <= i < |calls| => calls[i].callId)
  }

  function FrameIds(stack: seq<CallFrame>): seq<nat> {
    seq(|stack|, i requires 0 <= i < |stack| => stack[i].callId)
  }

  /** 1, 2, ..., n. */
  function UpTo(n: nat): seq<nat> {
    if n == 0 then [] else UpTo(n - 1) + [n]
  }

  /** Record `k`'s parent is older, and is still open or emitted later. */
  ghost predicate ParentFollows(calls: seq<CallRecord>, stack: seq<CallFrame>, k: int)
    requires 0 <= k < |calls|
  {
    var parent := calls[k].parent;
    parent != 0 ==>
      parent < calls[k].callId && (parent in FrameIds(stack) || parent in Ids(calls[k + 1..]))
  }

  /** Ids 1..n are shared out between records and open frames, once each. */
  ghost predicate SharedOut(calls: seq<CallRecord>, stack: seq<CallFrame>, n: nat) {
    multiset(Ids(calls)) + multiset(FrameIds(stack)) == multiset(UpTo(n))
  }

  function BelowId(stack: seq<CallFrame>, i: nat): nat
    requires i < |stack|
  {
    if i == 0 then 0 else stack[i - 1].callId
  }

  /** The stack is a chain of parents with increasing ids. */
  ghost predicate Chained(stack: seq<CallFrame>, n: nat) {
    forall i :: 0 <= i < |stack| ==>
      0 < stack[i].callId <= n && stack[i].parent == BelowId(stack, i) < stack[i].callId
  }

  ghost predicate ParentsFollow(calls: seq<CallRecord>, stack: seq<CallFrame>) {
    forall k :: 0 <= k < |calls| ==> ParentFollows(calls, stack, k)
  }

  ghost predicate WellParented(calls: seq<CallRecord>, stack: seq<CallFrame>, n: nat) {
    SharedOut(calls, stack, n) && Chained(stack, n) && ParentsFollow(calls, stack)
  }

  lemma FrameIdsSnoc(stack: seq<CallFrame>, f: CallFrame)
    ensures FrameIds(stack + [f]) == FrameIds(stack) + [f.callId]
  {
  }

  lemma IdsSnoc(calls: seq<CallRecord>, c: CallRecord)
    ensures Ids(calls + [c]) == Ids(calls) + [c.callId]
  {
  }

  lemma PushSharedOut(calls: seq<CallRecord>, stack: seq<CallFrame>, n: nat, f: CallFrame)
    requires SharedOut(calls, stack, n) && f.callId == n + 1
    ensures SharedOut(calls, stack + [f], n + 1)
  {
    FrameIdsSnoc(stack, f);
    assert UpTo(n + 1) == UpTo(n) + [n + 1];
  }

  lemma PushChained(stack: seq<CallFrame>, n: nat, f: CallFrame)
    requires Chained(stack, n) && f.callId == n + 1 && f.parent == TopId(stack)
    ensures Chained(stack + [f], n + 1)
  {
    var longer := stack + [f];
    forall i | 0 <= i < |longer|
      ensures 0 < longer[i].callId <= n + 1 && longer[i].parent == BelowId(longer, i) < longer[i].callId
    {
      if i < |stack| {
        assert longer[i] == stack[i] && BelowId(longer, i) == BelowId(stack, i);
      }
    }
  }

  lemma PushWellParented(calls: seq<CallRecord>, stack: seq<CallFrame>, n: nat, f: CallFrame)
    requires WellParented(calls, stack, n) && f.callId == n + 1 && f.parent == TopId(stack)
    ensures WellParented(calls, stack + [f], n + 1)
  {
    PushSharedOut(calls, stack, n, f);
    PushChained(stack, n, f);
    FrameIdsSnoc(stack, f);
    forall k | 0 <= k < |calls| ensures ParentFollows(calls, stack + [f], k) {
      assert ParentFollows(calls, stack, k);
    }
  }

  lemma PopSharedOut(calls: seq<CallRecord>, stack: seq<CallFrame>, n: nat, c: CallRecord)
    requires stack != [] && SharedOut(calls, stack, n) && c.callId == TopId(stack)
    ensures SharedOut(calls + [c], stack[..|stack| - 1], n)
  {
    var top := |stack| - 1;
    assert stack == stack[..top] + [stack[top]];
    FrameIdsSnoc(stack[..top], stack[top]);
    IdsSnoc(calls, c);
  }

  lemma PopKeepsFollowing(calls: seq<CallRecord>, stack: seq<CallFrame>, c: CallRecord, k: nat)
    requires stack != [] && c.callId == TopId(stack)
    requires k < |calls| && ParentFollows(calls, stack, k)
    ensures ParentFollows(calls + [c], stack[..|stack| - 1], k)
  {
    var top := |stack| - 1;
    var parent := calls[k].parent;
    FrameIdsSnoc(stack[..top], stack[top]);
    hide Ids, FrameIds;
    assert stack == stack[..top] + [stack[top]];
    assert (calls + [c])[k + 1..] == calls[k + 1..] + [c];
    IdsSnoc(calls[k + 1..], c);
    if parent != 0 && parent in Ids(calls[k + 1..]) {
      assert parent in Ids(calls[k + 1..]) + [c.callId];
    } else if parent == c.callId {
      assert parent in Ids(calls[k + 1..]) + [c.callId];
    }
  }

  lemma PopParentsFollow(calls: seq<CallRecord>, stack: seq<CallFrame>, n: nat, c: CallRecord)
    requires stack != [] && Chained(stack, n) && ParentsFollow(calls, stack)
    requires c.callId == TopId(stack) && c.parent == stack[|stack| - 1].parent
    ensures ParentsFollow(calls + [c], stack[..|stack| - 1])
  {
    var top := |stack| - 1;
    forall k | 0 <= k < |calls + [c]| ensures ParentFollows(calls + [c], stack[..top], k) {
      if k < |calls| {
        PopKeepsFollowing(calls, stack, c, k);
      } else if top > 0 {
        assert c.parent == BelowId(stack, top);
        assert FrameIds(stack[..top])[top - 1] == BelowId(stack, top);
      }
    }
  }

  lemma PopWellParented(calls: seq<CallRecord>, stack: seq<CallFrame>, n: nat, c: CallRecord)
    requires stack != [] && WellParented(calls, stack, n)
    requires c.callId == TopId(stack) && c.parent == stack[|stack| - 1].parent
    ensures WellParented(calls + [c], stack[..|stack| - 1], n)
  {
    var rest := stack[..|stack| - 1];
    forall i | 0 <= i < |rest|
      ensures 0 < rest[i].callId <= n && rest[i].parent == BelowId(rest, i) < rest[i].callId
    {
      assert rest[i] == stack[i] && BelowId(rest, i) == BelowId(stack, i);
    }
    PopSharedOut(calls, stack, n, c);
    PopParentsFollow(calls, stack, n, c);
  }

  ghost predicate CallsInv(r: Run) {
    WellParented(Emitted(r), r.trace.stack, r.trace.callIdSeq)
  }

  lemma PopMoveCalls(r: Run, exit: ExitSnapshots, abnormal: bool)
    requires r.trace.stack != [] && CallsInv(r)
    ensures CallsInv(PopMove(r, exit, abnormal))
  {
    var c := RecordOf(r.trace.stack[|r.trace.stack| - 1], exit, abnormal);
    assert Emitted(PopMove(r, exit, abnormal)) == Emitted(r) + [c];
    PopWellParented(Emitted(r), r.trace.stack, r.trace.callIdSeq, c);
  }

  lemma AcceptCalls(r: Run, t1: Trace, cat: Categorised, entry: EntrySnapshots)
    requires CallsInv(r) && t1.virtualDepth > 0
    requires t1 == r.trace.(virtualDepth := t1.virtualDepth)
    ensures CallsInv(r.(trace := BeginAccept(t1, cat, entry).0))
  {
    hide BeginAccept, OpenedFrame, CallsInv;
    AcceptOpens(r, t1, cat, entry);
    CallsOpened(r, cat, entry, t1.virtualDepth - 1, r.(trace := BeginAccept(t1, cat, entry).0));
  }

  lemma CallsOpened(r: Run, cat: Categorised, entry: EntrySnapshots, depth: nat, s: Run)
    requires CallsInv(r) && OpenedFrame(r, cat, entry, depth, s)
    ensures CallsInv(s)
  {
    hide Emitted, Journal, WellParented, IdOf;
    var f := s.trace.stack[|r.trace.stack|];
    PushWellParented(Emitted(r), r.trace.stack, r.trace.callIdSeq, f);
    assert s.trace.stack == r.trace.stack + [f];
  }

  lemma EndCalls(r: Run, exit: ExitSnapshots, abnormal: bool)
    requires CallsInv(r)
    ensures CallsInv(Step(r, EndEvent(exit, abnormal)))
  {
    EndMoves(r, exit, abnormal);
    var r1 := r.(trace := EndGate(r.trace).0);
    assert CallsInv(r1);
    if r.trace.droppedBegins == 0 && r.trace.stack != [] {
      PopMoveCalls(r1, exit, abnormal);
      FlushKeepsContents(PopMove(r1, exit, abnormal));
    }
  }

  lemma StepCalls(r: Run, e: Event)
    requires CallsInv(r)
    ensures CallsInv(Step(r, e))
  {
    match e {
      case BeginEvent(cat, entry, snapshot) =>
        var (t1, accepted) := BeginGate(r.trace, cat, snapshot);
        if accepted {
          AcceptCalls(r, t1, cat, entry);
        } else {
          assert Emitted(Step(r, e)) == Emitted(r);
        }
      case EndEvent(exit, abnormal) => EndCalls(r, exit, abnormal);
    }
  }

  lemma {:induction false} DrainCalls(r: Run, exit: ExitSnapshots)
    requires CallsInv(r)
    ensures CallsInv(DrainMove(r, exit))
    ensures DrainMove(r, exit).trace.callIdSeq == r.trace.callIdSeq
    decreases |r.trace.stack|
  {
    if r.trace.stack != [] {
      PopMoveCalls(r, exit, true);
      DrainCalls(PopMove(r, exit, true), exit);
    }
  }

  lemma {:induction false} CallsAlways(id: nat, limits: TraceLimits, events: seq<Event>)
    ensures CallsInv(Replay(NewRun(id, limits), events))
  {
    if events != [] {
      CallsAlways(id, limits, events[..|events| - 1]);
      StepCalls(Replay(NewRun(id, limits), events[..|events| - 1]), events[|events| - 1]);
    } else {
      assert Emitted(NewRun(id, limits)) == [];
    }
  }

  /** For every event sequence, unmatched ends and mispairing drops included:
      the records of all batches of the request carry each assigned call id
      exactly once, and a non-zero parent is an older call recorded later. */
  lemma RequestCallsComplete(id: nat, limits: TraceLimits, events: seq<Event>, exit: ExitSnapshots, r: Run)
    requires r == Replay(NewRun(id, limits), events)
    ensures var calls := Calls(Finish(r, exit));
      && multiset(Ids(calls)) == multiset(UpTo(r.trace.callIdSeq))
      && forall k :: 0 <= k < |calls| && calls[k].parent != 0 ==>
           calls[k].parent < calls[k].callId && calls[k].parent in Ids(calls[k + 1..])
  {
    CallsAlways(id, limits, events);
    DrainCalls(r, exit);
    FinishMoves(r, exit);
    NothingOpen(Emitted(DrainMove(r, exit)), r.trace.callIdSeq);
  }

  lemma NothingOpen(calls: seq<CallRecord>, n: nat)
    requires WellParented(calls, [], n)
    ensures multiset(Ids(calls)) == multiset(UpTo(n))
    ensures forall k :: 0 <= k < |calls| && calls[k].parent != 0 ==>
              calls[k].parent < calls[k].callId && calls[k].parent in Ids(calls[k + 1..])
  {
    assert FrameIds([]) == [];
    forall k | 0 <= k < |calls| && calls[k].parent != 0
      ensures calls[k].parent < calls[k].callId && calls[k].parent in Ids(calls[k + 1..])
    {
      assert ParentFollows(calls, [], k);
    }
  }

  // --- Function ids -------------------------------------------------------------

  ghost predicate Defined(calls: seq<CallRecord>, n: nat) {
    forall k :: 0 <= k < |calls| ==> 0 < calls[k].fnId <= n
  }

  ghost predicate Numbered(journal: seq<DictEntry>) {
    forall i :: 0 <= i < |journal| ==> journal[i].fnId == i + 1
  }

  ghost predicate FramesDefined(stack: seq<CallFrame>, n: nat) {
    forall i :: 0 <= i < |stack| ==> 0 < stack[i].fnId <= n
  }

  /** The entries staged so far are numbered 1, 2, ..., one per interned key, and
      whatever refers to a function refers to an entry of its own batch or an
      earlier one. */
  ghost predicate DictInv(r: Run) {
    && Distinct(r.trace.dict.keys)
    && |Journal(r)| == |r.trace.dict.keys|
    && Numbered(Journal(r))
    && FramesDefined(r.trace.stack, |r.trace.dict.keys|)
    && Defined(r.trace.buffer, |r.trace.dict.keys|)
    && BatchesDefined(r.flushed)
  }

  ghost predicate BatchesDefined(batches: seq<Batch>) {
    forall j :: 0 <= j < |batches| ==> Defined(batches[j].calls, |DictLists(batches[..j + 1])|)
  }

  lemma FlushDict(r: Run)
    requires DictInv(r)
    ensures DictInv(FlushMove(r))
  {
    var r1 := FlushMove(r);
    FlushKeepsContents(r);
    var n := |r.flushed|;
    forall j | 0 <= j <= n ensures Defined(r1.flushed[j].calls, |DictLists(r1.flushed[..j + 1])|) {
      if j < n {
        assert r1.flushed[..j + 1] == r.flushed[..j + 1];
      } else {
        assert r1.flushed[..j + 1] == r1.flushed;
        assert DictLists(r1.flushed) == Journal(r);
      }
    }
  }

  lemma PopMoveDict(r: Run, exit: ExitSnapshots, abnormal: bool)
    requires r.trace.stack != [] && DictInv(r)
    ensures DictInv(PopMove(r, exit, abnormal))
  {
  }

  lemma AcceptDict(r: Run, t1: Trace, cat: Categorised, entry: EntrySnapshots)
    requires DictInv(r) && t1.virtualDepth > 0
    requires t1 == r.trace.(virtualDepth := t1.virtualDepth)
    ensures DictInv(r.(trace := BeginAccept(t1, cat, entry).0))
  {
    hide BeginAccept, OpenedFrame, DictInv;
    AcceptOpens(r, t1, cat, entry);
    DictOpened(r, cat, entry, t1.virtualDepth - 1, r.(trace := BeginAccept(t1, cat, entry).0));
  }

  lemma DictOpened(r: Run, cat: Categorised, entry: EntrySnapshots, depth: nat, s: Run)
    requires DictInv(r) && OpenedFrame(r, cat, entry, depth, s)
    ensures DictInv(s)
  {
    hide Journal, Emitted, DictLists, BatchesDefined, TopId, CastU16, FramesDefined, Defined, IdOf;
    var (n, keys) := (|r.trace.dict.keys|, s.trace.dict.keys);
    var f := s.trace.stack[|r.trace.stack|];
    FramesGrow(r.trace.stack, n, f, |keys|);
    DefinedGrow(r.trace.buffer, n, |keys|);
  }

  lemma DefinedGrow(calls: seq<CallRecord>, n: nat, m: nat)
    requires Defined(calls, n) && n <= m
    ensures Defined(calls, m)
  {
  }

  lemma FramesGrow(stack: seq<CallFrame>, n: nat, f: CallFrame, m: nat)
    requires FramesDefined(stack, n) && n <= m && 0 < f.fnId <= m
    ensures FramesDefined(stack + [f], m)
  {
  }

  lemma StepDict(r: Run, e: Event)
    requires DictInv(r)
    ensures DictInv(Step(r, e))
  {
    match e {
      case BeginEvent(cat, entry, snapshot) =>
        var (t1, accepted) := BeginGate(r.trace, cat, snapshot);
        if accepted {
          AcceptDict(r, t1, cat, entry);
        } else {
          assert Journal(Step(r, e)) == Journal(r);
        }
      case EndEvent(exit, abnormal) =>
        EndMoves(r, exit, abnormal);
        var r1 := r.(trace := EndGate(r.trace).0);
        assert Journal(r1) == Journal(r);
        if r.trace.droppedBegins == 0 && r.trace.stack != [] {
          PopMoveDict(r1, exit, abnormal);
          FlushDict(PopMove(r1, exit, abnormal));
        }
    }
  }

  lemma {:induction false} DrainDict(r: Run, exit: ExitSnapshots)
    requires DictInv(r)
    ensures DictInv(DrainMove(r, exit))
    ensures DrainMove(r, exit).trace.dict == r.trace.dict
    decreases |r.trace.stack|
  {
    if r.trace.stack != [] {
      PopMoveDict(r, exit, true);
      DrainDict(PopMove(r, exit, true), exit);
    }
  }

  lemma {:induction false} DictAlways(id: nat, limits: TraceLimits, events: seq<Event>)
    ensures DictInv(Replay(NewRun(id, limits), events))
  {
    if events != [] {
      DictAlways(id, limits, events[..|events| - 1]);
      StepDict(Replay(NewRun(id, limits), events[..|events| - 1]), events[|events| - 1]);
    }
  }

  // --- Whose ids they are ---------------------------------------------------------

  /** Call `callId` carries the id of the function at its own site. */
  predicate OwnFunction(callId: nat, fnId: nat, sites: seq<Categorised>, keys: seq<FunctionKey>) {
    && 0 < callId <= |sites| && sites[callId - 1].key in keys
    && fnId == IdOf(keys, sites[callId - 1].key)
  }

  ghost predicate FramesOwn(stack: seq<CallFrame>, sites: seq<Categorised>, keys: seq<FunctionKey>) {
    forall i :: 0 <= i < |stack| ==> OwnFunction(stack[i].callId, stack[i].fnId, sites, keys)
  }

  ghost predicate CallsOwn(calls: seq<CallRecord>, sites: seq<Categorised>, keys: seq<FunctionKey>) {
    forall i :: 0 <= i < |calls| ==> OwnFunction(calls[i].callId, calls[i].fnId, sites, keys)
  }

  /** The dictionary is the order of first sight of the sites accepted so far. */
  ghost predicate SitesInv(r: Run, sites: seq<Categorised>) {
    var keys := r.trace.dict.keys;
    && r.trace.callIdSeq == |sites| && keys == SeenKeys([], sites) && Journal(r) == FirstSights([], sites)
    && FramesOwn(r.trace.stack, sites, keys) && CallsOwn(Emitted(r), sites, keys)
  }

  lemma IdOfPrefix(keys: seq<FunctionKey>, more: seq<FunctionKey>, k: FunctionKey)
    requires keys <= more && k in keys
    ensures IdOf(more, k) == IdOf(keys, k)
  {
    var (i, j) := (IdOf(keys, k), IdOf(more, k));
    assert forall x :: 0 <= x < i ==> more[x] == keys[x];
    assert forall x :: 0 <= x < i - 1 ==> keys[..i - 1][x] == keys[x];
    assert forall x :: 0 <= x < j - 1 ==> more[..j - 1][x] == more[x];
  }

  lemma OwnFunctionStays(callId: nat, fnId: nat, sites: seq<Categorised>, keys: seq<FunctionKey>, cat: Categorised,
                         more: seq<FunctionKey>)
    requires OwnFunction(callId, fnId, sites, keys) && keys <= more
    ensures OwnFunction(callId, fnId, sites + [cat], more)
  {
    IdOfPrefix(keys, more, sites[callId - 1].key);
  }

  lemma FramesOwnStay(stack: seq<CallFrame>, sites: seq<Categorised>, keys: seq<FunctionKey>, cat: Categorised,
                      more: seq<FunctionKey>, f: CallFrame)
    requires FramesOwn(stack, sites, keys) && keys <= more && cat.key in more
    requires f.callId == |sites| + 1 && f.fnId == IdOf(more, cat.key)
    ensures FramesOwn(stack + [f], sites + [cat], more)
  {
    hide OwnFunction, IdOf;
    forall i | 0 <= i < |stack| ensures OwnFunction(stack[i].callId, stack[i].fnId, sites + [cat], more) {
      OwnFunctionStays(stack[i].callId, stack[i].fnId, sites, keys, cat, more);
    }
    NewestOwn(sites, cat, more);
  }

  lemma CallsOwnStay(calls: seq<CallRecord>, sites: seq<Categorised>, keys: seq<FunctionKey>, cat: Categorised,
                     more: seq<FunctionKey>)
    requires CallsOwn(calls, sites, keys) && keys <= more
    ensures CallsOwn(calls, sites + [cat], more)
  {
    hide OwnFunction;
    forall i | 0 <= i < |calls| ensures OwnFunction(calls[i].callId, calls[i].fnId, sites + [cat], more) {
      OwnFunctionStays(calls[i].callId, calls[i].fnId, sites, keys, cat, more);
    }
  }

  lemma SitesOpened(r: Run, cat: Categorised, entry: EntrySnapshots, depth: nat, s: Run, sites: seq<Categorised>)
    requires SitesInv(r, sites) && OpenedFrame(r, cat, entry, depth, s)
    ensures SitesInv(s, sites + [cat])
  {
    hide Emitted, Journal, SeenKeys, FirstSights, IdOf, FramesOwn, CallsOwn, TopId, CastU16;
    var (keys, more) := (r.trace.dict.keys, s.trace.dict.keys);
    SeenConcat([], sites, [cat]);
    SeenOne(keys, cat);
    assert Journal(r) + [] == Journal(r);
    FramesOwnStay(r.trace.stack, sites, keys, cat, more, s.trace.stack[|r.trace.stack|]);
    CallsOwnStay(Emitted(r), sites, keys, cat, more);
  }

  lemma NewestOwn(sites: seq<Categorised>, cat: Categorised, keys: seq<FunctionKey>)
    requires cat.key in keys
    ensures OwnFunction(|sites| + 1, IdOf(keys, cat.key), sites + [cat], keys)
  {
  }

  lemma PopMoveSites(r: Run, exit: ExitSnapshots, abnormal: bool, sites: seq<Categorised>)
    requires r.trace.stack != [] && SitesInv(r, sites)
    ensures SitesInv(PopMove(r, exit, abnormal), sites)
  {
    hide OwnFunction, SeenKeys, FirstSights;
    var frame := r.trace.stack[|r.trace.stack| - 1];
    var s := PopMove(r, exit, abnormal);
    assert Emitted(s) == Emitted(r) + [RecordOf(frame, exit, abnormal)];
    assert Journal(s) == Journal(r);
  }

  lemma StepSites(r: Run, e: Event, sites: seq<Categorised>)
    requires SitesInv(r, sites)
    ensures SitesInv(Step(r, e), sites + SiteOf(r, e))
  {
    match e {
      case BeginEvent(cat, entry, snapshot) => BeginSites(r, cat, entry, snapshot, sites);
      case EndEvent(exit, abnormal) => EndSites(r, exit, abnormal, sites);
    }
  }

  lemma BeginSites(r: Run, cat: Categorised, entry: EntrySnapshots, snapshot: nat, sites: seq<Categorised>)
    requires SitesInv(r, sites)
    ensures var e := BeginEvent(cat, entry, snapshot); SitesInv(Step(r, e), sites + SiteOf(r, e))
  {
    hide BeginAccept, OpenedFrame, OwnFunction, SeenKeys, FirstSights, CapAdmits, WouldAdd, DictLists, Calls;
    var (t1, accepted) := BeginGate(r.trace, cat, snapshot);
    if accepted {
      hide SitesInv;
      AcceptOpens(r, t1, cat, entry);
      SitesOpened(r, cat, entry, t1.virtualDepth - 1, r.(trace := BeginAccept(t1, cat, entry).0), sites);
    } else {
      assert sites + [] == sites;
    }
  }

  lemma EndSites(r: Run, exit: ExitSnapshots, abnormal: bool, sites: seq<Categorised>)
    requires SitesInv(r, sites)
    ensures var e := EndEvent(exit, abnormal); SitesInv(Step(r, e), sites + SiteOf(r, e))
  {
    hide OwnFunction, SeenKeys, FirstSights, Trigger, RecordOf;
    assert sites + [] == sites;
    EndMoves(r, exit, abnormal);
    var r1 := r.(trace := EndGate(r.trace).0);
    assert Emitted(r1) == Emitted(r) && Journal(r1) == Journal(r);
    if r.trace.droppedBegins == 0 && r.trace.stack != [] {
      PopMoveSites(r1, exit, abnormal, sites);
      FlushKeepsContents(PopMove(r1, exit, abnormal));
    }
  }

  lemma {:induction false} DrainSites(r: Run, exit: ExitSnapshots, sites: seq<Categorised>)
    requires SitesInv(r, sites)
    ensures SitesInv(DrainMove(r, exit), sites)
    decreases |r.trace.stack|
  {
    hide SitesInv;
    if r.trace.stack != [] {
      PopMoveSites(r, exit, true, sites);
      DrainSites(PopMove(r, exit, true), exit, sites);
    }
  }

  lemma {:induction false} SitesAlways(id: nat, limits: TraceLimits, events: seq<Event>)
    ensures SitesInv(Replay(NewRun(id, limits), events), Sites(NewRun(id, limits), events))
  {
    if events != [] {
      hide SitesInv, Step, SiteOf;
      var (r0, before) := (NewRun(id, limits), events[..|events| - 1]);
      SitesAlways(id, limits, before);
      StepSites(Replay(r0, before), events[|events| - 1], Sites(r0, before));
    }
  }

  lemma SitesFinish(id: nat, limits: TraceLimits, events: seq<Event>, exit: ExitSnapshots, r: Run)
    requires r == Replay(NewRun(id, limits), events)
    ensures var sites := Sites(NewRun(id, limits), events);
      && DictLists(Finish(r, exit)) == FirstSights([], sites)
      && CallsOwn(Calls(Finish(r, exit)), sites, r.trace.dict.keys)
  {
    hide Replay, Sites, Finish, DictLists, Calls, FirstSights, SeenKeys, CallsOwn, TraceInv, BatchInv, Emitted, Journal;
    SitesAlways(id, limits, events);
    DrainSites(r, exit, Sites(NewRun(id, limits), events));
    EstimatesExact(id, limits, events, exit);
    FinishMoves(r, exit);
  }

  /** For every event sequence, cap drops and unmatched ends included: the dict
      lists of the request's batches, end to end, are the functions of the
      accepted calls in order of first sight, each with the name and file it was
      first seen with and numbered 1..n; every record carries the id of its own
      function, which its own batch or an earlier one defines. */
  lemma RequestDictComplete(id: nat, limits: TraceLimits, events: seq<Event>, exit: ExitSnapshots, r: Run)
    requires r == Replay(NewRun(id, limits), events)
    ensures var batches := Finish(r, exit);
      && Distinct(r.trace.dict.keys)
      && |DictLists(batches)| == |r.trace.dict.keys|
      && Numbered(DictLists(batches))
      && BatchesDefined(batches)
    ensures var sites := Sites(NewRun(id, limits), events);
      && DictLists(Finish(r, exit)) == FirstSights([], sites)
      && CallsOwn(Calls(Finish(r, exit)), sites, r.trace.dict.keys)
  {
    SitesFinish(id, limits, events, exit, r);
    DictAlways(id, limits, events);
    DrainDict(r, exit);
    EstimatesExact(id, limits, events, exit);
    FinishMoves(r, exit);
    FlushDict(DrainMove(r, exit));
  }
}
