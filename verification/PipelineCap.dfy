/** How far the soft byte cap can be overshot. */
module PipelineCap {
  import opened Numerals
  import opened CallSites
  import opened TraceModel
  import opened Pipeline
  import opened PipelineBudget

  function OpenFrames(s: Sys): nat { if s.live.Some? then |s.live.value.stack| else 0 }

  /** The request is in its shutdown, where frames are recorded without their ends. */
  predicate InDrain(r: Request) {
    || r.Draining? || PastLastFlush(r)
    || (r.Billing? && r.after.ToDrain?)
  }

  /** The matcher, seen between atomic operations. */
  predicate MatchedIn(s: Sys) {
    s.live.Some? ==>
      var t := s.live.value;
      && |t.stack| <= t.limits.maxDepth
      && (if s.req.Gated? then |t.stack| < t.limits.maxDepth && t.virtualDepth == |t.stack| + t.droppedBegins + 1
          else InDrain(s.req) || t.virtualDepth == |t.stack| + t.droppedBegins)
  }

  /** With the record each open frame will still be billed, the budget is within
      the cap plus one record per frame but the last that can be open. */
  predicate WithinCap(s: Sys) {
    s.budget + PendingAdd(s.req) + CALL_RECORD_FIXED_BYTES * OpenFrames(s)
      <= s.limits.bufferCap + CALL_RECORD_FIXED_BYTES * (s.limits.maxDepth - 1)
  }

  /** Between its gates and its accept tail a begin still fits. */
  predicate GateHolds(s: Sys) {
    s.req.Gated? && s.live.Some? ==> s.budget + WouldAdd(s.live.value.dict, s.req.cat) <= s.limits.bufferCap
  }

  predicate CapInv(s: Sys) { MatchedIn(s) && WithinCap(s) && GateHolds(s) }

  /** A begin that finds the depth at its maximum. */
  predicate Saturates(s: Sys, a: Action) {
    a.ActBegin? && s.req.Idle? && s.live.Some? && s.live.value.virtualDepth >= U32_MAX
  }

  predicate NeverSaturates(s: Sys, actions: seq<Action>) {
    forall k :: 0 <= k < |actions| ==> !Saturates(Execute(s, actions[..k]), actions[k])
  }

  /** What holds of a whole history holds of its beginning. */
  lemma NeverSaturatesBefore(s: Sys, actions: seq<Action>)
    requires actions != [] && NeverSaturates(s, actions)
    ensures var n := |actions| - 1;
      NeverSaturates(s, actions[..n]) && !Saturates(Execute(s, actions[..n]), actions[n])
  {
    hide Saturates, Execute;
    var n := |actions| - 1;
    forall k | 0 <= k < n ensures !Saturates(Execute(s, actions[..n][..k]), actions[..n][k]) {
      assert actions[..n][..k] == actions[..k] && actions[..n][k] == actions[k];
    }
  }

  /** The gates of a configured process: a depth limit, and a cap that fits `usize`. */
  predicate Configured(s: Sys) { s.limits.maxDepth > 0 && s.limits.bufferCap < U64_MAX }

  /** Less budget, same trace and place: still within the cap. */
  lemma CapFramed(s: Sys, s1: Sys)
    requires CapInv(s) && s1.limits == s.limits && s1.live == s.live && s1.req == s.req
    requires s1.budget <= s.budget
    ensures CapInv(s1)
  {
  }

  lemma AcceptCap(s: Sys)
    requires Shape(s) && Configured(s) && CapInv(s) && s.req.Gated?
    ensures CapInv(Accept(s, s.req.cat, s.req.entry))
  {
    hide TraceInv, BeginAccept, WouldAdd;
    AcceptEffect(s.live.value, s.req.cat, s.req.entry);
  }

  lemma FlushCap(s: Sys, flush: bool, after: After)
    requires CapInv(s) && s.live.Some? && !s.req.Gated? && PendingAdd(s.req) == 0
    requires InDrain(s.req) ==> after == ToClosing
    ensures CapInv(FlushOrResume(s, flush, after))
  {
    hide TraceInv, TakeBatch, WouldAdd;
    TakeEffect(s.live.value);
  }

  lemma DrainCap(s: Sys)
    requires Shape(s) && CapInv(s) && s.req.Draining?
    ensures CapInv(DrainOne(s, s.req.exit))
  {
    hide TraceInv, PopRecord, FlushOrResume, WouldAdd;
    if s.live.value.stack != [] {
      PopEffect(s.live.value, s.req.exit, true);
    } else {
      FlushCap(s, s.live.value.buffer != [], ToClosing);
    }
  }

  lemma SendCap(s: Sys)
    requires CapInv(s) && s.req.Handing?
    ensures CapInv(TrySend(s, s.req.batch, s.req.after))
  {
    hide WouldAdd;
  }

  lemma RefusedCap(s: Sys)
    requires Accounted(s) && CapInv(s) && (s.req.Refused? || s.req.Bumping?)
    ensures CapInv(RequestStep(s))
  {
    hide TraceInv, WouldAdd, QueueBytes, Bumped;
  }

  lemma SmallCap(s: Sys)
    requires Accounted(s) && CapInv(s)
    requires s.req.Billing? || s.req.Closing? || s.req.Dropping? || OutsideRequest(s.req)
    ensures CapInv(RequestStep(s))
  {
    hide TraceInv, WouldAdd, QueueBytes, Bumped;
  }

  lemma RequestCap(s: Sys)
    requires Accounted(s) && Configured(s) && CapInv(s)
    ensures CapInv(RequestStep(s))
  {
    hide TraceInv, CapInv, Accept, CountGateDrop, FlushOrResume, TrySend, ReleaseRefused, CountFullDrop, DrainOne,
         ReleaseTrace, BudgetInv, WouldAdd;
    match s.req {
      case Gated(_, _) => AcceptCap(s);
      case FlushCheck => FlushCap(s, s.live.Some? && Trigger(s.live.value).Some?, ToIdle);
      case Handing(_, _) => SendCap(s);
      case Refused(_, _, _) => RefusedCap(s);
      case Bumping(_, _) => RefusedCap(s);
      case Draining(_) => DrainCap(s);
      case _ => SmallCap(s);
    }
  }

  lemma ShipperCap(s: Sys)
    requires CapInv(s)
    ensures CapInv(ShipperStep(s))
  {
    hide CapInv, Bumped;
    CapFramed(s, ShipperStep(s));
  }

  lemma BeginCap(s: Sys, cat: Categorised, entry: EntrySnapshots)
    requires Shape(s) && Configured(s) && CapInv(s) && !Saturates(s, ActBegin(cat, entry))
    ensures CapInv(BeginCall(s, cat, entry))
  {
    hide TraceInv, BeginGate, WouldAdd;
    if s.live.Some? && s.budget >= 0 {
      GateEffect(s.live.value, cat, s.budget);
    }
  }

  lemma EndCap(s: Sys, exit: ExitSnapshots, abnormal: bool)
    requires Shape(s) && CapInv(s)
    ensures CapInv(EndCall(s, exit, abnormal))
  {
    hide TraceInv, EndGate, PopRecord, WouldAdd;
    if s.req == Idle && s.live.Some? {
      EndEffect(s.live.value);
      var t1 := EndGate(s.live.value).0;
      if t1.stack != [] {
        PopEffect(t1, exit, abnormal);
      }
    }
  }

  lemma QuietCap(s: Sys, a: Action)
    requires Accounted(s) && CapInv(s)
    requires !a.ActRequest? && !a.ActShipper? && !a.ActBegin? && !a.ActEnd?
    ensures CapInv(Apply(s, a))
  {
    hide TraceInv, WouldAdd, QueueBytes;
  }

  lemma ApplyCap(s: Sys, a: Action)
    requires Accounted(s) && Configured(s) && CapInv(s) && !Saturates(s, a)
    ensures CapInv(Apply(s, a)) && Configured(Apply(s, a))
  {
    LimitsKept(s, a);
    hide Saturates, Shape, CapInv, BudgetInv, RequestStep, ShipperStep, BeginCall, EndCall;
    match a {
      case ActRequest => RequestCap(s);
      case ActShipper => ShipperCap(s);
      case ActBegin(cat, entry) => BeginCap(s, cat, entry);
      case ActEnd(exit, abnormal) => EndCap(s, exit, abnormal);
      case _ => QuietCap(s, a);
    }
  }

  lemma LimitsKept(s: Sys, a: Action)
    ensures Apply(s, a).limits == s.limits
  {
    hide BeginGate, BeginAccept, EndGate, PopRecord, TakeBatch, Trigger, Bumped, CounterOf;
  }

  lemma {:induction false} CapAlways(limits: TraceLimits, capacity: nat, actions: seq<Action>)
    requires limits.maxDepth > 0 && limits.bufferCap < U64_MAX
    requires NeverSaturates(InitSys(limits, capacity), actions)
    ensures var s := Execute(InitSys(limits, capacity), actions);
      CapInv(s) && Configured(s) && s.limits == limits
  {
    hide CapInv, Apply, Shape, BudgetInv, Subtracted, Saturates, NeverSaturates;
    if actions != [] {
      var n := |actions| - 1;
      NeverSaturatesBefore(InitSys(limits, capacity), actions);
      CapAlways(limits, capacity, actions[..n]);
      BudgetConserved(limits, capacity, actions[..n], ActTimeout);
      ApplyCap(Execute(InitSys(limits, capacity), actions[..n]), actions[n]);
      LimitsKept(Execute(InitSys(limits, capacity), actions[..n]), actions[n]);
    } else {
      InitCap(limits, capacity);
    }
  }

  lemma InitCap(limits: TraceLimits, capacity: nat)
    requires limits.maxDepth > 0 && limits.bufferCap < U64_MAX
    ensures CapInv(InitSys(limits, capacity)) && Configured(InitSys(limits, capacity))
  {
  }

  /** The overshoot bound, at every point of every interleaving in which no begin
      met a saturated depth counter: one record per open frame other than one. */
  lemma CapOvershootBounded(limits: TraceLimits, capacity: nat, actions: seq<Action>, s: Sys)
    requires limits.maxDepth > 0 && limits.bufferCap < U64_MAX
    requires s == Execute(InitSys(limits, capacity), actions) && NeverSaturates(InitSys(limits, capacity), actions)
    ensures OpenFrames(s) <= limits.maxDepth
    ensures s.budget + CALL_RECORD_FIXED_BYTES * OpenFrames(s)
         <= limits.bufferCap + CALL_RECORD_FIXED_BYTES * (limits.maxDepth - 1)
  {
    hide Execute, NeverSaturates;
    CapAlways(limits, capacity, actions);
    BudgetConserved(limits, capacity, actions, ActTimeout);
  }
}
