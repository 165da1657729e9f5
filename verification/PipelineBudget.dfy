/** The byte budget under every interleaving: what it is made of, and that no
    subtraction underflows. */
module PipelineBudget {
  import opened Wrappers
  import opened Numerals
  import opened CallSites
  import opened TraceModel
  import opened Pipeline

  // --- What a trace operation changes, seen from outside -------------------------

  lemma GateEffect(t: Trace, cat: Categorised, snapshot: nat)
    ensures var (t1, accepted) := BeginGate(t, cat, snapshot);
      && t1 == t.(virtualDepth := t1.virtualDepth, droppedBegins := t1.droppedBegins)
      && (TraceInv(t) ==> TraceInv(t1))
      && (accepted ==> t1.virtualDepth > 0 && CapAdmits(t.limits, snapshot, WouldAdd(t.dict, cat)))
      && (Matched(t) && t.virtualDepth < U32_MAX ==>
            if accepted then t1.virtualDepth == |t1.stack| + t1.droppedBegins + 1 && |t1.stack| < t1.limits.maxDepth
            else Matched(t1))
  {
  }

  lemma AcceptEffect(t: Trace, cat: Categorised, entry: EntrySnapshots)
    requires t.virtualDepth > 0 && TraceInv(t)
    ensures var (t1, billed) := BeginAccept(t, cat, entry);
      && TraceInv(t1) && t1.id == t.id && t1.limits == t.limits
      && t1.estimated == t.estimated + billed && billed + CALL_RECORD_FIXED_BYTES == WouldAdd(t.dict, cat)
      && |t1.stack| == |t.stack| + 1 && t1.buffer == t.buffer
      && t1.virtualDepth == t.virtualDepth && t1.droppedBegins == t.droppedBegins
  {
  }

  lemma EndEffect(t: Trace)
    ensures var t1 := EndGate(t).0;
      && t1 == t.(virtualDepth := t1.virtualDepth, droppedBegins := t1.droppedBegins)
      && (TraceInv(t) ==> TraceInv(t1))
      && (Matched(t) ==>
            if EndGate(t).1 && t1.stack != [] then t1.virtualDepth + 1 == |t1.stack| + t1.droppedBegins
            else Matched(t1))
  {
  }

  lemma PopEffect(t: Trace, exit: ExitSnapshots, abnormal: bool)
    requires t.stack != []
    ensures var t1 := PopRecord(t, exit, abnormal);
      && (TraceInv(t) ==> TraceInv(t1)) && t1.id == t.id && t1.limits == t.limits
      && |t1.stack| == |t.stack| - 1 && |t1.buffer| == |t.buffer| + 1
      && t1.estimated == t.estimated + CALL_RECORD_FIXED_BYTES
      && t1.virtualDepth == t.virtualDepth && t1.droppedBegins == t.droppedBegins
  {
  }

  lemma TakeEffect(t: Trace)
    ensures var (t1, batch) := TakeBatch(t);
      && (TraceInv(t) ==> TraceInv(t1)) && t1.id == t.id && t1.limits == t.limits
      && t1.stack == t.stack && t1.buffer == [] && t1.estimated == 0
      && t1.virtualDepth == t.virtualDepth && t1.droppedBegins == t.droppedBegins
      && batch.traceId == t.id && batch.calls == t.buffer && batch.sizeEstimate == t.estimated
  {
  }

  lemma EmptyTraceOwesNothing(t: Trace)
    requires TraceInv(t) && t.stack == [] && t.buffer == []
    ensures t.estimated == 0
  {
  }

  // --- Thread-local consistency -----------------------------------------------------

  predicate OutsideRequest(r: Request) {
    r.Idle? || InModuleShutdown(r)
  }

  predicate InModuleShutdown(r: Request) {
    r.Publishing? || r.SendingDrain? || r.DroppingSender? || r.Finished?
  }

  /** The request is past its last flush. */
  predicate PastLastFlush(r: Request) {
    r.Closing? || ((r.Handing? || r.Refused? || r.Bumping? || r.Billing?) && r.after == ToClosing)
  }

  ghost predicate Shape(s: Sys) {
    && (!OutsideRequest(s.req) ==> s.live.Some?)
    && (s.live.Some? ==> TraceInv(s.live.value) && s.live.value.limits == s.limits)
    && (s.req.Gated? ==> s.live.value.virtualDepth > 0)
    && (s.req.Billing? ==> s.req.bytes <= s.live.value.estimated && s.req.after != ToClosing)
    && (PastLastFlush(s.req) ==> s.live.value.stack == [] && s.live.value.buffer == [] && s.live.value.estimated == 0)
    && (s.ship.NotSpawned? ==> s.live.None?)
  }

  // --- The budget -----------------------------------------------------------------------

  function LiveBytes(s: Sys): nat { if s.live.Some? then s.live.value.estimated else 0 }

  function PendingAdd(r: Request): nat { if r.Billing? then r.bytes else 0 }

  /** Bytes of the batch the request thread holds, until they are subtracted. */
  function HandBytes(r: Request): nat {
    if r.Handing? || r.Refused? then r.batch.sizeEstimate else 0
  }

  function QueueBytes(queue: seq<Message>): nat {
    if queue == [] then 0
    else (if queue[0].BatchMsg? then queue[0].batch.sizeEstimate else 0) + QueueBytes(queue[1..])
  }

  /** Bytes of the batch the shipper holds, until they are subtracted. */
  function ShipBytes(p: Shipper): nat {
    if p.Encoding? || p.Posting? || p.Settled? || p.Returning? || p.AbandonReturning? then p.batch.sizeEstimate else 0
  }

  lemma {:induction false} QueueBytesSnoc(queue: seq<Message>, m: Message)
    ensures QueueBytes(queue + [m]) == QueueBytes(queue) + QueueBytes([m])
  {
    if queue == [] {
      assert queue + [m] == [m];
    } else {
      assert (queue + [m])[1..] == queue[1..] + [m];
      QueueBytesSnoc(queue[1..], m);
    }
  }

  /** The budget is exactly the live trace's estimate plus the estimate of every
      batch handed off, queued or in flight, up to one add in progress. */
  predicate BudgetInv(s: Sys) {
    s.budget + PendingAdd(s.req) == LiveBytes(s) + HandBytes(s.req) + QueueBytes(s.queue) + ShipBytes(s.ship)
  }

  /** What an action subtracts from the budget. */
  function Subtracted(s: Sys, a: Action): nat {
    match a
    case ActRinit => if s.req == Idle && s.ship != NotSpawned then LiveBytes(s) else 0
    case ActRequest =>
      if s.req.Refused? then s.req.batch.sizeEstimate else if s.req.Closing? then LiveBytes(s) else 0
    case ActShipper => if s.ship.Returning? || s.ship.AbandonReturning? then s.ship.batch.sizeEstimate else 0
    case _ => 0
  }

  ghost predicate Accounted(s: Sys) { Shape(s) && BudgetInv(s) }

  /** Whatever leaves the request thread alone keeps it consistent. */
  lemma ShapeFramed(s: Sys, s1: Sys)
    requires Shape(s) && s1.req == s.req && s1.live == s.live && s1.limits == s.limits
    requires s1.ship.NotSpawned? ==> s.ship.NotSpawned?
    ensures Shape(s1)
  {
  }

  /** Moving to another place in the code, holding nothing. */
  lemma ShapeMoved(s: Sys, s1: Sys)
    requires Shape(s)
    requires s1 == s.(req := s1.req, budget := s1.budget, counters := s1.counters, queue := s1.queue)
    requires s1.req.Idle? || (s.live.Some? && (s1.req.FlushCheck? || s1.req.Draining?))
             || (PastLastFlush(s.req) && PastLastFlush(s1.req) && !s1.req.Billing?)
             || (s.live.Some? && (s1.req.Refused? || s1.req.Bumping?) && !PastLastFlush(s1.req))
    ensures Shape(s1)
  {
  }

  lemma AcceptAccounted(s: Sys)
    requires Accounted(s) && s.req.Gated?
    ensures Accounted(Accept(s, s.req.cat, s.req.entry))
  {
    hide TraceInv, BeginAccept, WouldAdd;
    AcceptEffect(s.live.value, s.req.cat, s.req.entry);
  }

  lemma FlushAccounted(s: Sys, flush: bool, after: After)
    requires Accounted(s) && s.live.Some? && PendingAdd(s.req) == HandBytes(s.req) == 0
    requires after == ToIdle
          || (after == ToClosing && s.live.value.stack == [] && (!flush ==> s.live.value.buffer == []))
    ensures Accounted(FlushOrResume(s, flush, after))
  {
    hide TraceInv, TakeBatch, QueueBytes;
    TakeEffect(s.live.value);
    if after == ToClosing && !flush {
      EmptyTraceOwesNothing(s.live.value);
    }
  }

  lemma DrainAccounted(s: Sys)
    requires Accounted(s) && s.req.Draining?
    ensures Accounted(DrainOne(s, s.req.exit))
  {
    if s.live.value.stack != [] {
      PopEffect(s.live.value, s.req.exit, true);
    } else {
      FlushAccounted(s, s.live.value.buffer != [], ToClosing);
    }
    hide TraceInv, PopRecord, FlushOrResume;
  }

  lemma SendAccounted(s: Sys)
    requires Accounted(s) && s.req.Handing?
    ensures Accounted(TrySend(s, s.req.batch, s.req.after))
  {
    QueueBytesSnoc(s.queue, BatchMsg(s.req.batch));
    var s1 := TrySend(s, s.req.batch, s.req.after);
    SendShape(s);
    hide Shape;
  }

  lemma SendShape(s: Sys)
    requires Shape(s) && s.req.Handing?
    ensures Shape(TrySend(s, s.req.batch, s.req.after))
  {
    hide TraceInv;
    var s1 := TrySend(s, s.req.batch, s.req.after);
    if s1.req.Refused? || !s.req.after.ToIdle? {
      ShapeMoved(s, s1);
    }
  }

  lemma BillingAccounted(s: Sys)
    requires Accounted(s) && s.req.Billing?
    ensures Accounted(s.(budget := s.budget + s.req.bytes, req := Resume(s.req.after)))
  {
  }

  lemma RefusalAccounted(s: Sys)
    requires Accounted(s) && s.req.Refused?
    ensures Accounted(ReleaseRefused(s, s.req.batch, s.req.full, s.req.after))
  {
    hide TraceInv, QueueBytes;
    ShapeMoved(s, ReleaseRefused(s, s.req.batch, s.req.full, s.req.after));
  }

  lemma FullDropAccounted(s: Sys)
    requires Accounted(s) && s.req.Bumping?
    ensures Accounted(CountFullDrop(s, s.req.batch, s.req.after))
  {
    hide TraceInv, QueueBytes;
    ShapeMoved(s, CountFullDrop(s, s.req.batch, s.req.after));
  }

  lemma FlushCheckAccounted(s: Sys)
    requires Accounted(s) && s.req.FlushCheck?
    ensures Accounted(RequestStep(s))
  {
    hide TraceInv, FlushOrResume, QueueBytes, Trigger;
    FlushAccounted(s, Trigger(s.live.value).Some?, ToIdle);
  }

  /** A drop to count, a trace to release, or no request. */
  lemma OtherRequestAccounted(s: Sys)
    requires Accounted(s) && (s.req.Dropping? || s.req.Closing? || OutsideRequest(s.req))
    ensures Accounted(RequestStep(s))
  {
    hide TraceInv, QueueBytes;
    if s.req.Dropping? {
      ShapeMoved(s, CountGateDrop(s));
    }
  }

  lemma RequestAccounted(s: Sys)
    requires Accounted(s)
    ensures Accounted(RequestStep(s))
  {
    hide Accounted, Accept, FlushOrResume, TrySend, ReleaseRefused, CountFullDrop, DrainOne, CountGateDrop,
         ReleaseTrace;
    match s.req {
      case Gated(_, _) => AcceptAccounted(s);
      case Billing(_, _) => BillingAccounted(s);
      case FlushCheck => FlushCheckAccounted(s);
      case Handing(_, _) => SendAccounted(s);
      case Refused(_, _, _) => RefusalAccounted(s);
      case Bumping(_, _) => FullDropAccounted(s);
      case Draining(_) => DrainAccounted(s);
      case _ => OtherRequestAccounted(s);
    }
  }

  lemma ReceiveAccounted(s: Sys, deadline: Option<nat>)
    requires Accounted(s) && (s.ship.Receiving? || s.ship.DrainReceiving?)
    ensures Accounted(Receive(s, deadline))
  {
    hide Shape;
    ShapeFramed(s, Receive(s, deadline));
  }

  lemma OutcomeAccounted(s: Sys)
    requires Accounted(s) && s.ship.Settled?
    ensures Accounted(CountOutcome(s, s.ship.batch, s.ship.deadline, s.ship.sent))
  {
  }

  lemma AbandonAccounted(s: Sys)
    requires Accounted(s) && s.ship.AbandonReturning?
    ensures Accounted(ReleaseAbandoned(s, s.ship.batch, s.ship.d))
  {
  }

  lemma TryReceiveAccounted(s: Sys)
    requires Accounted(s) && s.ship.Abandoning?
    ensures Accounted(TryReceive(s, s.ship.d))
  {
    hide Shape;
    ShapeFramed(s, TryReceive(s, s.ship.d));
  }

  lemma ShipperAccounted(s: Sys)
    requires Accounted(s)
    ensures Accounted(ShipperStep(s))
  {
    hide Shape, Receive, CountOutcome, TryReceive, ReleaseAbandoned, QueueBytes;
    match s.ship {
      case LoopHead => ShapeFramed(s, ShipperStep(s));
      case Receiving => ReceiveAccounted(s, None);
      case DrainReceiving(d) => ReceiveAccounted(s, Some(d));
      case Settled(_, _, _) => OutcomeAccounted(s);
      case Returning(_, _, _) => ShapeFramed(s, ShipperStep(s));
      case Noting(_, _) => ShapeFramed(s, ShipperStep(s));
      case AbandonReturning(_, _) => AbandonAccounted(s);
      case Abandoning(_) => TryReceiveAccounted(s);
      case _ =>
    }
  }

  lemma BeginAccounted(s: Sys, cat: Categorised, entry: EntrySnapshots)
    requires Accounted(s)
    ensures Accounted(BeginCall(s, cat, entry))
  {
    hide TraceInv, BeginGate, WouldAdd, CapAdmits, QueueBytes;
    if s.live.Some? && s.budget >= 0 {
      GateEffect(s.live.value, cat, s.budget);
    }
  }

  lemma EndAccounted(s: Sys, exit: ExitSnapshots, abnormal: bool)
    requires Accounted(s)
    ensures Accounted(EndCall(s, exit, abnormal))
  {
    hide TraceInv, EndGate, PopRecord, QueueBytes;
    if s.req == Idle && s.live.Some? {
      EndEffect(s.live.value);
      var t1 := EndGate(s.live.value).0;
      if t1.stack != [] {
        PopEffect(t1, exit, abnormal);
      }
    }
  }

  lemma RinitAccounted(s: Sys)
    requires Accounted(s)
    ensures Accounted(Rinit(s))
  {
    hide TraceInv, QueueBytes;
    NewTraceInv(s.nextTrace, s.limits);
  }

  lemma SendDrainAccounted(s: Sys, inTime: bool)
    requires Accounted(s)
    ensures Accounted(SendDrain(s, inTime))
  {
    hide TraceInv;
    if s.req.SendingDrain? {
      QueueBytesSnoc(s.queue, DrainMsg(s.req.deadline));
    }
  }

  lemma ApplyAccounted(s: Sys, a: Action)
    requires Accounted(s)
    ensures Accounted(Apply(s, a))
  {
    hide Accounted, RequestStep, ShipperStep, BeginCall, EndCall, Rinit, SendDrain;
    match a {
      case ActRequest => RequestAccounted(s);
      case ActShipper => ShipperAccounted(s);
      case ActBegin(cat, entry) => BeginAccounted(s, cat, entry);
      case ActEnd(exit, abnormal) => EndAccounted(s, exit, abnormal);
      case ActRinit => RinitAccounted(s);
      case ActSendDrain(inTime) => SendDrainAccounted(s, inTime);
      case _ => QuietAccounted(s, a);
    }
  }

  /** Actions that move neither bytes nor traces. */
  lemma QuietAccounted(s: Sys, a: Action)
    requires Accounted(s)
    requires a.ActEncode? || a.ActPost? || a.ActTimeout? || a.ActSpawn? || a.ActShutdown? || a.ActModuleShutdown?
    ensures Accounted(Apply(s, a))
  {
    hide TraceInv, QueueBytes;
    if !a.ActShutdown? && !a.ActModuleShutdown? {
      ShapeFramed(s, Apply(s, a));
    }
  }

  lemma SubtractionFits(s: Sys, a: Action)
    requires Accounted(s)
    ensures s.budget >= 0 && Subtracted(s, a) <= s.budget
  {
  }

  /** Byte-budget conservation, under every interleaving from a new process:
      the budget is what the holders add up to, it is never negative, and the
      next subtraction of either thread never exceeds it. */
  lemma {:induction false} BudgetConserved(limits: TraceLimits, capacity: nat, actions: seq<Action>, next: Action)
    ensures var s := Execute(InitSys(limits, capacity), actions);
      && Shape(s) && BudgetInv(s) && s.budget >= 0
      && Subtracted(s, next) <= s.budget
  {
    hide Shape, BudgetInv, Apply, Subtracted;
    if actions != [] {
      var n := |actions| - 1;
      BudgetConserved(limits, capacity, actions[..n], next);
      ApplyAccounted(Execute(InitSys(limits, capacity), actions[..n]), actions[n]);
    } else {
      InitAccounted(limits, capacity);
    }
    SubtractionFits(Execute(InitSys(limits, capacity), actions), next);
  }

  lemma InitAccounted(limits: TraceLimits, capacity: nat)
    ensures Accounted(InitSys(limits, capacity))
  {
  }
}
