/** Where every observed call goes, under every interleaving, and what the drop
    counter counts. */
module PipelineRecords {
  import opened Wrappers
  import opened CallSites
  import opened TraceModel
  import opened Runs
  import opened Pipeline
  import opened PipelineBudget
  import opened PipelineRuns
  import opened PipelineDelivery

  // --- Histories --------------------------------------------------------------------

  function CallsOf(batch: Batch, id: nat): nat { if batch.traceId == id then |batch.calls| else 0 }

  /** The recorder sees a begin of trace `id`. */
  predicate Observes(s: Sys, a: Action, id: nat) { a.ActBegin? && s.req.Idle? && IsLive(s, id) && s.budget >= 0 }

  /** It is refused by one of the gates. */
  predicate GateRefuses(s: Sys, a: Action, id: nat) {
    Observes(s, a, id) && !BeginGate(s.live.value, a.cat, s.budget).1
  }

  /** Records of a batch that `try_send` finds a full channel for. */
  function FullDropped(s: Sys, a: Action, id: nat): nat {
    if a.ActRequest? && s.req.Handing? && s.senderInstalled && !s.ship.Exited? && |s.queue| >= s.capacity
    then CallsOf(s.req.batch, id) else 0
  }

  /** Records of a batch that `try_send` finds no receiver for. */
  function Stranded(s: Sys, a: Action, id: nat): nat {
    if a.ActRequest? && s.req.Handing? && (!s.senderInstalled || s.ship.Exited?)
    then CallsOf(s.req.batch, id) else 0
  }

  /** Records of a batch the shipper cannot encode, or the handler drops. */
  function ShipDropped(s: Sys, a: Action, id: nat): nat {
    if (a.ActEncode? && !a.ok && s.ship.Encoding?) || (a.ActPost? && !a.sent && s.ship.Posting?)
    then CallsOf(s.ship.batch, id) else 0
  }

  /** Records of a batch the handler sends. */
  function Shipped(s: Sys, a: Action, id: nat): nat {
    if a.ActPost? && a.sent && s.ship.Posting? then CallsOf(s.ship.batch, id) else 0
  }

  /** Records of a batch still queued when the drain deadline has passed. */
  function Abandoned(s: Sys, a: Action, id: nat): nat {
    if a.ActShipper? && s.ship.Abandoning? && s.queue != [] && s.queue[0].BatchMsg?
    then CallsOf(s.queue[0].batch, id) else 0
  }

  /** Calls of a trace that a new request finds still installed. */
  function Stale(s: Sys, a: Action, id: nat): nat {
    if a.ActRinit? && s.req.Idle? && !s.ship.NotSpawned? then LiveCalls(s, id) else 0
  }

  /** Begins of one trace, and what became of its calls. */
  datatype Tally = Tally(begins: nat, gateDrops: nat, fullDrops: nat, shipDrops: nat, sent: nat, lost: nat)

  /** Everything that has happened to trace `id`. */
  function History(s: Sys, actions: seq<Action>, id: nat): Tally {
    if actions == [] then Tally(0, 0, 0, 0, 0, 0)
    else
      var (s1, a) := (Execute(s, actions[..|actions| - 1]), actions[|actions| - 1]);
      var t := History(s, actions[..|actions| - 1], id);
      Tally(t.begins + if Observes(s1, a, id) then 1 else 0,
            t.gateDrops + if GateRefuses(s1, a, id) then 1 else 0,
            t.fullDrops + FullDropped(s1, a, id),
            t.shipDrops + ShipDropped(s1, a, id),
            t.sent + Shipped(s1, a, id),
            t.lost + Stranded(s1, a, id) + Abandoned(s1, a, id) + Stale(s1, a, id))
  }

  // --- Where a call is ------------------------------------------------------------------

  /** Calls of trace `id` still open or buffered in the recorder. */
  function LiveCalls(s: Sys, id: nat): nat {
    if IsLive(s, id) then |s.live.value.stack| + |s.live.value.buffer| else 0
  }

  function MessageCalls(m: Message, id: nat): nat { if m.BatchMsg? then CallsOf(m.batch, id) else 0 }

  function QueueCalls(queue: seq<Message>, id: nat): nat {
    if queue == [] then 0 else MessageCalls(queue[0], id) + QueueCalls(queue[1..], id)
  }

  /** The request thread's own: a begin past its gates, or a batch not yet given to `try_send`. */
  function HandCalls(s: Sys, id: nat): nat {
    match s.req
    case Gated(_, _) => if IsLive(s, id) then 1 else 0
    case Handing(batch, _) => CallsOf(batch, id)
    case _ => 0
  }

  function ShipCalls(p: Shipper, id: nat): nat { if p.Encoding? || p.Posting? then CallsOf(p.batch, id) else 0 }

  /** Calls of trace `id` about which nothing is decided yet. */
  function Outstanding(s: Sys, id: nat): nat {
    LiveCalls(s, id) + HandCalls(s, id) + QueueCalls(s.queue, id) + ShipCalls(s.ship, id)
  }

  /** Drops decided but not on the counter yet: one bump in progress on either thread. */
  function Owed(s: Sys, id: nat): nat { HandOwed(s, id) + ShipOwed(s.ship, id) }

  function HandOwed(s: Sys, id: nat): nat {
    match s.req
    case Dropping => if IsLive(s, id) then 1 else 0
    case Refused(batch, full, _) => if full then CallsOf(batch, id) else 0
    case Bumping(batch, _) => CallsOf(batch, id)
    case _ => 0
  }

  function ShipOwed(p: Shipper, id: nat): nat { if p.Settled? && !p.sent then CallsOf(p.batch, id) else 0 }

  lemma {:induction false} QueueCallsSnoc(queue: seq<Message>, m: Message, id: nat)
    ensures QueueCalls(queue + [m], id) == QueueCalls(queue, id) + MessageCalls(m, id)
  {
    if queue == [] {
      assert queue + [m] == [m] && [m][1..] == [];
    } else {
      assert (queue + [m])[1..] == queue[1..] + [m];
      QueueCallsSnoc(queue[1..], m, id);
    }
  }

  // --- What one action keeps ----------------------------------------------------------------

  /** From `s` to `s1`, `begins` calls appear, `drops` are decided to be dropped and
      counted, and `gone` leave without being counted. */
  predicate Balanced(s: Sys, s1: Sys, id: nat, begins: nat, drops: nat, gone: nat) {
    && Outstanding(s1, id) + drops + gone == Outstanding(s, id) + begins
    && CounterOf(s1, id) + Owed(s1, id) == CounterOf(s, id) + Owed(s, id) + drops
  }

  /** Neither calls nor bumps are touched. */
  lemma SameRecords(s: Sys, s1: Sys, id: nat)
    requires LiveCalls(s1, id) == LiveCalls(s, id) && s1.counters == s.counters && s1.queue == s.queue
    requires HandCalls(s1, id) == HandCalls(s, id) && HandOwed(s1, id) == HandOwed(s, id)
    requires ShipCalls(s1.ship, id) == ShipCalls(s.ship, id) && ShipOwed(s1.ship, id) == ShipOwed(s.ship, id)
    ensures Balanced(s, s1, id, 0, 0, 0)
  {
  }

  lemma AcceptRecords(s: Sys, id: nat)
    requires Shape(s) && s.req.Gated?
    ensures Balanced(s, Accept(s, s.req.cat, s.req.entry), id, 0, 0, 0)
  {
    hide TraceInv, BeginAccept, QueueCalls;
    AcceptEffect(s.live.value, s.req.cat, s.req.entry);
  }

  lemma FlushRecords(s: Sys, flush: bool, after: After, id: nat)
    requires Shape(s) && (s.req.FlushCheck? || s.req.Draining?) && (!flush ==> !after.ToDrain?)
    ensures Balanced(s, FlushOrResume(s, flush, after), id, 0, 0, 0)
  {
    hide TraceInv, TakeBatch, QueueCalls;
    TakeEffect(s.live.value);
  }

  lemma DrainRecords(s: Sys, id: nat)
    requires Shape(s) && s.req.Draining?
    ensures Balanced(s, DrainOne(s, s.req.exit), id, 0, 0, 0)
  {
    hide TraceInv, PopRecord, FlushOrResume, QueueCalls;
    if s.live.value.stack != [] {
      PopEffect(s.live.value, s.req.exit, true);
    } else {
      FlushRecords(s, s.live.value.buffer != [], ToClosing, id);
    }
  }

  lemma SendRecords(s: Sys, id: nat)
    requires s.req.Handing?
    ensures Balanced(s, TrySend(s, s.req.batch, s.req.after), id, 0, FullDropped(s, ActRequest, id),
                     Stranded(s, ActRequest, id))
  {
    hide QueueCalls, CallsOf;
    QueueCallsSnoc(s.queue, BatchMsg(s.req.batch), id);
  }

  /** A bump owed by the request thread is made, or no call is touched. */
  lemma BumpRecords(s: Sys, id: nat)
    requires Shape(s) && (s.req.Dropping? || s.req.Refused? || s.req.Bumping?)
    ensures Balanced(s, RequestStep(s), id, 0, 0, 0)
  {
    hide TraceInv, QueueCalls;
  }

  lemma OtherRequestRecords(s: Sys, id: nat)
    requires Shape(s)
    requires s.req.Billing? || s.req.Closing? || OutsideRequest(s.req)
    ensures Balanced(s, RequestStep(s), id, 0, 0, 0)
  {
    hide Balanced, TraceInv, QueueCalls, CallsOf;
    SameRecords(s, RequestStep(s), id);
  }

  lemma RequestRecords(s: Sys, id: nat)
    requires Shape(s)
    ensures Balanced(s, RequestStep(s), id, 0, FullDropped(s, ActRequest, id), Stranded(s, ActRequest, id))
  {
    hide Balanced, Shape, Accept, FlushOrResume, TrySend, DrainOne, CountGateDrop, ReleaseRefused, CountFullDrop;
    match s.req {
      case Gated(_, _) => AcceptRecords(s, id);
      case FlushCheck => FlushRecords(s, s.live.Some? && Trigger(s.live.value).Some?, ToIdle, id);
      case Handing(_, _) => SendRecords(s, id);
      case Draining(_) => DrainRecords(s, id);
      case Dropping => BumpRecords(s, id);
      case Refused(_, _, _) => BumpRecords(s, id);
      case Bumping(_, _) => BumpRecords(s, id);
      case _ => OtherRequestRecords(s, id);
    }
  }

  /** Calls move between the queue and the shipper, or leave there. */
  lemma ShiftedRecords(s: Sys, s1: Sys, id: nat, gone: nat)
    requires s1.live == s.live && s1.req == s.req && s1.counters == s.counters
    requires ShipOwed(s1.ship, id) == ShipOwed(s.ship, id)
    requires QueueCalls(s1.queue, id) + ShipCalls(s1.ship, id) + gone
          == QueueCalls(s.queue, id) + ShipCalls(s.ship, id)
    ensures Balanced(s, s1, id, 0, 0, gone)
  {
    hide QueueCalls, ShipCalls, ShipOwed, CallsOf;
  }

  lemma ReceiveRecords(s: Sys, deadline: Option<nat>, id: nat)
    requires s.ship.Receiving? || s.ship.DrainReceiving?
    ensures Balanced(s, Receive(s, deadline), id, 0, 0, 0)
  {
    hide Balanced, QueueCalls, CallsOf;
    if s.queue != [] {
      QueueCallsHead(s.queue, id);
    }
    ShiftedRecords(s, Receive(s, deadline), id, 0);
  }

  lemma TryReceiveRecords(s: Sys, id: nat)
    requires s.ship.Abandoning?
    ensures Balanced(s, TryReceive(s, s.ship.d), id, 0, 0, Abandoned(s, ActShipper, id))
  {
    hide Balanced, QueueCalls, CallsOf;
    if s.queue != [] {
      QueueCallsHead(s.queue, id);
    }
    ShiftedRecords(s, TryReceive(s, s.ship.d), id, Abandoned(s, ActShipper, id));
  }

  lemma QueueCallsHead(queue: seq<Message>, id: nat)
    requires queue != []
    ensures QueueCalls(queue, id) == MessageCalls(queue[0], id) + QueueCalls(queue[1..], id)
  {
  }

  /** The bump owed by the shipper is made. */
  lemma CountRecords(s: Sys, id: nat)
    requires s.ship.Settled?
    ensures Balanced(s, ShipperStep(s), id, 0, 0, 0)
  {
    hide QueueCalls;
  }

  lemma OtherShipperRecords(s: Sys, id: nat)
    requires !s.ship.Receiving? && !s.ship.DrainReceiving? && !s.ship.Abandoning? && !s.ship.Settled?
    ensures Balanced(s, ShipperStep(s), id, 0, 0, 0)
  {
    hide Balanced, QueueCalls, CallsOf;
    SameRecords(s, ShipperStep(s), id);
  }

  lemma ShipperRecords(s: Sys, id: nat)
    ensures Balanced(s, ShipperStep(s), id, 0, 0, Abandoned(s, ActShipper, id))
  {
    hide Balanced, Receive, TryReceive, CountOutcome, ReleaseAbandoned;
    match s.ship {
      case Receiving => ReceiveRecords(s, None, id);
      case DrainReceiving(d) => ReceiveRecords(s, Some(d), id);
      case Abandoning(_) => TryReceiveRecords(s, id);
      case Settled(_, _, _) => CountRecords(s, id);
      case _ => OtherShipperRecords(s, id);
    }
  }

  lemma BeginRecords(s: Sys, cat: Categorised, entry: EntrySnapshots, id: nat)
    ensures var a := ActBegin(cat, entry);
      Balanced(s, BeginCall(s, cat, entry), id, if Observes(s, a, id) then 1 else 0,
               if GateRefuses(s, a, id) then 1 else 0, 0)
  {
    hide BeginGate, QueueCalls;
    if s.live.Some? && s.budget >= 0 {
      GateEffect(s.live.value, cat, s.budget);
    }
  }

  lemma EndRecords(s: Sys, exit: ExitSnapshots, abnormal: bool, id: nat)
    ensures Balanced(s, EndCall(s, exit, abnormal), id, 0, 0, 0)
  {
    hide EndGate, PopRecord, QueueCalls, TraceInv;
    if s.req == Idle && s.live.Some? {
      EndEffect(s.live.value);
      var t1 := EndGate(s.live.value).0;
      if t1.stack != [] {
        PopEffect(t1, exit, abnormal);
      }
    }
  }

  lemma RinitRecords(s: Sys, id: nat)
    ensures Balanced(s, Rinit(s), id, 0, 0, Stale(s, ActRinit, id))
  {
    hide QueueCalls;
  }

  lemma EncodeRecords(s: Sys, ok: bool, id: nat)
    ensures Balanced(s, Encode(s, ok), id, 0, ShipDropped(s, ActEncode(ok), id), 0)
  {
    hide QueueCalls, CallsOf;
  }

  lemma PostRecords(s: Sys, sent: bool, id: nat)
    ensures Balanced(s, Post(s, sent), id, 0, ShipDropped(s, ActPost(sent), id), Shipped(s, ActPost(sent), id))
  {
    hide QueueCalls, CallsOf;
  }

  lemma QuietRecords(s: Sys, a: Action, id: nat)
    requires a.ActTimeout? || a.ActSpawn? || a.ActShutdown? || a.ActModuleShutdown?
    ensures Balanced(s, Apply(s, a), id, 0, 0, 0)
  {
    hide Balanced, QueueCalls, CallsOf;
    SameRecords(s, Apply(s, a), id);
  }

  lemma SendDrainRecords(s: Sys, inTime: bool, id: nat)
    ensures Balanced(s, SendDrain(s, inTime), id, 0, 0, 0)
  {
    hide QueueCalls;
    if s.req.SendingDrain? {
      QueueCallsSnoc(s.queue, DrainMsg(s.req.deadline), id);
    }
  }

  lemma ApplyRecords(s: Sys, a: Action, id: nat)
    requires Shape(s)
    ensures Balanced(s, Apply(s, a), id, if Observes(s, a, id) then 1 else 0,
                     (if GateRefuses(s, a, id) then 1 else 0) + FullDropped(s, a, id) + ShipDropped(s, a, id),
                     Shipped(s, a, id) + Stranded(s, a, id) + Abandoned(s, a, id) + Stale(s, a, id))
  {
    hide Shape, Balanced, RequestStep, ShipperStep, BeginCall, EndCall, Rinit, SendDrain, Encode, Post;
    match a {
      case ActRequest => RequestRecords(s, id);
      case ActShipper => ShipperRecords(s, id);
      case ActBegin(cat, entry) => BeginRecords(s, cat, entry, id);
      case ActEnd(exit, abnormal) => EndRecords(s, exit, abnormal, id);
      case ActRinit => RinitRecords(s, id);
      case ActEncode(ok) => EncodeRecords(s, ok, id);
      case ActPost(sent) => PostRecords(s, sent, id);
      case ActSendDrain(inTime) => SendDrainRecords(s, inTime, id);
      case _ => QuietRecords(s, a, id);
    }
  }

  // --- Conservation -----------------------------------------------------------------------

  lemma InitRecords(limits: TraceLimits, capacity: nat, id: nat)
    ensures var s := InitSys(limits, capacity); Outstanding(s, id) == CounterOf(s, id) == Owed(s, id) == 0
  {
  }

  /** Record conservation for every trace, at every point of every interleaving: every
      begin observed is outstanding, dropped, sent or lost, and the counter of the trace
      is what was dropped, less the bumps in progress. */
  lemma {:induction false} RecordsConserved(limits: TraceLimits, capacity: nat, actions: seq<Action>, id: nat, s: Sys,
                                            t: Tally)
    requires s == Execute(InitSys(limits, capacity), actions) && t == History(InitSys(limits, capacity), actions, id)
    ensures t.begins == Outstanding(s, id) + t.gateDrops + t.fullDrops + t.shipDrops + t.sent + t.lost
    ensures CounterOf(s, id) + Owed(s, id) == t.gateDrops + t.fullDrops + t.shipDrops
  {
    hide Outstanding, CounterOf, Owed, Apply, Shape, BudgetInv, Subtracted, InitSys, Observes, GateRefuses, FullDropped,
         Stranded, ShipDropped, Shipped, Abandoned, Stale;
    if actions != [] {
      var n := |actions| - 1;
      var s0 := InitSys(limits, capacity);
      var before := Execute(s0, actions[..n]);
      RecordsConserved(limits, capacity, actions[..n], id, before, History(s0, actions[..n], id));
      BudgetConserved(limits, capacity, actions[..n], ActTimeout);
      ApplyRecords(before, actions[n], id);
    } else {
      InitRecords(limits, capacity, id);
    }
  }

  /** The records sent are those of the batches delivered. */
  lemma {:induction false} SentIsDelivered(s: Sys, actions: seq<Action>, id: nat)
    ensures History(s, actions, id).sent == |Calls(Of(Delivered(s, actions), id))|
  {
    if actions != [] {
      hide Execute, Observes, GateRefuses, FullDropped, Stranded, ShipDropped, Abandoned, Stale;
      var n := |actions| - 1;
      SentIsDelivered(s, actions[..n], id);
      SentMore(Delivered(s, actions[..n]), SentBy(Execute(s, actions[..n]), actions[n]), id);
    }
  }

  lemma SentMore(all: seq<Batch>, more: seq<Batch>, id: nat)
    requires |more| <= 1
    ensures |Calls(Of(all + more, id))| == |Calls(Of(all, id))| + if more == [] then 0 else CallsOf(more[0], id)
  {
    hide Of, Calls;
    var own := Of(all, id);
    assert all + [] == all && own + [] == own;
    if more != [] {
      assert more == [more[0]];
      OfConcat(all, more, id);
      OfOne(more[0], id);
      CallsSnoc(own, more[0]);
    }
  }

  lemma OfOne(b: Batch, id: nat)
    ensures Of([b], id) == if b.traceId == id then [b] else []
  {
    assert [b][..0] == [];
  }

  lemma CallsSnoc(batches: seq<Batch>, b: Batch)
    ensures Calls(batches + [b]) == Calls(batches) + b.calls
  {
    assert (batches + [b])[..|batches|] == batches;
  }

  // --- The stamp ---------------------------------------------------------------------

  /** `dropped_records` never decreases over a trace's batches, and never runs
      ahead of the counter. */
  predicate StampInv(s: Sys) {
    && (forall j :: 0 <= j < |s.stamps| ==>
          s.stamps[j].droppedRecords <= CounterOf(s, s.stamps[j].traceId))
    && (forall i, j :: 0 <= i < j < |s.stamps| && s.stamps[i].traceId == s.stamps[j].traceId ==>
          s.stamps[i].droppedRecords <= s.stamps[j].droppedRecords)
  }

  lemma RequestStamps(s: Sys, id: nat)
    ensures CounterOf(s, id) <= CounterOf(RequestStep(s), id)
    ensures RequestStep(s).stamps == s.stamps
  {
    hide BeginAccept, PopRecord, TakeBatch, Trigger;
  }

  lemma ShipperStamps(s: Sys, id: nat)
    ensures CounterOf(s, id) <= CounterOf(ShipperStep(s), id)
    ensures ShipperStep(s).stamps == s.stamps
  {
  }

  /** Only `Encode` stamps, and no action lowers a counter. */
  lemma StampFrame(s: Sys, a: Action, id: nat)
    ensures CounterOf(s, id) <= CounterOf(Apply(s, a), id)
    ensures a.ActEncode? || Apply(s, a).stamps == s.stamps
  {
    hide BeginGate, EndGate, PopRecord, RequestStep, ShipperStep;
    RequestStamps(s, id);
    ShipperStamps(s, id);
  }

  lemma StampStep(s: Sys, a: Action)
    requires StampInv(s)
    ensures StampInv(Apply(s, a))
  {
    var s1 := Apply(s, a);
    forall id ensures CounterOf(s, id) <= CounterOf(s1, id) {
      StampFrame(s, a, id);
    }
    StampFrame(s, a, 0);
    hide Apply, CounterOf;
    if a.ActEncode? && s.ship.Encoding? {
      EncodeStamps(s, a.ok);
    } else if a.ActEncode? {
      EncodeIdle(s, a.ok);
    }
  }

  lemma EncodeIdle(s: Sys, ok: bool)
    requires !s.ship.Encoding?
    ensures Encode(s, ok) == s
    ensures Apply(s, ActEncode(ok)) == s
  {
  }

  lemma EncodeStamps(s: Sys, ok: bool)
    requires s.ship.Encoding? && StampInv(s)
    ensures StampInv(Apply(s, ActEncode(ok)))
  {
    var s1 := Encode(s, ok);
    assert s1.stamps == s.stamps + [Stamp(s.ship.batch.traceId, CounterOf(s, s.ship.batch.traceId))];
    assert s1.counters == s.counters;
    hide Encode;
  }

  /** What batches of one trace report only grows, under every interleaving. */
  lemma {:induction false} StampsMonotone(limits: TraceLimits, capacity: nat, actions: seq<Action>)
    ensures StampInv(Execute(InitSys(limits, capacity), actions))
  {
    hide StampInv, Apply;
    if actions != [] {
      var n := |actions| - 1;
      StampsMonotone(limits, capacity, actions[..n]);
      StampStep(Execute(InitSys(limits, capacity), actions[..n]), actions[n]);
    } else {
      InitStamps(limits, capacity);
    }
  }

  lemma InitStamps(limits: TraceLimits, capacity: nat)
    ensures StampInv(InitSys(limits, capacity))
  {
  }

  /** What a batch reports as dropped is what the gates, the full channel and the
      shipper have dropped of its trace so far, less the bump its request thread is
      about to make. Nothing else reports. */
  lemma StampExact(limits: TraceLimits, capacity: nat, before: seq<Action>, a: Action)
    ensures var s0 := InitSys(limits, capacity);
      var (s, s1) := (Execute(s0, before), Execute(s0, before + [a]));
      if a.ActEncode? && s.ship.Encoding? then
        var (id, n) := (s.ship.batch.traceId, |s.stamps|);
        var t := History(s0, before, id);
        && |s1.stamps| == n + 1 && s1.stamps[..n] == s.stamps && s1.stamps[n].traceId == id
        && s1.stamps[n].droppedRecords + HandOwed(s, id) == t.gateDrops + t.fullDrops + t.shipDrops
      else s1.stamps == s.stamps
  {
    hide Execute, History, InitSys, HandOwed, Outstanding, CounterOf, Apply;
    var s0 := InitSys(limits, capacity);
    var s := Execute(s0, before);
    ExecuteMore(s0, before, a);
    StampFrame(s, a, 0);
    if a.ActEncode? && s.ship.Encoding? {
      var id := s.ship.batch.traceId;
      RecordsConserved(limits, capacity, before, id, s, History(s0, before, id));
      EncodeStamp(s, a.ok);
    } else if a.ActEncode? {
      EncodeIdle(s, a.ok);
    }
  }

  lemma EncodeStamp(s: Sys, ok: bool)
    requires s.ship.Encoding?
    ensures var id := s.ship.batch.traceId;
      Apply(s, ActEncode(ok)).stamps == s.stamps + [Stamp(id, CounterOf(s, id))]
  {
  }
}
