/** The two-signal module shutdown, and what is left when it is over. */
module PipelineShutdown {
  import opened Wrappers
  import opened TraceModel
  import opened Pipeline
  import opened PipelineBudget

  /** The deadline the shipper's receive path works with, if it has one. */
  function PathDeadline(p: Shipper): Option<nat> {
    match p
    case DrainReceiving(d) => Some(d)
    case Encoding(_, deadline) => deadline
    case Posting(_, deadline) => deadline
    case Settled(_, deadline, _) => deadline
    case Returning(_, deadline, _) => deadline
    case Noting(deadline, _) => deadline
    case Abandoning(d) => Some(d)
    case AbandonReturning(_, d) => Some(d)
    case _ => None
  }

  /** The cell is written once, by the module shutdown, before the message is
      sent; whoever has a deadline has the published one. */
  predicate SignalInv(s: Sys) {
    && (s.cell.Some? <==> s.req.SendingDrain? || s.req.DroppingSender? || (s.req.Finished? && s.closed))
    && (s.req.SendingDrain? ==> s.cell == Some(s.req.deadline))
    && (forall i :: 0 <= i < |s.queue| && s.queue[i].DrainMsg? ==> s.cell == Some(s.queue[i].deadline))
    && (PathDeadline(s.ship).Some? ==> s.cell == PathDeadline(s.ship))
    && (s.closed ==> s.req.Finished?)
    && (!s.senderInstalled && !s.ship.Exited? ==> InModuleShutdown(s.req))
    && (InModuleShutdown(s.req) ==> !s.senderInstalled)
  }

  /** The pre-drain receive takes a batch although the cell is published. */
  predicate TakesLate(s: Sys, a: Action) {
    a.ActShipper? && s.ship.Receiving? && s.cell.Some? && s.queue != [] && s.queue[0].BatchMsg?
  }

  function LateReceives(s: Sys, actions: seq<Action>): nat {
    if actions == [] then 0
    else
      var n := |actions| - 1;
      LateReceives(s, actions[..n]) + if TakesLate(Execute(s, actions[..n]), actions[n]) then 1 else 0
  }

  /** After the cell is published at most one batch is taken by the pre-drain
      receive: the one that was already on its way to it. */
  predicate LateInv(s: Sys, late: nat) {
    && late <= 1
    && (s.cell.None? || s.ship.Receiving? ==> late == 0)
  }

  predicate NoBatches(queue: seq<Message>) {
    forall i :: 0 <= i < |queue| ==> queue[i].DrainMsg?
  }

  /** Once the shipper is gone, nobody puts or leaves a batch in the queue. */
  predicate DrainedInv(s: Sys) {
    && (s.ship.NotSpawned? || s.ship.Exited? ==> NoBatches(s.queue))
    && (s.ship.NotSpawned? ==> OutsideRequest(s.req) && s.live.None?)
    && (s.ship.Exited? && s.senderInstalled ==> s.cell.Some?)
  }

  predicate ShutdownInv(s: Sys, late: nat) { SignalInv(s) && LateInv(s, late) && DrainedInv(s) }

  lemma TakeHead(s: Sys)
    requires s.queue != []
    ensures forall i :: 0 <= i < |s.queue| - 1 ==> s.queue[1..][i] == s.queue[i + 1]
  {
  }

  lemma ReceiveShutdown(s: Sys, deadline: Option<nat>, late: nat)
    requires ShutdownInv(s, late)
    requires if deadline.None? then s.ship.Receiving? else s.ship == DrainReceiving(deadline.value)
    ensures ShutdownInv(Receive(s, deadline), late + if TakesLate(s, ActShipper) then 1 else 0)
  {
    if s.queue != [] {
      TakeHead(s);
    }
  }

  lemma ShipperShutdown(s: Sys, late: nat)
    requires ShutdownInv(s, late)
    ensures ShutdownInv(ShipperStep(s), late + if TakesLate(s, ActShipper) then 1 else 0)
  {
    hide Receive, Bumped;
    match s.ship {
      case Receiving => ReceiveShutdown(s, None, late);
      case DrainReceiving(d) => ReceiveShutdown(s, Some(d), late);
      case Abandoning(_) =>
        if s.queue != [] {
          TakeHead(s);
        }
      case _ =>
    }
  }

  lemma RequestShutdown(s: Sys, late: nat)
    requires ShutdownInv(s, late) && Shape(s)
    ensures ShutdownInv(RequestStep(s), late)
  {
    hide TraceInv, BeginAccept, PopRecord, TakeBatch, Trigger, Bumped;
  }

  lemma OtherShutdown(s: Sys, a: Action, late: nat)
    requires ShutdownInv(s, late) && Shape(s) && !a.ActRequest? && !a.ActShipper?
    ensures ShutdownInv(Apply(s, a), late)
  {
    hide TraceInv, BeginGate, EndGate, PopRecord, CounterOf;
  }

  lemma {:induction false} ShutdownAlways(limits: TraceLimits, capacity: nat, actions: seq<Action>)
    ensures var s0 := InitSys(limits, capacity); ShutdownInv(Execute(s0, actions), LateReceives(s0, actions))
  {
    hide ShutdownInv, Apply, Shape, BudgetInv, Subtracted, TakesLate;
    if actions != [] {
      var n := |actions| - 1;
      ShutdownAlways(limits, capacity, actions[..n]);
      BudgetConserved(limits, capacity, actions[..n], ActTimeout);
      var s := Execute(InitSys(limits, capacity), actions[..n]);
      ApplyShutdown(s, actions[n], LateReceives(InitSys(limits, capacity), actions[..n]));
    } else {
      InitShutdown(limits, capacity);
    }
  }

  lemma ApplyShutdown(s: Sys, a: Action, late: nat)
    requires ShutdownInv(s, late) && Shape(s)
    ensures ShutdownInv(Apply(s, a), late + if TakesLate(s, a) then 1 else 0)
  {
    hide ShutdownInv, Shape, RequestStep, ShipperStep;
    match a {
      case ActRequest => RequestShutdown(s, late);
      case ActShipper => ShipperShutdown(s, late);
      case _ => OtherShutdown(s, a, late);
    }
  }

  lemma InitShutdown(limits: TraceLimits, capacity: nat)
    ensures ShutdownInv(InitSys(limits, capacity), 0)
  {
  }

  /** Two-signal shutdown, whatever is queued and whether or not the Drain
      message is delivered: at most one batch is still consumed without a
      deadline after publication, and every deadline in use is the published one. */
  lemma TwoSignalShutdown(limits: TraceLimits, capacity: nat, actions: seq<Action>, s: Sys, late: nat)
    requires s == Execute(InitSys(limits, capacity), actions)
    requires late == LateReceives(InitSys(limits, capacity), actions)
    ensures late <= 1
    ensures PathDeadline(s.ship).Some? ==> s.cell == PathDeadline(s.ship)
    ensures s.cell.Some? ==> !s.senderInstalled
  {
    ShutdownAlways(limits, capacity, actions);
  }

  /** The `Drain` message carries the published deadline. It is queued exactly when it
      is sent in time, somebody can receive it and there is room. */
  lemma DrainSent(limits: TraceLimits, capacity: nat, actions: seq<Action>, inTime: bool, s: Sys)
    requires s == Execute(InitSys(limits, capacity), actions) && s.req.SendingDrain?
    ensures s.cell.Some? && Apply(s, ActRequest) == s
    ensures Apply(s, ActSendDrain(inTime)).queue ==
      if inTime && !s.ship.Exited? && |s.queue| < capacity then s.queue + [DrainMsg(s.cell.value)] else s.queue
  {
    hide Execute, Apply, LateInv, DrainedInv;
    ShutdownAlways(limits, capacity, actions);
    QueueBounded(limits, capacity, actions);
    SendStep(s, inTime);
  }

  lemma SendStep(s: Sys, inTime: bool)
    requires s.req.SendingDrain?
    ensures Apply(s, ActRequest) == s
    ensures Apply(s, ActSendDrain(inTime)).queue ==
      if inTime && !s.ship.Exited? && |s.queue| < s.capacity then s.queue + [DrainMsg(s.req.deadline)] else s.queue
  {
  }

  /** Taking it off the queue puts the shipper on the drain path with that deadline. */
  lemma DrainTaken(limits: TraceLimits, capacity: nat, actions: seq<Action>, s: Sys)
    requires s == Execute(InitSys(limits, capacity), actions)
    requires (s.ship.Receiving? || s.ship.DrainReceiving?) && s.queue != [] && s.queue[0].DrainMsg?
    ensures s.cell.Some?
    ensures Apply(s, ActShipper) == s.(queue := s.queue[1..], ship := DrainReceiving(s.cell.value))
  {
    ShutdownAlways(limits, capacity, actions);
  }

  predicate QueueFits(s: Sys, s1: Sys) {
    s1.capacity == s.capacity && (|s1.queue| <= |s.queue| || |s1.queue| <= s.capacity)
  }

  lemma RequestQueue(s: Sys)
    ensures QueueFits(s, RequestStep(s))
  {
    hide BeginAccept, PopRecord, TakeBatch, Trigger, Bumped;
    match s.req {
      case Handing(_, _) =>
      case Gated(_, _) =>
      case Draining(_) =>
      case _ =>
    }
  }

  lemma ShipperQueue(s: Sys)
    ensures QueueFits(s, ShipperStep(s))
  {
    hide Bumped;
  }

  lemma QueueStep(s: Sys, a: Action)
    ensures QueueFits(s, Apply(s, a))
  {
    hide BeginGate, EndGate, PopRecord, CounterOf, RequestStep, ShipperStep;
    RequestQueue(s);
    ShipperQueue(s);
  }

  /** The channel never holds more than its capacity. */
  lemma {:induction false} QueueBounded(limits: TraceLimits, capacity: nat, actions: seq<Action>)
    ensures var s := Execute(InitSys(limits, capacity), actions); s.capacity == capacity && |s.queue| <= capacity
  {
    if actions != [] {
      hide Apply;
      var n := |actions| - 1;
      QueueBounded(limits, capacity, actions[..n]);
      QueueStep(Execute(InitSys(limits, capacity), actions[..n]), actions[n]);
    }
  }

  /** When the request thread has finished the module shutdown and the shipper
      is gone, the queue holds no batch, and a process with no trace alive has
      returned every byte it ever billed. */
  lemma NothingLeaks(limits: TraceLimits, capacity: nat, actions: seq<Action>, s: Sys)
    requires s == Execute(InitSys(limits, capacity), actions) && s.req.Finished? && s.ship.Exited?
    ensures NoBatches(s.queue)
    ensures s.budget == LiveBytes(s)
    ensures s.live.None? ==> s.budget == 0
  {
    hide Execute, SignalInv, LateInv, Subtracted;
    ShutdownAlways(limits, capacity, actions);
    BudgetConserved(limits, capacity, actions, ActTimeout);
    NoBatchesNoBytes(s.queue);
  }

  lemma {:induction false} NoBatchesNoBytes(queue: seq<Message>)
    requires NoBatches(queue)
    ensures QueueBytes(queue) == 0
  {
    if queue != [] {
      NoBatchesNoBytes(queue[1..]);
    }
  }
}
