/** That the two threads get somewhere: a shipper with time enough delivers all that
    is queued, one out of time exits, and the module shutdown runs to its end. */
module PipelineProgress {
  import opened Wrappers
  import opened TraceModel
  import opened Pipeline
  import opened PipelineDelivery
  import opened PipelineShutdown

  // --- Draining the queue ----------------------------------------------------------------

  /** The producer is gone, the shipper is at work, and no deadline has passed. */
  predicate WindingDown(s: Sys) {
    && s.req.Finished? && s.closed
    && !s.ship.NotSpawned? && !s.ship.Exited? && !s.ship.Abandoning? && !s.ship.AbandonReturning?
  }

  /** What the shipper does next when all goes well. */
  function GoodAction(p: Shipper): Action {
    match p
    case Encoding(_, _) => ActEncode(true)
    case Posting(_, _) => ActPost(true)
    case _ => ActShipper
  }

  /** Atomic operations before the next receive, at most. */
  function BeforeReceive(p: Shipper): nat {
    match p
    case Encoding(_, _) => 6
    case Posting(_, _) => 5
    case Settled(_, _, _) => 4
    case Returning(_, _, _) => 3
    case Noting(_, _) => 2
    case LoopHead => 1
    case _ => 0
  }

  lemma ReceiveOn(s: Sys, deadline: Option<nat>)
    requires WindingDown(s) && InFlight(s.ship) == []
    ensures var s1 := Receive(s, deadline);
      && Pending(s1) == Pending(s)
      && if s.queue == [] then s1.req.Finished? && s1.ship.Exited? && s1.queue == []
         else WindingDown(s1) && |s1.queue| < |s.queue|
  {
    hide Pending;
    ReceiveMoves(s, deadline);
  }

  lemma HandleOn(s: Sys)
    requires WindingDown(s) && BeforeReceive(s.ship) > 0
    ensures var (a, s1) := (GoodAction(s.ship), Apply(s, GoodAction(s.ship)));
      && SentBy(s, a) + Pending(s1) == Pending(s)
      && WindingDown(s1) && s1.queue == s.queue && BeforeReceive(s1.ship) < BeforeReceive(s.ship)
  {
    hide BatchesIn, Bumped, CounterOf;
    var (a, s1) := (GoodAction(s.ship), Apply(s, GoodAction(s.ship)));
    var rest := BatchesIn(s.queue) + InHand(s.req);
    assert Pending(s) == InFlight(s.ship) + rest && Pending(s1) == InFlight(s1.ship) + rest;
    assert SentBy(s, a) + InFlight(s1.ship) == InFlight(s.ship);
    assert SentBy(s, a) + (InFlight(s1.ship) + rest) == SentBy(s, a) + InFlight(s1.ship) + rest;
  }

  lemma {:induction false} DrainOn(s0: Sys, actions: seq<Action>) returns (more: seq<Action>)
    requires WindingDown(Execute(s0, actions))
    ensures actions <= more
    ensures Execute(s0, more).ship.Exited? && Execute(s0, more).queue == []
    ensures Delivered(s0, more) == Delivered(s0, actions) + Pending(Execute(s0, actions))
    decreases |Execute(s0, actions).queue|, BeforeReceive(Execute(s0, actions).ship)
  {
    hide Execute, Delivered, Pending, Apply, Receive, SentBy;
    var s := Execute(s0, actions);
    var a := GoodAction(s.ship);
    ExecuteMore(s0, actions, a);
    DeliveredMore(s0, actions, a);
    more := actions + [a];
    var sent := SentBy(s, a);
    if BeforeReceive(s.ship) > 0 {
      HandleOn(s);
      more := DrainOn(s0, more);
    } else {
      ReceivesNext(s);
      ReceiveOn(s, if s.ship.Receiving? then None else Some(s.ship.d));
      if s.queue == [] {
        NothingPending(Execute(s0, more));
      } else {
        more := DrainOn(s0, more);
      }
    }
    var (before, after) := (Delivered(s0, actions), Pending(Execute(s0, actions + [a])));
    assert before + sent + after == before + (sent + after);
  }

  lemma ReceivesNext(s: Sys)
    requires WindingDown(s) && BeforeReceive(s.ship) == 0
    ensures InFlight(s.ship) == [] && SentBy(s, GoodAction(s.ship)) == []
    ensures s.ship.Receiving? || s.ship.DrainReceiving?
    ensures Apply(s, GoodAction(s.ship)) == Receive(s, if s.ship.Receiving? then None else Some(s.ship.d))
  {
    hide Receive;
  }

  lemma NothingPending(s: Sys)
    requires s.req.Finished? && s.ship.Exited? && s.queue == []
    ensures Pending(s) == []
  {
  }

  lemma DeliveredMore(s: Sys, before: seq<Action>, a: Action)
    ensures Delivered(s, before + [a]) == Delivered(s, before) + SentBy(Execute(s, before), a)
  {
    hide Execute, SentBy;
    assert (before + [a])[..|before|] == before;
  }

  /** Once the producer is gone, and unless the deadline has passed, the shipper can
      deliver the batch in flight and every batch queued, in order, and exit. */
  lemma ShipperDrains(limits: TraceLimits, capacity: nat, actions: seq<Action>, s: Sys) returns (more: seq<Action>)
    requires s == Execute(InitSys(limits, capacity), actions) && s.closed
    requires !s.ship.NotSpawned? && !s.ship.Exited? && !s.ship.Abandoning? && !s.ship.AbandonReturning?
    ensures var s0 := InitSys(limits, capacity);
      && actions <= more && Execute(s0, more).ship.Exited? && Execute(s0, more).queue == []
      && Delivered(s0, more) == Delivered(s0, actions) + InFlight(s.ship) + BatchesIn(s.queue)
  {
    hide Execute, Delivered, InitSys, BatchesIn, LateInv, DrainedInv;
    ShutdownAlways(limits, capacity, actions);
    more := DrainOn(InitSys(limits, capacity), actions);
    assert Pending(s) == InFlight(s.ship) + BatchesIn(s.queue);
    var before := Delivered(InitSys(limits, capacity), actions);
    assert before + (InFlight(s.ship) + BatchesIn(s.queue)) == before + InFlight(s.ship) + BatchesIn(s.queue);
  }

  /** The deadline has passed: one more message is taken off the queue and lost. */
  lemma AbandonStep(s: Sys)
    requires s.ship.Abandoning? || s.ship.AbandonReturning?
    ensures var s1 := Apply(s, ActShipper);
      && SentBy(s, ActShipper) == []
      && (s1.ship.Abandoning? || s1.ship.AbandonReturning? || (s1.ship.Exited? && s1.queue == []))
      && (|s1.queue| < |s.queue| || (s1.queue == s.queue && (s1.ship.Exited? || s.ship.AbandonReturning?)))
      && (s.ship.AbandonReturning? ==> s1.ship.Abandoning?)
  {
  }

  lemma {:induction false} AbandonOn(s0: Sys, actions: seq<Action>) returns (more: seq<Action>)
    requires Execute(s0, actions).ship.Abandoning? || Execute(s0, actions).ship.AbandonReturning?
    ensures actions <= more
    ensures Execute(s0, more).ship.Exited? && Execute(s0, more).queue == []
    ensures Delivered(s0, more) == Delivered(s0, actions)
    decreases |Execute(s0, actions).queue|, if Execute(s0, actions).ship.AbandonReturning? then 1 else 0
  {
    hide Execute, Delivered, Apply, SentBy;
    var s := Execute(s0, actions);
    ExecuteMore(s0, actions, ActShipper);
    DeliveredMore(s0, actions, ActShipper);
    AbandonStep(s);
    more := actions + [ActShipper];
    if !Execute(s0, more).ship.Exited? {
      more := AbandonOn(s0, more);
    }
  }

  /** A drain whose deadline passes ends too: the shipper exits with an empty queue and
      delivers nothing more. */
  lemma ShipperAbandons(limits: TraceLimits, capacity: nat, actions: seq<Action>) returns (more: seq<Action>)
    requires Execute(InitSys(limits, capacity), actions).ship.DrainReceiving?
    ensures var s0 := InitSys(limits, capacity);
      && actions + [ActTimeout] <= more && Execute(s0, more).ship.Exited? && Execute(s0, more).queue == []
      && Delivered(s0, more) == Delivered(s0, actions)
  {
    hide Execute, Delivered, InitSys;
    var s0 := InitSys(limits, capacity);
    ExecuteMore(s0, actions, ActTimeout);
    DeliveredMore(s0, actions, ActTimeout);
    more := AbandonOn(s0, actions + [ActTimeout]);
  }

  // --- The ends of a process -------------------------------------------------------------------

  /** The module shutdown, begun between requests, can run to its end: without a sender
      at once, otherwise by publishing the deadline, sending `Drain` or giving up on it,
      and dropping the last sender. */
  lemma ModuleShutdownEnds(s0: Sys, actions: seq<Action>, s: Sys, d: nat, inTime: bool)
    requires s == Execute(s0, actions) && s.req.Idle?
    ensures Execute(s0, actions + [ActModuleShutdown(d), ActRequest, ActSendDrain(inTime), ActRequest]) ==
      if !s.senderInstalled then s.(req := Finished)
      else
        var sent := inTime && !s.ship.Exited? && |s.queue| < s.capacity;
        s.(senderInstalled := false, cell := Some(d), closed := true, req := Finished,
           queue := if sent then s.queue + [DrainMsg(d)] else s.queue)
  {
    hide Execute, Apply;
    FourSteps(s, d, inTime);
    var a1 := actions + [ActModuleShutdown(d)];
    var a2 := a1 + [ActRequest];
    var a3 := a2 + [ActSendDrain(inTime)];
    ExecuteMore(s0, actions, ActModuleShutdown(d));
    ExecuteMore(s0, a1, ActRequest);
    ExecuteMore(s0, a2, ActSendDrain(inTime));
    ExecuteMore(s0, a3, ActRequest);
    assert actions + [ActModuleShutdown(d), ActRequest, ActSendDrain(inTime), ActRequest] == a3 + [ActRequest];
  }

  lemma FourSteps(s: Sys, d: nat, inTime: bool)
    requires s.req.Idle?
    ensures Apply(Apply(Apply(Apply(s, ActModuleShutdown(d)), ActRequest), ActSendDrain(inTime)), ActRequest) ==
      if !s.senderInstalled then s.(req := Finished)
      else
        var sent := inTime && !s.ship.Exited? && |s.queue| < s.capacity;
        s.(senderInstalled := false, cell := Some(d), closed := true, req := Finished,
           queue := if sent then s.queue + [DrainMsg(d)] else s.queue)
  {
    hide BeginGate, BeginAccept, EndGate, PopRecord, TakeBatch, Trigger, Bumped, CounterOf;
  }

  /** Nobody can receive and nobody sends. */
  predicate Disabled(s: Sys) {
    s.ship.Exited? && !s.senderInstalled && s.queue == [] && !s.req.SendingDrain? && !s.req.Publishing?
  }

  lemma DisabledStep(s: Sys, a: Action)
    requires Disabled(s)
    ensures Disabled(Apply(s, a)) && SentBy(s, a) == []
  {
    hide BeginGate, BeginAccept, EndGate, PopRecord, TakeBatch, Trigger, Bumped;
    match a {
      case ActRequest =>
        match s.req {
          case Gated(_, _) =>
          case Draining(_) =>
          case FlushCheck =>
          case Handing(_, _) =>
          case _ =>
        }
      case _ =>
    }
  }

  /** A refused spawn disables the process for good: whatever follows, nothing is queued
      and nothing delivered. */
  lemma {:induction false} RefusedSpawnDisables(limits: TraceLimits, capacity: nat, later: seq<Action>)
    ensures var (s0, actions) := (InitSys(limits, capacity), [ActSpawn(false)] + later);
      Disabled(Execute(s0, actions)) && Delivered(s0, actions) == []
  {
    var s0 := InitSys(limits, capacity);
    if later == [] {
      assert [ActSpawn(false)] + later == [] + [ActSpawn(false)];
      ExecuteMore(s0, [], ActSpawn(false));
      DeliveredMore(s0, [], ActSpawn(false));
    } else {
      hide Execute, Delivered, Apply, SentBy, InitSys, Disabled;
      var n := |later| - 1;
      var before := [ActSpawn(false)] + later[..n];
      assert [ActSpawn(false)] + later == before + [later[n]];
      RefusedSpawnDisables(limits, capacity, later[..n]);
      ExecuteMore(s0, before, later[n]);
      DeliveredMore(s0, before, later[n]);
      DisabledStep(Execute(s0, before), later[n]);
    }
  }
}
