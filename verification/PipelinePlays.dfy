/** Any request can be played: some interleaving makes its calls, ships every batch
    and releases its trace. */
module PipelinePlays {
  import opened Wrappers
  import opened CallSites
  import opened TraceModel
  import opened Runs
  import opened Pipeline
  import opened PipelineBudget
  import opened PipelineRuns
  import opened PipelineDelivery
  import PipelineProgress

  // --- The request thread ----------------------------------------------------------------

  /** The same begin but for the budget the gate reads, or the same end. */
  predicate SameCall(e: Event, f: Event) {
    if e.BeginEvent? then f.BeginEvent? && f == e.(snapshot := f.snapshot) else f == e
  }

  ghost predicate SameCalls(es: seq<Event>, fs: seq<Event>) {
    |es| == |fs| && forall k :: 0 <= k < |es| ==> SameCall(es[k], fs[k])
  }

  function ActionOf(e: Event): Action {
    match e
    case BeginEvent(cat, entry, _) => ActBegin(cat, entry)
    case EndEvent(exit, abnormal) => ActEnd(exit, abnormal)
  }

  /** The first request at work on a call or, `releasing`, on its shutdown; `own` is what
      it has handed off. Its trace follows the run, and in the end has handed off all of it. */
  ghost predicate Playing(s: Sys, releasing: bool, own: seq<Batch>, r: Run, exit: ExitSnapshots) {
    if s.live.None? then releasing && s.req.Idle? && own == Finish(r, exit)
    else
      && IsLive(s, 0) && LiveFollows(s.live.value, s.req, own, r, exit)
      && if releasing then InRelease(s.req) else InCall(s.req)
  }

  /** Between the calls of a request, or within one of them. */
  predicate InCall(r: Request) {
    match r
    case Idle => true
    case Gated(_, _) => true
    case Dropping => true
    case FlushCheck => true
    case Billing(_, after) => after.ToIdle? || after.ToFlushCheck?
    case Handing(_, after) => after.ToIdle?
    case Refused(_, _, after) => after.ToIdle?
    case Bumping(_, after) => after.ToIdle?
    case _ => false
  }

  predicate InRelease(r: Request) {
    match r
    case Draining(_) => true
    case Billing(_, after) => after.ToDrain?
    case Handing(_, after) => after.ToClosing?
    case Refused(_, _, after) => after.ToClosing?
    case Bumping(_, after) => after.ToClosing?
    case Closing => true
    case _ => false
  }

  /** Atomic operations left before the thread is idle, at most. */
  function StepsLeft(s: Sys): nat {
    var open := if s.live.Some? then |s.live.value.stack| else 0;
    match s.req
    case Idle => 0
    case Dropping => 1
    case Gated(_, _) => 2
    case Billing(_, after) => if after.ToFlushCheck? then 6 else if after.ToIdle? then 1 else 2 * open + 7
    case FlushCheck => 5
    case Handing(_, _) => 4
    case Refused(_, _, _) => 3
    case Bumping(_, _) => 2
    case Draining(_) => 2 * open + 6
    case Closing => 1
    case _ => 0
  }

  lemma CallNearer(s: Sys)
    requires Shape(s) && s.live.Some? && InCall(s.req) && !s.req.Idle?
    ensures var s1 := RequestStep(s); InCall(s1.req) && StepsLeft(s1) < StepsLeft(s) && s1.live.Some?
  {
    hide TraceInv, BeginAccept, TakeBatch, Trigger, Bumped, WouldAdd;
    match s.req {
      case Gated(_, _) =>
      case FlushCheck =>
      case Handing(_, _) =>
      case Billing(_, _) =>
      case _ =>
    }
  }

  lemma ReleaseNearer(s: Sys)
    requires s.live.Some? && InRelease(s.req)
    ensures var s1 := RequestStep(s);
      && StepsLeft(s1) < StepsLeft(s)
      && if s1.live.None? then s1.req.Idle? else InRelease(s1.req)
  {
    hide TakeBatch, RecordOf, Bumped;
    match s.req {
      case Draining(_) =>
      case Handing(_, _) =>
      case Billing(_, _) =>
      case _ =>
    }
  }

  /** What one more atomic operation of the request thread leaves. */
  lemma PlayStep(s: Sys, releasing: bool, own: seq<Batch>, r: Run, exit: ExitSnapshots)
    requires Shape(s) && Playing(s, releasing, own, r, exit) && !s.req.Idle?
    ensures var s1 := RequestStep(s);
      Playing(s1, releasing, own + Of(HandedBy(s, ActRequest), 0), r, exit) && StepsLeft(s1) < StepsLeft(s)
  {
    hide Shape, LiveFollows, RequestStep, Of, HandedBy, Trigger, TakeBatch, StepsLeft, Finish;
    if s.live.Some? {
      RequestFollows(s, own, r, exit);
      HandedOfLive(s, ActRequest, 0);
      assert own + [] == own;
      if releasing {
        ReleaseNearer(s);
      } else {
        CallNearer(s);
      }
    }
  }

  /** The call as it was played: a begin with the budget its gate read. */
  function Played(s: Sys, e: Event): Event
    requires s.budget >= 0
  {
    if e.BeginEvent? then e.(snapshot := s.budget) else e
  }

  lemma PlayCall(s: Sys, e: Event, own: seq<Batch>, r: Run, exit: ExitSnapshots)
    requires s.req.Idle? && s.live.Some? && s.budget >= 0 && Playing(s, false, own, r, exit)
    ensures Playing(Apply(s, ActionOf(e)), false, own, Step(r, Played(s, e)), exit)
  {
    hide LiveFollows, Step, BeginCall, EndCall;
    match e {
      case BeginEvent(cat, entry, _) =>
        BeginFollows(s, cat, entry, own, r, exit);
        BeginInCall(s, cat, entry);
      case EndEvent(x, abnormal) =>
        EndFollows(s, x, abnormal, own, r, exit);
        EndInCall(s, x, abnormal);
    }
  }

  lemma BeginInCall(s: Sys, cat: Categorised, entry: EntrySnapshots)
    requires s.req.Idle?
    ensures InCall(BeginCall(s, cat, entry).req)
  {
    hide BeginGate;
  }

  lemma EndInCall(s: Sys, exit: ExitSnapshots, abnormal: bool)
    requires s.req.Idle?
    ensures InCall(EndCall(s, exit, abnormal).req)
  {
    hide EndGate, PopRecord;
  }

  lemma PlayRelease(s: Sys, own: seq<Batch>, r: Run, exit: ExitSnapshots)
    requires s.req.Idle? && s.live.Some? && Playing(s, false, own, r, exit)
    ensures Playing(Apply(s, ActShutdown(exit)), true, own, r, exit)
  {
    hide Finish;
  }

  // --- The shipper beside it -----------------------------------------------------------------

  /** The shipper is at its loop head with nothing to do. */
  predicate Calm(s: Sys) {
    s.ship.LoopHead? && s.queue == [] && s.cell.None? && s.senderInstalled && s.capacity > 0
  }

  /** So far everything handed off was delivered at once. */
  ghost predicate Smooth(s0: Sys, actions: seq<Action>) {
    && Calm(Execute(s0, actions))
    && Delivered(s0, actions) + InHand(Execute(s0, actions).req) == Handed(s0, actions)
  }

  /** One more action that hands nothing off. */
  lemma Append(s0: Sys, actions: seq<Action>, a: Action, t: Sys)
    requires t == Apply(Execute(s0, actions), a) && !a.ActRequest?
    ensures Execute(s0, actions + [a]) == t && Handed(s0, actions + [a]) == Handed(s0, actions)
    ensures Delivered(s0, actions + [a]) == Delivered(s0, actions) + SentBy(Execute(s0, actions), a)
  {
    hide Execute, Apply, HandedBy, SentBy, Delivered;
    ExecuteMore(s0, actions, a);
    PipelineProgress.DeliveredMore(s0, actions, a);
    HandedNothing(s0, actions, a);
  }

  lemma HandedNothing(s0: Sys, actions: seq<Action>, a: Action)
    requires !a.ActRequest?
    ensures Handed(s0, actions + [a]) == Handed(s0, actions)
  {
    hide Execute, HandedBy;
    HandedByIff(Execute(s0, actions), a);
    assert (actions + [a])[..|actions|] == actions;
  }

  /** Handed off and delivered since: nothing. */
  ghost predicate Still(s0: Sys, actions: seq<Action>, more: seq<Action>) {
    Handed(s0, more) == Handed(s0, actions) && Delivered(s0, more) == Delivered(s0, actions)
  }

  /** The shipper takes the one batch queued and encodes it. */
  lemma FetchOne(s0: Sys, actions: seq<Action>, s: Sys, b: Batch) returns (more: seq<Action>, t: Sys)
    requires s == Execute(s0, actions) && Calm(s.(queue := [])) && s.queue == [BatchMsg(b)]
    ensures t == Execute(s0, more) && t == s.(queue := [], ship := Posting(b, None), stamps := t.stamps)
    ensures Still(s0, actions, more)
  {
    hide Execute, Handed, Delivered, CounterOf;
    var s1 := s.(ship := Receiving);
    var s2 := s.(queue := [], ship := Encoding(b, None));
    t := Encode(s2, true);
    Append(s0, actions, ActShipper, s1);
    var a1 := actions + [ActShipper];
    Append(s0, a1, ActShipper, s2);
    var a2 := a1 + [ActShipper];
    Append(s0, a2, ActEncode(true), t);
    more := a2 + [ActEncode(true)];
    var before := Delivered(s0, actions);
    assert before + [] == before;
  }

  /** It posts the batch and goes back to its loop head. */
  lemma PostOne(s0: Sys, actions: seq<Action>, s: Sys, b: Batch) returns (more: seq<Action>, t: Sys)
    requires s == Execute(s0, actions) && s.ship == Posting(b, None)
    ensures t == Execute(s0, more) && t == s.(ship := LoopHead, budget := t.budget)
    ensures Handed(s0, more) == Handed(s0, actions) && Delivered(s0, more) == Delivered(s0, actions) + [b]
  {
    hide Execute, Handed, Delivered;
    var s4 := s.(ship := Settled(b, None, true));
    var s5 := s.(ship := Returning(b, None, true));
    var s6 := s.(ship := Noting(None, true), budget := s.budget - b.sizeEstimate);
    t := s6.(ship := LoopHead);
    Append(s0, actions, ActPost(true), s4);
    var a4 := actions + [ActPost(true)];
    Append(s0, a4, ActShipper, s5);
    var a5 := a4 + [ActShipper];
    Append(s0, a5, ActShipper, s6);
    var a6 := a5 + [ActShipper];
    Append(s0, a6, ActShipper, t);
    more := a6 + [ActShipper];
    var before := Delivered(s0, actions);
    assert before + [b] + [] == before + [b];
  }

  /** The shipper delivers the one batch queued. */
  lemma DeliverOne(s0: Sys, actions: seq<Action>, s: Sys, b: Batch) returns (more: seq<Action>, t: Sys)
    requires s == Execute(s0, actions) && Calm(s.(queue := [])) && s.queue == [BatchMsg(b)]
    ensures t == Execute(s0, more) && Calm(t) && t.req == s.req && t.live == s.live
    ensures Handed(s0, more) == Handed(s0, actions) && Delivered(s0, more) == Delivered(s0, actions) + [b]
  {
    hide Execute, Handed, Delivered;
    more, t := FetchOne(s0, actions, s, b);
    more, t := PostOne(s0, more, t, b);
  }

  /** A step of the request thread beside a calm shipper. */
  lemma RequestCalm(s: Sys)
    requires Calm(s) && s.live.Some? && (InCall(s.req) || InRelease(s.req))
    ensures var s1 := RequestStep(s);
      && Calm(s1.(queue := [])) && s1.queue == (if s.req.Handing? then [BatchMsg(s.req.batch)] else [])
      && (s.req.Handing? ==> !s1.req.Handing?)
  {
    hide BeginAccept, PopRecord, TakeBatch, Trigger, Bumped;
    match s.req {
      case Handing(_, _) =>
      case Gated(_, _) =>
      case Draining(_) =>
      case FlushCheck =>
      case _ =>
    }
  }

  /** One step of the request thread, and its batch delivered if it sent one. */
  lemma Advance(s0: Sys, actions: seq<Action>, s: Sys) returns (more: seq<Action>, t: Sys)
    requires s == Execute(s0, actions) && Smooth(s0, actions)
    requires s.live.Some? && (InCall(s.req) || InRelease(s.req))
    ensures t == Execute(s0, more) && Smooth(s0, more)
    ensures t.req == RequestStep(s).req && t.live == RequestStep(s).live
    ensures Handed(s0, more) == Handed(s0, actions) + HandedBy(s, ActRequest)
  {
    hide Execute, RequestStep, Handed, Delivered, Calm;
    RequestCalm(s);
    more := actions + [ActRequest];
    ExecuteMore(s0, actions, ActRequest);
    PipelineProgress.DeliveredMore(s0, actions, ActRequest);
    HandedThen(s0, actions, ActRequest);
    t := RequestStep(s);
    var (sent, hand) := (Delivered(s0, actions), HandedBy(s, ActRequest));
    assert sent + [] == sent;
    if s.req.Handing? {
      var b := s.req.batch;
      more, t := DeliverOne(s0, more, t, b);
      assert hand == [] && sent + [b] == sent + [b] + [];
    }
  }

  lemma HandedThen(s0: Sys, actions: seq<Action>, a: Action)
    ensures Handed(s0, actions + [a]) == Handed(s0, actions) + HandedBy(Execute(s0, actions), a)
  {
    hide Execute, HandedBy;
    assert (actions + [a])[..|actions|] == actions;
  }

  /** The request thread runs until it is idle. */
  lemma {:induction false} Settle(limits: TraceLimits, capacity: nat, actions: seq<Action>, s: Sys, releasing: bool,
                                  r: Run, exit: ExitSnapshots)
    returns (more: seq<Action>, t: Sys)
    requires var s0 := InitSys(limits, capacity);
      && s == Execute(s0, actions) && Smooth(s0, actions)
      && Playing(s, releasing, Of(Handed(s0, actions), 0), r, exit)
    ensures var s0 := InitSys(limits, capacity);
      && t == Execute(s0, more) && Smooth(s0, more) && t.req.Idle?
      && Playing(t, releasing, Of(Handed(s0, more), 0), r, exit)
    decreases StepsLeft(s)
  {
    hide Execute, Apply, RequestStep, Handed, HandedBy, Of, InitSys, Shape, BudgetInv, Subtracted, LiveFollows, Smooth,
         Finish, StepsLeft;
    var s0 := InitSys(limits, capacity);
    more, t := actions, s;
    if !s.req.Idle? {
      BudgetConserved(limits, capacity, actions, ActTimeout);
      PlayStep(s, releasing, Of(Handed(s0, actions), 0), r, exit);
      more, t := Advance(s0, actions, s);
      OfConcat(Handed(s0, actions), HandedBy(s, ActRequest), 0);
      SameSteps(RequestStep(s), t);
      more, t := Settle(limits, capacity, more, t, releasing, r, exit);
    }
  }

  lemma SameSteps(s: Sys, t: Sys)
    requires s.req == t.req && s.live == t.live
    ensures StepsLeft(s) == StepsLeft(t)
  {
  }

  // --- The whole request ---------------------------------------------------------------------

  /** Process start, the shipper spawned, the first trace live. */
  lemma StartStates(limits: TraceLimits, capacity: nat, s1: Sys, s2: Sys, exit: ExitSnapshots)
    requires capacity > 0
    requires s1 == Apply(InitSys(limits, capacity), ActSpawn(true)) && s2 == Apply(s1, ActRinit)
    ensures s2.req.Idle? && s2.live.Some? && Calm(s2) && Playing(s2, false, [], NewRun(0, limits), exit)
  {
  }

  lemma Started(limits: TraceLimits, capacity: nat, exit: ExitSnapshots) returns (actions: seq<Action>, s: Sys)
    requires capacity > 0
    ensures var s0 := InitSys(limits, capacity);
      && s == Execute(s0, actions) && Smooth(s0, actions) && s.req.Idle? && s.live.Some?
      && Playing(s, false, Of(Handed(s0, actions), 0), NewRun(0, limits), exit)
  {
    hide Apply, InitSys, Playing, HandedBy, NewRun, SentBy;
    var s0 := InitSys(limits, capacity);
    assert Of([], 0) == [] && Handed(s0, []) == [] && Delivered(s0, []) == [] && Execute(s0, []) == s0;
    hide Execute, Handed, Of, Delivered, Calm;
    var s1 := Apply(s0, ActSpawn(true));
    Append(s0, [], ActSpawn(true), s1);
    var first := [] + [ActSpawn(true)];
    s := Apply(s1, ActRinit);
    Append(s0, first, ActRinit, s);
    actions := first + [ActRinit];
    StartStates(limits, capacity, s1, s, exit);
    NothingSent(s0, ActSpawn(true));
    NothingSent(s1, ActRinit);
  }

  lemma NothingSent(s: Sys, a: Action)
    requires !a.ActPost?
    ensures SentBy(s, a) == []
  {
  }

  /** One more call. */
  lemma PlayOn(limits: TraceLimits, capacity: nat, actions: seq<Action>, s: Sys, e: Event, r: Run, exit: ExitSnapshots)
    returns (more: seq<Action>, t: Sys, f: Event)
    requires var s0 := InitSys(limits, capacity);
      && s == Execute(s0, actions) && Smooth(s0, actions) && s.req.Idle? && s.live.Some?
      && Playing(s, false, Of(Handed(s0, actions), 0), r, exit)
    ensures SameCall(e, f)
    ensures var s0 := InitSys(limits, capacity);
      && t == Execute(s0, more) && Smooth(s0, more) && t.req.Idle? && t.live.Some?
      && Playing(t, false, Of(Handed(s0, more), 0), Step(r, f), exit)
  {
    hide Execute, Apply, Step, Handed, Delivered, Of, InitSys, Shape, BudgetInv, Subtracted, SameCall, LiveFollows,
         Calm, SentBy, InCall;
    var s0 := InitSys(limits, capacity);
    BudgetConserved(limits, capacity, actions, ActTimeout);
    f := Played(s, e);
    PlayedSame(s, e);
    PlayCall(s, e, Of(Handed(s0, actions), 0), r, exit);
    t := Apply(s, ActionOf(e));
    CallCalm(s, e);
    Append(s0, actions, ActionOf(e), t);
    NothingSent(s, ActionOf(e));
    var sent := Delivered(s0, actions);
    assert sent + [] == sent;
    more, t := Settle(limits, capacity, actions + [ActionOf(e)], t, false, Step(r, f), exit);
  }

  lemma PlayedSame(s: Sys, e: Event)
    requires s.budget >= 0
    ensures SameCall(e, Played(s, e))
  {
  }

  lemma CallCalm(s: Sys, e: Event)
    requires Calm(s) && s.req.Idle?
    ensures Calm(Apply(s, ActionOf(e))) && !Apply(s, ActionOf(e)).req.Handing?
  {
    hide BeginGate, EndGate, PopRecord;
  }

  lemma ReleaseCalm(s: Sys, exit: ExitSnapshots)
    requires Calm(s) && s.req.Idle?
    ensures Calm(Apply(s, ActShutdown(exit))) && !Apply(s, ActShutdown(exit)).req.Handing?
  {
  }

  lemma {:induction false} Play(limits: TraceLimits, capacity: nat, calls: seq<Event>, exit: ExitSnapshots)
    returns (actions: seq<Action>, s: Sys, events: seq<Event>)
    requires capacity > 0
    ensures SameCalls(calls, events)
    ensures var s0 := InitSys(limits, capacity);
      && s == Execute(s0, actions) && Smooth(s0, actions) && s.req.Idle? && s.live.Some?
      && Playing(s, false, Of(Handed(s0, actions), 0), Replay(NewRun(0, limits), events), exit)
    decreases |calls|
  {
    hide Execute, Replay, Handed, Of, InitSys, Playing, SameCalls, NewRun, Smooth;
    if calls == [] {
      events := [];
      NothingPlayed(limits);
      actions, s := Started(limits, capacity, exit);
    } else {
      var n := |calls| - 1;
      actions, s, events := Play(limits, capacity, calls[..n], exit);
      var f;
      actions, s, f := PlayOn(limits, capacity, actions, s, calls[n], Replay(NewRun(0, limits), events), exit);
      ReplayMore(NewRun(0, limits), events, f);
      SameCallsMore(calls, events, f);
      events := events + [f];
    }
  }

  lemma NothingPlayed(limits: TraceLimits)
    ensures SameCalls([], []) && Replay(NewRun(0, limits), []) == NewRun(0, limits)
  {
  }

  lemma SameCallsMore(es: seq<Event>, fs: seq<Event>, f: Event)
    requires es != [] && SameCalls(es[..|es| - 1], fs) && SameCall(es[|es| - 1], f)
    ensures SameCalls(es, fs + [f])
  {
    hide SameCall;
    forall k | 0 <= k < |es| ensures SameCall(es[k], (fs + [f])[k]) {
      if k < |es| - 1 {
        assert es[..|es| - 1][k] == es[k];
      }
    }
  }

  /** Any sequence of calls, well nested or not, can be played from process start: some
      interleaving leads to the trace and the batches of its run, each begin's gate
      having read whatever the budget then was, with every batch delivered. */
  lemma RequestPlays(limits: TraceLimits, capacity: nat, calls: seq<Event>)
    returns (actions: seq<Action>, events: seq<Event>)
    requires capacity > 0
    ensures SameCalls(calls, events)
    ensures var s0 := InitSys(limits, capacity);
      var (s, r) := (Execute(s0, actions), Replay(NewRun(0, limits), events));
      && s.req.Idle? && s.live == Some(r.trace)
      && Of(Handed(s0, actions), 0) == Of(Delivered(s0, actions), 0) == r.flushed
  {
    hide Execute, Replay, Handed, Delivered, Of, InitSys, SameCalls, NewRun, Calm;
    var s;
    actions, s, events := Play(limits, capacity, calls, ExitSnapshots(0, 0, 0, 0));
    var sent := Delivered(InitSys(limits, capacity), actions);
    assert sent + [] == sent;
  }

  /** And it can be played to its end: the trace released, every batch of the run, the
      one of the shutdown included, delivered, and no byte left in the budget. */
  lemma RequestCompletes(limits: TraceLimits, capacity: nat, calls: seq<Event>, exit: ExitSnapshots)
    returns (actions: seq<Action>, events: seq<Event>)
    requires capacity > 0
    ensures SameCalls(calls, events)
    ensures var s0 := InitSys(limits, capacity);
      var s := Execute(s0, actions);
      && s.req.Idle? && s.live.None? && s.queue == [] && s.budget == 0
      && Of(Delivered(s0, actions), 0) == Finish(Replay(NewRun(0, limits), events), exit)
  {
    hide Execute, Apply, Replay, Handed, Delivered, Of, InitSys, SameCalls, NewRun, SentBy, Subtracted, LiveFollows,
         Finish, InRelease, Shape;
    var (s0, s) := (InitSys(limits, capacity), InitSys(limits, capacity));
    actions, s, events := Play(limits, capacity, calls, exit);
    var r := Replay(NewRun(0, limits), events);
    PlayRelease(s, Of(Handed(s0, actions), 0), r, exit);
    ReleaseCalm(s, exit);
    Append(s0, actions, ActShutdown(exit), Apply(s, ActShutdown(exit)));
    NothingSent(s, ActShutdown(exit));
    var sent := Delivered(s0, actions);
    assert sent + [] == sent;
    actions, s := Settle(limits, capacity, actions + [ActShutdown(exit)], Apply(s, ActShutdown(exit)), true, r, exit);
    BudgetConserved(limits, capacity, actions, ActTimeout);
    NeverIdleReleasing(s, Of(Handed(s0, actions), 0), r, exit);
    sent := Delivered(s0, actions);
    assert sent + [] == sent;
  }

  lemma NeverIdleReleasing(s: Sys, own: seq<Batch>, r: Run, exit: ExitSnapshots)
    requires Playing(s, true, own, r, exit) && s.req.Idle?
    ensures s.live.None? && own == Finish(r, exit)
  {
    hide LiveFollows, Finish;
  }
}
