/** Every trace of the two-thread system follows a run of the event-sequence
    model: what is proved of every run holds under every interleaving, of the
    live trace and of all batches handed off. */
module PipelineRuns {
  import opened Wrappers
  import opened CallSites
  import opened Dictionaries
  import opened TraceModel
  import opened Runs
  import opened Pipeline
  import PipelineCap

  // --- Histories -------------------------------------------------------------------

  /** The batch an action puts into the request thread's hands. */
  function HandedBy(s: Sys, a: Action): seq<Batch> {
    var s1 := Apply(s, a);
    if !s.req.Handing? && s1.req.Handing? then [s1.req.batch] else []
  }

  /** Every batch handed off so far, in order. */
  function Handed(s: Sys, actions: seq<Action>): seq<Batch> {
    if actions == [] then []
    else
      var n := |actions| - 1;
      Handed(s, actions[..n]) + HandedBy(Execute(s, actions[..n]), actions[n])
  }

  /** The batches of one trace. */
  function Of(batches: seq<Batch>, id: nat): seq<Batch> {
    if batches == [] then []
    else
      var last := batches[|batches| - 1];
      Of(batches[..|batches| - 1], id) + if last.traceId == id then [last] else []
  }

  lemma {:induction false} OfConcat(a: seq<Batch>, b: seq<Batch>, id: nat)
    ensures Of(a + b, id) == Of(a, id) + Of(b, id)
    decreases |b|
  {
    if b == [] {
      assert a + b == a;
    } else {
      var n := |b| - 1;
      assert (a + b)[..|a + b| - 1] == a + b[..n];
      OfConcat(a, b[..n], id);
    }
  }

  /** Where a batch is taken off the live trace. */
  predicate Flushes(s: Sys, a: Action) {
    && a.ActRequest? && s.live.Some?
    && ((s.req.FlushCheck? && Trigger(s.live.value).Some?)
        || (s.req.Draining? && s.live.value.stack == [] && s.live.value.buffer != []))
  }

  lemma HandedByIff(s: Sys, a: Action)
    ensures HandedBy(s, a) == if Flushes(s, a) then [TakeBatch(s.live.value).1] else []
  {
    hide BeginGate, BeginAccept, EndGate, PopRecord, Trigger, Bumped, CounterOf, TakeBatch;
  }

  /** Nothing is handed off for a trace that is not live. */
  lemma HandedOfLive(s: Sys, a: Action, id: nat)
    ensures Of(HandedBy(s, a), id) ==
      if Flushes(s, a) && s.live.value.id == id then [TakeBatch(s.live.value).1] else []
  {
    hide HandedBy, Trigger;
    HandedByIff(s, a);
    if Flushes(s, a) {
      var b := TakeBatch(s.live.value).1;
      assert [b][..0] == [];
    }
  }

  // --- Following a run -------------------------------------------------------------

  /** The live trace is the one the run leads to, give or take the atomic operations
      the request thread still has to do for the last event; `own` is what has been
      handed off for it, `exit` the snapshot of its shutdown. */
  ghost predicate LiveFollows(t: Trace, req: Request, own: seq<Batch>, r: Run, exit: ExitSnapshots) {
    match req
    case Gated(cat, entry) => t.virtualDepth > 0 && BeginAccept(t, cat, entry).0 == r.trace && own == r.flushed
    case Billing(_, after) => Resuming(t, own, r, exit, after)
    case FlushCheck => Resuming(t, own, r, exit, ToFlushCheck)
    case Handing(_, after) => Resuming(t, own, r, exit, after)
    case Refused(_, _, after) => Resuming(t, own, r, exit, after)
    case Bumping(_, after) => Resuming(t, own, r, exit, after)
    case Draining(e) => Resuming(t, own, r, exit, ToDrain(e))
    case Closing => Resuming(t, own, r, exit, ToClosing)
    case _ => t == r.trace && own == r.flushed
  }

  ghost predicate Resuming(t: Trace, own: seq<Batch>, r: Run, exit: ExitSnapshots, after: After) {
    match after
    case ToIdle => t == r.trace && own == r.flushed
    case ToFlushCheck =>
      MaybeFlush(t).0 == r.trace && r.flushed == own + if MaybeFlush(t).1.Some? then [MaybeFlush(t).1.value] else []
    case ToDrain(e) => e == exit && Drain(t, exit) == Drain(r.trace, exit) && own == r.flushed
    case ToClosing => own == Finish(r, exit)
  }

  predicate IsLive(s: Sys, id: nat) { s.live.Some? && s.live.value.id == id }

  /** Trace `id`, live or not, follows the run of `events`. */
  ghost predicate Follows(s: Sys, own: seq<Batch>, id: nat, events: seq<Event>, exit: ExitSnapshots) {
    var r := Replay(NewRun(id, s.limits), events);
    && (s.live.Some? ==> s.live.value.id < s.nextTrace)
    && (id >= s.nextTrace ==> own == [] && events == [])
    && (if IsLive(s, id) then LiveFollows(s.live.value, s.req, own, r, exit)
        else own == r.flushed || own == Finish(r, exit))
  }

  lemma FollowsFramed(s: Sys, s1: Sys, own: seq<Batch>, id: nat, events: seq<Event>, exit: ExitSnapshots)
    requires Follows(s, own, id, events, exit)
    requires s1.req == s.req && s1.live == s.live && s1.limits == s.limits && s1.nextTrace == s.nextTrace
    ensures Follows(s1, own, id, events, exit)
  {
    hide LiveFollows;
  }

  lemma ReplayMore(r: Run, events: seq<Event>, e: Event)
    ensures Replay(r, events + [e]) == Step(Replay(r, events), e)
  {
  }

  // --- Steps of the live trace -----------------------------------------------------

  lemma BeginFollows(s: Sys, cat: Categorised, entry: EntrySnapshots, own: seq<Batch>, r: Run, exit: ExitSnapshots)
    requires s.req.Idle? && s.live.Some? && s.budget >= 0
    requires LiveFollows(s.live.value, s.req, own, r, exit)
    ensures var (s1, r1) := (BeginCall(s, cat, entry), Step(r, BeginEvent(cat, entry, s.budget)));
      s1.live.Some? && s1.live.value.id == s.live.value.id && LiveFollows(s1.live.value, s1.req, own, r1, exit)
  {
    hide BeginAccept, CapAdmits, WouldAdd;
  }

  lemma EndFollows(s: Sys, e: ExitSnapshots, abnormal: bool, own: seq<Batch>, r: Run, exit: ExitSnapshots)
    requires s.req.Idle? && s.live.Some? && LiveFollows(s.live.value, s.req, own, r, exit)
    ensures var (s1, r1) := (EndCall(s, e, abnormal), Step(r, EndEvent(e, abnormal)));
      s1.live.Some? && s1.live.value.id == s.live.value.id && LiveFollows(s1.live.value, s1.req, own, r1, exit)
  {
    hide Trigger, TakeBatch, RecordOf;
  }

  lemma AcceptFollows(s: Sys, own: seq<Batch>, r: Run, exit: ExitSnapshots)
    requires s.req.Gated? && s.live.Some? && LiveFollows(s.live.value, s.req, own, r, exit)
    ensures var s1 := RequestStep(s);
      s1.live.Some? && s1.live.value.id == s.live.value.id && LiveFollows(s1.live.value, s1.req, own, r, exit)
  {
    hide InternSpec, MissCost;
  }

  lemma FlushCheckFollows(s: Sys, own: seq<Batch>, r: Run, exit: ExitSnapshots)
    requires s.req.FlushCheck? && s.live.Some? && LiveFollows(s.live.value, s.req, own, r, exit)
    ensures var s1 := RequestStep(s);
      var more := if Trigger(s.live.value).Some? then own + [TakeBatch(s.live.value).1] else own;
      s1.live.Some? && s1.live.value.id == s.live.value.id && LiveFollows(s1.live.value, s1.req, more, r, exit)
  {
    hide Trigger;
  }

  lemma DrainFollows(s: Sys, own: seq<Batch>, r: Run, exit: ExitSnapshots)
    requires s.req.Draining? && s.live.Some? && LiveFollows(s.live.value, s.req, own, r, exit)
    ensures var (s1, t) := (RequestStep(s), s.live.value);
      var more := if t.stack == [] && t.buffer != [] then own + [TakeBatch(t).1] else own;
      s1.live.Some? && s1.live.value.id == t.id && LiveFollows(s1.live.value, s1.req, more, r, exit)
  {
    hide RecordOf;
    if s.live.value.stack == [] {
      assert Drain(s.live.value, exit) == s.live.value;
    }
  }

  lemma HandOffFollows(s: Sys, own: seq<Batch>, r: Run, exit: ExitSnapshots)
    requires s.req.Handing? || s.req.Refused? || s.req.Bumping? || s.req.Billing?
    requires s.live.Some? && LiveFollows(s.live.value, s.req, own, r, exit)
    ensures var s1 := RequestStep(s); s1.live == s.live && LiveFollows(s.live.value, s1.req, own, r, exit)
  {
    hide MaybeFlush, Drain, Finish, Bumped;
  }

  /** The remaining places: a drop to count, a trace to release, or no request. */
  lemma QuietFollows(s: Sys, own: seq<Batch>, r: Run, exit: ExitSnapshots)
    requires s.req.Idle? || s.req.Dropping? || s.req.Closing? || s.req.Publishing? || s.req.SendingDrain?
          || s.req.DroppingSender? || s.req.Finished?
    requires s.live.Some? && LiveFollows(s.live.value, s.req, own, r, exit)
    ensures var s1 := RequestStep(s);
      if s1.live.None? then own == Finish(r, exit)
      else s1.live == s.live && LiveFollows(s.live.value, s1.req, own, r, exit)
  {
    hide Finish, Bumped;
  }

  /** One action of the request thread on its live trace. */
  lemma RequestFollows(s: Sys, own: seq<Batch>, r: Run, exit: ExitSnapshots)
    requires s.live.Some? && LiveFollows(s.live.value, s.req, own, r, exit)
    ensures var s1 := RequestStep(s);
      var more := if Flushes(s, ActRequest) then own + [TakeBatch(s.live.value).1] else own;
      if s1.live.None? then more == Finish(r, exit)
      else s1.live.value.id == s.live.value.id && LiveFollows(s1.live.value, s1.req, more, r, exit)
  {
    hide LiveFollows, RequestStep, Trigger, TakeBatch, Finish;
    match s.req {
      case Gated(_, _) => AcceptFollows(s, own, r, exit);
      case FlushCheck => FlushCheckFollows(s, own, r, exit);
      case Draining(_) => DrainFollows(s, own, r, exit);
      case Handing(_, _) => HandOffFollows(s, own, r, exit);
      case Refused(_, _, _) => HandOffFollows(s, own, r, exit);
      case Bumping(_, _) => HandOffFollows(s, own, r, exit);
      case Billing(_, _) => HandOffFollows(s, own, r, exit);
      case _ => QuietFollows(s, own, r, exit);
    }
  }

  // --- Steps of the system ----------------------------------------------------------

  lemma ShipperLeavesRequest(s: Sys)
    ensures var s1 := ShipperStep(s);
      s1.req == s.req && s1.live == s.live && s1.limits == s.limits && s1.nextTrace == s.nextTrace
  {
    hide Bumped;
  }

  predicate SameTraces(s: Sys, s1: Sys) {
    && s1.limits == s.limits && s1.nextTrace == s.nextTrace && (s1.live.Some? <==> s.live.Some?)
    && (s1.live.Some? ==> s1.live.value.id == s.live.value.id)
  }

  lemma AcceptLeavesTraces(s: Sys, cat: Categorised, entry: EntrySnapshots)
    ensures SameTraces(s, Accept(s, cat, entry))
  {
    hide InternSpec, MissCost, TopId;
  }

  lemma FlushLeavesTraces(s: Sys, flush: bool, after: After)
    ensures SameTraces(s, FlushOrResume(s, flush, after))
  {
  }

  lemma DrainLeavesTraces(s: Sys, exit: ExitSnapshots)
    ensures SameTraces(s, DrainOne(s, exit))
  {
    hide RecordOf;
  }

  lemma RequestLeavesTraces(s: Sys)
    ensures var s1 := RequestStep(s);
      && s1.limits == s.limits && s1.nextTrace == s.nextTrace
      && (s1.live.Some? ==> s.live.Some? && s1.live.value.id == s.live.value.id)
  {
    hide Accept, FlushOrResume, DrainOne, Trigger, Bumped;
    match s.req {
      case Gated(cat, entry) => AcceptLeavesTraces(s, cat, entry);
      case FlushCheck => FlushLeavesTraces(s, s.live.Some? && Trigger(s.live.value).Some?, ToIdle);
      case Draining(exit) => DrainLeavesTraces(s, exit);
      case _ =>
    }
  }

  lemma BeginLeavesTraces(s: Sys, cat: Categorised, entry: EntrySnapshots)
    ensures SameTraces(s, BeginCall(s, cat, entry))
    ensures !(s.req.Idle? && s.live.Some? && s.budget >= 0) ==> BeginCall(s, cat, entry) == s
  {
    hide CapAdmits, WouldAdd;
  }

  lemma EndLeavesTraces(s: Sys, e: ExitSnapshots, abnormal: bool)
    ensures SameTraces(s, EndCall(s, e, abnormal))
    ensures !(s.req.Idle? && s.live.Some?) ==> EndCall(s, e, abnormal) == s
  {
    hide RecordOf;
  }

  lemma RinitFollows(s: Sys, own: seq<Batch>, id: nat, events: seq<Event>, exit: ExitSnapshots)
    requires Follows(s, own, id, events, exit)
    ensures Follows(Rinit(s), own, id, events, exit)
  {
    hide Finish;
    assert Replay(NewRun(id, s.limits), []) == NewRun(id, s.limits);
  }

  /** Shutdown begins: from here on `e` is the snapshot of the trace's last flush. */
  lemma ShutdownFollows(s: Sys, e: ExitSnapshots, own: seq<Batch>, id: nat, events: seq<Event>, exit: ExitSnapshots)
    returns (last: ExitSnapshots)
    requires Follows(s, own, id, events, exit)
    ensures Follows(BeginShutdown(s, e), own, id, events, last)
  {
    hide Finish, Replay;
    last := if s.req.Idle? && IsLive(s, id) then e else exit;
  }

  lemma OtherFollows(s: Sys, a: Action, own: seq<Batch>, id: nat, events: seq<Event>, exit: ExitSnapshots)
    requires Follows(s, own, id, events, exit)
    requires a.ActModuleShutdown? || a.ActSendDrain? || a.ActSpawn? || a.ActEncode? || a.ActPost? || a.ActTimeout?
    ensures Follows(Apply(s, a), own, id, events, exit)
  {
    hide Replay, MaybeFlush, Drain, Finish, CounterOf, BeginAccept;
  }

  lemma ActBeginFollows(s: Sys, cat: Categorised, entry: EntrySnapshots, own: seq<Batch>, id: nat, events: seq<Event>,
                        exit: ExitSnapshots)
    returns (more: seq<Event>)
    requires Follows(s, own, id, events, exit)
    ensures Follows(BeginCall(s, cat, entry), own, id, more, exit)
  {
    hide LiveFollows, BeginCall, Replay, Finish, Step;
    BeginLeavesTraces(s, cat, entry);
    more := events;
    if s.req.Idle? && IsLive(s, id) && s.budget >= 0 {
      more := events + [BeginEvent(cat, entry, s.budget)];
      ReplayMore(NewRun(id, s.limits), events, BeginEvent(cat, entry, s.budget));
      BeginFollows(s, cat, entry, own, Replay(NewRun(id, s.limits), events), exit);
    }
  }

  lemma ActEndFollows(s: Sys, e: ExitSnapshots, abnormal: bool, own: seq<Batch>, id: nat, events: seq<Event>,
                      exit: ExitSnapshots)
    returns (more: seq<Event>)
    requires Follows(s, own, id, events, exit)
    ensures Follows(EndCall(s, e, abnormal), own, id, more, exit)
  {
    hide LiveFollows, EndCall, Replay, Finish, Step;
    EndLeavesTraces(s, e, abnormal);
    more := events;
    if s.req.Idle? && IsLive(s, id) {
      more := events + [EndEvent(e, abnormal)];
      ReplayMore(NewRun(id, s.limits), events, EndEvent(e, abnormal));
      EndFollows(s, e, abnormal, own, Replay(NewRun(id, s.limits), events), exit);
    }
  }

  lemma ActRequestFollows(s: Sys, own: seq<Batch>, id: nat, events: seq<Event>, exit: ExitSnapshots)
    requires Follows(s, own, id, events, exit)
    ensures Follows(RequestStep(s), own + Of(HandedBy(s, ActRequest), id), id, events, exit)
  {
    hide LiveFollows, RequestStep, Flushes, Replay, Finish, Of, HandedBy, TakeBatch;
    RequestLeavesTraces(s);
    HandedOfLive(s, ActRequest, id);
    assert own + [] == own;
    FlushesLive(s, ActRequest);
    if IsLive(s, id) {
      RequestFollows(s, own, Replay(NewRun(id, s.limits), events), exit);
    }
  }

  lemma FlushesLive(s: Sys, a: Action)
    ensures Flushes(s, a) ==> s.live.Some? && a.ActRequest?
  {
  }

  lemma ApplyFollows(s: Sys, a: Action, own: seq<Batch>, id: nat, events: seq<Event>, exit: ExitSnapshots)
    returns (more: seq<Event>, last: ExitSnapshots)
    requires Follows(s, own, id, events, exit)
    ensures Follows(Apply(s, a), own + Of(HandedBy(s, a), id), id, more, last)
  {
    hide Follows, BeginCall, EndCall, RequestStep, ShipperStep, Rinit, BeginShutdown, HandedBy, Of, Flushes;
    more, last := events, exit;
    HandedOfLive(s, a, id);
    FlushesLive(s, a);
    assert own + [] == own;
    match a {
      case ActRinit => RinitFollows(s, own, id, events, exit);
      case ActBegin(cat, entry) => more := ActBeginFollows(s, cat, entry, own, id, events, exit);
      case ActEnd(e, abnormal) => more := ActEndFollows(s, e, abnormal, own, id, events, exit);
      case ActRequest => ActRequestFollows(s, own, id, events, exit);
      case ActShipper =>
        ShipperLeavesRequest(s);
        FollowsFramed(s, ShipperStep(s), own, id, events, exit);
      case ActShutdown(e) => last := ShutdownFollows(s, e, own, id, events, exit);
      case ActModuleShutdown(_) => OtherFollows(s, a, own, id, events, exit);
      case ActSendDrain(_) => OtherFollows(s, a, own, id, events, exit);
      case ActSpawn(_) => OtherFollows(s, a, own, id, events, exit);
      case ActEncode(_) => OtherFollows(s, a, own, id, events, exit);
      case ActPost(_) => OtherFollows(s, a, own, id, events, exit);
      case ActTimeout => OtherFollows(s, a, own, id, events, exit);
    }
  }

  lemma {:induction false} Followed(limits: TraceLimits, capacity: nat, actions: seq<Action>, id: nat)
    returns (events: seq<Event>, exit: ExitSnapshots)
    ensures var s0 := InitSys(limits, capacity);
      Follows(Execute(s0, actions), Of(Handed(s0, actions), id), id, events, exit)
  {
    var s0 := InitSys(limits, capacity);
    if actions == [] {
      events, exit := [], ExitSnapshots(0, 0, 0, 0);
    } else {
      hide Apply, Follows, HandedBy, Of;
      var (before, a) := (actions[..|actions| - 1], actions[|actions| - 1]);
      events, exit := Followed(limits, capacity, before, id);
      OfConcat(Handed(s0, before), HandedBy(Execute(s0, before), a), id);
      events, exit := ApplyFollows(Execute(s0, before), a, Of(Handed(s0, before), id), id, events, exit);
    }
  }

  lemma {:induction false} LimitsStay(limits: TraceLimits, capacity: nat, actions: seq<Action>)
    ensures Execute(InitSys(limits, capacity), actions).limits == limits
  {
    if actions != [] {
      hide Apply;
      var n := |actions| - 1;
      LimitsStay(limits, capacity, actions[..n]);
      PipelineCap.LimitsKept(Execute(InitSys(limits, capacity), actions[..n]), actions[n]);
    }
  }

  lemma FlushedFirst(r: Run, exit: ExitSnapshots)
    ensures r.flushed <= Finish(r, exit)
  {
  }

  lemma OwnIsPrefix(s: Sys, own: seq<Batch>, id: nat, events: seq<Event>, exit: ExitSnapshots)
    requires Follows(s, own, id, events, exit)
    ensures own <= Finish(Replay(NewRun(id, s.limits), events), exit)
  {
    hide Finish, Replay, MaybeFlush, BeginAccept, Drain;
    FlushedFirst(Replay(NewRun(id, s.limits), events), exit);
  }

  /** For every trace, at every point of every interleaving, there is an event
      sequence and a shutdown snapshot such that the batches handed off for it are
      the first batches of that run: all the flushed ones between two events of the
      live trace, which then is the run's trace, and all of them once it is released. */
  lemma RequestsAreRuns(limits: TraceLimits, capacity: nat, actions: seq<Action>, id: nat)
    returns (events: seq<Event>, exit: ExitSnapshots)
    ensures var s0 := InitSys(limits, capacity);
      var (s, own) := (Execute(s0, actions), Of(Handed(s0, actions), id));
      var r := Replay(NewRun(id, limits), events);
      && own <= Finish(r, exit)
      && (IsLive(s, id) && s.req.Idle? ==> s.live.value == r.trace && own == r.flushed)
      && (IsLive(s, id) && s.req.Closing? ==> own == Finish(r, exit))
      && (!IsLive(s, id) ==> own == r.flushed || own == Finish(r, exit))
  {
    hide Execute, Replay, Handed, Of, Finish;
    events, exit := Followed(limits, capacity, actions, id);
    LimitsStay(limits, capacity, actions);
    var s0 := InitSys(limits, capacity);
    OwnIsPrefix(Execute(s0, actions), Of(Handed(s0, actions), id), id, events, exit);
  }
}
