/** The request thread and the shipper thread, joined by the bounded queue, the
    process-wide byte budget and the drop counters. One action is one atomic
    operation, so a run over any sequence of actions is an interleaving of the
    two threads. */
module Pipeline {
  import opened Wrappers
  import opened CallSites
  import opened TraceModel

  datatype Message = BatchMsg(batch: Batch) | DrainMsg(deadline: nat)

  /** Where the request thread goes on after a hand-off or an atomic add. */
  datatype After = ToIdle | ToFlushCheck | ToDrain(exit: ExitSnapshots) | ToClosing

  /** The request thread, between two of its atomic operations. */
  datatype Request =
    | Idle
    | Gated(cat: Categorised, entry: EntrySnapshots)  // gates passed, accept tail to run
    | Dropping                                        // refused, drop counter to bump
    | Billing(bytes: nat, after: After)               // estimate updated, budget to add to
    | FlushCheck                                      // record pushed, thresholds to test
    | Handing(batch: Batch, after: After)             // batch built, try_send to call
    | Refused(batch: Batch, full: bool, after: After) // not sent, budget to subtract from
    | Bumping(batch: Batch, after: After)             // channel full, counter to bump
    | Draining(exit: ExitSnapshots)                   // shutdown: open frames to record
    | Closing                                         // shutdown: residual to subtract
    | Publishing(deadline: nat)                       // module shutdown: cell to write
    | SendingDrain(deadline: nat)                     // module shutdown: Drain to send
    | DroppingSender                                  // module shutdown: last sender to drop
    | Finished

  /** The shipper thread. `deadline` is the one its receive path was given. */
  datatype Shipper =
    | NotSpawned
    | LoopHead                                        // deadline cell to read
    | Receiving                                       // blocked in recv
    | DrainReceiving(d: nat)                          // blocked in recv_deadline
    | Encoding(batch: Batch, deadline: Option<nat>)
    | Posting(batch: Batch, deadline: Option<nat>)
    | Settled(batch: Batch, deadline: Option<nat>, sent: bool)   // outcome known, counter to bump
    | Returning(batch: Batch, deadline: Option<nat>, sent: bool) // budget to subtract from
    | Noting(deadline: Option<nat>, sent: bool)       // notice or drained count to record
    | Abandoning(d: nat)                              // deadline passed, try_recv
    | AbandonReturning(batch: Batch, d: nat)          // budget to subtract from
    | Exited

  /** `meta.dropped_records` as one batch was encoded. */
  datatype Stamp = Stamp(traceId: nat, droppedRecords: nat)

  datatype Sys = Sys(
    limits: TraceLimits,
    capacity: nat,                // shipper_queue_depth
    budget: int,                  // BYTES_IN_MEMORY
    queue: seq<Message>,
    senderInstalled: bool,        // SENDER_SLOT
    closed: bool,                 // every sender dropped
    cell: Option<nat>,            // DRAIN_DEADLINE
    counters: map<nat, nat>,      // per-trace drop counters
    live: Option<Trace>,          // CURRENT_TRACE
    nextTrace: nat,
    req: Request,
    ship: Shipper,
    stamps: seq<Stamp>)           // the drop counts of the batches encoded so far

  function InitSys(limits: TraceLimits, capacity: nat): Sys {
    Sys(limits, capacity, 0, [], true, false, None, map[], None, 0, Idle, NotSpawned, [])
  }

  function CounterOf(s: Sys, id: nat): nat { if id in s.counters then s.counters[id] else 0 }

  function Bumped(s: Sys, id: nat, n: nat): map<nat, nat> { s.counters[id := CounterOf(s, id) + n] }

  function Resume(after: After): Request {
    match after
    case ToIdle => Idle
    case ToFlushCheck => FlushCheck
    case ToDrain(exit) => Draining(exit)
    case ToClosing => Closing
  }

  // --- Request thread ------------------------------------------------------------

  /** `rinit_allocate_trace`: a stale trace gives its bytes back; its records vanish uncounted. */
  function Rinit(s: Sys): Sys {
    if s.req != Idle || s.ship == NotSpawned then s
    else
      var started := NewTrace(s.nextTrace, s.limits);
      match s.live
      case None => s.(live := Some(started), nextTrace := s.nextTrace + 1)
      case Some(stale) => s.(live := Some(started), nextTrace := s.nextTrace + 1, budget := s.budget - stale.estimated)
  }

  /** The begin gates: one read of the budget decides. */
  function BeginCall(s: Sys, cat: Categorised, entry: EntrySnapshots): Sys {
    if s.req != Idle || s.live.None? || s.budget < 0 then s
    else
      var (t1, accepted) := BeginGate(s.live.value, cat, s.budget);
      s.(live := Some(t1), req := if accepted then Gated(cat, entry) else Dropping)
  }

  function EndCall(s: Sys, exit: ExitSnapshots, abnormal: bool): Sys {
    if s.req != Idle || s.live.None? then s
    else
      var (t1, accepted) := EndGate(s.live.value);
      if !accepted || t1.stack == [] then s.(live := Some(t1))
      else s.(live := Some(PopRecord(t1, exit, abnormal)), req := Billing(CALL_RECORD_FIXED_BYTES, ToFlushCheck))
  }

  /** `rshutdown_release_trace`. */
  function BeginShutdown(s: Sys, exit: ExitSnapshots): Sys {
    if s.req != Idle || s.live.None? then s else s.(req := Draining(exit))
  }

  /** `drain_and_join_at_mshutdown`: take the sender, or find none installed. */
  function BeginModuleShutdown(s: Sys, deadline: nat): Sys {
    if s.req != Idle then s
    else if !s.senderInstalled then s.(req := Finished)
    else s.(senderInstalled := false, req := Publishing(deadline))
  }

  /** `try_send`: no sender, receiver gone, channel full, or queued. */
  function TrySend(s: Sys, batch: Batch, after: After): Sys {
    if !s.senderInstalled || s.ship == Exited then s.(req := Refused(batch, false, after))
    else if |s.queue| >= s.capacity then s.(req := Refused(batch, true, after))
    else s.(queue := s.queue + [BatchMsg(batch)], req := Resume(after))
  }

  /** The accept tail of a begin that passed its gates. */
  function Accept(s: Sys, cat: Categorised, entry: EntrySnapshots): Sys {
    if s.live.None? || s.live.value.virtualDepth == 0 then s
    else
      var (t1, billed) := BeginAccept(s.live.value, cat, entry);
      s.(live := Some(t1), req := Billing(billed, ToIdle))
  }

  /** `record_drop`'s counter bump. */
  function CountGateDrop(s: Sys): Sys {
    if s.live.None? then s else s.(counters := Bumped(s, s.live.value.id, 1), req := Idle)
  }

  /** The pending batch taken off the trace, or the thread goes on. */
  function FlushOrResume(s: Sys, flush: bool, after: After): Sys {
    if s.live.None? then s
    else if flush then
      var (t1, batch) := TakeBatch(s.live.value);
      s.(live := Some(t1), req := Handing(batch, after))
    else s.(req := Resume(after))
  }

  /** One open frame recorded, or the one flush of the shutdown. */
  function DrainOne(s: Sys, exit: ExitSnapshots): Sys {
    if s.live.None? then s
    else if s.live.value.stack != [] then
      s.(live := Some(PopRecord(s.live.value, exit, true)), req := Billing(CALL_RECORD_FIXED_BYTES, ToDrain(exit)))
    else FlushOrResume(s, s.live.value.buffer != [], ToClosing)
  }

  function ReleaseTrace(s: Sys): Sys {
    if s.live.None? then s else s.(budget := s.budget - s.live.value.estimated, live := None, req := Idle)
  }

  /** A refused batch gives its bytes back. Only a full channel counts its records. */
  function ReleaseRefused(s: Sys, batch: Batch, full: bool, after: After): Sys {
    s.(budget := s.budget - batch.sizeEstimate, req := if full then Bumping(batch, after) else Resume(after))
  }

  function CountFullDrop(s: Sys, batch: Batch, after: After): Sys {
    s.(counters := Bumped(s, batch.traceId, |batch.calls|), req := Resume(after))
  }

  /** The request thread's next atomic operation. */
  function RequestStep(s: Sys): Sys {
    match s.req
    case Idle => s
    case Gated(cat, entry) => Accept(s, cat, entry)
    case Dropping => CountGateDrop(s)
    case Billing(bytes, after) => s.(budget := s.budget + bytes, req := Resume(after))
    case FlushCheck => FlushOrResume(s, s.live.Some? && Trigger(s.live.value).Some?, ToIdle)
    case Handing(batch, after) => TrySend(s, batch, after)
    case Refused(batch, full, after) => ReleaseRefused(s, batch, full, after)
    case Bumping(batch, after) => CountFullDrop(s, batch, after)
    case Draining(exit) => DrainOne(s, exit)
    case Closing => ReleaseTrace(s)
    case Publishing(d) => s.(cell := Some(d), req := SendingDrain(d))
    case SendingDrain(_) => s
    case DroppingSender => s.(closed := true, req := Finished)
    case Finished => s
  }

  /** `send_timeout(Drain)`: delivered if there is room, or it times out. */
  function SendDrain(s: Sys, inTime: bool): Sys {
    match s.req
    case SendingDrain(d) =>
      s.(queue := if inTime && s.ship != Exited && |s.queue| < s.capacity then s.queue + [DrainMsg(d)] else s.queue,
         req := DroppingSender)
    case _ => s
  }

  // --- Shipper thread -----------------------------------------------------------

  /** The spawn helper on the first request: a thread, or no sender ever again. */
  function Spawn(s: Sys, ok: bool): Sys {
    if s.req != Idle || s.ship != NotSpawned then s
    else if ok then s.(ship := LoopHead)
    else s.(ship := Exited, senderInstalled := false)
  }

  /** The receive path of `run_loop` and `run_drain_phase`. */
  function Receive(s: Sys, deadline: Option<nat>): Sys {
    if s.queue == [] then if s.closed then s.(ship := Exited) else s
    else
      match s.queue[0]
      case BatchMsg(batch) => s.(queue := s.queue[1..], ship := Encoding(batch, deadline))
      case DrainMsg(d) =>
        s.(queue := s.queue[1..], ship := DrainReceiving(if deadline.Some? then deadline.value else d))
  }

  function NextReceive(deadline: Option<nat>): Shipper {
    if deadline.Some? then DrainReceiving(deadline.value) else LoopHead
  }

  /** `bump_drop_counter_on_drop`. */
  function CountOutcome(s: Sys, batch: Batch, deadline: Option<nat>, sent: bool): Sys {
    s.(counters := if sent then s.counters else Bumped(s, batch.traceId, |batch.calls|),
       ship := Returning(batch, deadline, sent))
  }

  /** The residual queue after the deadline, one message at a time. */
  function TryReceive(s: Sys, d: nat): Sys {
    if s.queue == [] then s.(ship := Exited)
    else
      match s.queue[0]
      case BatchMsg(batch) => s.(queue := s.queue[1..], ship := AbandonReturning(batch, d))
      case DrainMsg(_) => s.(queue := s.queue[1..])
  }

  function ReleaseAbandoned(s: Sys, batch: Batch, d: nat): Sys {
    s.(budget := s.budget - batch.sizeEstimate, ship := Abandoning(d))
  }

  /** The shipper thread's next atomic operation, where it has no choice. */
  function ShipperStep(s: Sys): Sys {
    match s.ship
    case LoopHead => s.(ship := if s.cell.Some? then DrainReceiving(s.cell.value) else Receiving)
    case Receiving => Receive(s, None)
    case DrainReceiving(d) => Receive(s, Some(d))
    case Settled(batch, deadline, sent) => CountOutcome(s, batch, deadline, sent)
    case Returning(batch, deadline, sent) => s.(budget := s.budget - batch.sizeEstimate, ship := Noting(deadline, sent))
    case Noting(deadline, _) => s.(ship := NextReceive(deadline))
    case Abandoning(d) => TryReceive(s, d)
    case AbandonReturning(batch, d) => ReleaseAbandoned(s, batch, d)
    case _ => s
  }

  /** `encode_batch`: the drop counter is read, then serialisation works or fails. */
  function Encode(s: Sys, ok: bool): Sys {
    match s.ship
    case Encoding(batch, deadline) =>
      s.(stamps := s.stamps + [Stamp(batch.traceId, CounterOf(s, batch.traceId))],
         ship := if ok then Posting(batch, deadline) else Settled(batch, deadline, false))
    case _ => s
  }

  /** The handler returns `Sent` or `Dropped`. */
  function Post(s: Sys, sent: bool): Sys {
    match s.ship
    case Posting(batch, deadline) => s.(ship := Settled(batch, deadline, sent))
    case _ => s
  }

  /** `recv_deadline` returns `Timeout`, perhaps with messages still queued. */
  function Timeout(s: Sys): Sys {
    match s.ship
    case DrainReceiving(d) => s.(ship := Abandoning(d))
    case _ => s
  }

  // --- Runs -----------------------------------------------------------------------

  datatype Action =
    | ActRinit
    | ActBegin(cat: Categorised, entry: EntrySnapshots)
    | ActEnd(exit: ExitSnapshots, abnormal: bool)
    | ActShutdown(exit: ExitSnapshots)
    | ActModuleShutdown(deadline: nat)
    | ActRequest
    | ActSendDrain(inTime: bool)
    | ActSpawn(ok: bool)
    | ActShipper
    | ActEncode(ok: bool)
    | ActPost(sent: bool)
    | ActTimeout

  /** An action whose thread is not ready for it does nothing. */
  function Apply(s: Sys, a: Action): Sys {
    match a
    case ActRinit => Rinit(s)
    case ActBegin(cat, entry) => BeginCall(s, cat, entry)
    case ActEnd(exit, abnormal) => EndCall(s, exit, abnormal)
    case ActShutdown(exit) => BeginShutdown(s, exit)
    case ActModuleShutdown(deadline) => BeginModuleShutdown(s, deadline)
    case ActRequest => RequestStep(s)
    case ActSendDrain(inTime) => SendDrain(s, inTime)
    case ActSpawn(ok) => Spawn(s, ok)
    case ActShipper => ShipperStep(s)
    case ActEncode(ok) => Encode(s, ok)
    case ActPost(sent) => Post(s, sent)
    case ActTimeout => Timeout(s)
  }

  function Execute(s: Sys, actions: seq<Action>): Sys {
    if actions == [] then s
    else Apply(Execute(s, actions[..|actions| - 1]), actions[|actions| - 1])
  }

  lemma ExecuteMore(s: Sys, before: seq<Action>, a: Action)
    ensures Execute(s, before + [a]) == Apply(Execute(s, before), a)
  {
    assert (before + [a])[..|before|] == before;
  }
}
