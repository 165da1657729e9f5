/** The shipper thread's receive loops, as they update the budget, the drop
    counters, the notice queue and the drained count. */
module RunLoop {
  import opened Wrappers
  import opened Accounting
  import opened TraceModel
  import opened Retry
  import opened Pipeline

  /** The `n`-indexed answers the loop gets after `n` messages: the deadline cell
      at the loop head, whether `recv_deadline` times out, whether `try_recv` finds
      nothing, whether encoding works, and what the handler returns. */
  datatype Answers = Answers(
    cell: nat -> Option<nat>,
    expires: nat -> bool,
    nothing: nat -> bool,
    encodes: nat -> bool,
    handler: (nat, Option<nat>) -> OnBatchOutcome)

  datatype Notice = Notice(records: nat, traceId: nat, reason: DropReason, attempts: nat)

  datatype Handled = Handled(position: nat, batch: Batch, outcome: OnBatchOutcome)

  datatype ShipperExit = ShipperExit(batchesDrained: nat, drainCompleted: bool, abandoned: nat)

  // --- What a run's log amounts to ---------------------------------------------

  function BatchesOf(messages: seq<Message>): seq<Batch> {
    if messages == [] then []
    else
      var last := messages[|messages| - 1];
      BatchesOf(messages[..|messages| - 1]) + if last.BatchMsg? then [last.batch] else []
  }

  function SizeSum(batches: seq<Batch>): nat {
    if batches == [] then 0
    else SizeSum(batches[..|batches| - 1]) + batches[|batches| - 1].sizeEstimate
  }

  function HandledBatches(log: seq<Handled>): seq<Batch> {
    if log == [] then [] else HandledBatches(log[..|log| - 1]) + [log[|log| - 1].batch]
  }

  /** One notice for each dropped batch, in order. */
  function NoticesOf(log: seq<Handled>): seq<Notice> {
    if log == [] then []
    else
      var h := log[|log| - 1];
      NoticesOf(log[..|log| - 1])
      + if h.outcome.Dropped?
        then [Notice(|h.batch.calls|, h.batch.traceId, h.outcome.reason, h.outcome.attempts)] else []
  }

  function SentCount(log: seq<Handled>): nat {
    if log == [] then 0 else SentCount(log[..|log| - 1]) + if log[|log| - 1].outcome == Sent then 1 else 0
  }

  /** Records of trace `id` in dropped batches. */
  function DroppedRecords(log: seq<Handled>, id: nat): nat {
    if log == [] then 0
    else
      var h := log[|log| - 1];
      DroppedRecords(log[..|log| - 1], id)
      + if h.outcome.Dropped? && h.batch.traceId == id then |h.batch.calls| else 0
  }

  /** Every handled batch is either counted as drained or has its notice. */
  lemma {:induction false} DrainedOrNoticed(log: seq<Handled>)
    ensures SentCount(log) + |NoticesOf(log)| == |log| == |HandledBatches(log)|
  {
    if log != [] {
      DrainedOrNoticed(log[..|log| - 1]);
    }
  }

  /** Where the drain phase begins and with which deadline: the first loop head
      that finds the cell written, or the first `Drain` message. */
  function Signal(cell: nat -> Option<nat>, inbox: seq<Message>, n: nat): Option<(nat, nat)>
    requires n <= |inbox|
    decreases |inbox| - n
  {
    if cell(n).Some? then Some((n, cell(n).value))
    else if n == |inbox| then None
    else if inbox[n].DrainMsg? then Some((n + 1, inbox[n].deadline))
    else Signal(cell, inbox, n + 1)
  }

  /** The deadline the message at `position` is handled with: the signalled one from
      the signal on, and none before. */
  function DeadlineAt(signal: Option<(nat, nat)>, position: nat): Option<nat> {
    if signal.Some? && signal.value.0 <= position then Some(signal.value.1) else None
  }

  lemma AddHandled(log: seq<Handled>, h: Handled)
    ensures HandledBatches(log + [h]) == HandledBatches(log) + [h.batch]
    ensures NoticesOf(log + [h]) == NoticesOf(log)
      + if h.outcome.Dropped?
        then [Notice(|h.batch.calls|, h.batch.traceId, h.outcome.reason, h.outcome.attempts)] else []
    ensures SentCount(log + [h]) == SentCount(log) + if h.outcome == Sent then 1 else 0
    ensures forall id ::
      DroppedRecords(log + [h], id) ==
      DroppedRecords(log, id) + if h.outcome.Dropped? && h.batch.traceId == id then |h.batch.calls| else 0
  {
  }

  lemma OneHandled(h: Handled)
    ensures NoticesOf([h]) ==
      if h.outcome.Dropped?
      then [Notice(|h.batch.calls|, h.batch.traceId, h.outcome.reason, h.outcome.attempts)] else []
    ensures SentCount([h]) == if h.outcome == Sent then 1 else 0
  {
  }

  lemma AddBatch(batches: seq<Batch>, batch: Batch)
    ensures SizeSum(batches + [batch]) == SizeSum(batches) + batch.sizeEstimate
  {
  }

  lemma AddMessage(inbox: seq<Message>, n: nat)
    requires n < |inbox|
    ensures BatchesOf(inbox[..n + 1]) == BatchesOf(inbox[..n]) + if inbox[n].BatchMsg? then [inbox[n].batch] else []
  {
    assert inbox[..n + 1][..n] == inbox[..n];
  }

  /** The state a run starts from. */
  datatype Before = Before(inbox: seq<Message>, bytes: Word, counts: map<nat, Word>, notices: seq<Notice>)

  /** Every batch gave its bytes back once. */
  predicate Returned(before: Word, after: Word, batches: seq<Batch>) { after == Wrap(before - SizeSum(batches)) }

  /** Every record of a dropped batch is counted against its trace. */
  ghost predicate Counted(before: map<nat, Word>, after: map<nat, Word>, log: seq<Handled>) {
    forall id :: CountOf(after, id) == Wrap(CountOf(before, id) + DroppedRecords(log, id))
  }

  /** The books at some moment: every handled or abandoned batch gave its bytes
      back once; every dropped one was counted against its trace and noticed. */
  ghost predicate Balanced(b: Before, bytes: Word, counts: map<nat, Word>, notices: seq<Notice>, drained: nat,
                           log: seq<Handled>, abandoned: seq<Batch>)
  {
    && Returned(b.bytes, bytes, HandledBatches(log) + abandoned)
    && Counted(b.counts, counts, log)
    && notices == b.notices + NoticesOf(log)
    && drained == SentCount(log)
  }

  /** The entry is about the batch received at its position. Its outcome is what the
      handler answers for the deadline in force there, or that of a failed encoding. */
  ghost predicate Genuine(answers: Answers, messages: seq<Message>, h: Handled) {
    && h.position < |messages| && messages[h.position] == BatchMsg(h.batch)
    && var deadline := DeadlineAt(Signal(answers.cell, messages, 0), h.position);
    && (answers.encodes(h.position) ==> h.outcome == answers.handler(h.position, deadline))
    && (!answers.encodes(h.position) ==> h.outcome == Dropped(EncodeFailed, 0))
  }

  /** The batch was dropped unsent because it does not encode, or the handler answered:
      given the signalled deadline from the signal on, and no deadline before it. */
  ghost predicate Answered(answers: Answers, messages: seq<Message>, h: Handled) {
    var signal := Signal(answers.cell, messages, 0);
    && (!answers.encodes(h.position) ==> h.outcome == Dropped(EncodeFailed, 0))
    && (answers.encodes(h.position) && signal.Some? && signal.value.0 <= h.position ==>
          h.outcome == answers.handler(h.position, Some(signal.value.1)))
    && (answers.encodes(h.position) && (signal.None? || h.position < signal.value.0) ==>
          h.outcome == answers.handler(h.position, None))
  }

  /** The log names each position once, in the order of receipt. */
  predicate InOrder(log: seq<Handled>) {
    forall i, j :: 0 <= i < j < |log| ==> log[i].position < log[j].position
  }

  /** What was received, in order, is what was handled and then abandoned. */
  ghost predicate Received(answers: Answers, b: Before, inbox: seq<Message>, received: nat, log: seq<Handled>,
                           abandoned: seq<Batch>)
  {
    && received <= |b.inbox| && inbox == b.inbox[received..]
    && BatchesOf(b.inbox[..received]) == HandledBatches(log) + abandoned
    && (forall i :: 0 <= i < |log| ==> log[i].position < received && Genuine(answers, b.inbox, log[i]))
    && InOrder(log)
  }

  /** A batch was handled: `bytes1` and `counts1` are the atomics afterwards. */
  lemma BalanceHandled(b: Before, bytes: Word, bytes1: Word, counts: map<nat, Word>, counts1: map<nat, Word>,
                       notices: seq<Notice>, drained: nat, log: seq<Handled>, h: Handled)
    requires Balanced(b, bytes, counts, notices, drained, log, [])
    requires bytes1 == Wrap(bytes - h.batch.sizeEstimate)
    requires if h.outcome.Dropped?
      then CountOf(counts1, h.batch.traceId) == Wrap(CountOf(counts, h.batch.traceId) + |h.batch.calls|)
           && forall id :: id != h.batch.traceId ==> CountOf(counts1, id) == CountOf(counts, id)
      else counts1 == counts
    ensures Balanced(b, bytes1, counts1, notices + NoticesOf([h]), drained + SentCount([h]), log + [h], [])
  {
    hide Wrap, HandledBatches, NoticesOf, SentCount, DroppedRecords, SizeSum;
    AddHandled(log, h);
    OneHandled(h);
    var before := HandledBatches(log);
    AddBatch(before, h.batch);
    assert before + [] == before && before + [h.batch] + [] == before + [h.batch];
    WrapAdd(b.bytes - SizeSum(before), 0 - h.batch.sizeEstimate);
    WrapAdd(CountOf(b.counts, h.batch.traceId) + DroppedRecords(log, h.batch.traceId), |h.batch.calls|);
  }

  lemma BalanceAbandoned(b: Before, bytes: Word, counts: map<nat, Word>, notices: seq<Notice>, drained: nat,
                         log: seq<Handled>, abandoned: seq<Batch>, batch: Batch)
    requires Balanced(b, bytes, counts, notices, drained, log, abandoned)
    ensures Balanced(b, Wrap(bytes - batch.sizeEstimate), counts, notices, drained, log, abandoned + [batch])
  {
    hide Wrap, HandledBatches, NoticesOf, SentCount, DroppedRecords, SizeSum;
    var before := HandledBatches(log) + abandoned;
    AddBatch(before, batch);
    assert before + [batch] == HandledBatches(log) + (abandoned + [batch]);
    WrapAdd(b.bytes - SizeSum(before), 0 - batch.sizeEstimate);
  }

  lemma ReceivedDrain(answers: Answers, b: Before, inbox: seq<Message>, received: nat, log: seq<Handled>,
                      abandoned: seq<Batch>)
    requires Received(answers, b, inbox, received, log, abandoned) && inbox != [] && inbox[0].DrainMsg?
    ensures Received(answers, b, inbox[1..], received + 1, log, abandoned)
  {
    AddMessage(b.inbox, received);
  }

  lemma ReceivedHead(answers: Answers, b: Before, inbox: seq<Message>, received: nat, log: seq<Handled>,
                     abandoned: seq<Batch>)
    requires Received(answers, b, inbox, received, log, abandoned) && inbox != []
    ensures received < |b.inbox| && inbox[0] == b.inbox[received] && |inbox| == |b.inbox| - received
  {
  }

  lemma NothingReceived(answers: Answers, b: Before)
    ensures Balanced(b, b.bytes, b.counts, b.notices, 0, [], []) && Received(answers, b, b.inbox, 0, [], [])
  {
    assert b.notices + [] == b.notices;
  }

  lemma ReceivedSays(answers: Answers, b: Before, inbox: seq<Message>, received: nat, log: seq<Handled>,
                     abandoned: seq<Batch>)
    requires Received(answers, b, inbox, received, log, abandoned)
    ensures received <= |b.inbox| && inbox == b.inbox[received..] && InOrder(log)
    ensures BatchesOf(b.inbox[..received]) == HandledBatches(log) + abandoned
    ensures forall i :: 0 <= i < |log| ==>
      && log[i].position < received && b.inbox[log[i].position] == BatchMsg(log[i].batch)
      && Answered(answers, b.inbox, log[i])
  {
    hide BatchesOf, HandledBatches, Signal, InOrder;
  }

  lemma BalancedSays(b: Before, bytes: Word, counts: map<nat, Word>, notices: seq<Notice>, drained: nat,
                     log: seq<Handled>, abandoned: seq<Batch>, all: seq<Batch>)
    requires Balanced(b, bytes, counts, notices, drained, log, abandoned) && all == HandledBatches(log) + abandoned
    ensures Returned(b.bytes, bytes, all) && Counted(b.counts, counts, log)
    ensures notices == b.notices + NoticesOf(log) && drained == SentCount(log)
    ensures |all| == drained + (|notices| - |b.notices|) + |abandoned|
  {
    hide SizeSum, NoticesOf, SentCount, DroppedRecords, Wrap, HandledBatches;
    DrainedOrNoticed(log);
  }

  lemma ReceivedAll(answers: Answers, b: Before, inbox: seq<Message>, received: nat, log: seq<Handled>)
    requires Received(answers, b, inbox, received, log, [])
    ensures received <= |b.inbox| && inbox == b.inbox[received..]
    ensures HandledBatches(log) == BatchesOf(b.inbox[..received])
  {
    assert HandledBatches(log) + [] == HandledBatches(log);
  }

  lemma ReceivedHandled(answers: Answers, b: Before, inbox: seq<Message>, received: nat, log: seq<Handled>, h: Handled)
    requires Received(answers, b, inbox, received, log, []) && inbox != [] && inbox[0].BatchMsg?
    requires h.position == received && h.batch == inbox[0].batch && Genuine(answers, b.inbox, h)
    ensures Received(answers, b, inbox[1..], received + 1, log + [h], [])
  {
    AddMessage(b.inbox, received);
    AddHandled(log, h);
  }

  lemma ReceivedAbandoned(answers: Answers, b: Before, inbox: seq<Message>, received: nat, log: seq<Handled>,
                          abandoned: seq<Batch>)
    requires Received(answers, b, inbox, received, log, abandoned) && inbox != [] && inbox[0].BatchMsg?
    ensures Received(answers, b, inbox[1..], received + 1, log, abandoned + [inbox[0].batch])
  {
    AddMessage(b.inbox, received);
  }

  /** A drain phase from `start` on handles everything up to `expiry`, the first receive
      that times out, and completes exactly if none does. */
  ghost predicate DrainEnds(answers: Answers, start: nat, expiry: nat, all: nat, completed: bool) {
    && start <= expiry <= all
    && (forall p :: start <= p < expiry ==> !answers.expires(p))
    && (if completed then expiry == all && !answers.expires(all) else answers.expires(expiry))
  }

  /** The same for a whole run, whose drain phase begins at the signal, if there is one. */
  ghost predicate RunEnds(answers: Answers, messages: seq<Message>, expiry: nat, completed: bool) {
    var signal := Signal(answers.cell, messages, 0);
    if signal.Some? then DrainEnds(answers, signal.value.0, expiry, |messages|, completed)
    else completed && expiry == |messages|
  }

  lemma CompletesIff(answers: Answers, messages: seq<Message>, expiry: nat, completed: bool)
    requires RunEnds(answers, messages, expiry, completed)
    ensures var signal := Signal(answers.cell, messages, 0);
      completed <==> signal.None? || forall p :: signal.value.0 <= p <= |messages| ==> !answers.expires(p)
  {
    hide Signal;
  }

  class Shipper {
    const answers: Answers
    const budget: Budget
    const counters: DropCounters
    var inbox: seq<Message>    // every message the channel will ever deliver, then it is closed
    var received: nat
    var notices: seq<Notice>   // DROP_NOTICE_QUEUE
    ghost var log: seq<Handled>

    constructor (answers: Answers, budget: Budget, counters: DropCounters, inbox: seq<Message>, notices: seq<Notice>)
      ensures this.answers == answers && this.budget == budget && this.counters == counters
      ensures this.inbox == inbox && received == 0 && this.notices == notices && log == []
    {
      this.answers, this.budget, this.counters := answers, budget, counters;
      this.inbox, received, this.notices, log := inbox, 0, notices, [];
    }

    ghost predicate Books(b: Before, drained: nat, abandoned: seq<Batch>)
      reads this`notices, this`log, budget, counters
    {
      Balanced(b, budget.bytes, counters.counts, notices, drained, log, abandoned)
    }

    ghost predicate Progress(b: Before, abandoned: seq<Batch>)
      reads this`inbox, this`received, this`log
    {
      Received(answers, b, inbox, received, log, abandoned)
    }

    /** Exactly the batches among the first `n` messages were handled. */
    ghost predicate HandledUpTo(b: Before, n: nat)
      reads this`log, this`received
    {
      n <= received && n <= |b.inbox| && HandledBatches(log) == BatchesOf(b.inbox[..n])
    }

    /** A completed run leaves and abandons nothing; another stops where `try_recv`
        finds nothing. */
    ghost predicate Rest(abandoned: seq<Batch>, completed: bool)
      reads this`inbox, this`received
    {
      if completed then inbox == [] && abandoned == [] else inbox == [] || answers.nothing(received)
    }

    /** `drained_consume`. */
    method DrainedConsume(batch: Batch, deadline: Option<nat>, drained: nat, position: nat, ghost b: Before)
      returns (drained': nat)
      requires Books(b, drained, [])
      modifies this`notices, this`log, budget, counters
      ensures Books(b, drained', [])
      ensures |log| == |old(log)| + 1 && log[..|old(log)|] == old(log)
      ensures log[|old(log)|].position == position && log[|old(log)|].batch == batch
      ensures answers.encodes(position) ==> log[|old(log)|].outcome == answers.handler(position, deadline)
      ensures !answers.encodes(position) ==> log[|old(log)|].outcome == Dropped(EncodeFailed, 0)
    {
      hide Balanced;
      var outcome := Dropped(EncodeFailed, 0);
      if answers.encodes(position) {
        outcome := answers.handler(position, deadline);
      }
      if outcome.Dropped? {
        counters.Bump(batch.traceId, |batch.calls|);
      }
      budget.Sub(batch.sizeEstimate);
      if outcome.Dropped? {
        notices := notices + [Notice(|batch.calls|, batch.traceId, outcome.reason, outcome.attempts)];
      }
      drained' := drained;
      if outcome == Sent {
        drained' := drained + 1;
      }
      ghost var h := Handled(position, batch, outcome);
      log := log + [h];
      OneHandled(h);
      assert old(notices) + [] == old(notices);
      BalanceHandled(b, old(budget.bytes), budget.bytes, old(counters.counts), counters.counts, old(notices), drained,
                     old(log), h);
    }

    /** The next message off the channel. */
    method Take() returns (message: Message)
      requires inbox != []
      modifies this`inbox, this`received
      ensures message == old(inbox[0]) && inbox == old(inbox[1..]) && received == old(received) + 1
    {
      message := inbox[0];
      inbox, received := inbox[1..], received + 1;
    }

    /** Receive a batch and consume it. */
    method ReceiveBatch(deadline: Option<nat>, drained: nat, ghost b: Before) returns (drained': nat)
      requires Books(b, drained, []) && Progress(b, [])
      requires inbox != [] && inbox[0].BatchMsg?
      requires deadline == DeadlineAt(Signal(answers.cell, b.inbox, 0), received)
      modifies this, budget, counters
      ensures Books(b, drained', []) && Progress(b, [])
      ensures inbox == old(inbox[1..]) && received == old(received) + 1
    {
      hide Balanced, Received, Signal, DeadlineAt;
      ghost var (before, all, n) := (log, inbox, received);
      ReceivedHead(answers, b, all, n, before, []);
      var message := Take();
      drained' := DrainedConsume(message.batch, deadline, drained, received - 1, b);
      assert log == before + [log[|before|]];
      ReceivedHandled(answers, b, all, n, before, log[|before|]);
    }

    /** Receive a `Drain`. */
    method ReceiveDrain(ghost drained: nat, ghost b: Before) returns (deadline: nat)
      requires Books(b, drained, []) && Progress(b, [])
      requires inbox != [] && inbox[0].DrainMsg?
      modifies this`inbox, this`received
      ensures Books(b, drained, []) && Progress(b, [])
      ensures deadline == old(inbox[0].deadline) && inbox == old(inbox[1..]) && received == old(received) + 1
    {
      hide Balanced, Received;
      ghost var (all, n) := (inbox, received);
      var message := Take();
      deadline := message.deadline;
      ReceivedDrain(answers, b, all, n, log, []);
    }

    /** The deadline passed: `try_recv` until it finds nothing. */
    method AbandonResidual(ghost drained: nat, ghost b: Before) returns (count: nat, ghost abandoned: seq<Batch>)
      requires Books(b, drained, []) && Progress(b, [])
      modifies this`inbox, this`received, budget
      ensures Books(b, drained, abandoned) && Progress(b, abandoned) && count == |abandoned|
      ensures old(received) <= received && (inbox == [] || answers.nothing(received))
    {
      hide Balanced, Received;
      count, abandoned := 0, [];
      while inbox != [] && !answers.nothing(received)
        invariant Books(b, drained, abandoned) && Progress(b, abandoned) && count == |abandoned|
        invariant old(received) <= received
        decreases |inbox|
      {
        ghost var (bytes, all, n) := (budget.bytes, inbox, received);
        var message := Take();
        match message {
          case BatchMsg(batch) =>
            budget.Sub(batch.sizeEstimate);
            BalanceAbandoned(b, bytes, counters.counts, notices, drained, log, abandoned, batch);
            ReceivedAbandoned(answers, b, all, n, log, abandoned);
            count, abandoned := count + 1, abandoned + [batch];
          case DrainMsg(_) =>
            ReceivedDrain(answers, b, all, n, log, abandoned);
        }
      }
    }

    /** `run_drain_phase`. */
    method RunDrainPhase(deadline: nat, drained: nat, ghost b: Before)
      returns (exit: ShipperExit, ghost abandoned: seq<Batch>, ghost expiry: nat)
      requires Books(b, drained, []) && Progress(b, [])
      requires DeadlineAt(Signal(answers.cell, b.inbox, 0), received) == Some(deadline)
      modifies this, budget, counters
      ensures Books(b, exit.batchesDrained, abandoned) && Progress(b, abandoned) && exit.abandoned == |abandoned|
      ensures DrainEnds(answers, old(received), expiry, |b.inbox|, exit.drainCompleted)
      ensures HandledUpTo(b, expiry) && Rest(abandoned, exit.drainCompleted)
    {
      hide Balanced, Received, Signal, BatchesOf;
      var total := drained;
      while true
        invariant Books(b, total, []) && Progress(b, [])
        invariant DeadlineAt(Signal(answers.cell, b.inbox, 0), received) == Some(deadline)
        invariant old(received) <= received && forall p :: old(received) <= p < received ==> !answers.expires(p)
        decreases |inbox|
      {
        ReceivedAll(answers, b, inbox, received, log);
        expiry := received;
        if answers.expires(received) {
          var count;
          count, abandoned := AbandonResidual(total, b);
          return ShipperExit(total, false, count), abandoned, expiry;
        }
        if inbox == [] {
          return ShipperExit(total, true, 0), [], expiry;
        }
        match inbox[0] {
          case BatchMsg(_) => total := ReceiveBatch(Some(deadline), total, b);
          case DrainMsg(_) => var _ := ReceiveDrain(total, b);
        }
      }
    }

    /** `run_loop`. */
    method RunLoop() returns (exit: ShipperExit, ghost abandoned: seq<Batch>, ghost expiry: nat)
      requires received == 0 && log == []
      modifies this, budget, counters
      ensures received <= |old(inbox)| && inbox == old(inbox)[received..]
      ensures BatchesOf(old(inbox)[..received]) == HandledBatches(log) + abandoned
      ensures forall i :: 0 <= i < |log| ==>
        log[i].position < received && old(inbox)[log[i].position] == BatchMsg(log[i].batch)
      ensures forall i :: 0 <= i < |log| ==> Answered(answers, old(inbox), log[i])
      ensures InOrder(log)
      ensures |BatchesOf(old(inbox)[..received])| == exit.batchesDrained + (|notices| - |old(notices)|) + exit.abandoned
      ensures exit.batchesDrained == SentCount(log) && exit.abandoned == |abandoned|
      ensures Returned(old(budget.bytes), budget.bytes, BatchesOf(old(inbox)[..received]))
      ensures notices == old(notices) + NoticesOf(log)
      ensures Counted(old(counters.counts), counters.counts, log)
      ensures expiry <= received && HandledBatches(log) == BatchesOf(old(inbox)[..expiry])
      ensures RunEnds(answers, old(inbox), expiry, exit.drainCompleted) && Rest(abandoned, exit.drainCompleted)
    {
      ghost var b := Before(inbox, budget.bytes, counters.counts, notices);
      hide BatchesOf, HandledBatches, SizeSum, NoticesOf, SentCount, DroppedRecords, Wrap, InOrder, Signal, Answered,
           Balanced, Received, RunEnds, Shipper.Rest, Returned, Counted;
      NothingReceived(answers, b);
      exit, abandoned, expiry := PreDrain(b);
      ReceivedSays(answers, b, inbox, received, log, abandoned);
      ghost var all := BatchesOf(b.inbox[..received]);
      BalancedSays(b, budget.bytes, counters.counts, notices, exit.batchesDrained, log, abandoned, all);
    }

    /** The receive loop of `run_loop`, until it exits or enters the drain phase. */
    method PreDrain(ghost b: Before) returns (exit: ShipperExit, ghost abandoned: seq<Batch>, ghost expiry: nat)
      requires Books(b, 0, []) && Progress(b, []) && received == 0 && log == []
      modifies this, budget, counters
      ensures Books(b, exit.batchesDrained, abandoned) && Progress(b, abandoned) && exit.abandoned == |abandoned|
      ensures RunEnds(answers, b.inbox, expiry, exit.drainCompleted)
      ensures HandledUpTo(b, expiry) && Rest(abandoned, exit.drainCompleted)
    {
      ghost var signal := Signal(answers.cell, b.inbox, 0);
      var drained: nat := 0;
      hide Balanced, Received, BatchesOf, HandledBatches, Signal, DrainEnds, Shipper.Rest;
      while true
        invariant Books(b, drained, []) && Progress(b, [])
        invariant received <= |b.inbox| && signal == Signal(answers.cell, b.inbox, received)
        decreases |inbox|
      {
        SignalAhead(answers.cell, b.inbox, received);
        ReceivedAll(answers, b, inbox, received, log);
        var cell := answers.cell(received);
        if cell.Some? {
          exit, abandoned, expiry := RunDrainPhase(cell.value, drained, b);
          return;
        }
        if inbox == [] {
          return ShipperExit(drained, true, 0), [], received;
        }
        ReceivedHead(answers, b, inbox, received, log, []);
        match inbox[0] {
          case BatchMsg(_) =>
            SignalAhead(answers.cell, b.inbox, received + 1);
            drained := ReceiveBatch(None, drained, b);
          case DrainMsg(_) =>
            var deadline := ReceiveDrain(drained, b);
            exit, abandoned, expiry := RunDrainPhase(deadline, drained, b);
            return;
        }
      }
    }
  }

  /** What the signal is: the first loop head that finds the cell written, or the
      message after the first `Drain`, whichever is met first. */
  lemma {:induction false} SignalIff(cell: nat -> Option<nat>, inbox: seq<Message>, n: nat, at: nat, deadline: nat)
    requires n <= |inbox|
    ensures Signal(cell, inbox, n) == Some((at, deadline)) <==>
      && n <= at <= |inbox|
      && (|| ((forall k :: n <= k < at ==> cell(k).None? && inbox[k].BatchMsg?) && cell(at) == Some(deadline))
          || (n < at && (forall k :: n <= k < at ==> cell(k).None?) && inbox[at - 1] == DrainMsg(deadline)
              && forall k :: n <= k < at - 1 ==> inbox[k].BatchMsg?))
    decreases |inbox| - n
  {
    if cell(n).None? && n < |inbox| && inbox[n].BatchMsg? {
      SignalIff(cell, inbox, n + 1, at, deadline);
    }
  }

  /** The drain phase never begins in the past; and what one loop head decides. */
  lemma {:induction false} SignalAhead(cell: nat -> Option<nat>, inbox: seq<Message>, n: nat)
    requires n <= |inbox|
    ensures var s := Signal(cell, inbox, n);
      && (s.Some? ==> n <= s.value.0)
      && (cell(n).Some? ==> s == Some((n, cell(n).value)))
      && (cell(n).None? && n == |inbox| ==> s.None?)
      && (cell(n).None? && n < |inbox| ==>
            s == if inbox[n].DrainMsg? then Some((n + 1, inbox[n].deadline)) else Signal(cell, inbox, n + 1))
    decreases |inbox| - n
  {
    if cell(n).None? && n < |inbox| && inbox[n].BatchMsg? {
      SignalAhead(cell, inbox, n + 1);
    }
  }
}
