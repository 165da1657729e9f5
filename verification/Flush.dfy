/** Handing a batch to the shipper: the four arms of `try_send_batch`. */
module Flushing {
  import opened Accounting
  import opened TraceModel
  import opened Pipeline
  import opened PipelineBudget

  /** The bounded channel, seen from the sending side. */
  class Channel {
    const capacity: nat
    var queue: seq<Message>
    var senderInstalled: bool
    var receiverGone: bool

    constructor (capacity: nat)
      ensures this.capacity == capacity && queue == [] && senderInstalled && !receiverGone
    {
      this.capacity := capacity;
      queue, senderInstalled, receiverGone := [], true, false;
    }

    predicate Open()
      reads this
    {
      senderInstalled && !receiverGone
    }

    predicate Accepts()
      reads this
    {
      Open() && |queue| < capacity
    }

    predicate Full()
      reads this
    {
      Open() && |queue| >= capacity
    }
  }

  /** Budget bytes that neither the queue nor the holder of `held` bytes accounts for. */
  ghost function Surplus(budget: Budget, channel: Channel, held: int): Word
    reads budget, channel
  {
    Wrap(budget.bytes - QueueBytes(channel.queue) - held)
  }

  lemma OneMessage(batch: Batch)
    ensures QueueBytes([BatchMsg(batch)]) == batch.sizeEstimate
  {
  }

  /** `try_send_batch`: queued, or given back. Its bytes are accounted for on every
      arm; its records are counted on the full arm only. */
  method TrySendBatch(batch: Batch, channel: Channel, budget: Budget, counters: DropCounters)
    modifies channel`queue, budget, counters
    ensures channel.queue == old(channel.queue) + if old(channel.Accepts()) then [BatchMsg(batch)] else []
    ensures budget.bytes ==
      if old(channel.Accepts()) then old(budget.bytes) else Wrap(old(budget.bytes) - batch.sizeEstimate)
    ensures Surplus(budget, channel, 0) == old(Surplus(budget, channel, batch.sizeEstimate))
    ensures if old(channel.Full())
      then CountOf(counters.counts, batch.traceId) == Wrap(CountOf(old(counters.counts), batch.traceId) + |batch.calls|)
      else counters.counts == old(counters.counts)
    ensures forall id :: id != batch.traceId ==> CountOf(counters.counts, id) == CountOf(old(counters.counts), id)
  {
    hide Wrap, QueueBytes;
    QueueBytesSnoc(channel.queue, BatchMsg(batch));
    OneMessage(batch);
    WrapAdd(budget.bytes - batch.sizeEstimate, 0 - QueueBytes(channel.queue));
    if !channel.senderInstalled {
      budget.Sub(batch.sizeEstimate);
    } else if channel.receiverGone {
      budget.Sub(batch.sizeEstimate);
    } else if |channel.queue| >= channel.capacity {
      budget.Sub(batch.sizeEstimate);
      counters.Bump(batch.traceId, |batch.calls|);
    } else {
      channel.queue := channel.queue + [BatchMsg(batch)];
    }
  }
}
