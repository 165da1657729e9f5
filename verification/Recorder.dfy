/** The live trace as the request thread updates it, each method against its
    function on trace values. */
module Recorder {
  import opened Wrappers
  import opened Numerals
  import opened Text
  import opened FunctionKeys
  import opened CallSites
  import opened Dictionaries
  import opened Accounting
  import opened TraceModel
  import opened LazyPath
  import opened Pipeline
  import opened PipelineBudget
  import opened Flushing

  class LiveTrace {
    const id: nat
    const limits: TraceLimits
    const dictionary: Dictionary
    const budget: Budget
    const counters: DropCounters
    const channel: Channel
    var callIdSeq: nat
    var stack: seq<CallFrame>
    var buffer: seq<CallRecord>
    var estimated: nat
    var virtualDepth: nat
    var droppedBegins: nat

    ghost predicate Valid()
      reads this, dictionary
    {
      dictionary.Valid()
    }

    ghost function View(): Trace
      reads this, dictionary
    {
      Trace(id, limits, callIdSeq, stack, buffer, dictionary.View(), estimated, virtualDepth, droppedBegins)
    }

    /** Budget bytes nobody accounts for: every method leaves them alone. */
    ghost function Unowned(): Word
      reads this, budget, channel
    {
      Surplus(budget, channel, estimated)
    }

    /** `Trace::new`. */
    constructor (id: nat, limits: TraceLimits, hasher: Hasher, budget: Budget, counters: DropCounters, channel: Channel)
      ensures Valid() && fresh(dictionary) && View() == NewTrace(id, limits)
      ensures this.budget == budget && this.counters == counters && this.channel == channel
    {
      this.id, this.limits, this.budget, this.counters, this.channel := id, limits, budget, counters, channel;
      dictionary := new Dictionary(hasher);
      callIdSeq, stack, buffer, estimated, virtualDepth, droppedBegins := 0, [], [], 0, 0, 0;
    }

    /** Bill bytes to this trace and to the process. */
    method Bill(n: nat)
      modifies this`estimated, budget
      ensures View() == old(View()).(estimated := old(View()).estimated + n)
      ensures Unowned() == old(Unowned())
    {
      hide Wrap;
      WrapAdd(budget.bytes + n, 0 - QueueBytes(channel.queue) - (estimated + n));
      estimated := estimated + n;
      budget.Add(n);
    }

    /** `record_drop`. */
    method RecordDrop()
      requires Valid()
      modifies this`droppedBegins, counters
      ensures Valid() && View() == TraceModel.RecordDrop(old(View()))
      ensures CountOf(counters.counts, id) == Wrap(CountOf(old(counters.counts), id) + 1)
      ensures forall other :: other != id ==> CountOf(counters.counts, other) == CountOf(old(counters.counts), other)
    {
      counters.Bump(id, 1);
      droppedBegins := SatIncU32(droppedBegins);
    }

    /** `push_record`. */
    method PushRecord(record: CallRecord)
      requires Valid()
      modifies this`buffer, this`estimated, budget
      ensures Valid()
      ensures View() == old(View()).(buffer := old(View()).buffer + [record],
                                     estimated := old(View()).estimated + CALL_RECORD_FIXED_BYTES)
      ensures Unowned() == old(Unowned())
    {
      buffer := buffer + [record];
      Bill(CALL_RECORD_FIXED_BYTES);
    }

    /** `flush_into_pending_batch`: the batch takes over what the trace owed. */
    method FlushIntoPendingBatch() returns (batch: Batch)
      requires Valid()
      modifies this`buffer, this`estimated, dictionary
      ensures Valid() && (View(), batch) == TakeBatch(old(View()))
    {
      var size := estimated;
      var calls := buffer;
      buffer := [];
      var dict := dictionary.TakeNewEntries();
      estimated := 0;
      batch := Batch(id, dict, calls, size);
    }

    // --- begin ---------------------------------------------------------------------

    /** `dict_miss_cost_ref`. */
    method DictMissCostRef(cat: Categorised) returns (cost: nat)
      requires Valid()
      ensures cost == MissCost(View().dict, cat)
    {
      hide Utf8Len;
      var known := dictionary.ContainsKeyRef(AsRef(cat.key));
      cost := if known then 0 else DICT_ENTRY_FIXED_BYTES + Utf8Len(cat.fqn) + Utf8Len(cat.file);
    }

    /** `begin_would_accept`, deciding on the process-wide budget. */
    method BeginWouldAccept(cat: Categorised) returns (accepted: bool)
      requires Valid()
      modifies this`virtualDepth, this`droppedBegins, counters
      ensures Valid() && (View(), accepted) == BeginGate(old(View()), cat, budget.bytes)
      ensures CountOf(counters.counts, id) == Wrap(CountOf(old(counters.counts), id) + if accepted then 0 else 1)
      ensures forall other :: other != id ==> CountOf(counters.counts, other) == CountOf(old(counters.counts), other)
      ensures Unowned() == old(Unowned())
    {
      hide Sound, MissCost, SatAddUsize;
      virtualDepth := SatIncU32(virtualDepth);
      if virtualDepth > limits.maxDepth {
        RecordDrop();
        return false;
      }
      var missCost := DictMissCostRef(cat);
      var wouldAdd := CALL_RECORD_FIXED_BYTES + missCost;
      var snapshot := budget.Snapshot();
      if SatAddUsize(snapshot, wouldAdd) > limits.bufferCap {
        RecordDrop();
        return false;
      }
      accepted := true;
    }

    /** `begin_lazy_would_accept`: no name is rendered. */
    method BeginLazyWouldAccept(lazy: LazyCategorised) returns (accepted: bool)
      requires Valid()
      modifies this`virtualDepth, this`droppedBegins, counters
      ensures Valid() && (View(), accepted) == BeginLazyGate(old(View()), lazy, budget.bytes)
      ensures CountOf(counters.counts, id) == Wrap(CountOf(old(counters.counts), id) + if accepted then 0 else 1)
      ensures forall other :: other != id ==> CountOf(counters.counts, other) == CountOf(old(counters.counts), other)
      ensures Unowned() == old(Unowned())
    {
      hide Sound, Utf8Len, RenderLen;
      virtualDepth := SatIncU32(virtualDepth);
      if virtualDepth > limits.maxDepth {
        RecordDrop();
        return false;
      }
      var known := dictionary.ContainsKeyRef(lazy.keyRef);
      var wouldAdd := if known then CALL_RECORD_FIXED_BYTES
        else CALL_RECORD_FIXED_BYTES + DICT_ENTRY_FIXED_BYTES + RenderLen(lazy.fqnSpec) + Utf8Len(lazy.file);
      var snapshot := budget.Snapshot();
      if SatAddUsize(snapshot, wouldAdd) > limits.bufferCap {
        RecordDrop();
        return false;
      }
      accepted := true;
    }

    /** `push_dict_entry_via_intern_ref`: a miss is billed by the entry it stages. */
    method PushDictEntryViaInternRef(r: FunctionKeyRef, build: nat -> (FunctionKey, DictEntry)) returns (fnId: nat)
      requires Valid()
      modifies this`estimated, dictionary, budget
      ensures Unowned() == old(Unowned())
      ensures ToOwned(r) !in old(View()).dict.keys ==>
        && fnId == |old(View()).dict.keys| + 1
        && View().dict == Dict(old(View()).dict.keys + [build(fnId).0], old(View()).dict.staged + [build(fnId).1])
      ensures ToOwned(r) in old(View()).dict.keys || build(fnId).0 == ToOwned(r) ==>
        Valid() && (View().dict, fnId) == InternSpec(old(View()).dict, ToOwned(r), (n: nat) => build(n).1)
      ensures View() == old(View()).(dict := View().dict, estimated := View().estimated)
      ensures View().estimated == old(View()).estimated
        + if ToOwned(r) in old(View()).dict.keys then 0
          else
            var entry := build(fnId).1;
            DICT_ENTRY_FIXED_BYTES + Utf8Len(entry.fqn) + Utf8Len(entry.file)
    {
      hide Sound, InternSpec, Utf8Len, Wrap;
      var outcome;
      fnId, outcome := dictionary.InternRef(r, build);
      if outcome == Miss {
        var entry := build(fnId).1;
        Bill(DICT_ENTRY_FIXED_BYTES + Utf8Len(entry.fqn) + Utf8Len(entry.file));
      }
    }

    /** The accept tail of both begins: next id, parent, depth, function id, frame. */
    method OpenFrame(r: FunctionKeyRef, build: nat -> (FunctionKey, DictEntry), entry: EntrySnapshots)
      requires Valid() && virtualDepth > 0
      requires forall n :: build(n).0 == ToOwned(r)
      modifies this`callIdSeq, this`stack, this`estimated, dictionary, budget
      ensures Valid() && View() == Opening(old(View()), ToOwned(r), (n: nat) => build(n).1, entry)
      ensures Unowned() == old(Unowned())
    {
      hide Sound, IdOf, InternSpec, Utf8Len, Surplus, CastU16, TopId, ToOwned;
      callIdSeq := callIdSeq + 1;
      var parent := TopId(stack);
      var depth := CastU16(virtualDepth - 1);
      var fnId := PushDictEntryViaInternRef(r, build);
      stack := stack + [CallFrame(callIdSeq, parent, fnId, depth, entry)];
    }

    /** `begin_with_snapshots_accept`. */
    method BeginAccept(cat: Categorised, entry: EntrySnapshots)
      requires Valid() && virtualDepth > 0
      modifies this`callIdSeq, this`stack, this`estimated, dictionary, budget
      ensures Valid() && View() == TraceModel.BeginAccept(old(View()), cat, entry).0
      ensures Unowned() == old(Unowned())
    {
      assert ToOwned(AsRef(cat.key)) == cat.key;
      hide Sound, Opening, TraceModel.BeginAccept, Surplus;
      var build := (n: nat) => (cat.key, EntryFor(n, cat));
      AcceptIsOpening(View(), cat, entry, (n: nat) => build(n).1);
      OpenFrame(AsRef(cat.key), build, entry);
    }

    /** `begin_with_snapshots_lazy_accept`: the name is rendered inside the miss. */
    method BeginLazyAccept(lazy: LazyCategorised, entry: EntrySnapshots)
      requires Valid() && virtualDepth > 0
      modifies this`callIdSeq, this`stack, this`estimated, dictionary, budget
      ensures Valid() && View() == LazyPath.BeginLazyAccept(old(View()), lazy, entry).0
      ensures Unowned() == old(Unowned())
    {
      hide Sound, Opening, LazyPath.BeginLazyAccept, Surplus;
      var build := (n: nat) => (ToOwned(lazy.keyRef), RenderedEntry(n, lazy));
      LazyAcceptIsOpening(View(), lazy, entry, (n: nat) => build(n).1);
      OpenFrame(lazy.keyRef, build, entry);
    }

    /** `begin_with_snapshots`. */
    method BeginWithSnapshots(cat: Categorised, entry: EntrySnapshots) returns (ghost accepted: bool)
      requires Valid()
      modifies this`callIdSeq, this`stack, this`estimated, this`virtualDepth, this`droppedBegins
      modifies dictionary, budget, counters
      ensures Valid() && (View(), accepted) == Begin(old(View()), cat, entry, old(budget.bytes))
      ensures CountOf(counters.counts, id) == Wrap(CountOf(old(counters.counts), id) + if accepted then 0 else 1)
      ensures forall other :: other != id ==> CountOf(counters.counts, other) == CountOf(old(counters.counts), other)
      ensures Unowned() == old(Unowned())
    {
      hide BeginGate, TraceModel.BeginAccept, Surplus;
      var ok := BeginWouldAccept(cat);
      accepted := ok;
      if ok {
        BeginAccept(cat, entry);
      }
    }

    /** `begin_with_snapshots_lazy`, the production begin. */
    method BeginWithSnapshotsLazy(lazy: LazyCategorised, entry: EntrySnapshots) returns (ghost accepted: bool)
      requires Valid()
      modifies this`callIdSeq, this`stack, this`estimated, this`virtualDepth, this`droppedBegins
      modifies dictionary, budget, counters
      ensures Valid() && (View(), accepted) == BeginLazy(old(View()), lazy, entry, old(budget.bytes))
      ensures CountOf(counters.counts, id) == Wrap(CountOf(old(counters.counts), id) + if accepted then 0 else 1)
      ensures forall other :: other != id ==> CountOf(counters.counts, other) == CountOf(old(counters.counts), other)
      ensures Unowned() == old(Unowned())
    {
      hide BeginLazyGate, LazyPath.BeginLazyAccept, Surplus;
      var ok := BeginLazyWouldAccept(lazy);
      accepted := ok;
      if ok {
        BeginLazyAccept(lazy, entry);
      }
    }

    // --- end -----------------------------------------------------------------------

    /** `end_would_accept`. */
    method EndWouldAccept() returns (accepted: bool)
      requires Valid()
      modifies this`virtualDepth, this`droppedBegins
      ensures Valid() && (View(), accepted) == EndGate(old(View()))
      ensures Unowned() == old(Unowned())
    {
      virtualDepth := SatDec(virtualDepth);
      if droppedBegins > 0 {
        droppedBegins := droppedBegins - 1;
        return false;
      }
      accepted := true;
    }

    /** Build the pending batch and hand it off. */
    method HandOff(ghost before: Trace)
      requires Valid() && View() == before
      modifies this`buffer, this`estimated, dictionary, channel`queue, budget, counters
      ensures Valid() && View() == TakeBatch(before).0
      ensures Sent(old(channel.queue), channel.queue, old(channel.Accepts()), Some(TakeBatch(before).1))
      ensures Counted(old(counters.counts), counters.counts, old(channel.Full()), Some(TakeBatch(before).1))
      ensures Unowned() == old(Unowned())
    {
      hide Wrap, QueueBytes;
      var batch := FlushIntoPendingBatch();
      TrySendBatch(batch, channel, budget, counters);
    }

    /** `finish_call_record`: the record, then one look at the thresholds. */
    method FinishCallRecord(popped: Option<CallFrame>, exit: ExitSnapshots, abnormal: bool, ghost before: Trace)
      requires Valid()
      requires if popped.Some? then before.stack == stack + [popped.value] else before.stack == stack == []
      requires View() == before.(stack := stack)
      modifies this`buffer, this`estimated, dictionary, channel`queue, budget, counters
      ensures Valid() && View() == EndAccept(before, exit, abnormal).0
      ensures Sent(old(channel.queue), channel.queue, old(channel.Accepts()), EndAccept(before, exit, abnormal).1)
      ensures Counted(old(counters.counts), counters.counts, old(channel.Full()), EndAccept(before, exit, abnormal).1)
      ensures Unowned() == old(Unowned())
      ensures popped.Some? ==>
        var batch := EndAccept(before, exit, abnormal).1;
        var all := if batch.Some? then batch.value.calls else buffer;
        && |all| == |before.buffer| + 1 && all[..|before.buffer|] == before.buffer
        && RecordsFrame(all[|before.buffer|], popped.value, exit, abnormal)
    {
      hide Surplus;
      match popped {
        case None =>
          return;
        case Some(frame) =>
          assert before.stack[..|before.stack| - 1] == stack && before.stack[|before.stack| - 1] == frame;
          var cpuU := CpuDelta(exit.cpuUNow, frame.entry.cpuUIn);
          var cpuS := CpuDelta(exit.cpuSNow, frame.entry.cpuSIn);
          var record := CallRecord(frame.callId, frame.parent, frame.fnId, frame.depth, frame.entry.tIn, exit.tOut,
                                   cpuU, cpuS, frame.entry.memIn, exit.memOut, abnormal);
          RecordOfIff(record, frame, exit, abnormal);
          assert record == RecordOf(frame, exit, abnormal);
          hide RecordOf, CpuDelta, RecordsFrame;
          PushRecord(record);
          assert View() == PopRecord(before, exit, abnormal);
          if |buffer| >= limits.flushRecords || estimated >= limits.flushBytes {
            HandOff(PopRecord(before, exit, abnormal));
          }
      }
    }

    /** `end_with_snapshots`. */
    method EndWithSnapshots(exit: ExitSnapshots, abnormal: bool)
      requires Valid()
      modifies this`virtualDepth, this`droppedBegins, this`stack, this`buffer, this`estimated, dictionary
      modifies channel`queue, budget, counters
      ensures Valid() && View() == End(old(View()), exit, abnormal).0
      ensures Sent(old(channel.queue), channel.queue, old(channel.Accepts()), End(old(View()), exit, abnormal).1)
      ensures Counted(old(counters.counts), counters.counts, old(channel.Full()), End(old(View()), exit, abnormal).1)
      ensures Unowned() == old(Unowned())
    {
      hide Surplus, EndAccept;
      var accepted := EndWouldAccept();
      if accepted {
        ghost var before := View();
        var popped := None;
        if stack != [] {
          popped := Some(stack[|stack| - 1]);
          stack := stack[..|stack| - 1];
        }
        FinishCallRecord(popped, exit, abnormal, before);
      }
    }

    // --- shutdown ------------------------------------------------------------------

    /** `into_abnormal_call_record`. */
    static method IntoAbnormalCallRecord(frame: CallFrame, exit: ExitSnapshots) returns (record: CallRecord)
      ensures RecordsFrame(record, frame, exit, true) && record == RecordOf(frame, exit, true)
    {
      var cpuU := CpuDelta(exit.cpuUNow, frame.entry.cpuUIn);
      var cpuS := CpuDelta(exit.cpuSNow, frame.entry.cpuSIn);
      record := CallRecord(frame.callId, frame.parent, frame.fnId, frame.depth, frame.entry.tIn, exit.tOut, cpuU, cpuS,
                           frame.entry.memIn, exit.memOut, true);
      RecordOfIff(record, frame, exit, true);
    }

    /** `drain_open_frames_into_buffer`. */
    method DrainOpenFramesIntoBuffer(exit: ExitSnapshots)
      requires Valid()
      modifies this`stack, this`buffer, this`estimated, budget
      ensures Valid() && View() == Drain(old(View()), exit)
      ensures DrainedFrom(old(stack), old(buffer), buffer, exit)
      ensures Unowned() == old(Unowned())
    {
      hide Surplus, RecordOf, RecordsFrame, DrainedFrom;
      DrainedNothing(buffer, exit);
      assert stack[|stack|..] == [];
      while stack != []
        invariant Valid() && Drain(View(), exit) == Drain(old(View()), exit)
        invariant Unowned() == old(Unowned())
        invariant stack <= old(stack) && DrainedFrom(old(stack)[|stack|..], old(buffer), buffer, exit)
        decreases |stack|
      {
        ghost var before := View();
        var frame := stack[|stack| - 1];
        stack := stack[..|stack| - 1];
        var record := IntoAbnormalCallRecord(frame, exit);
        DrainedMore(old(stack), |stack|, old(buffer), buffer, record, exit);
        PushRecord(record);
        assert View() == PopRecord(before, exit, true);
      }
    }

    /** `rshutdown_release_trace`, for the trace taken off the thread. */
    method Release(exit: ExitSnapshots)
      requires Valid()
      modifies this`stack, this`buffer, this`estimated, dictionary, channel`queue, budget, counters
      ensures Valid() && View() == Shutdown(old(View()), exit).0
      ensures Sent(old(channel.queue), channel.queue, old(channel.Accepts()), Shutdown(old(View()), exit).1)
      ensures Counted(old(counters.counts), counters.counts, old(channel.Full()), Shutdown(old(View()), exit).1)
      ensures Surplus(budget, channel, 0) == old(Unowned())
    {
      hide Drain, TakeBatch, QueueBytes;
      DrainOpenFramesIntoBuffer(exit);
      if buffer != [] {
        HandOff(Drain(old(View()), exit));
      }
      GiveBack();
    }

    /** The last subtraction of a trace. */
    method GiveBack()
      modifies budget
      ensures Surplus(budget, channel, 0) == old(Unowned())
    {
      hide QueueBytes, Wrap;
      WrapAdd(budget.bytes - estimated, 0 - QueueBytes(channel.queue));
      budget.Sub(estimated);
    }
  }

  /** One abnormal record per frame, top first, behind what was buffered. */
  ghost predicate DrainedFrom(frames: seq<CallFrame>, before: seq<CallRecord>, after: seq<CallRecord>,
                              exit: ExitSnapshots)
  {
    && |after| == |before| + |frames| && before <= after
    && forall i :: 0 <= i < |frames| ==> RecordsFrame(after[|after| - 1 - i], frames[i], exit, true)
  }

  lemma DrainedNothing(buffer: seq<CallRecord>, exit: ExitSnapshots)
    ensures DrainedFrom([], buffer, buffer, exit)
  {
  }

  lemma DrainedMore(frames: seq<CallFrame>, k: nat, before: seq<CallRecord>, after: seq<CallRecord>,
                    record: CallRecord, exit: ExitSnapshots)
    requires k < |frames| && DrainedFrom(frames[k + 1..], before, after, exit)
    requires RecordsFrame(record, frames[k], exit, true)
    ensures DrainedFrom(frames[k..], before, after + [record], exit)
  {
    hide RecordsFrame;
    assert frames[k..] == [frames[k]] + frames[k + 1..];
  }

  /** The batch joined the queue, unless there was none or the channel refused it. */
  ghost predicate Sent(before: seq<Message>, after: seq<Message>, accepts: bool, batch: Option<Batch>) {
    after == before + if batch.Some? && accepts then [BatchMsg(batch.value)] else []
  }

  /** The batch's records were counted as dropped, when the channel was full. */
  ghost predicate Counted(before: map<nat, Word>, after: map<nat, Word>, full: bool, batch: Option<Batch>) {
    if batch.None? || !full then after == before
    else
      && CountOf(after, batch.value.traceId) == Wrap(CountOf(before, batch.value.traceId) + |batch.value.calls|)
      && forall id :: id != batch.value.traceId ==> CountOf(after, id) == CountOf(before, id)
  }

  /** A frame opened for `key`, its entry built by `f` and billed on a miss. */
  ghost function Opening(t: Trace, key: FunctionKey, f: nat -> DictEntry, entry: EntrySnapshots): Trace
    requires t.virtualDepth > 0
  {
    var (dict, fnId) := InternSpec(t.dict, key, f);
    var frame := CallFrame(t.callIdSeq + 1, TopId(t.stack), fnId, CastU16(t.virtualDepth - 1), entry);
    var billed := if key in t.dict.keys then 0
                  else DICT_ENTRY_FIXED_BYTES + Utf8Len(f(fnId).fqn) + Utf8Len(f(fnId).file);
    t.(callIdSeq := t.callIdSeq + 1, stack := t.stack + [frame], dict := dict, estimated := t.estimated + billed)
  }

  lemma AcceptIsOpening(t: Trace, cat: Categorised, entry: EntrySnapshots, f: nat -> DictEntry)
    requires t.virtualDepth > 0 && forall n :: f(n) == EntryFor(n, cat)
    ensures TraceModel.BeginAccept(t, cat, entry).0 == Opening(t, cat.key, f, entry)
  {
    hide Utf8Len, CastU16, TopId, IdOf;
  }

  lemma LazyAcceptIsOpening(t: Trace, lazy: LazyCategorised, entry: EntrySnapshots, f: nat -> DictEntry)
    requires t.virtualDepth > 0 && forall n :: f(n) == RenderedEntry(n, lazy)
    ensures LazyPath.BeginLazyAccept(t, lazy, entry).0 == Opening(t, ToOwned(lazy.keyRef), f, entry)
  {
    hide Utf8Len, Render, CastU16, TopId, ToOwned, IdOf;
  }

  /** The thread's slot for the live trace. */
  class RequestThread {
    const budget: Budget
    const counters: DropCounters
    const channel: Channel
    var current: LiveTrace?

    constructor (budget: Budget, counters: DropCounters, channel: Channel)
      ensures current == null && this.budget == budget && this.counters == counters && this.channel == channel
    {
      this.budget, this.counters, this.channel, current := budget, counters, channel, null;
    }

    ghost predicate Valid()
      reads this, current, if current != null then {current.dictionary} else {}
    {
      current != null ==>
        current.Valid() && current.budget == budget && current.counters == counters && current.channel == channel
    }

    /** Budget bytes neither the live trace nor the queue accounts for. */
    ghost function Unowned(): Word
      reads this, current, budget, channel
    {
      Surplus(budget, channel, if current == null then 0 else current.estimated)
    }

    /** `rinit_allocate_trace`: a trace left over gives its bytes back first. */
    method RinitAllocateTrace(id: nat, limits: TraceLimits, hasher: Hasher)
      requires Valid()
      modifies this`current, budget
      ensures Valid() && current != null && fresh(current) && current.View() == NewTrace(id, limits)
      ensures Unowned() == old(Unowned())
    {
      hide QueueBytes, Wrap;
      if current != null {
        current.GiveBack();
      }
      current := new LiveTrace(id, limits, hasher, budget, counters, channel);
    }

    /** `rshutdown_release_trace`: nothing of the request stays in the budget. */
    method RshutdownReleaseTrace(exit: ExitSnapshots)
      requires Valid()
      modifies this`current, current, if current != null then {current.dictionary} else {}
      modifies channel`queue, budget, counters
      ensures Valid() && current == null
      ensures old(current) != null ==>
        && old(current).View() == Shutdown(old(current.View()), exit).0
        && Sent(old(channel.queue), channel.queue, old(channel.Accepts()), Shutdown(old(current.View()), exit).1)
        && Counted(old(counters.counts), counters.counts, old(channel.Full()), Shutdown(old(current.View()), exit).1)
      ensures Unowned() == old(Unowned())
    {
      hide Surplus, Shutdown;
      var trace := current;
      current := null;
      if trace != null {
        trace.Release(exit);
      }
    }
  }
}
