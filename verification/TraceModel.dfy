/** The per-request trace as a value: the gates, the accept tails, the flush
    and the shutdown drain, each as a function of the state before it. */
module TraceModel {
  import opened Wrappers
  import opened Numerals
  import opened Text
  import opened CallSites
  import opened Dictionaries

  datatype EntrySnapshots = EntrySnapshots(tIn: Int64, cpuUIn: Int64, cpuSIn: Int64, memIn: Int64)

  datatype ExitSnapshots = ExitSnapshots(tOut: Int64, cpuUNow: Int64, cpuSNow: Int64, memOut: Int64)

  datatype CallFrame = CallFrame(callId: nat, parent: nat, fnId: nat, depth: UInt16, entry: EntrySnapshots)

  datatype CallRecord = CallRecord(
    callId: nat, parent: nat, fnId: nat, depth: UInt16,
    tIn: Int64, tOut: Int64, cpuU: Int64, cpuS: Int64, memIn: Int64, memOut: Int64,
    abnormal: bool)

  /** `maxDepth` is the `u16` directive the source widens to `u32`. */
  datatype TraceLimits = TraceLimits(maxDepth: UInt16, bufferCap: nat, flushRecords: nat, flushBytes: nat)

  /** `traceId` stands for the trace metadata and for the shared drop counter. */
  datatype Batch = Batch(traceId: nat, dict: seq<DictEntry>, calls: seq<CallRecord>, sizeEstimate: nat)

  datatype Trace = Trace(
    id: nat,
    limits: TraceLimits,
    callIdSeq: nat,
    stack: seq<CallFrame>,
    buffer: seq<CallRecord>,
    dict: Dict,
    estimated: nat,
    virtualDepth: nat,
    droppedBegins: nat)

  function NewTrace(id: nat, limits: TraceLimits): Trace {
    Trace(id, limits, 0, [], [], EMPTY_DICT, 0, 0, 0)
  }

  // --- Size estimate ---------------------------------------------------------

  const CALL_RECORD_FIXED_BYTES: nat := 64
  const DICT_ENTRY_FIXED_BYTES: nat := 24

  function DictBytes(dict: seq<DictEntry>): nat {
    if dict == [] then 0
    else
      var e := dict[|dict| - 1];
      DictBytes(dict[..|dict| - 1]) + DICT_ENTRY_FIXED_BYTES + Utf8Len(e.fqn) + Utf8Len(e.file)
  }

  /** `estimate_batch_bytes`. */
  function EstimateBatchBytes(dict: seq<DictEntry>, calls: seq<CallRecord>): nat {
    DictBytes(dict) + |calls| * CALL_RECORD_FIXED_BYTES
  }

  // --- begin -------------------------------------------------------------------

  /** `dict_miss_cost_ref`. */
  function MissCost(d: Dict, cat: Categorised): nat {
    if cat.key in d.keys then 0 else DICT_ENTRY_FIXED_BYTES + Utf8Len(cat.fqn) + Utf8Len(cat.file)
  }

  function WouldAdd(d: Dict, cat: Categorised): nat { CALL_RECORD_FIXED_BYTES + MissCost(d, cat) }

  /** `usize::saturating_add`. */
  function SatAddUsize(x: nat, y: nat): nat { Min(x + y, U64_MAX) }

  predicate CapAdmits(limits: TraceLimits, snapshot: nat, wouldAdd: nat) {
    SatAddUsize(snapshot, wouldAdd) <= limits.bufferCap
  }

  /** `record_drop`, the trace-local half; the caller bumps the shared counter. */
  function RecordDrop(t: Trace): Trace { t.(droppedBegins := SatIncU32(t.droppedBegins)) }

  /** `begin_would_accept`: `snapshot` is the process-wide budget the gate read. */
  function BeginGate(t: Trace, cat: Categorised, snapshot: nat): (r: (Trace, bool))
    ensures r.1 ==> 0 < r.0.virtualDepth <= t.limits.maxDepth
  {
    var t1 := t.(virtualDepth := SatIncU32(t.virtualDepth));
    if t1.virtualDepth > t1.limits.maxDepth then (RecordDrop(t1), false)
    else if !CapAdmits(t1.limits, snapshot, WouldAdd(t1.dict, cat)) then (RecordDrop(t1), false)
    else (t1, true)
  }

  function TopId(stack: seq<CallFrame>): nat {
    if stack == [] then 0 else stack[|stack| - 1].callId
  }

  /** `begin_with_snapshots_accept`; also returns the bytes billed for a dictionary miss. */
  function BeginAccept(t: Trace, cat: Categorised, entry: EntrySnapshots): (r: (Trace, nat))
    requires t.virtualDepth > 0
  {
    var (dict, fnId) := InternSpec(t.dict, cat.key, (n: nat) => EntryFor(n, cat));
    var frame := CallFrame(t.callIdSeq + 1, TopId(t.stack), fnId, CastU16(t.virtualDepth - 1), entry);
    var billed := MissCost(t.dict, cat);
    (t.(callIdSeq := t.callIdSeq + 1, stack := t.stack + [frame], dict := dict, estimated := t.estimated + billed),
     billed)
  }

  /** `begin_with_snapshots`. */
  function Begin(t: Trace, cat: Categorised, entry: EntrySnapshots, snapshot: nat): (r: (Trace, bool)) {
    var (t1, accepted) := BeginGate(t, cat, snapshot);
    (if accepted then BeginAccept(t1, cat, entry).0 else t1, accepted)
  }

  // --- end ---------------------------------------------------------------------

  /** `end_would_accept`. */
  function EndGate(t: Trace): (Trace, bool) {
    var t1 := t.(virtualDepth := SatDec(t.virtualDepth));
    if t1.droppedBegins > 0 then (t1.(droppedBegins := t1.droppedBegins - 1), false) else (t1, true)
  }

  /** The record a frame becomes; `into_abnormal_call_record` is the `abnormal` case. */
  function RecordOf(f: CallFrame, exit: ExitSnapshots, abnormal: bool): CallRecord {
    CallRecord(f.callId, f.parent, f.fnId, f.depth, f.entry.tIn, exit.tOut,
               CpuDelta(exit.cpuUNow, f.entry.cpuUIn), CpuDelta(exit.cpuSNow, f.entry.cpuSIn),
               f.entry.memIn, exit.memOut, abnormal)
  }

  /** What elapsed between two CPU readings, as a record tells it: never negative,
      never past `i64::MAX`. */
  predicate Elapsed(told: int, from: int, to: int) { told == Max(0, Min(to - from, 0x7FFF_FFFF_FFFF_FFFF)) }

  /** `c` tells of a call that began with `entry` and ended with `exit`: begin values
      at the begin, end values at the end, user and system time each from its own readings. */
  predicate Tells(c: CallRecord, entry: EntrySnapshots, exit: ExitSnapshots, abnormal: bool) {
    && c.tIn == entry.tIn && c.tOut == exit.tOut && c.memIn == entry.memIn && c.memOut == exit.memOut
    && Elapsed(c.cpuU, entry.cpuUIn, exit.cpuUNow) && Elapsed(c.cpuS, entry.cpuSIn, exit.cpuSNow)
    && c.abnormal == abnormal
  }

  /** `c` is the record of frame `f`: its identity, and what `Tells` says. */
  predicate RecordsFrame(c: CallRecord, f: CallFrame, exit: ExitSnapshots, abnormal: bool) {
    && c.callId == f.callId && c.parent == f.parent && c.fnId == f.fnId && c.depth == f.depth
    && Tells(c, f.entry, exit, abnormal)
  }

  /** A frame becomes the one record with these fields. */
  lemma RecordOfIff(c: CallRecord, f: CallFrame, exit: ExitSnapshots, abnormal: bool)
    ensures c == RecordOf(f, exit, abnormal) <==> RecordsFrame(c, f, exit, abnormal)
  {
  }

  /** Pop the top frame and `push_record` what it becomes. */
  function PopRecord(t: Trace, exit: ExitSnapshots, abnormal: bool): Trace
    requires t.stack != []
  {
    var top := |t.stack| - 1;
    t.(stack := t.stack[..top],
       buffer := t.buffer + [RecordOf(t.stack[top], exit, abnormal)],
       estimated := t.estimated + CALL_RECORD_FIXED_BYTES)
  }

  datatype FlushTrigger = ByRecords | ByBytes | AtShutdown

  /** `flush_predicate_trigger`. */
  function Trigger(t: Trace): Option<FlushTrigger> {
    if |t.buffer| >= t.limits.flushRecords then Some(ByRecords)
    else if t.estimated >= t.limits.flushBytes then Some(ByBytes)
    else None
  }

  /** `flush_into_pending_batch`. */
  function TakeBatch(t: Trace): (Trace, Batch) {
    (t.(buffer := [], dict := t.dict.(staged := []), estimated := 0),
     Batch(t.id, t.dict.staged, t.buffer, t.estimated))
  }

  /** The threshold check at the accept tail. */
  function MaybeFlush(t: Trace): (Trace, Option<Batch>) {
    if Trigger(t).Some? then
      var (t1, batch) := TakeBatch(t);
      (t1, Some(batch))
    else (t, None)
  }

  /** `end_with_snapshots_accept`: a no-op on an empty stack, with no flush check. */
  function EndAccept(t: Trace, exit: ExitSnapshots, abnormal: bool): (Trace, Option<Batch>) {
    if t.stack == [] then (t, None) else MaybeFlush(PopRecord(t, exit, abnormal))
  }

  /** `end_with_snapshots`. */
  function End(t: Trace, exit: ExitSnapshots, abnormal: bool): (Trace, Option<Batch>) {
    var (t1, accepted) := EndGate(t);
    if accepted then EndAccept(t1, exit, abnormal) else (t1, None)
  }

  // --- shutdown ----------------------------------------------------------------

  /** `drain_open_frames_into_buffer`: top first, one shared exit snapshot, no flush on the way. */
  function Drain(t: Trace, exit: ExitSnapshots): (r: Trace)
    ensures r.stack == []
    decreases |t.stack|
  {
    if t.stack == [] then t else Drain(PopRecord(t, exit, true), exit)
  }

  /** `rshutdown_release_trace` up to the hand-off. */
  function Shutdown(t: Trace, exit: ExitSnapshots): (Trace, Option<Batch>) {
    var t1 := Drain(t, exit);
    if t1.buffer == [] then (t1, None)
    else
      var (t2, batch) := TakeBatch(t1);
      (t2, Some(batch))
  }

  // --- Invariants --------------------------------------------------------------

  /** The estimate is exact, ids are distinct keys' ids, and staged entries
      always belong to a frame still open or a record still buffered. */
  ghost predicate TraceInv(t: Trace) {
    && t.estimated == EstimateBatchBytes(t.dict.staged, t.buffer)
    && Distinct(t.dict.keys)
    && (t.dict.staged != [] ==> t.stack != [] || t.buffer != [])
  }

  ghost predicate BatchInv(b: Batch) {
    b.sizeEstimate == EstimateBatchBytes(b.dict, b.calls)
  }

  /** Depth, open frames and pending drops line up. */
  predicate Matched(t: Trace) {
    t.virtualDepth == |t.stack| + t.droppedBegins && |t.stack| <= t.limits.maxDepth
  }

  lemma NewTraceInv(id: nat, limits: TraceLimits)
    ensures TraceInv(NewTrace(id, limits)) && Matched(NewTrace(id, limits))
  {
  }

  /** The gate's projection is exactly what the call bills: the miss at begin,
      the record when its frame is popped. */
  lemma BeginAcceptInv(t: Trace, cat: Categorised, entry: EntrySnapshots)
    requires TraceInv(t) && t.virtualDepth > 0
    ensures var (t1, billed) := BeginAccept(t, cat, entry);
      && TraceInv(t1)
      && t1.estimated == t.estimated + billed
      && billed + CALL_RECORD_FIXED_BYTES == WouldAdd(t.dict, cat)
      && forall exit, abnormal :: PopRecord(t1, exit, abnormal).estimated == t.estimated + WouldAdd(t.dict, cat)
  {
  }

  /** The drain keeps the estimate exact, so the one batch it ends in carries
      every billed byte, and a shutdown that flushes nothing leaves nothing:
      no staged entry, no byte of the budget. */
  lemma {:induction false} DrainInv(t: Trace, exit: ExitSnapshots)
    requires TraceInv(t)
    ensures TraceInv(Drain(t, exit))
    ensures Drain(t, exit).estimated == t.estimated + |t.stack| * CALL_RECORD_FIXED_BYTES
    ensures Drain(t, exit).dict == t.dict
    decreases |t.stack|
  {
    if t.stack != [] {
      DrainInv(PopRecord(t, exit, true), exit);
    }
  }

  lemma ShutdownLeavesNothing(t: Trace, exit: ExitSnapshots)
    requires TraceInv(t)
    ensures var (t1, batch) := Shutdown(t, exit);
      && t1.estimated == 0 && t1.dict.staged == [] && t1.buffer == [] && t1.stack == []
      && (batch.None? ==> t.estimated == 0 && t.stack == [] && t.dict.staged == [])
      && (batch.Some? ==> BatchInv(batch.value) && batch.value.dict == t.dict.staged
                          && batch.value.sizeEstimate == t.estimated + |t.stack| * CALL_RECORD_FIXED_BYTES)
  {
    DrainInv(t, exit);
  }

  /** The two gates. A begin is accepted exactly when fewer than `max_depth` begins are
      open and what it would bill fits the cap on top of what was read, a cap of
      `usize::MAX` fitting everything; a refused one is one more pending drop. */
  lemma BeginAcceptedIff(t: Trace, cat: Categorised, entry: EntrySnapshots, snapshot: nat)
    ensures var (t1, accepted) := Begin(t, cat, entry, snapshot);
      && (accepted <==>
            && t.virtualDepth < t.limits.maxDepth
            && (t.limits.bufferCap >= 0xFFFF_FFFF_FFFF_FFFF
                || snapshot + 64 + (if cat.key in t.dict.keys then 0 else 24 + Utf8Len(cat.fqn) + Utf8Len(cat.file))
                   <= t.limits.bufferCap))
      && (!accepted ==>
            t1.droppedBegins == Min(t.droppedBegins + 1, 0xFFFF_FFFF)
            && t1 == t.(virtualDepth := t1.virtualDepth, droppedBegins := t1.droppedBegins))
  {
  }

  /** A mid-request flush happens exactly at an end that records a call and finds a
      threshold met, and takes everything pending. */
  lemma EndFlushesIff(t: Trace, exit: ExitSnapshots, abnormal: bool)
    ensures var (t1, batch) := End(t, exit, abnormal);
      && (batch.Some? <==>
            && t.droppedBegins == 0 && t.stack != []
            && (|t.buffer| + 1 >= t.limits.flushRecords || t.estimated + 64 >= t.limits.flushBytes))
      && (batch.Some? ==>
            && t1.buffer == [] && t1.dict.staged == [] && t1.estimated == 0
            && batch.value.dict == t.dict.staged && batch.value.sizeEstimate == t.estimated + 64
            && |batch.value.calls| == |t.buffer| + 1 && batch.value.calls[..|t.buffer|] == t.buffer)
  {
    hide RecordOf;
  }

  /** A begin keeps the match exactly when it does not saturate the `u32`
      depth while a frame is open. */
  lemma BeginMatchedIff(t: Trace, cat: Categorised, entry: EntrySnapshots, snapshot: nat)
    requires Matched(t) && t.virtualDepth <= U32_MAX
    ensures Matched(Begin(t, cat, entry, snapshot).0) <==> t.virtualDepth < U32_MAX || t.stack == []
  {
  }

  /** An end keeps the match, matched by a begin or not. */
  lemma EndMatched(t: Trace, exit: ExitSnapshots, abnormal: bool)
    requires Matched(t)
    ensures Matched(End(t, exit, abnormal).0)
  {
  }

  /** Under the match the stored depth is the real one: the `u16` cast loses nothing. */
  lemma DepthCastLossless(t: Trace, cat: Categorised, entry: EntrySnapshots, snapshot: nat)
    requires Matched(t) && t.virtualDepth < U32_MAX
    requires Begin(t, cat, entry, snapshot).1
    ensures var t1 := Begin(t, cat, entry, snapshot).0;
      t1.stack != [] && t1.stack[|t1.stack| - 1].depth == t.virtualDepth == |t.stack| + t.droppedBegins
  {
  }
}
