/** The allocation-free begin the production handler calls, and its refinement
    of the owning begin over whole runs. */
module LazyPath {
  import opened Numerals
  import opened Text
  import opened FunctionKeys
  import opened CallSites
  import opened Dictionaries
  import opened TraceModel
  import opened Runs

  /** The gate's projection: a probe by borrowed key, and a length nothing was rendered for. */
  function WouldAddLazy(d: Dict, lazy: LazyCategorised): nat {
    if ToOwned(lazy.keyRef) in d.keys then CALL_RECORD_FIXED_BYTES
    else CALL_RECORD_FIXED_BYTES + DICT_ENTRY_FIXED_BYTES + RenderLen(lazy.fqnSpec) + Utf8Len(lazy.file)
  }

  /** `begin_lazy_would_accept`. */
  function BeginLazyGate(t: Trace, lazy: LazyCategorised, snapshot: nat): (r: (Trace, bool))
    ensures r.1 ==> r.0.virtualDepth > 0
  {
    var t1 := t.(virtualDepth := SatIncU32(t.virtualDepth));
    if t1.virtualDepth > t1.limits.maxDepth then (RecordDrop(t1), false)
    else if !CapAdmits(t1.limits, snapshot, WouldAddLazy(t1.dict, lazy)) then (RecordDrop(t1), false)
    else (t1, true)
  }

  function RenderedEntry(fnId: nat, lazy: LazyCategorised): DictEntry {
    DictEntry(fnId, Render(lazy.fqnSpec), lazy.file, lazy.line, lazy.kind)
  }

  /** `begin_with_snapshots_lazy_accept`: the name is rendered on a miss only,
      and the miss is billed by the rendered entry. */
  function BeginLazyAccept(t: Trace, lazy: LazyCategorised, entry: EntrySnapshots): (Trace, nat)
    requires t.virtualDepth > 0
  {
    var key := ToOwned(lazy.keyRef);
    var (dict, fnId) := InternSpec(t.dict, key, (n: nat) => RenderedEntry(n, lazy));
    var frame := CallFrame(t.callIdSeq + 1, TopId(t.stack), fnId, CastU16(t.virtualDepth - 1), entry);
    var billed := if key in t.dict.keys then 0
                  else DICT_ENTRY_FIXED_BYTES + Utf8Len(Render(lazy.fqnSpec)) + Utf8Len(lazy.file);
    (t.(callIdSeq := t.callIdSeq + 1, stack := t.stack + [frame], dict := dict, estimated := t.estimated + billed),
     billed)
  }

  /** `begin_with_snapshots_lazy`. */
  function BeginLazy(t: Trace, lazy: LazyCategorised, entry: EntrySnapshots, snapshot: nat): (Trace, bool) {
    var (t1, accepted) := BeginLazyGate(t, lazy, snapshot);
    (if accepted then BeginLazyAccept(t1, lazy, entry).0 else t1, accepted)
  }

  /** What the gate projects for a lazy begin is what the call bills. */
  lemma LazyProjectionExact(t: Trace, lazy: LazyCategorised, entry: EntrySnapshots)
    requires t.virtualDepth > 0
    ensures var (t1, billed) := BeginLazyAccept(t, lazy, entry);
      && billed + CALL_RECORD_FIXED_BYTES == WouldAddLazy(t.dict, lazy)
      && forall exit, abnormal :: PopRecord(t1, exit, abnormal).estimated == t.estimated + WouldAddLazy(t.dict, lazy)
  {
    RenderLenExact(lazy.fqnSpec);
  }

  lemma AgreeingCosts(d: Dict, lazy: LazyCategorised, cat: Categorised)
    requires Agrees(lazy, cat)
    ensures WouldAddLazy(d, lazy) == WouldAdd(d, cat)
  {
    hide Utf8Len, Render, RenderLen;
    RenderLenExact(lazy.fqnSpec);
  }

  lemma AgreeingAccepts(t: Trace, lazy: LazyCategorised, cat: Categorised, entry: EntrySnapshots)
    requires Agrees(lazy, cat) && t.virtualDepth > 0
    ensures BeginLazyAccept(t, lazy, entry) == BeginAccept(t, cat, entry)
  {
    hide Utf8Len, Render, RenderLen, TopId, CastU16;
    assert forall n :: RenderedEntry(n, lazy) == EntryFor(n, cat);
  }

  /** Agreeing descriptions give the same decision and the same trace. */
  lemma AgreeingBegins(t: Trace, lazy: LazyCategorised, cat: Categorised, entry: EntrySnapshots, snapshot: nat)
    requires Agrees(lazy, cat)
    ensures BeginLazy(t, lazy, entry, snapshot) == Begin(t, cat, entry, snapshot)
  {
    hide BeginLazyAccept, BeginAccept, WouldAddLazy, WouldAdd, Agrees, CapAdmits;
    var t1 := t.(virtualDepth := SatIncU32(t.virtualDepth));
    AgreeingCosts(t1.dict, lazy, cat);
    if t1.virtualDepth > 0 {
      AgreeingAccepts(t1, lazy, cat, entry);
    }
  }

  /** Observer events before categorisation. */
  datatype SiteEvent =
    | SiteBegin(info: RawCallSite, entry: EntrySnapshots, snapshot: nat)
    | SiteEnd(exit: ExitSnapshots, abnormal: bool)

  /** The same events, categorised the owning way. */
  function Owning(e: SiteEvent): Event {
    match e
    case SiteBegin(info, entry, snapshot) => BeginEvent(Categorise(info), entry, snapshot)
    case SiteEnd(exit, abnormal) => EndEvent(exit, abnormal)
  }

  function OwningEvents(events: seq<SiteEvent>): seq<Event> {
    seq(|events|, i requires 0 <= i < |events| => Owning(events[i]))
  }

  function LazyStep(r: Run, e: SiteEvent): Run {
    match e
    case SiteBegin(info, entry, snapshot) =>
      var (t, accepted) := BeginLazy(r.trace, CategoriseLazy(info), entry, snapshot);
      r.(trace := t, drops := if accepted then r.drops else r.drops + 1)
    case SiteEnd(exit, abnormal) => HandOff(r, End(r.trace, exit, abnormal))
  }

  function LazyReplay(r: Run, events: seq<SiteEvent>): Run {
    if events == [] then r
    else LazyStep(LazyReplay(r, events[..|events| - 1]), events[|events| - 1])
  }

  /** Over any run whose begins come from identified sites, the production path
      takes the same decisions and reaches the same trace, dictionary, estimate
      and batches as the owning path, whatever each gate read. */
  lemma {:induction false} LazyRunRefines(r: Run, events: seq<SiteEvent>)
    requires forall i :: 0 <= i < |events| && events[i].SiteBegin? ==> Identified(events[i].info)
    ensures LazyReplay(r, events) == Replay(r, OwningEvents(events))
  {
    if events != [] {
      hide Begin, BeginLazy, End, Categorise, CategoriseLazy;
      var n := |events| - 1;
      assert OwningEvents(events)[..n] == OwningEvents(events[..n]);
      LazyRunRefines(r, events[..n]);
      var e := events[n];
      if e.SiteBegin? {
        LazyAgreesIff(e.info);
        var t := LazyReplay(r, events[..n]).trace;
        AgreeingBegins(t, CategoriseLazy(e.info), Categorise(e.info), e.entry, e.snapshot);
      }
    }
  }

  /** What a lazy description would intern and stage, spelled out. */
  function Spelled(lazy: LazyCategorised): Categorised {
    Categorised(ToOwned(lazy.keyRef), lazy.kind, Render(lazy.fqnSpec), lazy.file, lazy.line)
  }

  function SpelledEvents(events: seq<SiteEvent>): seq<Event> {
    seq(|events|, i requires 0 <= i < |events| =>
      match events[i]
      case SiteBegin(info, entry, snapshot) => BeginEvent(Spelled(CategoriseLazy(info)), entry, snapshot)
      case SiteEnd(exit, abnormal) => EndEvent(exit, abnormal))
  }

  /** For all sites, identified or not, a production run is a run of the event
      model under the names the lazy form gives: what holds of every run holds
      of the production path. */
  lemma {:induction false} LazyRunIsARun(r: Run, events: seq<SiteEvent>)
    ensures LazyReplay(r, events) == Replay(r, SpelledEvents(events))
  {
    if events != [] {
      hide Begin, BeginLazy, End, CategoriseLazy;
      var n := |events| - 1;
      assert SpelledEvents(events)[..n] == SpelledEvents(events[..n]);
      LazyRunIsARun(r, events[..n]);
      var e := events[n];
      if e.SiteBegin? {
        var lazy := CategoriseLazy(e.info);
        AgreeingBegins(LazyReplay(r, events[..n]).trace, lazy, Spelled(lazy), e.entry, e.snapshot);
      }
    }
  }

  /** Off the identified sites the very first begin already diverges, whenever
      both paths have room for it. */
  lemma FirstBeginAgreesIff(id: nat, limits: TraceLimits, info: RawCallSite, entry: EntrySnapshots, snapshot: nat)
    requires limits.maxDepth > 0
    requires CapAdmits(limits, snapshot, WouldAdd(EMPTY_DICT, Categorise(info)))
    requires CapAdmits(limits, snapshot, WouldAddLazy(EMPTY_DICT, CategoriseLazy(info)))
    ensures (BeginLazy(NewTrace(id, limits), CategoriseLazy(info), entry, snapshot)
             == Begin(NewTrace(id, limits), Categorise(info), entry, snapshot))
        <==> Identified(info)
  {
    LazyAgreesIff(info);
    var lazy, cat := CategoriseLazy(info), Categorise(info);
    if Identified(info) {
      AgreeingBegins(NewTrace(id, limits), lazy, cat, entry, snapshot);
    } else {
      UnidentifiedKeys(info);
      hide Categorise, CategoriseLazy, Utf8Len, WouldAdd, WouldAddLazy;
      var t1 := NewTrace(id, limits).(virtualDepth := 1);
      assert Begin(NewTrace(id, limits), cat, entry, snapshot).0.dict.keys == [cat.key];
      assert BeginLazy(NewTrace(id, limits), lazy, entry, snapshot).0.dict.keys == [ToOwned(lazy.keyRef)];
      assert [cat.key][0] != [ToOwned(lazy.keyRef)][0];
    }
  }

  lemma UnidentifiedKeys(info: RawCallSite)
    requires !Identified(info)
    ensures ToOwned(CategoriseLazy(info).keyRef) != Categorise(info).key
  {
  }
}
