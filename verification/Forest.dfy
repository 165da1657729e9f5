/** The depth-truncation theorem: what the recorder hands off for the calls of
    a request, seen as a forest of calls. */
module Forests {
  import opened Wrappers
  import opened Numerals
  import opened FunctionKeys
  import opened CallSites
  import opened Dictionaries
  import opened TraceModel
  import opened Runs

  /** One PHP call: its site, its two snapshots, how it ended, and the budget
      the cap gate read when it began. */
  datatype Call = Call(cat: Categorised, entry: EntrySnapshots, snapshot: nat, exit: ExitSnapshots, abnormal: bool)

  /** First call, the calls it made, the calls after it. */
  datatype Forest = Empty | Node(call: Call, children: Forest, next: Forest)

  function BeginOf(c: Call): Event { BeginEvent(c.cat, c.entry, c.snapshot) }

  function EndOf(c: Call): Event { EndEvent(c.exit, c.abnormal) }

  function Events(f: Forest): seq<Event> {
    match f
    case Empty => []
    case Node(c, children, next) => [BeginOf(c)] + Events(children) + [EndOf(c)] + Events(next)
  }

  function Size(f: Forest): nat {
    match f
    case Empty => 0
    case Node(_, children, next) => 1 + Size(children) + Size(next)
  }

  function Height(f: Forest): nat {
    match f
    case Empty => 0
    case Node(_, children, next) => Max(1 + Height(children), Height(next))
  }

  /** The calls at depth less than `d`. */
  function Cut(f: Forest, d: nat): (g: Forest)
    ensures forall depth: nat :: d == 0 || depth + d <= U16_MAX + 1 ==> DepthsFit(g, depth)
  {
    match f
    case Empty => Empty
    case Node(c, children, next) => if d == 0 then Empty else Node(c, Cut(children, d - 1), Cut(next, d))
  }

  /** Every call, the forest being met at `depth`, has a depth the record can hold. */
  predicate DepthsFit(f: Forest, depth: nat) {
    match f
    case Empty => true
    case Node(_, children, next) => depth <= U16_MAX && DepthsFit(children, depth + 1) && DepthsFit(next, depth)
  }

  function Preorder(f: Forest): seq<Categorised> {
    match f
    case Empty => []
    case Node(c, children, next) => [c.cat] + Preorder(children) + Preorder(next)
  }

  /** The records of a forest in post-order. `base` is the last call id given
      out, ids go out in pre-order, `keys` are the functions known before. */
  function Post(f: Forest, base: nat, parent: nat, depth: nat, keys: seq<FunctionKey>): seq<CallRecord>
    requires DepthsFit(f, depth)
  {
    match f
    case Empty => []
    case Node(c, children, next) =>
      var id := base + 1;
      var keys1 := SeenKeys(keys, [c.cat]);
      Post(children, id, id, depth + 1, keys1)
      + [Told(c, id, parent, depth, keys1, c.exit, c.abnormal)]
      + Post(next, id + Size(children), parent, depth, SeenKeys(keys1, Preorder(children)))
  }

  /** The record of a call: own id, tree parent, own function, tree depth, begin
      values from its entry, end values from its exit, CPU times elapsed and never
      negative. */
  function Told(c: Call, id: nat, parent: nat, depth: nat, keys: seq<FunctionKey>, exit: ExitSnapshots, abnormal: bool)
    : CallRecord
    requires depth <= U16_MAX
  {
    var user: Int64 := Max(0, Min(exit.cpuUNow - c.entry.cpuUIn, I64_MAX));
    var system: Int64 := Max(0, Min(exit.cpuSNow - c.entry.cpuSIn, I64_MAX));
    CallRecord(id, parent, IdOf(keys, c.cat.key), depth, c.entry.tIn, exit.tOut, user, system,
               c.entry.memIn, exit.memOut, abnormal)
  }

  lemma ToldIsRecord(c: Call, id: nat, parent: nat, depth: nat, keys: seq<FunctionKey>, exit: ExitSnapshots,
                     abnormal: bool)
    requires depth <= U16_MAX
    ensures RecordOf(FrameOf(c, id, parent, depth, keys), exit, abnormal)
         == Told(c, id, parent, depth, keys, exit, abnormal)
  {
    hide IdOf;
    RecordOfIff(Told(c, id, parent, depth, keys, exit, abnormal), FrameOf(c, id, parent, depth, keys), exit, abnormal);
  }

  // --- The calls behind the records --------------------------------------------------

  /** A call and how it ended. */
  datatype Ending = Ending(call: Call, exit: ExitSnapshots, abnormal: bool)

  /** Calls in the order they end. */
  function Endings(f: Forest): seq<Ending> {
    match f
    case Empty => []
    case Node(c, children, next) => Endings(children) + [Ending(c, c.exit, c.abnormal)] + Endings(next)
  }

  predicate AllTell(records: seq<CallRecord>, endings: seq<Ending>) {
    && |records| == |endings|
    && forall i :: 0 <= i < |records| ==> Tells(records[i], endings[i].call.entry, endings[i].exit, endings[i].abnormal)
  }

  lemma {:induction false} PostTells(f: Forest, base: nat, parent: nat, depth: nat, keys: seq<FunctionKey>)
    requires DepthsFit(f, depth)
    ensures AllTell(Post(f, base, parent, depth, keys), Endings(f))
    decreases f
  {
    hide Tells, Told, SeenKeys;
    match f {
      case Empty =>
      case Node(c, children, next) =>
        var keys1 := SeenKeys(keys, [c.cat]);
        ToldTells(c, base + 1, parent, depth, keys1, c.exit, c.abnormal);
        PostTells(children, base + 1, base + 1, depth + 1, keys1);
        PostTells(next, base + 1 + Size(children), parent, depth, SeenKeys(keys1, Preorder(children)));
    }
  }

  lemma ToldTells(c: Call, id: nat, parent: nat, depth: nat, keys: seq<FunctionKey>, exit: ExitSnapshots,
                  abnormal: bool)
    requires depth <= U16_MAX
    ensures Tells(Told(c, id, parent, depth, keys, exit, abnormal), c.entry, exit, abnormal)
  {
  }

  function FrameOf(c: Call, id: nat, parent: nat, depth: nat, keys: seq<FunctionKey>): CallFrame
    requires depth <= U16_MAX
  {
    CallFrame(id, parent, IdOf(keys, c.cat.key), depth, c.entry)
  }

  /** `r` with nothing dropped and open, about to see calls no deeper than `h`. */
  predicate Ready(r: Run, h: nat) {
    && r.trace.droppedBegins == 0
    && r.trace.virtualDepth == |r.trace.stack|
    && r.trace.virtualDepth + h <= U32_MAX
  }

  function Remaining(t: Trace): nat {
    if t.virtualDepth < t.limits.maxDepth then t.limits.maxDepth - t.virtualDepth else 0
  }

  /** `s` is `r` after recording exactly the forest `g` and dropping `dropped` calls. */
  ghost predicate Recorded(r: Run, g: Forest, dropped: nat, s: Run) {
    && s.trace.stack == r.trace.stack
    && Counters(s) == Counters(r)
    && s.trace.callIdSeq == r.trace.callIdSeq + Size(g)
    && s.trace.dict.keys == SeenKeys(r.trace.dict.keys, Preorder(g))
    && DepthsFit(g, r.trace.virtualDepth)
    && Emitted(s) == Emitted(r)
         + Post(g, r.trace.callIdSeq, TopId(r.trace.stack), r.trace.virtualDepth, r.trace.dict.keys)
    && Journal(s) == Journal(r) + FirstSights(r.trace.dict.keys, Preorder(g))
    && s.drops == r.drops + dropped
  }

  /** The parts of the trace a balanced stretch of events puts back. */
  function Counters(r: Run): (nat, nat, TraceLimits) {
    (r.trace.virtualDepth, r.trace.droppedBegins, r.trace.limits)
  }

  lemma ReplayNode(r: Run, c: Call, children: Forest, next: Forest)
    ensures Replay(r, Events(Node(c, children, next)))
         == Replay(Step(Replay(Step(r, BeginOf(c)), Events(children)), EndOf(c)), Events(next))
  {
    var a, b, d, e := [BeginOf(c)], Events(children), [EndOf(c)], Events(next);
    ReplayConcat(r, a + b + d, e);
    ReplayConcat(r, a + b, d);
    ReplayConcat(r, a, b);
    ReplayOne(r, BeginOf(c));
    ReplayOne(Replay(r, a + b), EndOf(c));
  }

  /** A silent cap over a node is one over each of its stretches. */
  lemma CapNode(r: Run, c: Call, children: Forest, next: Forest)
    requires CapNeverBinds(r, Events(Node(c, children, next)))
    ensures var r1 := Step(r, BeginOf(c));
      var r3 := Step(Replay(r1, Events(children)), EndOf(c));
      && CapSilent(r.trace, BeginOf(c)) && CapNeverBinds(r1, Events(children)) && CapNeverBinds(r3, Events(next))
  {
    hide CapSilent, Step;
    var a, b, d, e := [BeginOf(c)], Events(children), [EndOf(c)], Events(next);
    CapConcat(r, a + b + d, e);
    CapConcat(r, a + b, d);
    CapConcat(r, a, b);
    ReplayConcat(r, a + b, d);
    ReplayConcat(r, a, b);
    ReplayOne(r, BeginOf(c));
    ReplayOne(Replay(r, a + b), EndOf(c));
    CapOne(r, BeginOf(c));
  }

  lemma CapOne(r: Run, e: Event)
    requires CapNeverBinds(r, [e])
    ensures CapSilent(r.trace, e)
  {
    assert [e][..0] == [];
    assert CapSilent(Replay(r, [e][..0]).trace, [e][0]);
  }

  lemma DropBegin(r: Run, c: Call)
    requires r.trace.limits.maxDepth <= r.trace.virtualDepth < U32_MAX && r.trace.droppedBegins < U32_MAX
    ensures Step(r, BeginOf(c))
         == r.(trace := r.trace.(virtualDepth := r.trace.virtualDepth + 1, droppedBegins := r.trace.droppedBegins + 1),
               drops := r.drops + 1)
  {
  }

  lemma ConsumeDrop(r: Run, c: Call)
    requires r.trace.droppedBegins > 0 && r.trace.virtualDepth > 0
    ensures Step(r, EndOf(c))
         == r.(trace := r.trace.(virtualDepth := r.trace.virtualDepth - 1, droppedBegins := r.trace.droppedBegins - 1))
  {
  }

  /** Below the depth limit nothing is recorded: every call is a drop, and the
      trace is back where it was. */
  lemma {:induction false} ForestBelowLimit(r: Run, f: Forest)
    requires r.trace.virtualDepth >= r.trace.limits.maxDepth
    requires r.trace.droppedBegins <= r.trace.virtualDepth && r.trace.virtualDepth + Height(f) <= U32_MAX
    ensures Replay(r, Events(f)) == r.(drops := r.drops + Size(f))
    decreases f
  {
    match f {
      case Empty =>
      case Node(c, children, next) => NodeBelowLimit(r, c, children, next);
    }
  }

  lemma {:induction false} NodeBelowLimit(r: Run, c: Call, children: Forest, next: Forest)
    requires r.trace.virtualDepth >= r.trace.limits.maxDepth && r.trace.droppedBegins <= r.trace.virtualDepth
    requires r.trace.virtualDepth + Height(Node(c, children, next)) <= U32_MAX
    ensures Replay(r, Events(Node(c, children, next))) == r.(drops := r.drops + 1 + Size(children) + Size(next))
    decreases Node(c, children, next), 0
  {
    hide Step, Replay, Events;
    ReplayNode(r, c, children, next);
    DropBegin(r, c);
    var r1 := Step(r, BeginOf(c));
    ForestBelowLimit(r1, children);
    var r2 := r1.(drops := r1.drops + Size(children));
    ConsumeDrop(r2, c);
    ForestBelowLimit(Step(r2, EndOf(c)), next);
  }

  /** `s` is `r` with the call `c` open on top of the stack. */
  ghost predicate Opened(r: Run, c: Call, s: Run) {
    var keys1 := SeenKeys(r.trace.dict.keys, [c.cat]);
    && Counters(s) == (r.trace.virtualDepth + 1, 0, r.trace.limits) && s.drops == r.drops
    && s.trace.callIdSeq == r.trace.callIdSeq + 1
    && s.trace.dict.keys == keys1
    && r.trace.virtualDepth <= U16_MAX
    && s.trace.stack == r.trace.stack
         + [FrameOf(c, r.trace.callIdSeq + 1, TopId(r.trace.stack), r.trace.virtualDepth, keys1)]
    && Emitted(s) == Emitted(r)
    && Journal(s) == Journal(r) + FirstSights(r.trace.dict.keys, [c.cat])
  }

  lemma CastKeeps(depth: nat)
    requires depth <= U16_MAX
    ensures CastU16(depth) == depth
  {
  }

  /** A frame opened at the depth of the trace holds that depth. */
  lemma OpenedAtDepth(r: Run, c: Call, s: Run)
    requires r.trace.droppedBegins == 0 && r.trace.virtualDepth <= U16_MAX
    requires OpenedFrame(r, c.cat, c.entry, r.trace.virtualDepth, s) && s.drops == r.drops
    ensures Opened(r, c, s)
  {
    hide Emitted, Journal, SeenKeys, FirstSights, IdOf, TopId, CastU16, EntryFor, Preorder;
    CastKeeps(r.trace.virtualDepth);
    SeenOne(r.trace.dict.keys, c.cat);
    var keys := r.trace.dict.keys;
    if c.cat.key in keys {
      assert Journal(r) + [] == Journal(r);
    }
  }

  /** An accepted begin. */
  lemma OpenCall(r: Run, c: Call)
    requires Ready(r, 1) && Remaining(r.trace) > 0 && CapSilent(r.trace, BeginOf(c))
    ensures Opened(r, c, Step(r, BeginOf(c)))
  {
    hide Step, CapSilent, Opened, OpenedFrame, RecordDrop;
    BeginMoves(r, c.cat, c.entry, c.snapshot);
    OpenedAtDepth(r, c, Step(r, BeginOf(c)));
  }

  /** `s` is `r` with its top frame `frame` popped into the record of `c`. */
  ghost predicate ClosedCall(r: Run, c: Call, rest: seq<CallFrame>, frame: CallFrame, s: Run) {
    && Counters(s) == (r.trace.virtualDepth - 1, 0, r.trace.limits) && s.drops == r.drops
    && s.trace.callIdSeq == r.trace.callIdSeq && s.trace.dict.keys == r.trace.dict.keys
    && s.trace.stack == rest
    && Emitted(s) == Emitted(r) + [RecordOf(frame, c.exit, c.abnormal)]
    && Journal(s) == Journal(r)
  }

  /** An end that pops `frame`. */
  lemma CloseCall(r: Run, c: Call, rest: seq<CallFrame>, frame: CallFrame)
    requires r.trace.droppedBegins == 0 && r.trace.virtualDepth > 0 && r.trace.stack == rest + [frame]
    ensures ClosedCall(r, c, rest, frame, Step(r, EndOf(c)))
  {
    EndMoves(r, c.exit, c.abnormal);
    var popped := PopMove(r.(trace := EndGate(r.trace).0), c.exit, c.abnormal);
    assert Emitted(popped) == Emitted(r) + [RecordOf(frame, c.exit, c.abnormal)];
    assert Journal(popped) == Journal(r);
    FlushKeepsContents(popped);
  }

  /** Open, children, close, siblings: the parts of a node make the node. */
  lemma ChainNode(r: Run, c: Call, g: Forest, n: Forest, r1: Run, r2: Run, r3: Run, s: Run,
                  dropped1: nat, dropped2: nat)
    requires r.trace.droppedBegins == 0 && Opened(r, c, r1) && Recorded(r1, g, dropped1, r2)
    requires r1.trace.stack != []
    requires ClosedCall(r2, c, r.trace.stack, r1.trace.stack[|r1.trace.stack| - 1], r3) && Recorded(r3, n, dropped2, s)
    ensures Recorded(r, Node(c, g, n), dropped1 + dropped2, s)
  {
    hide Emitted, Journal, SeenKeys, FirstSights, IdOf, RecordOf, Told, CastU16, EntryFor;
    var keys, keys1 := r.trace.dict.keys, r1.trace.dict.keys;
    var frame := r1.trace.stack[|r.trace.stack|];
    var keys2 := SeenKeys(keys1, Preorder(g));
    SeenNode(keys, c.cat, Preorder(g), Preorder(n));
    var depth, id, parent := r.trace.virtualDepth, r.trace.callIdSeq + 1, TopId(r.trace.stack);
    assert TopId(r1.trace.stack) == id;
    var inside, after := Post(g, id, id, depth + 1, keys1), Post(n, id + Size(g), parent, depth, keys2);
    var record := RecordOf(frame, c.exit, c.abnormal);
    ToldIsRecord(c, id, parent, depth, keys1, c.exit, c.abnormal);
    assert Post(Node(c, g, n), r.trace.callIdSeq, parent, depth, keys) == inside + [record] + after;
    hide Post, TopId;
    Reassociate(Emitted(r), inside, [record], after);
    Reassociate(Journal(r), FirstSights(keys, [c.cat]), FirstSights(keys1, Preorder(g)),
                FirstSights(keys2, Preorder(n)));
  }

  lemma SeenNode(keys: seq<FunctionKey>, cat: Categorised, a: seq<Categorised>, b: seq<Categorised>)
    ensures var keys1 := SeenKeys(keys, [cat]);
      var keys2 := SeenKeys(keys1, a);
      && SeenKeys(keys, [cat] + a + b) == SeenKeys(keys2, b)
      && FirstSights(keys, [cat] + a + b) == FirstSights(keys, [cat]) + FirstSights(keys1, a) + FirstSights(keys2, b)
  {
    hide SeenKeys, FirstSights;
    SeenConcat(keys, [cat] + a, b);
    SeenConcat(keys, [cat], a);
  }

  lemma Reassociate<T>(w: seq<T>, x: seq<T>, y: seq<T>, z: seq<T>)
    ensures w + x + y + z == w + (x + y + z)
  {
  }

  lemma {:induction false} CutSmaller(f: Forest, d: nat)
    ensures Size(Cut(f, d)) <= Size(f)
  {
    if f.Node? && d > 0 {
      CutSmaller(f.children, d - 1);
      CutSmaller(f.next, d);
    }
  }

  function CutAway(f: Forest, d: nat): nat {
    CutSmaller(f, d);
    Size(f) - Size(Cut(f, d))
  }

  /** A forest is recorded cut at the depth that remains, and put back what it moved. */
  lemma {:induction false} ForestRecorded(r: Run, f: Forest)
    requires Ready(r, Height(f)) && CapNeverBinds(r, Events(f))
    ensures Recorded(r, Cut(f, Remaining(r.trace)), CutAway(f, Remaining(r.trace)), Replay(r, Events(f)))
    decreases f
  {
    var d := Remaining(r.trace);
    match f {
      case Empty =>
      case Node(c, children, next) =>
        if d == 0 {
          ForestBelowLimit(r, f);
        } else {
          ForestNodeRecorded(r, c, children, next);
        }
    }
  }

  lemma {:induction false} ForestNodeRecorded(r: Run, c: Call, children: Forest, next: Forest)
    requires Ready(r, Height(Node(c, children, next))) && CapNeverBinds(r, Events(Node(c, children, next)))
    requires Remaining(r.trace) > 0
    ensures var d := Remaining(r.trace);
      Recorded(r, Node(c, Cut(children, d - 1), Cut(next, d)), CutAway(children, d - 1) + CutAway(next, d),
               Replay(r, Events(Node(c, children, next))))
    decreases Node(c, children, next), 0
  {
    hide Step, CapSilent, CapNeverBinds, Emitted, Journal, SeenKeys, FirstSights, Post, RecordOf, Events, Replay, IdOf,
         TopId, DepthsFit;
    var d := Remaining(r.trace);
    ReplayNode(r, c, children, next);
    CapNode(r, c, children, next);
    OpenCall(r, c);
    var r1 := Step(r, BeginOf(c));
    ForestRecorded(r1, children);
    var r2 := Replay(r1, Events(children));
    CloseCall(r2, c, r.trace.stack, r1.trace.stack[|r.trace.stack|]);
    var r3 := Step(r2, EndOf(c));
    ForestRecorded(r3, next);
    ChainNode(r, c, Cut(children, d - 1), Cut(next, d), r1, r2, r3, Replay(r3, Events(next)),
              CutAway(children, d - 1), CutAway(next, d));
  }

  // --- Requests that end with calls still open --------------------------------------

  /** Completed calls, then perhaps a call that never ended and what ran inside it. */
  datatype Spine = Closed(done: Forest) | Open(done: Forest, call: Call, inner: Spine)

  function SpineEvents(sp: Spine): seq<Event> {
    match sp
    case Closed(f) => Events(f)
    case Open(f, c, inner) => Events(f) + [BeginOf(c)] + SpineEvents(inner)
  }

  function SpineSize(sp: Spine): nat {
    match sp
    case Closed(f) => Size(f)
    case Open(f, _, inner) => Size(f) + 1 + SpineSize(inner)
  }

  function SpineHeight(sp: Spine): nat {
    match sp
    case Closed(f) => Height(f)
    case Open(f, _, inner) => Max(Height(f), 1 + SpineHeight(inner))
  }

  function CutSpine(sp: Spine, d: nat): (g: Spine)
    ensures forall depth: nat :: d == 0 || depth + d <= U16_MAX + 1 ==> SpineFits(g, depth)
  {
    match sp
    case Closed(f) => Closed(Cut(f, d))
    case Open(f, c, inner) => if d == 0 then Closed(Empty) else Open(Cut(f, d), c, CutSpine(inner, d - 1))
  }

  function SpinePreorder(sp: Spine): seq<Categorised> {
    match sp
    case Closed(f) => Preorder(f)
    case Open(f, c, inner) => Preorder(f) + [c.cat] + SpinePreorder(inner)
  }

  predicate SpineFits(sp: Spine, depth: nat) {
    match sp
    case Closed(f) => DepthsFit(f, depth)
    case Open(f, _, inner) => DepthsFit(f, depth) && depth <= U16_MAX && SpineFits(inner, depth + 1)
  }

  /** Post-order again; an open call is recorded after what ran inside it,
      marked abnormal, with the one exit snapshot of the shutdown. */
  function SpinePost(sp: Spine, base: nat, parent: nat, depth: nat, keys: seq<FunctionKey>, exit: ExitSnapshots)
    : seq<CallRecord>
    requires SpineFits(sp, depth)
  {
    match sp
    case Closed(f) => Post(f, base, parent, depth, keys)
    case Open(f, c, inner) =>
      var id := base + Size(f) + 1;
      var keys1 := SeenKeys(SeenKeys(keys, Preorder(f)), [c.cat]);
      Post(f, base, parent, depth, keys)
      + SpinePost(inner, id, id, depth + 1, keys1, exit)
      + [Told(c, id, parent, depth, keys1, exit, true)]
  }

  /** Every call of the spine with its ending, an open one ending at the shutdown. */
  function SpineEndings(sp: Spine, exit: ExitSnapshots): seq<Ending> {
    match sp
    case Closed(f) => Endings(f)
    case Open(f, c, inner) => Endings(f) + SpineEndings(inner, exit) + [Ending(c, exit, true)]
  }

  lemma {:induction false} SpinePostTells(sp: Spine, base: nat, parent: nat, depth: nat, keys: seq<FunctionKey>,
                                          exit: ExitSnapshots)
    requires SpineFits(sp, depth)
    ensures AllTell(SpinePost(sp, base, parent, depth, keys, exit), SpineEndings(sp, exit))
    decreases sp
  {
    hide Tells, Told, SeenKeys, Post, Endings;
    match sp {
      case Closed(f) => PostTells(f, base, parent, depth, keys);
      case Open(f, c, inner) =>
        var id := base + Size(f) + 1;
        var keys1 := SeenKeys(SeenKeys(keys, Preorder(f)), [c.cat]);
        PostTells(f, base, parent, depth, keys);
        SpinePostTells(inner, id, id, depth + 1, keys1, exit);
        ToldTells(c, id, parent, depth, keys1, exit, true);
    }
  }

  /** The records a drain makes of open frames, top first. */
  function Drained(frames: seq<CallFrame>, exit: ExitSnapshots): seq<CallRecord> {
    if frames == [] then []
    else Drained(frames[1..], exit) + [RecordOf(frames[0], exit, true)]
  }

  lemma {:induction false} DrainedSnoc(frames: seq<CallFrame>, f: CallFrame, exit: ExitSnapshots)
    ensures Drained(frames + [f], exit) == [RecordOf(f, exit, true)] + Drained(frames, exit)
  {
    if frames == [] {
      assert frames + [f] == [f] && [f][1..] == [];
    } else {
      assert (frames + [f])[1..] == frames[1..] + [f];
      DrainedSnoc(frames[1..], f, exit);
    }
  }

  lemma {:induction false} DrainMoveRecords(r: Run, exit: ExitSnapshots)
    ensures Emitted(DrainMove(r, exit)) == Emitted(r) + Drained(r.trace.stack, exit)
    decreases |r.trace.stack|
  {
    if r.trace.stack != [] {
      var top := |r.trace.stack| - 1;
      var r1 := PopMove(r, exit, true);
      DrainMoveRecords(r1, exit);
      DrainedSnoc(r.trace.stack[..top], r.trace.stack[top], exit);
      assert r.trace.stack == r.trace.stack[..top] + [r.trace.stack[top]];
      assert Emitted(r1) == Emitted(r) + [RecordOf(r.trace.stack[top], exit, true)];
    }
  }

  /** `s` is `r` with the spine `g` recorded except for its open frames, still on the stack. */
  ghost predicate SpineRecorded(r: Run, g: Spine, dropped: nat, s: Run, exit: ExitSnapshots) {
    && r.trace.stack <= s.trace.stack
    && s.trace.dict.keys == SeenKeys(r.trace.dict.keys, SpinePreorder(g))
    && s.trace.callIdSeq == r.trace.callIdSeq + SpineSize(g)
    && SpineFits(g, r.trace.virtualDepth)
    && Emitted(s) + Drained(s.trace.stack[|r.trace.stack|..], exit)
       == Emitted(r)
         + SpinePost(g, r.trace.callIdSeq, TopId(r.trace.stack), r.trace.virtualDepth, r.trace.dict.keys, exit)
    && Journal(s) == Journal(r) + FirstSights(r.trace.dict.keys, SpinePreorder(g))
    && s.drops == r.drops + dropped
  }

  lemma SpineBelowLimit(r: Run, sp: Spine)
    requires r.trace.virtualDepth >= r.trace.limits.maxDepth
    requires r.trace.droppedBegins <= r.trace.virtualDepth && r.trace.virtualDepth + SpineHeight(sp) <= U32_MAX
    ensures var s := Replay(r, SpineEvents(sp));
      && s.drops == r.drops + SpineSize(sp) && s.flushed == r.flushed
      && s.trace == r.trace.(virtualDepth := s.trace.virtualDepth, droppedBegins := s.trace.droppedBegins)
    decreases sp
  {
    match sp {
      case Closed(f) => ForestBelowLimit(r, f);
      case Open(f, c, inner) =>
        ReplayOpen(r, f, c, inner);
        ForestBelowLimit(r, f);
        SpineBelowLimit(Step(Replay(r, Events(f)), BeginOf(c)), inner);
    }
  }

  lemma ReplayOpen(r: Run, f: Forest, c: Call, inner: Spine)
    ensures Replay(r, SpineEvents(Open(f, c, inner)))
         == Replay(Step(Replay(r, Events(f)), BeginOf(c)), SpineEvents(inner))
  {
    ReplayConcat(r, Events(f) + [BeginOf(c)], SpineEvents(inner));
    ReplayConcat(r, Events(f), [BeginOf(c)]);
    ReplayOne(Replay(r, Events(f)), BeginOf(c));
  }

  lemma CapOpen(r: Run, f: Forest, c: Call, inner: Spine)
    requires CapNeverBinds(r, SpineEvents(Open(f, c, inner)))
    ensures var r1 := Replay(r, Events(f));
      && CapNeverBinds(r, Events(f)) && CapSilent(r1.trace, BeginOf(c))
      && CapNeverBinds(Step(r1, BeginOf(c)), SpineEvents(inner))
  {
    hide CapSilent, Step;
    CapConcat(r, Events(f) + [BeginOf(c)], SpineEvents(inner));
    CapConcat(r, Events(f), [BeginOf(c)]);
    ReplayConcat(r, Events(f), [BeginOf(c)]);
    ReplayOne(Replay(r, Events(f)), BeginOf(c));
    CapOne(Replay(r, Events(f)), BeginOf(c));
  }

  /** A completed forest, an open call, and what ran inside it make the spine. */
  lemma ChainOpen(r: Run, f: Forest, c: Call, inner: Spine, r1: Run, r2: Run, s: Run, dropped1: nat, dropped2: nat,
                  exit: ExitSnapshots)
    requires Recorded(r, f, dropped1, r1) && Opened(r1, c, r2) && SpineRecorded(r2, inner, dropped2, s, exit)
    ensures SpineRecorded(r, Open(f, c, inner), dropped1 + dropped2, s, exit)
  {
    hide Emitted, Journal, SeenKeys, FirstSights, IdOf, RecordOf, Told, Post, Drained;
    var n := |r.trace.stack|;
    var keys, keys1, keys2 := r.trace.dict.keys, r1.trace.dict.keys, r2.trace.dict.keys;
    SeenConcat(keys, Preorder(f) + [c.cat], SpinePreorder(inner));
    SeenConcat(keys, Preorder(f), [c.cat]);
    var frame := r2.trace.stack[n];
    var above := s.trace.stack[n + 1..];
    assert s.trace.stack[n..] == [frame] + above;
    DrainedCons(frame, above, exit);
    var base, depth, parent := r.trace.callIdSeq, r.trace.virtualDepth, TopId(r.trace.stack);
    var id := base + Size(f) + 1;
    assert TopId(r2.trace.stack) == id;
    ToldIsRecord(c, id, TopId(r1.trace.stack), depth, keys2, exit, true);
    assert Emitted(s) + Drained(s.trace.stack[n..], exit)
        == (Emitted(s) + Drained(above, exit)) + [RecordOf(frame, exit, true)];
    assert Emitted(s) + Drained(s.trace.stack[n..], exit)
        == Emitted(r) + (Post(f, base, parent, depth, keys) + SpinePost(inner, id, id, depth + 1, keys2, exit)
                         + [RecordOf(frame, exit, true)]);
    assert Journal(s) == Journal(r)
      + (FirstSights(keys, Preorder(f)) + FirstSights(keys1, [c.cat]) + FirstSights(keys2, SpinePreorder(inner)));
  }

  lemma DrainedCons(frame: CallFrame, above: seq<CallFrame>, exit: ExitSnapshots)
    ensures Drained([frame] + above, exit) == Drained(above, exit) + [RecordOf(frame, exit, true)]
  {
  }

  lemma {:induction false} CutSpineSmaller(sp: Spine, d: nat)
    ensures SpineSize(CutSpine(sp, d)) <= SpineSize(sp)
    decreases sp
  {
    match sp {
      case Closed(f) => CutSmaller(f, d);
      case Open(f, c, inner) =>
        CutSmaller(f, d);
        if d > 0 {
          CutSpineSmaller(inner, d - 1);
        }
    }
  }

  function SpineCutAway(sp: Spine, d: nat): nat {
    CutSpineSmaller(sp, d);
    SpineSize(sp) - SpineSize(CutSpine(sp, d))
  }

  lemma {:induction false} SpineFollowed(r: Run, sp: Spine, exit: ExitSnapshots)
    requires Ready(r, SpineHeight(sp)) && CapNeverBinds(r, SpineEvents(sp))
    ensures SpineRecorded(r, CutSpine(sp, Remaining(r.trace)), SpineCutAway(sp, Remaining(r.trace)),
                          Replay(r, SpineEvents(sp)), exit)
    decreases sp
  {
    match sp {
      case Closed(f) =>
        ForestRecorded(r, f);
        ClosedRecorded(r, Cut(f, Remaining(r.trace)), CutAway(f, Remaining(r.trace)), Replay(r, Events(f)), exit);
      case Open(f, c, inner) =>
        if Remaining(r.trace) == 0 {
          SpineBelowLimit(r, sp);
          NothingRecorded(r, Replay(r, SpineEvents(sp)), SpineSize(sp), exit);
        } else {
          SpineOpenFollowed(r, f, c, inner, exit);
        }
    }
  }

  lemma ClosedRecorded(r: Run, f: Forest, dropped: nat, s: Run, exit: ExitSnapshots)
    requires Recorded(r, f, dropped, s)
    ensures SpineRecorded(r, Closed(f), dropped, s, exit)
  {
    hide Emitted, Journal, SeenKeys, FirstSights, Post;
    assert s.trace.stack[|r.trace.stack|..] == [];
  }

  lemma NothingRecorded(r: Run, s: Run, dropped: nat, exit: ExitSnapshots)
    requires s.drops == r.drops + dropped && s.flushed == r.flushed
    requires s.trace == r.trace.(virtualDepth := s.trace.virtualDepth, droppedBegins := s.trace.droppedBegins)
    ensures SpineRecorded(r, Closed(Empty), dropped, s, exit)
  {
  }

  lemma {:induction false} SpineOpenFollowed(r: Run, f: Forest, c: Call, inner: Spine, exit: ExitSnapshots)
    requires Ready(r, SpineHeight(Open(f, c, inner))) && CapNeverBinds(r, SpineEvents(Open(f, c, inner)))
    requires Remaining(r.trace) > 0
    ensures var d := Remaining(r.trace);
      SpineRecorded(r, Open(Cut(f, d), c, CutSpine(inner, d - 1)), CutAway(f, d) + SpineCutAway(inner, d - 1),
                    Replay(r, SpineEvents(Open(f, c, inner))), exit)
    decreases Open(f, c, inner), 0
  {
    hide Step, CapSilent, CapNeverBinds, Emitted, Journal, SeenKeys, FirstSights, Post, SpinePost, RecordOf, Events,
         SpineEvents, Replay, IdOf, TopId, Drained, DepthsFit, SpineFits;
    var d := Remaining(r.trace);
    ReplayOpen(r, f, c, inner);
    CapOpen(r, f, c, inner);
    ForestRecorded(r, f);
    var r1 := Replay(r, Events(f));
    OpenCall(r1, c);
    var r2 := Step(r1, BeginOf(c));
    SpineFollowed(r2, inner, exit);
    ChainOpen(r, Cut(f, d), c, CutSpine(inner, d - 1), r1, r2, Replay(r2, SpineEvents(inner)),
              CutAway(f, d), SpineCutAway(inner, d - 1), exit);
  }

  lemma FreshRun(id: nat, limits: TraceLimits, request: Spine)
    requires SpineHeight(request) <= U32_MAX
    ensures var r := NewRun(id, limits);
      && Emitted(r) == [] && Journal(r) == [] && r.drops == 0 && r.trace.limits == limits
      && r.trace.callIdSeq == 0 && r.trace.stack == [] && r.trace.dict.keys == [] && r.trace.virtualDepth == 0
      && Ready(r, SpineHeight(request)) && Remaining(r.trace) == limits.maxDepth
  {
  }

  /** The same facts before the shutdown, the open frames still on the stack. */
  lemma RequestFollowed(id: nat, limits: TraceLimits, request: Spine, exit: ExitSnapshots)
    requires CapNeverBinds(NewRun(id, limits), SpineEvents(request)) && SpineHeight(request) <= U32_MAX
    ensures var r := Replay(NewRun(id, limits), SpineEvents(request));
      var kept := CutSpine(request, limits.maxDepth);
      && Emitted(r) + Drained(r.trace.stack, exit) == SpinePost(kept, 0, 0, 0, [], exit)
      && Journal(r) == FirstSights([], SpinePreorder(kept))
      && r.drops + SpineSize(kept) == SpineSize(request)
  {
    hide Emitted, Journal, SpinePost, FirstSights, SeenKeys, CutSpine, SpinePreorder, SpineEvents, Replay, Drained,
         CapNeverBinds, NewRun, Ready, Remaining, SpineHeight, SpineFits;
    var r0 := NewRun(id, limits);
    var r := Replay(r0, SpineEvents(request));
    FreshRun(id, limits, request);
    SpineFollowed(r0, request, exit);
    assert r.trace.stack[0..] == r.trace.stack;
    var kept := CutSpine(request, limits.maxDepth);
    assert [] + SpinePost(kept, 0, 0, 0, [], exit) == SpinePost(kept, 0, 0, 0, [], exit);
    assert [] + FirstSights([], SpinePreorder(kept)) == FirstSights([], SpinePreorder(kept));
  }

  /** Depth truncation. For any request in which the cap refuses no begin, the
      batches handed off carry, end to end, exactly the post-order of the
      request's calls cut at `max_depth` (own snapshots, pre-order ids, tree
      parent and depth, first-seen function id, abnormal when still open at
      shutdown) and one entry per function in order of first sight; the gate
      drops count the calls cut away. */
  lemma DepthTruncation(id: nat, limits: TraceLimits, request: Spine, exit: ExitSnapshots)
    requires CapNeverBinds(NewRun(id, limits), SpineEvents(request)) && SpineHeight(request) <= U32_MAX
    ensures var r := Replay(NewRun(id, limits), SpineEvents(request));
      var kept := CutSpine(request, limits.maxDepth);
      && Calls(Finish(r, exit)) == SpinePost(kept, 0, 0, 0, [], exit)
      && AllTell(Calls(Finish(r, exit)), SpineEndings(kept, exit))
      && DictLists(Finish(r, exit)) == FirstSights([], SpinePreorder(kept))
      && r.drops + SpineSize(kept) == SpineSize(request)
  {
    hide Emitted, Journal, SpinePost, FirstSights, CutSpine, SpinePreorder, SpineEvents, Replay, Drained, SpineSize,
         CapNeverBinds, NewRun, SpineHeight, SpineFits, AllTell, SpineEndings, Finish, Calls, DictLists, DrainMove,
         TraceInv, BatchInv;
    RequestFollowed(id, limits, request, exit);
    SpinePostTells(CutSpine(request, limits.maxDepth), 0, 0, 0, [], exit);
    EstimatesExact(id, limits, SpineEvents(request), exit);
    var r := Replay(NewRun(id, limits), SpineEvents(request));
    DrainMoveRecords(r, exit);
    FinishMoves(r, exit);
  }
}
