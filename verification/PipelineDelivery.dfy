/** What reaches the server: under every interleaving the batches sent are a
    subsequence of the batches handed off, trace by trace. */
module PipelineDelivery {
  import opened Wrappers
  import opened TraceModel
  import opened Runs
  import opened Integrity
  import opened Pipeline
  import opened PipelineRuns

  // --- Subsequences ----------------------------------------------------------------

  /** `a` is `b` with some elements left out. */
  ghost predicate Subseq<T>(a: seq<T>, b: seq<T>)
    decreases |b|
  {
    || a == []
    || (b != [] && var n := |b| - 1;
        || Subseq(a, b[..n])
        || (a[|a| - 1] == b[n] && Subseq(a[..|a| - 1], b[..n])))
  }

  lemma SubseqMore<T>(a: seq<T>, b: seq<T>, x: T)
    requires Subseq(a, b)
    ensures Subseq(a, b + [x]) && Subseq(a + [x], b + [x])
  {
    assert (b + [x])[..|b|] == b && (a + [x])[..|a|] == a;
  }

  lemma {:induction false} SubseqSelf<T>(a: seq<T>)
    ensures Subseq(a, a)
  {
    if a != [] {
      SubseqSelf(a[..|a| - 1]);
    }
  }

  /** Leaving out one more. */
  lemma {:induction false} SubseqWithout<T>(a: seq<T>, x: T, c: seq<T>, b: seq<T>)
    requires Subseq(a + [x] + c, b)
    ensures Subseq(a + c, b)
    decreases |b|
  {
    var (all, n) := (a + [x] + c, |b| - 1);
    if Subseq(all, b[..n]) {
      SubseqWithout(a, x, c, b[..n]);
    } else if c == [] {
      assert all[..|all| - 1] == a == a + c;
    } else {
      var m := |c| - 1;
      assert all[..|all| - 1] == a + [x] + c[..m];
      SubseqWithout(a, x, c[..m], b[..n]);
      assert (a + c)[..|a + c| - 1] == a + c[..m];
      assert (a + c)[|a + c| - 1] == all[|all| - 1];
    }
  }

  lemma {:induction false} SubseqFirst<T>(a: seq<T>, c: seq<T>, b: seq<T>)
    requires Subseq(a + c, b)
    ensures Subseq(a, b)
    decreases |c|
  {
    if c == [] {
      assert a + c == a;
    } else {
      var m := |c| - 1;
      assert a + c == a + c[..m] + [c[m]] + [];
      SubseqWithout(a + c[..m], c[m], [], b);
      assert a + c[..m] + [] == a + c[..m];
      SubseqFirst(a, c[..m], b);
    }
  }

  lemma {:induction false} SubseqOf(a: seq<Batch>, b: seq<Batch>, id: nat)
    requires Subseq(a, b)
    ensures Subseq(Of(a, id), Of(b, id))
    decreases |b|
  {
    if a != [] {
      var (m, n) := (|a| - 1, |b| - 1);
      var own := Of(b[..n], id);
      if Subseq(a, b[..n]) {
        SubseqOf(a, b[..n], id);
        SubseqMore(Of(a, id), own, b[n]);
      } else {
        SubseqOf(a[..m], b[..n], id);
        SubseqMore(Of(a[..m], id), own, b[n]);
      }
      assert own + [] == own && Of(a[..m], id) + [] == Of(a[..m], id);
    }
  }

  // --- Where a batch is between hand-off and delivery -----------------------------------

  /** The batch an action delivers. */
  function SentBy(s: Sys, a: Action): seq<Batch> {
    if a.ActPost? && a.sent && s.ship.Posting? then [s.ship.batch] else []
  }

  /** Every batch delivered so far, in order. */
  function Delivered(s: Sys, actions: seq<Action>): seq<Batch> {
    if actions == [] then []
    else
      var n := |actions| - 1;
      Delivered(s, actions[..n]) + SentBy(Execute(s, actions[..n]), actions[n])
  }

  function BatchesIn(queue: seq<Message>): seq<Batch> {
    if queue == [] then [] else (if queue[0].BatchMsg? then [queue[0].batch] else []) + BatchesIn(queue[1..])
  }

  function InFlight(p: Shipper): seq<Batch> {
    if p.Encoding? || p.Posting? then [p.batch] else []
  }

  function InHand(r: Request): seq<Batch> { if r.Handing? then [r.batch] else [] }

  /** Batches that may still be delivered, in the order they would be. */
  function Pending(s: Sys): seq<Batch> { InFlight(s.ship) + BatchesIn(s.queue) + InHand(s.req) }

  /** An action delivers, hands off, keeps, or loses one batch. */
  ghost predicate Moves(before: seq<Batch>, sent: seq<Batch>, after: seq<Batch>, handed: seq<Batch>) {
    || sent + after == before + handed
    || (sent == [] && handed == [] && exists k: nat :: k < |before| && after == before[..k] + before[k + 1..])
  }

  lemma {:induction false} BatchesInSnoc(queue: seq<Message>, m: Message)
    ensures BatchesIn(queue + [m]) == BatchesIn(queue) + if m.BatchMsg? then [m.batch] else []
  {
    if queue == [] {
      assert queue + [m] == [m];
    } else {
      assert (queue + [m])[1..] == queue[1..] + [m];
      BatchesInSnoc(queue[1..], m);
    }
  }

  lemma MovesNothing(before: seq<Batch>)
    ensures Moves(before, [], before, [])
  {
    assert [] + before == before + [];
  }

  lemma MovesHanded(before: seq<Batch>, b: Batch)
    ensures Moves(before, [], before + [b], [b])
  {
    assert [] + (before + [b]) == before + [b];
  }

  lemma MovesLost(p: seq<Batch>, b: Batch, q: seq<Batch>)
    ensures Moves(p + [b] + q, [], p + q, [])
  {
    var (before, k) := (p + [b] + q, |p|);
    assert p + q == before[..k] + before[k + 1..];
  }

  /** The request thread puts its batch in the queue, or loses it. */
  lemma TrySendMoves(s: Sys)
    requires s.req.Handing?
    ensures Moves(Pending(s), [], Pending(RequestStep(s)), [])
  {
    hide Moves, BatchesIn;
    var (batch, s1) := (s.req.batch, RequestStep(s));
    var rest := InFlight(s.ship) + BatchesIn(s.queue);
    assert Pending(s) == rest + [batch] + [];
    if s1.req.Refused? {
      assert Pending(s1) == rest + [];
      MovesLost(rest, batch, []);
    } else {
      BatchesInSnoc(s.queue, BatchMsg(batch));
      assert Pending(s1) == InFlight(s.ship) + (BatchesIn(s.queue) + [batch]) + InHand(s1.req);
      assert Pending(s1) == Pending(s);
      MovesNothing(Pending(s));
    }
  }

  lemma RequestKeepsQueue(s: Sys)
    requires !s.req.Handing?
    ensures RequestStep(s).queue == s.queue && RequestStep(s).ship == s.ship
  {
    hide BeginAccept, PopRecord, TakeBatch, Trigger, Bumped, TrySend;
    match s.req {
      case Gated(_, _) =>
      case Draining(_) =>
      case FlushCheck =>
      case Handing(_, _) =>
      case _ =>
    }
  }

  lemma RequestMoves(s: Sys)
    ensures Moves(Pending(s), [], Pending(RequestStep(s)), HandedBy(s, ActRequest))
  {
    hide Moves, RequestStep, BatchesIn;
    if s.req.Handing? {
      TrySendMoves(s);
    } else {
      RequestKeepsQueue(s);
      var s1 := RequestStep(s);
      assert Pending(s1) == Pending(s) + InHand(s1.req);
      if s1.req.Handing? {
        MovesHanded(Pending(s), s1.req.batch);
      } else {
        assert Pending(s) + [] == Pending(s);
        MovesNothing(Pending(s));
      }
    }
  }

  /** The shipper takes the head of the queue to encode it. */
  lemma ReceiveMoves(s: Sys, deadline: Option<nat>)
    requires InFlight(s.ship) == []
    ensures Pending(Receive(s, deadline)) == Pending(s)
  {
    if s.queue != [] {
      var head := if s.queue[0].BatchMsg? then [s.queue[0].batch] else [];
      assert head + BatchesIn(s.queue[1..]) == BatchesIn(s.queue);
      assert InFlight(Receive(s, deadline).ship) == head;
    }
  }

  /** After the deadline the head of the queue is lost. */
  lemma AbandonMoves(s: Sys, d: nat)
    requires s.ship.Abandoning?
    ensures Moves(Pending(s), [], Pending(TryReceive(s, d)), [])
  {
    hide Moves;
    var s1 := TryReceive(s, d);
    if s.queue != [] && s.queue[0].BatchMsg? {
      var rest := BatchesIn(s.queue[1..]) + InHand(s.req);
      assert Pending(s) == [] + [s.queue[0].batch] + rest && Pending(s1) == [] + rest;
      MovesLost([], s.queue[0].batch, rest);
    } else {
      assert Pending(s1) == Pending(s);
      MovesNothing(Pending(s));
    }
  }

  /** The other steps of the shipper hold no batch that may still be delivered. */
  lemma ElsewhereMoves(s: Sys)
    requires !s.ship.Receiving? && !s.ship.DrainReceiving? && !s.ship.Abandoning?
    ensures Pending(ShipperStep(s)) == Pending(s)
  {
    hide BatchesIn, Bumped;
  }

  lemma ShipperMoves(s: Sys)
    ensures Moves(Pending(s), [], Pending(ShipperStep(s)), [])
  {
    hide Moves, Pending, Receive, TryReceive, CountOutcome, ReleaseAbandoned;
    MovesNothing(Pending(s));
    match s.ship {
      case Receiving => ReceiveMoves(s, None);
      case DrainReceiving(d) => ReceiveMoves(s, Some(d));
      case Abandoning(d) => AbandonMoves(s, d);
      case _ => ElsewhereMoves(s);
    }
  }

  /** The batch in flight is delivered, kept, or lost. */
  lemma FlightMoves(flight: seq<Batch>, sent: seq<Batch>, after: seq<Batch>, rest: seq<Batch>)
    requires sent + after == flight || (|flight| == 1 && sent == after == [])
    ensures Moves(flight + rest, sent, after + rest, [])
  {
    if sent + after == flight {
      assert sent + (after + rest) == flight + rest + [];
    } else {
      assert flight == [flight[0]] && [] + [flight[0]] + rest == flight + rest && [] + rest == rest;
      MovesLost([], flight[0], rest);
    }
  }

  lemma OutcomeMoves(s: Sys, a: Action)
    requires a.ActEncode? || a.ActPost?
    ensures Moves(Pending(s), SentBy(s, a), Pending(Apply(s, a)), [])
  {
    hide Moves, BatchesIn, CounterOf;
    var (flight, after) := (InFlight(s.ship), InFlight(Apply(s, a).ship));
    var rest := BatchesIn(s.queue) + InHand(s.req);
    FlightMoves(flight, SentBy(s, a), after, rest);
    assert Pending(s) == flight + rest && Pending(Apply(s, a)) == after + rest;
  }

  lemma OtherMoves(s: Sys, a: Action)
    requires !a.ActRequest? && !a.ActShipper? && !a.ActEncode? && !a.ActPost?
    ensures Pending(Apply(s, a)) == Pending(s)
  {
    hide BeginGate, EndGate, PopRecord, BatchesIn;
    if a.ActSendDrain? && s.req.SendingDrain? {
      BatchesInSnoc(s.queue, DrainMsg(s.req.deadline));
      assert BatchesIn(s.queue) + [] == BatchesIn(s.queue);
    }
  }

  lemma ApplyMoves(s: Sys, a: Action)
    ensures Moves(Pending(s), SentBy(s, a), Pending(Apply(s, a)), HandedBy(s, a))
  {
    hide Pending, HandedBy, RequestStep, ShipperStep, Encode, Post, BeginCall, EndCall, Rinit, TakeBatch;
    HandedByIff(s, a);
    match a {
      case ActRequest => RequestMoves(s);
      case ActShipper => ShipperMoves(s);
      case ActEncode(_) => OutcomeMoves(s, a);
      case ActPost(_) => OutcomeMoves(s, a);
      case _ =>
        OtherMoves(s, a);
        MovesNothing(Pending(s));
    }
  }

  // --- What every interleaving keeps ------------------------------------------------------

  lemma MovesKeepSubseq(delivered: seq<Batch>, before: seq<Batch>, sent: seq<Batch>, after: seq<Batch>,
                        handed: seq<Batch>, all: seq<Batch>)
    requires Subseq(delivered + before, all) && Moves(before, sent, after, handed) && |handed| <= 1
    ensures Subseq(delivered + sent + after, all + handed)
  {
    if sent + after == before + handed {
      assert delivered + (sent + after) == delivered + sent + after;
      assert delivered + (before + handed) == delivered + before + handed;
      if handed == [] {
        assert delivered + before + handed == delivered + before && all + handed == all;
      } else {
        assert handed == [handed[0]];
        SubseqMore(delivered + before, all, handed[0]);
      }
    } else {
      var k: nat :| k < |before| && after == before[..k] + before[k + 1..];
      assert delivered + before == (delivered + before[..k]) + [before[k]] + before[k + 1..];
      SubseqWithout(delivered + before[..k], before[k], before[k + 1..], all);
      assert delivered + sent + after == delivered + before[..k] + before[k + 1..] && all + handed == all;
    }
  }

  lemma {:induction false} InOrderOfHandOff(limits: TraceLimits, capacity: nat, actions: seq<Action>)
    ensures var s0 := InitSys(limits, capacity);
      Subseq(Delivered(s0, actions) + Pending(Execute(s0, actions)), Handed(s0, actions))
  {
    var s0 := InitSys(limits, capacity);
    if actions != [] {
      hide Apply, HandedBy, SentBy, Pending, Subseq, Moves, InitSys;
      var (before, a) := (actions[..|actions| - 1], actions[|actions| - 1]);
      var s := Execute(s0, before);
      InOrderOfHandOff(limits, capacity, before);
      ApplyMoves(s, a);
      HandedAtMostOne(s, a);
      MovesKeepSubseq(Delivered(s0, before), Pending(s), SentBy(s, a), Pending(Apply(s, a)), HandedBy(s, a),
                      Handed(s0, before));
    }
  }

  lemma HandedAtMostOne(s: Sys, a: Action)
    ensures |HandedBy(s, a)| <= 1
  {
    hide Apply;
  }

  /** For every trace under every interleaving: the batches delivered for it are a
      subsequence of the batches of one run of the recorder. */
  lemma DeliveredFromRun(limits: TraceLimits, capacity: nat, actions: seq<Action>, id: nat)
    returns (events: seq<Event>, exit: ExitSnapshots)
    ensures var s0 := InitSys(limits, capacity);
      var batches := Finish(Replay(NewRun(id, limits), events), exit);
      && Of(Handed(s0, actions), id) <= batches
      && Subseq(Of(Delivered(s0, actions), id), Of(Handed(s0, actions), id))
  {
    var s0 := InitSys(limits, capacity);
    hide Execute, Replay, Handed, Delivered, Of, Finish, Pending, Subseq;
    events, exit := RequestsAreRuns(limits, capacity, actions, id);
    InOrderOfHandOff(limits, capacity, actions);
    SubseqFirst(Delivered(s0, actions), Pending(Execute(s0, actions)), Handed(s0, actions));
    SubseqOf(Delivered(s0, actions), Handed(s0, actions), id);
  }

  lemma {:induction false} SubseqCalls(a: seq<Batch>, b: seq<Batch>)
    requires Subseq(a, b)
    ensures multiset(Ids(Calls(a))) <= multiset(Ids(Calls(b)))
    decreases |b|
  {
    if a != [] {
      var (m, n) := (|a| - 1, |b| - 1);
      CallIdsSnoc(b[..n], b[n]);
      assert b == b[..n] + [b[n]] && a == a[..m] + [a[m]];
      if Subseq(a, b[..n]) {
        SubseqCalls(a, b[..n]);
      } else {
        CallIdsSnoc(a[..m], a[m]);
        SubseqCalls(a[..m], b[..n]);
      }
    } else {
      assert Ids([]) == [];
    }
  }

  lemma CallIdsSnoc(batches: seq<Batch>, b: Batch)
    ensures multiset(Ids(Calls(batches + [b]))) == multiset(Ids(Calls(batches))) + multiset(Ids(b.calls))
  {
    assert (batches + [b])[..|batches|] == batches;
    assert Ids(Calls(batches) + b.calls) == Ids(Calls(batches)) + Ids(b.calls);
  }

  lemma {:induction false} PrefixSubseq<T>(a: seq<T>, b: seq<T>)
    requires a <= b
    ensures Subseq(a, b)
    decreases |b|
  {
    if a == b {
      SubseqSelf(a);
    } else {
      assert a <= b[..|b| - 1];
      PrefixSubseq(a, b[..|b| - 1]);
    }
  }

  /** No call is ever delivered twice: for every trace under every interleaving the
      call ids delivered are among 1..n, each at most once. */
  lemma DeliveredOnce(limits: TraceLimits, capacity: nat, actions: seq<Action>, id: nat) returns (n: nat)
    ensures multiset(Ids(Calls(Of(Delivered(InitSys(limits, capacity), actions), id)))) <= multiset(UpTo(n))
  {
    var s0 := InitSys(limits, capacity);
    hide Execute, Replay, Handed, Delivered, Of, Finish, Subseq, Ids, Calls, InitSys;
    var events, exit := DeliveredFromRun(limits, capacity, actions, id);
    var r := Replay(NewRun(id, limits), events);
    n := r.trace.callIdSeq;
    SubseqCalls(Of(Delivered(s0, actions), id), Of(Handed(s0, actions), id));
    PrefixSubseq(Of(Handed(s0, actions), id), Finish(r, exit));
    SubseqCalls(Of(Handed(s0, actions), id), Finish(r, exit));
    RequestCallsComplete(id, limits, events, exit, r);
  }
}
