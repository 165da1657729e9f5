/** The retry loop of one batch: backoff, and a deadline read again before
    every attempt. */
module Retry {
  import opened Wrappers
  import opened Numerals

  datatype DropReason =
    | HttpStatus(code: nat) | TimedOut | ConnectRefused | TlsError | Transport | EncodeFailed | DeadlineExceeded

  /** What `map_ureq_error` makes of a failed attempt. */
  type Failure = r: DropReason | r != EncodeFailed && r != DeadlineExceeded witness TimedOut

  datatype AttemptOutcome = AttemptSent | AttemptFailed(reason: Failure)

  datatype OnBatchOutcome = Sent | Dropped(reason: DropReason, attempts: nat)

  /** A deadline written to the shared cell at some moment. */
  datatype Publication = Publication(at: nat, deadline: nat)

  /** What the loop meets: how each attempt ends and how long it takes, the
      deadline the caller passed, and when a deadline is published, if ever. */
  datatype Env = Env(
    outcome: nat -> AttemptOutcome,
    duration: nat -> nat,
    caller: Option<nat>,
    publication: Option<Publication>)

  /** `sooner`. */
  function Sooner(a: Option<nat>, b: Option<nat>): (r: Option<nat>)
    ensures r.Some? <==> a.Some? || b.Some?
    ensures a.Some? ==> r.value <= a.value
    ensures b.Some? ==> r.value <= b.value
    ensures r == a || r == b
  {
    match (a, b)
    case (None, x) => x
    case (x, None) => x
    case (Some(x), Some(y)) => Some(Min(x, y))
  }

  /** `drain_deadline_snapshot` at time `t`. */
  function CellAt(env: Env, t: nat): Option<nat> {
    if env.publication.Some? && env.publication.value.at <= t then Some(env.publication.value.deadline) else None
  }

  /** The deadline closure of the handler, read at time `t`. */
  function VisibleDeadline(env: Env, t: nat): Option<nat> { Sooner(env.caller, CellAt(env, t)) }

  predicate Reached(deadline: Option<nat>, t: nat) { deadline.Some? && t >= deadline.value }

  /** `1u32.checked_shl(attempt).unwrap_or(u32::MAX)`. */
  function BackoffFactor(attempt: nat): nat { if attempt < 32 then Pow(2, attempt) else U32_MAX }

  /** `backoff_duration`: the `u64` multiplication saturates. */
  function Backoff(base: UInt32, attempt: nat): nat { Min(base * BackoffFactor(attempt), U64_MAX) }

  /** One call of the loop: its outcome, when it returns, the time at the head of
      each iteration, the start of each attempt, and each sleep. */
  datatype Trail = Trail(outcome: OnBatchOutcome, finish: nat, heads: seq<nat>, starts: seq<nat>, sleeps: seq<nat>)

  function Prepend(head: nat, start: seq<nat>, sleep: seq<nat>, rest: Trail): Trail {
    rest.(heads := [head] + rest.heads, starts := start + rest.starts, sleeps := sleep + rest.sleeps)
  }

  /** `run_with_retry` from iteration `i`, entered at time `t`. */
  function Run(env: Env, count: nat, base: UInt32, i: nat, t: nat): Trail
    requires i <= count
    decreases count - i
  {
    var deadline := VisibleDeadline(env, t);
    if Reached(deadline, t) then Trail(Dropped(DeadlineExceeded, i), t, [t], [], [])
    else
      var after := t + env.duration(i);
      match env.outcome(i)
      case AttemptSent => Trail(Sent, after, [t], [t], [])
      case AttemptFailed(reason) =>
        var sleep := Backoff(base, i);
        if i == count then Trail(Dropped(reason, i + 1), after, [t], [t], [])
        else if Reached(deadline, after + sleep) then Trail(Dropped(DeadlineExceeded, i + 1), after, [t], [t], [])
        else Prepend(t, [t], [sleep], Run(env, count, base, i + 1, after + sleep))
  }

  // --- The loop itself -----------------------------------------------------------

  /** What was recorded before this iteration, then the rest of the call. */
  function After(heads: seq<nat>, starts: seq<nat>, sleeps: seq<nat>, rest: Trail): Trail {
    rest.(heads := heads + rest.heads, starts := starts + rest.starts, sleeps := sleeps + rest.sleeps)
  }

  /** One iteration, by the exit it takes. */
  lemma OneIteration(env: Env, count: nat, base: UInt32, i: nat, t: nat, heads: seq<nat>, starts: seq<nat>,
                     sleeps: seq<nat>)
    requires i <= count
    ensures var (whole, deadline, after) :=
        (After(heads, starts, sleeps, Run(env, count, base, i, t)), VisibleDeadline(env, t), t + env.duration(i));
      if Reached(deadline, t) then whole == Trail(Dropped(DeadlineExceeded, i), t, heads + [t], starts, sleeps)
      else if env.outcome(i) == AttemptSent then whole == Trail(Sent, after, heads + [t], starts + [t], sleeps)
      else if i == count then
        whole == Trail(Dropped(env.outcome(i).reason, i + 1), after, heads + [t], starts + [t], sleeps)
      else
        var sleep := Backoff(base, i);
        if Reached(deadline, after + sleep) then
          whole == Trail(Dropped(DeadlineExceeded, i + 1), after, heads + [t], starts + [t], sleeps)
        else
          whole == After(heads + [t], starts + [t], sleeps + [sleep], Run(env, count, base, i + 1, after + sleep))
  {
    hide VisibleDeadline, Backoff;
    var sleep := Backoff(base, i);
    if i < count {
      var rest := Run(env, count, base, i + 1, t + env.duration(i) + sleep);
      assert heads + ([t] + rest.heads) == heads + [t] + rest.heads;
      assert starts + ([t] + rest.starts) == starts + [t] + rest.starts;
      assert sleeps + ([sleep] + rest.sleeps) == sleeps + [sleep] + rest.sleeps;
    }
    assert starts + [] == starts && sleeps + [] == sleeps;
  }

  /** `run_with_retry`, entered at time `start`. */
  method RunWithRetry(env: Env, count: nat, base: UInt32, start: nat) returns (trail: Trail)
    ensures trail == Run(env, count, base, 0, start)
  {
    var now: nat := start;
    var heads: seq<nat>, starts: seq<nat>, sleeps: seq<nat> := [], [], [];
    assert After([], [], [], Run(env, count, base, 0, start)) == Run(env, count, base, 0, start);
    hide Run, After, VisibleDeadline, Backoff;
    for i := 0 to count + 1
      invariant i <= count
      invariant After(heads, starts, sleeps, Run(env, count, base, i, now)) == Run(env, count, base, 0, start)
    {
      OneIteration(env, count, base, i, now, heads, starts, sleeps);
      var deadline := VisibleDeadline(env, now);
      heads := heads + [now];
      if Reached(deadline, now) {
        return Trail(Dropped(DeadlineExceeded, i), now, heads, starts, sleeps);
      }
      starts := starts + [now];
      now := now + env.duration(i);
      match env.outcome(i) {
        case AttemptSent =>
          return Trail(Sent, now, heads, starts, sleeps);
        case AttemptFailed(reason) =>
          if i == count {
            return Trail(Dropped(reason, i + 1), now, heads, starts, sleeps);
          }
          var sleep := Backoff(base, i);
          if Reached(deadline, now + sleep) {
            return Trail(Dropped(DeadlineExceeded, i + 1), now, heads, starts, sleeps);
          }
          sleeps := sleeps + [sleep];
          now := now + sleep;
      }
    }
    assert false;
  }

  // --- What every call of the loop keeps -------------------------------------------

  /** `d` is the caller's deadline, or published by time `t`. */
  predicate Known(env: Env, d: nat, t: nat) {
    || env.caller == Some(d)
    || (env.publication.Some? && env.publication.value.at <= t && env.publication.value.deadline == d)
  }

  /** Some deadline known at `t` has passed by `u`. */
  ghost predicate Passed(env: Env, t: nat, u: nat) { exists d: nat :: Known(env, d, t) && d <= u }

  /** Iteration `j`, its head at `h`, fails, is not the last, and no deadline known at
      its head falls before the end of its backoff. */
  ghost predicate GoesOn(env: Env, count: nat, base: UInt32, j: nat, h: nat) {
    j < count && env.outcome(j).AttemptFailed? && !Passed(env, h, h + env.duration(j) + Backoff(base, j))
  }

  /** Iterations follow one another by the attempt and its backoff, and every one
      but the last goes on. */
  ghost predicate Paced(env: Env, count: nat, base: UInt32, i: nat, heads: seq<nat>) {
    forall k :: 0 <= k < |heads| - 1 ==>
      && GoesOn(env, count, base, i + k, heads[k])
      && heads[k + 1] == heads[k] + env.duration(i + k) + Backoff(base, i + k)
  }

  /** The last iteration, `j`, its head at `h`: a known deadline has passed and no
      attempt is made, or the attempt is made and the loop does not go on, because
      it was sent, was the last, or a known deadline falls before the end of the backoff. */
  ghost predicate EndsAt(env: Env, count: nat, base: UInt32, j: nat, h: nat, r: Trail) {
    if Passed(env, h, h) then r.outcome == Dropped(DeadlineExceeded, j) && r.finish == h && r.starts + [h] == r.heads
    else
      && !GoesOn(env, count, base, j, h) && r.finish == h + env.duration(j) && r.starts == r.heads
      && match env.outcome(j)
         case AttemptSent => r.outcome == Sent
         case AttemptFailed(reason) => r.outcome == Dropped(if j == count then reason else DeadlineExceeded, j + 1)
  }

  /** The loop's test. */
  lemma ReachedIff(env: Env, t: nat, u: nat)
    ensures Reached(VisibleDeadline(env, t), u) <==> Passed(env, t, u)
  {
    var deadline := VisibleDeadline(env, t);
    if Reached(deadline, u) {
      assert Known(env, deadline.value, t) && deadline.value <= u;
    }
  }

  lemma PassedLater(env: Env, t: nat, u: nat, v: nat)
    requires Passed(env, t, u) && u <= v
    ensures Passed(env, t, v)
  {
    var d: nat :| Known(env, d, t) && d <= u;
    assert Known(env, d, t) && d <= v;
  }

  lemma NotPassedBefore(env: Env, t: nat, u: nat, v: nat)
    requires !Passed(env, t, v) && u <= v
    ensures !Passed(env, t, u)
  {
    if Passed(env, t, u) {
      PassedLater(env, t, u, v);
    }
  }

  /** An iteration that does not go on is the last. */
  lemma LastIteration(env: Env, count: nat, base: UInt32, i: nat, t: nat, r: Trail)
    requires i <= count && r == Run(env, count, base, i, t) && !GoesOn(env, count, base, i, t)
    ensures r.heads == [t] && EndsAt(env, count, base, i, t, r)
  {
    hide Passed, VisibleDeadline, Reached, Backoff;
    ReachedIff(env, t, t);
    ReachedIff(env, t, t + env.duration(i) + Backoff(base, i));
  }

  lemma NextIteration(env: Env, count: nat, base: UInt32, i: nat, t: nat, r: Trail)
    requires i <= count && r == Run(env, count, base, i, t) && GoesOn(env, count, base, i, t)
    ensures var sleep := Backoff(base, i);
      r == Prepend(t, [t], [sleep], Run(env, count, base, i + 1, t + env.duration(i) + sleep))
  {
    hide Passed, VisibleDeadline, Reached, Backoff;
    ReachedIff(env, t, t);
    ReachedIff(env, t, t + env.duration(i) + Backoff(base, i));
    NotPassedBefore(env, t, t, t + env.duration(i) + Backoff(base, i));
  }

  /** The whole course of a call, and with it when the loop gives up: only where a
      deadline forces it. */
  lemma {:induction false} Course(env: Env, count: nat, base: UInt32, i: nat, t: nat, r: Trail)
    requires i <= count && r == Run(env, count, base, i, t)
    ensures r.heads != [] && r.heads[0] == t && i + |r.heads| <= count + 1
    ensures Paced(env, count, base, i, r.heads)
    ensures EndsAt(env, count, base, i + |r.heads| - 1, r.heads[|r.heads| - 1], r)
    decreases count - i
  {
    hide Run, Passed, Backoff, EndsAt;
    if GoesOn(env, count, base, i, t) {
      var t1 := t + env.duration(i) + Backoff(base, i);
      var rest := Run(env, count, base, i + 1, t1);
      Course(env, count, base, i + 1, t1, rest);
      NextIteration(env, count, base, i, t, r);
      CourseMore(env, count, base, i, t, rest, r);
    } else {
      LastIteration(env, count, base, i, t, r);
    }
  }

  /** One more iteration in front. */
  lemma CourseMore(env: Env, count: nat, base: UInt32, i: nat, t: nat, rest: Trail, r: Trail)
    requires GoesOn(env, count, base, i, t) && r == Prepend(t, [t], [Backoff(base, i)], rest)
    requires rest.heads != [] && rest.heads[0] == t + env.duration(i) + Backoff(base, i)
    requires Paced(env, count, base, i + 1, rest.heads)
    requires EndsAt(env, count, base, i + |rest.heads|, rest.heads[|rest.heads| - 1], rest)
    ensures Paced(env, count, base, i, r.heads)
    ensures EndsAt(env, count, base, i + |r.heads| - 1, r.heads[|r.heads| - 1], r)
  {
    hide GoesOn, Passed, Backoff;
    forall k | 0 <= k < |r.heads| - 1
      ensures GoesOn(env, count, base, i + k, r.heads[k])
      ensures r.heads[k + 1] == r.heads[k] + env.duration(i + k) + Backoff(base, i + k)
    {
      if k > 0 {
        assert r.heads[k] == rest.heads[k - 1] && i + k == i + 1 + (k - 1);
      }
    }
    assert r.starts == [t] + rest.starts && r.heads == [t] + rest.heads;
  }

  /** `d` leaves iteration `j`, its head at `h`, no choice: it has passed, or would
      pass during the backoff after a failed attempt that is not the last. */
  predicate Forces(env: Env, count: nat, base: UInt32, j: nat, h: nat, d: nat) {
    || d <= h
    || (j < count && env.outcome(j).AttemptFailed? && d <= h + env.duration(j) + Backoff(base, j))
  }

  /** The loop gives up for a deadline if and only if one known at the head of its
      last iteration forces it, and then it has made the attempts it reports. */
  lemma GivesUpIff(env: Env, count: nat, base: UInt32, t: nat, r: Trail)
    requires r == Run(env, count, base, 0, t) && r.heads != []
    ensures var (j, h) := (|r.heads| - 1, r.heads[|r.heads| - 1]);
      && (r.outcome.Dropped? && r.outcome.reason == DeadlineExceeded
          <==> exists d: nat :: Known(env, d, h) && Forces(env, count, base, j, h, d))
      && (r.outcome == Dropped(DeadlineExceeded, j) <==> exists d: nat :: Known(env, d, h) && d <= h)
  {
    hide Run, Backoff, Known, Paced;
    Course(env, count, base, 0, t, r);
    var (j, h) := (|r.heads| - 1, r.heads[|r.heads| - 1]);
    var later := h + env.duration(j) + Backoff(base, j);
    if Passed(env, h, h) {
      var d: nat :| Known(env, d, h) && d <= h;
      assert Forces(env, count, base, j, h, d);
    } else if j < count && env.outcome(j).AttemptFailed? && Passed(env, h, later) {
      var d: nat :| Known(env, d, h) && d <= later;
      assert Forces(env, count, base, j, h, d);
    }
  }

  /** Where no known deadline forces it, a call runs to its first success or makes
      every attempt. */
  lemma UnforcedRunsOn(env: Env, count: nat, base: UInt32, t: nat, r: Trail)
    requires r == Run(env, count, base, 0, t)
    requires forall k, d: nat :: 0 <= k < |r.heads| && Known(env, d, r.heads[k]) ==>
      !Forces(env, count, base, k, r.heads[k], d)
    ensures forall k :: 0 <= k < |r.starts| - 1 ==> env.outcome(k).AttemptFailed?
    ensures if r.outcome == Sent then r.starts != [] && env.outcome(|r.starts| - 1) == AttemptSent
      else |r.starts| == count + 1 && env.outcome(count).AttemptFailed?
           && r.outcome == Dropped(env.outcome(count).reason, count + 1)
  {
    hide Run, Backoff, Known, Forces;
    Course(env, count, base, 0, t, r);
    GivesUpIff(env, count, base, t, r);
    var (j, h) := (|r.heads| - 1, r.heads[|r.heads| - 1]);
    assert r.outcome.Dropped? ==> r.outcome.reason != DeadlineExceeded;
    assert r.starts == r.heads;
    forall k | 0 <= k < |r.starts| - 1 ensures env.outcome(k).AttemptFailed? {
      assert GoesOn(env, count, base, 0 + k, r.heads[k]);
    }
    assert !GoesOn(env, count, base, j, h);
  }

  /** Attempts are reported truly and bounded by the retry count; giving up early
      means a deadline; a final failure means every attempt was made and failed. */
  lemma {:induction false} AttemptsReported(env: Env, count: nat, base: UInt32, i: nat, t: nat)
    requires i <= count
    ensures var r := Run(env, count, base, i, t);
      && i + |r.starts| <= count + 1
      && (r.outcome.Dropped? ==> r.outcome.attempts == i + |r.starts|)
      && (r.outcome == Sent <==>
            r.starts != [] && env.outcome(i + |r.starts| - 1) == AttemptSent)
      && (forall k :: i <= k < i + |r.starts| - 1 ==> env.outcome(k).AttemptFailed?)
      && (r.outcome.Dropped? && r.outcome.reason != DeadlineExceeded ==>
            i + |r.starts| == count + 1 && env.outcome(count).AttemptFailed?
            && env.outcome(count).reason == r.outcome.reason)
    decreases count - i
  {
    if i < count && env.outcome(i).AttemptFailed? {
      AttemptsReported(env, count, base, i + 1, t + env.duration(i) + Backoff(base, i));
    }
  }

  /** No attempt starts at or after a deadline known at its iteration head. */
  lemma NoAttemptPastDeadline(env: Env, count: nat, base: UInt32, i: nat, t: nat, r: Trail)
    requires i <= count && r == Run(env, count, base, i, t)
    ensures |r.starts| <= |r.heads| && r.starts == r.heads[..|r.starts|]
    ensures forall k, d: nat :: 0 <= k < |r.starts| && Known(env, d, r.starts[k]) ==> r.starts[k] < d
  {
    hide Run, Backoff, Known;
    Course(env, count, base, i, t, r);
    forall k, d: nat | 0 <= k < |r.starts| && Known(env, d, r.starts[k]) ensures r.starts[k] < d {
      if r.starts[k] >= d {
        assert Passed(env, r.starts[k], r.starts[k]);
        if k < |r.heads| - 1 {
          PassedLater(env, r.heads[k], r.heads[k], r.heads[k + 1]);
        }
      }
    }
  }

  /** A batch handled when a known deadline has passed makes no attempt. */
  lemma LateBatchNoAttempt(env: Env, count: nat, base: UInt32, t: nat, d: nat)
    requires Known(env, d, t) && d <= t
    ensures Run(env, count, base, 0, t) == Trail(Dropped(DeadlineExceeded, 0), t, [t], [], [])
  {
  }

  /** A deadline known when the loop is entered: it returns at once, or at most
      one attempt past the deadline. */
  lemma {:induction false} VisibleDeadlineBound(env: Env, count: nat, base: UInt32, i: nat, t: nat, longest: nat,
                                                d: nat)
    requires i <= count && Known(env, d, t)
    requires forall k :: env.duration(k) <= longest
    ensures Run(env, count, base, i, t).finish <= Max(t, d + longest)
    decreases count - i
  {
    hide Backoff;
    if i < count && env.outcome(i).AttemptFailed? && !Reached(VisibleDeadline(env, t), t) {
      var t1 := t + env.duration(i) + Backoff(base, i);
      VisibleDeadlineBound(env, count, base, i + 1, t1, longest, d);
    }
  }

  // --- A backlog ---------------------------------------------------------------------

  /** Batches handled one after another from time `t`: when the last returns, and
      how many attempts were made. */
  function HandleAll(batches: seq<Env>, count: nat, base: UInt32, t: nat): (nat, nat)
    decreases |batches|
  {
    if batches == [] then (t, 0)
    else
      var first := Run(batches[0], count, base, 0, t);
      var (finish, attempts) := HandleAll(batches[1..], count, base, first.finish);
      (finish, |first.starts| + attempts)
  }

  lemma {:induction false} FinishesLater(env: Env, count: nat, base: UInt32, i: nat, t: nat)
    requires i <= count
    ensures t <= Run(env, count, base, i, t).finish
    decreases count - i
  {
    hide Backoff, VisibleDeadline;
    if i < count && env.outcome(i).AttemptFailed? {
      FinishesLater(env, count, base, i + 1, t + env.duration(i) + Backoff(base, i));
    }
  }

  ghost predicate AllKnown(batches: seq<Env>, d: nat, t: nat) {
    forall k :: 0 <= k < |batches| ==> Known(batches[k], d, t)
  }

  ghost predicate NoLonger(batches: seq<Env>, longest: nat) {
    forall k, j :: 0 <= k < |batches| ==> batches[k].duration(j) <= longest
  }

  /** However long the backlog, once a deadline is known its batches together
      overrun it by at most one attempt. */
  lemma {:induction false} BacklogBound(batches: seq<Env>, count: nat, base: UInt32, t: nat, longest: nat, d: nat)
    requires AllKnown(batches, d, t) && NoLonger(batches, longest)
    ensures HandleAll(batches, count, base, t).0 <= Max(t, d + longest)
    decreases |batches|
  {
    if batches != [] {
      hide Run;
      var next := Run(batches[0], count, base, 0, t).finish;
      FinishesLater(batches[0], count, base, 0, t);
      VisibleDeadlineBound(batches[0], count, base, 0, t, longest, d);
      forall k | 0 <= k < |batches[1..]| ensures Known(batches[1..][k], d, next) {
        assert Known(batches[k + 1], d, t);
      }
      BacklogBound(batches[1..], count, base, next, longest, d);
    }
  }

  /** Past a known deadline a backlog of any length makes no attempt and takes no time. */
  lemma {:induction false} LateBacklogNoAttempt(batches: seq<Env>, count: nat, base: UInt32, t: nat, d: nat)
    requires AllKnown(batches, d, t) && d <= t
    ensures HandleAll(batches, count, base, t) == (t, 0)
    decreases |batches|
  {
    if batches != [] {
      assert Known(batches[0], d, t);
      LateBatchNoAttempt(batches[0], count, base, t, d);
      hide Run;
      LateBacklogNoAttempt(batches[1..], count, base, t, d);
    }
  }

  // --- A deadline published during the call --------------------------------------------

  /** Iteration `k` of the call is the one in progress at time `p`. */
  predicate InProgress(r: Trail, k: nat, p: nat) {
    k < |r.heads| && r.heads[k] < p && (k + 1 < |r.heads| ==> p <= r.heads[k + 1])
  }

  /** The deadline bound. With attempts no longer than `longest`, base backoff
      `base`, and a deadline `d` published at `p` while iteration `i + k` is in
      progress, the call returns no later than one attempt past `d`, or one
      attempt and that iteration's backoff past `p`. */
  lemma {:induction false} DeadlineBound(env: Env, count: nat, base: UInt32, i: nat, t: nat, longest: nat, k: nat)
    requires i <= count && env.publication.Some?
    requires forall j :: env.duration(j) <= longest
    requires InProgress(Run(env, count, base, i, t), k, env.publication.value.at)
    ensures var (p, d) := (env.publication.value.at, env.publication.value.deadline);
      Run(env, count, base, i, t).finish <= Max(d + longest, p + longest + Backoff(base, i + k))
    decreases count - i
  {
    RunHeads(env, count, base, i, t);
    if k == 0 {
      PublishedHere(env, count, base, i, t, longest);
    } else {
      hide Run, Backoff, VisibleDeadline, Max;
      var t1 := t + env.duration(i) + Backoff(base, i);
      ShiftProgress(Run(env, count, base, i, t), t, Run(env, count, base, i + 1, t1), k, env.publication.value.at);
      DeadlineBound(env, count, base, i + 1, t1, longest, k - 1);
    }
  }

  lemma ShiftProgress(r: Trail, t: nat, rest: Trail, k: nat, p: nat)
    requires r.heads == [t] + rest.heads && k > 0
    ensures InProgress(r, k, p) <==> InProgress(rest, k - 1, p)
  {
  }

  /** The deadline is published during the iteration the call is entering. */
  lemma PublishedHere(env: Env, count: nat, base: UInt32, i: nat, t: nat, longest: nat)
    requires i <= count && env.publication.Some?
    requires forall j :: env.duration(j) <= longest
    requires InProgress(Run(env, count, base, i, t), 0, env.publication.value.at)
    ensures var (p, d) := (env.publication.value.at, env.publication.value.deadline);
      Run(env, count, base, i, t).finish <= Max(d + longest, p + longest + Backoff(base, i))
  {
    RunHeads(env, count, base, i, t);
    var r := Run(env, count, base, i, t);
    assert env.duration(i) <= longest;
    if |r.heads| > 1 {
      var t1 := t + env.duration(i) + Backoff(base, i);
      RunHeads(env, count, base, i + 1, t1);
      assert r.heads[1] == t1;
      VisibleDeadlineBound(env, count, base, i + 1, t1, longest, env.publication.value.deadline);
    }
  }

  /** A call's first head is its entry; a second head is the next iteration's. */
  lemma RunHeads(env: Env, count: nat, base: UInt32, i: nat, t: nat)
    requires i <= count
    ensures var r := Run(env, count, base, i, t);
      && r.heads != [] && r.heads[0] == t
      && (|r.heads| == 1 ==> r.finish <= t + env.duration(i))
      && (|r.heads| > 1 ==>
            i < count &&
            var rest := Run(env, count, base, i + 1, t + env.duration(i) + Backoff(base, i));
            r.heads == [t] + rest.heads && r.finish == rest.finish)
  {
  }

  function Sum(xs: seq<nat>): nat { if xs == [] then 0 else xs[0] + Sum(xs[1..]) }

  /** The sleeps of a call are the first backoffs, in order. */
  lemma {:induction false} SleepsAreBackoffs(env: Env, count: nat, base: UInt32, i: nat, t: nat)
    requires i <= count
    ensures var r := Run(env, count, base, i, t);
      && i + |r.sleeps| <= count && |r.sleeps| <= |r.starts| <= |r.sleeps| + 1
      && forall k :: 0 <= k < |r.sleeps| ==> r.sleeps[k] == Backoff(base, i + k)
    decreases count - i
  {
    if i < count && env.outcome(i).AttemptFailed? {
      SleepsAreBackoffs(env, count, base, i + 1, t + env.duration(i) + Backoff(base, i));
    }
  }

  function BackoffTotal(base: UInt32, k: nat): nat {
    if k == 0 then 0 else BackoffTotal(base, k - 1) + Backoff(base, k - 1)
  }

  lemma {:induction false} SumIsTotal(base: UInt32, sleeps: seq<nat>, i: nat)
    requires forall k :: 0 <= k < |sleeps| ==> sleeps[k] == Backoff(base, i + k)
    ensures BackoffTotal(base, i) + Sum(sleeps) == BackoffTotal(base, i + |sleeps|)
    decreases |sleeps|
  {
    if sleeps != [] {
      SumIsTotal(base, sleeps[1..], i + 1);
    }
  }

  lemma PowGrows(k: nat)
    ensures Pow(2, k + 1) == 2 * Pow(2, k)
  {
  }

  lemma Pow32()
    ensures Pow(2, 32) == 0x1_0000_0000
  {
    assert Pow(2, 8) == 256;
    assert Pow(2, 16) == 65536 by {
      PowAdd(8, 8);
    }
    PowAdd(16, 16);
  }

  lemma {:induction false} PowAdd(a: nat, b: nat)
    ensures Pow(2, a + b) == Pow(2, a) * Pow(2, b)
  {
    if b > 0 {
      PowAdd(a, b - 1);
      PowGrows(a + b - 1);
      PowGrows(b - 1);
    }
  }

  /** The backoff is the base doubled per attempt, as far as a 32-bit factor carries
      it; the product itself never saturates. */
  lemma BackoffExact(base: UInt32, k: nat)
    ensures Backoff(base, k) == base * if k < 32 then Pow(2, k) else 0xFFFF_FFFF
  {
    hide Pow;
    Pow32();
    if k < 32 {
      PowUpTo(k, 32);
      MulMonotone(base, U32_MAX, Pow(2, k), 0x1_0000_0000);
    } else {
      MulMonotone(base, U32_MAX, U32_MAX, U32_MAX);
    }
  }

  /** Open-loop doubling, as far as the 32-bit factor carries it. */
  lemma {:induction false} BackoffTotalExact(base: UInt32, k: nat)
    requires k <= 32
    ensures BackoffTotal(base, k) == base * (Pow(2, k) - 1)
  {
    hide Backoff;
    if k > 0 {
      BackoffTotalExact(base, k - 1);
      BackoffExact(base, k - 1);
      PowGrows(k - 1);
      calc {
        base * (Pow(2, k - 1) - 1) + base * Pow(2, k - 1);
        base * (Pow(2, k - 1) - 1 + Pow(2, k - 1));
        base * (Pow(2, k) - 1);
      }
    }
  }

  lemma MulMonotone(a: nat, b: nat, c: nat, d: nat)
    requires a <= b && c <= d
    ensures a * c <= b * d
  {
  }

  lemma {:induction false} PowUpTo(a: nat, b: nat)
    requires a <= b
    ensures Pow(2, a) <= Pow(2, b)
  {
    if a < b {
      PowUpTo(a, b - 1);
      PowGrows(b - 1);
    }
  }

  /** Past 32 retries the factor sticks at `u32::MAX` and the total falls short. */
  lemma {:induction false} BackoffTotalShort(base: UInt32, k: nat)
    requires k > 32 && base > 0
    ensures BackoffTotal(base, k) < base * (Pow(2, k) - 1)
  {
    Pow32();
    PowGrows(k - 1);
    PowUpTo(32, k - 1);
    assert BackoffFactor(k - 1) < Pow(2, k - 1);
    assert Backoff(base, k - 1) < base * Pow(2, k - 1) by {
      assert base * BackoffFactor(k - 1) < base * Pow(2, k - 1);
    }
    if k == 33 {
      BackoffTotalExact(base, 32);
    } else {
      BackoffTotalShort(base, k - 1);
    }
  }

  /** The `k` sleeps of a call total `base * (2^k - 1)`, exactly when the doubling
      stays within its 32-bit factor (or there is nothing to double). */
  lemma SleepTotal(env: Env, count: nat, base: UInt32, t: nat)
    ensures var r := Run(env, count, base, 0, t);
      Sum(r.sleeps) == base * (Pow(2, |r.sleeps|) - 1) <==> |r.sleeps| <= 32 || base == 0
  {
    hide Run, Backoff, Pow;
    var r := Run(env, count, base, 0, t);
    var k := |r.sleeps|;
    SleepsAreBackoffs(env, count, base, 0, t);
    SumIsTotal(base, r.sleeps, 0);
    if k <= 32 {
      BackoffTotalExact(base, k);
    } else if base > 0 {
      BackoffTotalShort(base, k);
    } else {
      NothingToDouble(k);
    }
  }

  lemma {:induction false} NothingToDouble(k: nat)
    ensures BackoffTotal(0, k) == 0
  {
    if k > 0 {
      NothingToDouble(k - 1);
    }
  }
}
