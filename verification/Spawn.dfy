/** The spawn helper, entered by any number of threads after one install. Each
    step is one atomic operation or one mutex-held access. */
module Spawn {
  import opened Wrappers

  /** Where one call of the helper is. */
  datatype Pc =
    | AtFailedCheck       // SHIPPER_SPAWN_FAILED to load
    | AtCas               // SHIPPER_SPAWNED to compare-exchange
    | AtTake              // receiver slot to take
    | AtReset             // slot was empty: SHIPPER_SPAWNED to reset
    | AtSpawn             // body built, spawn closure to call
    | AtStash             // Ok: handle slot to fill
    | AtClearSpawned      // Err: SHIPPER_SPAWNED to reset
    | AtSetFailed         // Err: SHIPPER_SPAWN_FAILED to set
    | AtClearSender       // Err: sender slot to empty
    | AtWarn              // Err: warning to emit
    | Returned

  /** The process-wide slots and flags. `result` is what the spawn closure
      returned; it decides nothing. */
  datatype Globals = Globals(
    failed: bool, spawned: bool, receiver: bool, sender: bool, handle: bool,
    spawnCalls: nat, warnings: nat, result: Option<bool>)

  datatype Process = Process(g: Globals, calls: seq<Pc>)

  /** After `install_channel_at_minit`. */
  const INSTALLED := Process(Globals(false, false, true, true, false, 0, 0, None), [])

  /** A thread enters the helper, or the `i`-th call takes its next step. */
  datatype Action = Enter | Step(i: nat, ok: bool)

  /** One step of `spawn_with_on_batch_factory_inner`; `ok` is how the OS answers the spawn. */
  function Next(g: Globals, pc: Pc, ok: bool): (Globals, Pc) {
    match pc
    case AtFailedCheck => (g, if g.failed then Returned else AtCas)
    case AtCas => if g.spawned then (g, Returned) else (g.(spawned := true), AtTake)
    case AtTake => (g.(receiver := false), if g.receiver then AtSpawn else AtReset)
    case AtReset => (g.(spawned := false), Returned)
    case AtSpawn => (g.(spawnCalls := g.spawnCalls + 1, result := Some(ok)), if ok then AtStash else AtClearSpawned)
    case AtStash => (g.(handle := true), Returned)
    case AtClearSpawned => (g.(spawned := false), AtSetFailed)
    case AtSetFailed => (g.(failed := true), AtClearSender)
    case AtClearSender => (g.(sender := false), AtWarn)
    case AtWarn => (g.(warnings := g.warnings + 1), Returned)
    case Returned => (g, Returned)
  }

  function Advance(p: Process, i: nat, ok: bool): Process
    requires i < |p.calls|
  {
    var (g, pc) := Next(p.g, p.calls[i], ok);
    Process(g, p.calls[i := pc])
  }

  function Apply(p: Process, a: Action): Process {
    match a
    case Enter => Process(p.g, p.calls + [AtFailedCheck])
    case Step(i, ok) => if i < |p.calls| then Advance(p, i, ok) else p
  }

  function Execute(p: Process, actions: seq<Action>): Process {
    if actions == [] then p else Apply(Execute(p, actions[..|actions| - 1]), actions[|actions| - 1])
  }

  // --- Who holds what ------------------------------------------------------------

  /** What a call between two steps is alone to hold or still has to do. */
  datatype Role = OwnsReceiver | OwnsCas | BeforeHandle | BeforeFailed | BeforeSender | BeforeWarning

  predicate Plays(pc: Pc, role: Role) {
    match role
    case OwnsReceiver => pc.AtSpawn?
    case OwnsCas => pc.AtTake? || pc.AtReset? || pc.AtSpawn? || pc.AtClearSpawned?
    case BeforeHandle => pc.AtStash?
    case BeforeFailed => pc.AtClearSpawned? || pc.AtSetFailed?
    case BeforeSender => pc.AtClearSpawned? || pc.AtSetFailed? || pc.AtClearSender?
    case BeforeWarning => pc.AtClearSpawned? || pc.AtSetFailed? || pc.AtClearSender? || pc.AtWarn?
  }

  /** How many calls play the role. */
  function Holders(calls: seq<Pc>, role: Role): nat {
    if calls == [] then 0
    else Holders(calls[..|calls| - 1], role) + Unit(Plays(calls[|calls| - 1], role))
  }

  function Unit(b: bool): nat { if b then 1 else 0 }

  lemma {:induction false} HoldersUpdate(calls: seq<Pc>, i: nat, pc: Pc, role: Role)
    requires i < |calls|
    ensures Holders(calls[i := pc], role) + Unit(Plays(calls[i], role)) == Holders(calls, role) + Unit(Plays(pc, role))
    decreases |calls|
  {
    var n := |calls| - 1;
    if i < n {
      assert calls[i := pc][..n] == calls[..n][i := pc];
      HoldersUpdate(calls[..n], i, pc, role);
    } else {
      assert calls[i := pc][..n] == calls[..n];
    }
  }

  lemma HoldersEnter(calls: seq<Pc>, role: Role)
    ensures Holders(calls + [AtFailedCheck], role) == Holders(calls, role) + Unit(Plays(AtFailedCheck, role))
  {
  }

  /** The counts every step keeps, given how many play each role. The receiver is
      a token: in its slot, in the one call that took it, or spent. */
  predicate Tally(g: Globals, holders: Role -> nat) {
    && holders(OwnsReceiver) + Unit(g.receiver) + g.spawnCalls == 1
    && holders(OwnsCas) + Unit(g.result == Some(true)) == Unit(g.spawned)
    && holders(BeforeHandle) + Unit(g.handle) == Unit(g.result == Some(true))
    && holders(BeforeFailed) + Unit(g.failed) == Unit(g.result == Some(false))
    && holders(BeforeSender) + Unit(!g.sender) == Unit(g.result == Some(false))
    && holders(BeforeWarning) + g.warnings == Unit(g.result == Some(false))
    && g.spawnCalls == Unit(g.result.Some?)
  }

  predicate Counts(p: Process) { Tally(p.g, role => Holders(p.calls, role)) }

  /** While the receiver is in its slot, no call is past taking it; and until one
      wins the compare-exchange, none has returned. */
  ghost predicate Waiting(p: Process) {
    p.g.receiver ==>
      forall i :: 0 <= i < |p.calls| ==>
        || p.calls[i].AtFailedCheck? || p.calls[i].AtCas?
        || (p.g.spawned && (p.calls[i].AtTake? || p.calls[i].Returned?))
  }

  lemma {:induction false} NoHolder(calls: seq<Pc>, role: Role)
    requires forall i :: 0 <= i < |calls| ==> !Plays(calls[i], role)
    ensures Holders(calls, role) == 0
    decreases |calls|
  {
    if calls != [] {
      NoHolder(calls[..|calls| - 1], role);
    }
  }

  /** One step moves one call from role to role; the tally follows. */
  lemma NextTally(g: Globals, pc: Pc, ok: bool, before: Role -> nat, after: Role -> nat)
    requires Tally(g, before)
    requires forall role :: after(role) + Unit(Plays(pc, role)) == before(role) + Unit(Plays(Next(g, pc, ok).1, role))
    ensures Tally(Next(g, pc, ok).0, after)
  {
    match pc {
      case AtFailedCheck =>
      case AtCas =>
      case AtTake =>
      case AtReset =>
      case AtSpawn =>
      case AtStash =>
      case AtClearSpawned =>
      case AtSetFailed =>
      case AtClearSender =>
      case AtWarn =>
      case Returned =>
    }
  }

  lemma AdvanceCounts(p: Process, i: nat, ok: bool)
    requires Counts(p) && i < |p.calls|
    ensures Counts(Advance(p, i, ok))
  {
    hide Holders, Next, Tally, Plays;
    var (g, pc) := Next(p.g, p.calls[i], ok);
    forall role ensures Holders(p.calls[i := pc], role) + Unit(Plays(p.calls[i], role))
                     == Holders(p.calls, role) + Unit(Plays(pc, role)) {
      HoldersUpdate(p.calls, i, pc, role);
    }
    NextTally(p.g, p.calls[i], ok, role => Holders(p.calls, role), role => Holders(p.calls[i := pc], role));
  }

  lemma EnterCounts(p: Process)
    requires Counts(p)
    ensures Counts(Apply(p, Enter))
  {
    HoldersEnter(p.calls, OwnsReceiver);
    HoldersEnter(p.calls, OwnsCas);
    HoldersEnter(p.calls, BeforeHandle);
    HoldersEnter(p.calls, BeforeFailed);
    HoldersEnter(p.calls, BeforeSender);
    HoldersEnter(p.calls, BeforeWarning);
  }

  lemma ApplyWaiting(p: Process, a: Action)
    requires Counts(p) && Waiting(p)
    ensures Waiting(Apply(p, a))
  {
    hide Holders;
  }

  lemma {:induction false} Kept(actions: seq<Action>)
    ensures Counts(Execute(INSTALLED, actions)) && Waiting(Execute(INSTALLED, actions))
  {
    if actions != [] {
      var (before, a) := (actions[..|actions| - 1], actions[|actions| - 1]);
      Kept(before);
      var p := Execute(INSTALLED, before);
      ApplyWaiting(p, a);
      match a {
        case Enter => EnterCounts(p);
        case Step(i, ok) =>
          if i < |p.calls| {
            AdvanceCounts(p, i, ok);
          }
      }
    }
  }

  // --- What it gives ---------------------------------------------------------------

  /** At every moment of every interleaving the spawn closure has run at most
      once, and at most one warning is out. */
  lemma SpawnAtMostOnce(actions: seq<Action>)
    ensures var p := Execute(INSTALLED, actions); p.g.spawnCalls <= 1 && p.g.warnings <= 1
  {
    Kept(actions);
  }

  /** At most one call is between winning the compare-exchange and giving it up. */
  lemma GuardExclusive(actions: seq<Action>)
    ensures Holders(Execute(INSTALLED, actions).calls, OwnsCas) <= 1
  {
    Kept(actions);
  }

  /** Once all calls are through, the closure did run; and if the OS refused,
      the sender is gone, the flag is set, no handle exists, one warning is out. */
  lemma SettledOutcome(actions: seq<Action>)
    requires var p := Execute(INSTALLED, actions);
      p.calls != [] && forall i :: 0 <= i < |p.calls| ==> p.calls[i] == Returned
    ensures var p := Execute(INSTALLED, actions);
      && p.g.spawnCalls == 1 && p.g.result.Some?
      && (p.g.result == Some(true) ==>
            p.g.handle && p.g.sender && p.g.spawned && !p.g.failed && p.g.warnings == 0)
      && (p.g.result == Some(false) ==>
            !p.g.handle && !p.g.sender && !p.g.spawned && p.g.failed && p.g.warnings == 1)
  {
    var p := Execute(INSTALLED, actions);
    Kept(actions);
    NoHolder(p.calls, OwnsReceiver);
    NoHolder(p.calls, OwnsCas);
    NoHolder(p.calls, BeforeHandle);
    NoHolder(p.calls, BeforeFailed);
    NoHolder(p.calls, BeforeSender);
    NoHolder(p.calls, BeforeWarning);
    assert p.calls[0] == Returned;
  }

  /** After a refused spawn whose warning is out, whatever enters later leaves the
      flag set and every slot empty, and spawns and warns no more. The guard is up
      only while a call that had passed the flag before goes through it. */
  lemma FailureIsFinal(actions: seq<Action>, later: seq<Action>, p: Process)
    requires Execute(INSTALLED, actions).g.warnings == 1 && p == Execute(INSTALLED, actions + later)
    ensures p.g.failed && !p.g.sender && !p.g.handle && !p.g.receiver && p.g.warnings == 1 && p.g.spawnCalls == 1
    ensures Holders(p.calls, OwnsReceiver) == 0 && Unit(p.g.spawned) == Holders(p.calls, OwnsCas)
  {
    ExecuteAppend(INSTALLED, actions, later);
    Kept(actions);
    Kept(actions + later);
    Sticky(Execute(INSTALLED, actions), later);
    FailedBeforeWarning(Execute(INSTALLED, actions + later).calls);
  }

  /** The set flag ends every call that has not passed it: at its next step the call
      returns and touches nothing, and no call that enters later gets further. */
  lemma {:induction false} FlagEndsCalls(p: Process, later: seq<Action>, i: nat, ok: bool)
    requires p.g.failed && (i < |p.calls| ==> p.calls[i].AtFailedCheck?)
    ensures var q := Execute(p, later);
      && q.g.failed
      && (i < |q.calls| ==> q.calls[i].AtFailedCheck? || q.calls[i].Returned?)
      && (i < |q.calls| ==> Apply(q, Step(i, ok)) == Process(q.g, q.calls[i := Returned]))
  {
    if later != [] {
      FlagEndsCalls(p, later[..|later| - 1], i, ok);
    }
  }

  /** After a spawn that succeeded, the compare-exchange is never won again. */
  lemma SuccessIsFinal(actions: seq<Action>, later: seq<Action>, p: Process)
    requires Execute(INSTALLED, actions).g.result == Some(true) && p == Execute(INSTALLED, actions + later)
    ensures p.g.spawned && !p.g.failed && p.g.sender && p.g.warnings == 0 && p.g.spawnCalls == 1
    ensures Holders(p.calls, OwnsCas) == 0
  {
    ExecuteAppend(INSTALLED, actions, later);
    Kept(actions);
    Kept(actions + later);
    Sticky(Execute(INSTALLED, actions), later);
  }

  lemma {:induction false} ExecuteAppend(p: Process, first: seq<Action>, later: seq<Action>)
    ensures Execute(p, first + later) == Execute(Execute(p, first), later)
    decreases |later|
  {
    if later == [] {
      assert first + later == first;
    } else {
      var n := |later| - 1;
      assert (first + later)[..|first + later| - 1] == first + later[..n];
      ExecuteAppend(p, first, later[..n]);
    }
  }

  lemma {:induction false} FailedBeforeWarning(calls: seq<Pc>)
    ensures Holders(calls, BeforeFailed) <= Holders(calls, BeforeSender) <= Holders(calls, BeforeWarning)
  {
    if calls != [] {
      FailedBeforeWarning(calls[..|calls| - 1]);
    }
  }

  lemma NextSticky(g: Globals, pc: Pc, ok: bool)
    ensures var h := Next(g, pc, ok).0;
      && g.warnings <= h.warnings && g.spawnCalls <= h.spawnCalls
      && (g.spawnCalls < h.spawnCalls || g.result == h.result)
  {
    match pc {
      case AtFailedCheck =>
      case AtCas =>
      case AtTake =>
      case AtReset =>
      case AtSpawn =>
      case AtStash =>
      case AtClearSpawned =>
      case AtSetFailed =>
      case AtClearSender =>
      case AtWarn =>
      case Returned =>
    }
  }

  lemma ApplySticky(p: Process, a: Action)
    ensures var q := Apply(p, a);
      && p.g.warnings <= q.g.warnings && p.g.spawnCalls <= q.g.spawnCalls
      && (p.g.spawnCalls < q.g.spawnCalls || p.g.result == q.g.result)
  {
    hide Next;
    if a.Step? && a.i < |p.calls| {
      NextSticky(p.g, p.calls[a.i], a.ok);
    }
  }

  /** Warnings are never taken back, and a later spawn would be a second one. */
  lemma {:induction false} Sticky(p: Process, later: seq<Action>)
    ensures p.g.warnings <= Execute(p, later).g.warnings && p.g.spawnCalls <= Execute(p, later).g.spawnCalls
    ensures p.g.spawnCalls < Execute(p, later).g.spawnCalls || p.g.result == Execute(p, later).g.result
    decreases |later|
  {
    hide Apply;
    if later != [] {
      Sticky(p, later[..|later| - 1]);
      ApplySticky(Execute(p, later[..|later| - 1]), later[|later| - 1]);
    }
  }

  /** Atomic steps a call has left, at most. */
  function StepsLeft(pc: Pc): nat {
    match pc
    case AtFailedCheck => 8
    case AtCas => 7
    case AtTake => 6
    case AtSpawn => 5
    case AtClearSpawned => 4
    case AtSetFailed => 3
    case AtClearSender => 2
    case AtReset => 1
    case AtStash => 1
    case AtWarn => 1
    case Returned => 0
  }

  function OwnSteps(actions: seq<Action>, i: nat): nat {
    if actions == [] then 0
    else
      var last := actions[|actions| - 1];
      OwnSteps(actions[..|actions| - 1], i) + if last.Step? && last.i == i then 1 else 0
  }

  lemma StepsFewer(g: Globals, pc: Pc, ok: bool)
    ensures StepsLeft(Next(g, pc, ok).1) + 1 <= StepsLeft(pc) || Next(g, pc, ok).1 == Returned
    ensures pc == Returned ==> Next(g, pc, ok) == (g, Returned)
  {
  }

  /** No call waits for another: whatever the others do, it returns within eight steps
      of its own. */
  lemma {:induction false} CallsReturn(p: Process, later: seq<Action>, i: nat)
    requires i < |p.calls|
    ensures var q := Execute(p, later);
      && i < |q.calls|
      && (q.calls[i] == Returned || StepsLeft(q.calls[i]) + OwnSteps(later, i) <= StepsLeft(p.calls[i]))
      && (OwnSteps(later, i) >= 8 ==> q.calls[i] == Returned)
  {
    if later != [] {
      hide Next;
      var n := |later| - 1;
      CallsReturn(p, later[..n], i);
      var (q, a) := (Execute(p, later[..n]), later[n]);
      if a.Step? && a.i == i {
        StepsFewer(q.g, q.calls[i], a.ok);
      }
    }
  }

  lemma OneMore(actions: seq<Action>, a: Action)
    ensures Execute(INSTALLED, actions + [a]) == Apply(Execute(INSTALLED, actions), a)
  {
  }

  /** The window is real: between the reset of the guard and the setting of the
      flag, a second call wins the compare-exchange, finds no receiver, and leaves. */
  lemma WindowReached() returns (actions: seq<Action>)
    ensures Execute(INSTALLED, actions) ==
      Process(Globals(false, true, false, true, false, 1, 0, Some(false)), [AtSetFailed, AtReset])
  {
    actions := [];
    assert Execute(INSTALLED, []) == INSTALLED;
    hide Execute;
    var g0 := INSTALLED.g;
    var g1 := Globals(false, true, true, true, false, 0, 0, None);
    var g2 := Globals(false, true, false, true, false, 0, 0, None);
    var g3 := Globals(false, true, false, true, false, 1, 0, Some(false));
    var g4 := Globals(false, false, false, true, false, 1, 0, Some(false));
    var g5 := Globals(false, true, false, true, false, 1, 0, Some(false));
    OneMore([], Enter);
    OneMore([Enter], Enter);
    actions := [Enter] + [Enter];
    assert [] + [Enter] == [Enter];
    actions := Onto(actions, Process(g0, [AtFailedCheck, AtFailedCheck]), 0, g0, AtCas, [AtCas, AtFailedCheck]);
    actions := Onto(actions, Process(g0, [AtCas, AtFailedCheck]), 0, g1, AtTake, [AtTake, AtFailedCheck]);
    actions := Onto(actions, Process(g1, [AtTake, AtFailedCheck]), 0, g2, AtSpawn, [AtSpawn, AtFailedCheck]);
    actions :=
      Onto(actions, Process(g2, [AtSpawn, AtFailedCheck]), 0, g3, AtClearSpawned, [AtClearSpawned, AtFailedCheck]);
    actions :=
      Onto(actions, Process(g3, [AtClearSpawned, AtFailedCheck]), 0, g4, AtSetFailed, [AtSetFailed, AtFailedCheck]);
    actions := Onto(actions, Process(g4, [AtSetFailed, AtFailedCheck]), 1, g4, AtCas, [AtSetFailed, AtCas]);
    actions := Onto(actions, Process(g4, [AtSetFailed, AtCas]), 1, g5, AtTake, [AtSetFailed, AtTake]);
    actions := Onto(actions, Process(g5, [AtSetFailed, AtTake]), 1, g5, AtReset, [AtSetFailed, AtReset]);
  }

  /** A script one refused step longer. */
  lemma Onto(actions: seq<Action>, p: Process, i: nat, g: Globals, pc: Pc, calls: seq<Pc>) returns (more: seq<Action>)
    requires Execute(INSTALLED, actions) == p && i < |p.calls|
    requires Next(p.g, p.calls[i], false) == (g, pc) && p.calls[i := pc] == calls
    ensures Execute(INSTALLED, more) == Process(g, calls)
  {
    more := actions + [Step(i, false)];
    OneMore(actions, Step(i, false));
  }
}
