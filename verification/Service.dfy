/** The web service's attention loop around the kernel: one worker runs turns for the live session, an
    owner's new message clears the attention flag, and a restart computes the flag anew. */
module Service {
  import opened Wrappers
  import opened Protocol
  import opened LedgerModel
  import opened LedgerFacts
  import opened Kernel
  import opened KernelInvariant
  import opened KernelTables
  import opened KernelFrames
  import opened KernelMoves
  import opened KernelRounds
  import opened KernelRuns
  import opened KernelTheorems
  import opened UnknownRows

  const LIVE: Session := "live"

  /** Where the attention loop stands; setting the flag is a store in memory, then one in the cache table. */
  datatype Worker = Resting | Armed | Turning | MustFlag | MustStore

  /** `clearing` and `putting` count owner submissions about to clear the flag in memory, and in the cache.
      `blocked` is auxiliary: an action became unknown and no owner has cleared the flag since. */
  datatype Web = Web(flag: bool, stored: bool, worker: Worker, clearing: nat, putting: nat, blocked: bool)

  datatype Svc = Svc(sys: Sys, web: Web)

  datatype ServiceStep =
    | Core(step: Step)
    | Check
    | Launch
    | Flag
    | StoreFlag
    | OwnerSubmit(source: string, external: string, payload: string, transport: string)
    | Clear
    | StoreClear
    | Restart(order: seq<ActionId>)

  predicate CorePossible(svc: Svc, step: Step) {
    && Possible(svc.sys, step)
    && !step.Crash?
    && (step.StartTurn? ==> step.session != LIVE)
    && (step.RunnerStep? && step.session == LIVE ==>
          && svc.web.worker == Turning
          && (step.move == Leave ==> !Good(svc.sys.runners[LIVE].phase.outcome)))
  }

  /** A new owner delivery; a repeated one does not clear anything. */
  predicate NewDelivery(svc: Svc, source: string, external: string) {
    DeliveryKey(LIVE, source, external) !in svc.sys.shared.db.deliveries
  }

  ghost predicate SvcPossible(svc: Svc, e: ServiceStep) {
    match e
    case Core(step) => CorePossible(svc, step)
    case Check => svc.web.worker == Resting && !svc.web.flag && Pending(svc.sys.shared.db, LIVE) != []
    case Launch => svc.web.worker == Armed && LIVE !in svc.sys.runners
    case Flag => svc.web.worker == MustFlag
    case StoreFlag => svc.web.worker == MustStore
    case OwnerSubmit(source, external, payload, transport) =>
      NewDelivery(svc, source, external)
      && Possible(svc.sys, Deliver(DeliveryKey(LIVE, source, external), payload, transport))
    case Clear => svc.web.clearing > 0
    case StoreClear => svc.web.putting > 0
    case Restart(order) => Possible(svc.sys, Crash(order))
  }

  /** The worker after a core step: a turn that is gone was either checkpointed or needs attention. */
  function WorkerAfter(svc: Svc, step: Step, next: Sys): Worker {
    if step.RunnerStep? && step.session == LIVE && LIVE !in next.runners
    then if step.move.MoveCursor? then Resting else MustFlag
    else svc.web.worker
  }

  ghost function Act(limits: Limits, svc: Svc, e: ServiceStep): Svc
    requires SvcPossible(svc, e)
  {
    var web := svc.web;
    match e
    case Core(step) =>
      var next := Apply(limits, svc.sys, step);
      Svc(next, web.(worker := WorkerAfter(svc, step, next), blocked := web.blocked || TurnsUnknown(svc.sys, LIVE, step)))
    case Check => svc.(web := web.(worker := Armed))
    case Launch => Svc(Apply(limits, svc.sys, StartTurn(LIVE, None)), web.(worker := Turning))
    case Flag => svc.(web := web.(flag := true, worker := MustStore))
    case StoreFlag => svc.(web := web.(stored := true, worker := Resting))
    case OwnerSubmit(source, external, payload, transport) =>
      Svc(Apply(limits, svc.sys, Deliver(DeliveryKey(LIVE, source, external), payload, transport)),
          web.(clearing := web.clearing + 1))
    case Clear => svc.(web := web.(flag := false, clearing := web.clearing - 1, putting := web.putting + 1, blocked := false))
    case StoreClear => svc.(web := web.(stored := false, putting := web.putting - 1))
    case Restart(order) =>
      var next := Apply(limits, svc.sys, Crash(order));
      var unknown := HasUnknown(next.shared.db);
      Svc(next, Web(unknown || web.stored, web.stored, Resting, 0, 0, unknown))
  }

  const SVC_INITIAL := Svc(INITIAL, Web(false, false, Resting, 0, 0, false))

  ghost function Serve(limits: Limits, log: seq<ServiceStep>): Option<Svc> {
    if log == [] then Some(SVC_INITIAL)
    else
      var before := Serve(limits, log[..|log| - 1]);
      var e := log[|log| - 1];
      if before.Some? && SvcPossible(before.value, e) then Some(Act(limits, before.value, e)) else None
  }

  // ---- invariant ----

  ghost predicate BlockedMeans(svc: Svc) {
    svc.web.blocked ==>
      && HasUnknown(svc.sys.shared.db)
      && match svc.web.worker
         case Resting => svc.web.flag
         case MustStore => svc.web.flag
         case Armed => false
         case Turning => TurnUnknown(svc.sys, LIVE)
         case MustFlag => true
  }

  ghost predicate SvcInv(svc: Svc) {
    && Inv(svc.sys)
    && (svc.web.worker == Turning <==> LIVE in svc.sys.runners)
    && BlockedMeans(svc)
  }

  lemma CoreRunners(limits: Limits, svc: Svc, step: Step)
    requires SvcInv(svc) && CorePossible(svc, step)
    ensures var next := Apply(limits, svc.sys, step);
            (WorkerAfter(svc, step, next) == Turning <==> LIVE in next.runners)
  {
  }

  /** A blocked service stays as it is described while the worker turns. */
  lemma TurningBlocked(limits: Limits, svc: Svc, step: Step)
    requires SvcInv(svc) && CorePossible(svc, step) && svc.web.blocked && svc.web.worker == Turning
    ensures var next := Apply(limits, svc.sys, step);
            if LIVE in next.runners then TurnUnknown(next, LIVE) else WorkerAfter(svc, step, next) == MustFlag
  {
    UnknownTurnHalted(svc.sys, LIVE);
    if LIVE in Apply(limits, svc.sys, step).runners { TurnUnknownStays(limits, svc.sys, LIVE, step); }
    else { LeavesUnmarked(limits, svc, step); }
  }

  /** A turn that is gone without moving the cursor leaves the worker to set the flag. */
  lemma LeavesUnmarked(limits: Limits, svc: Svc, step: Step)
    requires SvcInv(svc) && CorePossible(svc, step) && LIVE in svc.sys.runners && Halted(svc.sys.runners[LIVE].phase)
    requires LIVE !in Apply(limits, svc.sys, step).runners
    ensures WorkerAfter(svc, step, Apply(limits, svc.sys, step)) == MustFlag
  {
  }

  lemma CoreBlocked(limits: Limits, svc: Svc, step: Step)
    requires SvcInv(svc) && CorePossible(svc, step)
    ensures BlockedMeans(Act(limits, svc, Core(step)))
  {
    if TurnsUnknown(svc.sys, LIVE, step) {
      TurningUnknown(limits, svc.sys, LIVE);
    } else if svc.web.blocked {
      HasUnknownStays(limits, svc.sys, step);
      if svc.web.worker == Turning { TurningBlocked(limits, svc, step); }
    }
  }

  lemma ActKeeps(limits: Limits, svc: Svc, e: ServiceStep)
    requires SvcInv(svc) && SvcPossible(svc, e)
    ensures SvcInv(Act(limits, svc, e))
  {
    match e
    case Core(step) =>
      StepKeeps(limits, svc.sys, step);
      CoreRunners(limits, svc, step);
      CoreBlocked(limits, svc, step);
    case Launch => StepKeeps(limits, svc.sys, StartTurn(LIVE, None));
    case OwnerSubmit(source, external, payload, transport) =>
      var step := Deliver(DeliveryKey(LIVE, source, external), payload, transport);
      StepKeeps(limits, svc.sys, step);
      SubmitKeeps(limits, svc, step);
    case Restart(order) => StepKeeps(limits, svc.sys, Crash(order));
    case _ =>
  }

  lemma SubmitKeeps(limits: Limits, svc: Svc, step: Step)
    requires SvcInv(svc) && step.Deliver? && Possible(svc.sys, step)
    ensures var next := Apply(limits, svc.sys, step);
            BlockedMeans(Svc(next, svc.web.(clearing := svc.web.clearing + 1))) && next.runners == svc.sys.runners
  {
    if svc.web.blocked {
      HasUnknownStays(limits, svc.sys, step);
      if svc.web.worker == Turning { TurnUnknownStays(limits, svc.sys, LIVE, step); }
    }
  }

  lemma {:induction false} ServeInv(limits: Limits, log: seq<ServiceStep>)
    requires Serve(limits, log).Some?
    ensures SvcInv(Serve(limits, log).value)
    decreases |log|
  {
    if log == [] {
      InitialInv();
    } else {
      ServeInv(limits, log[..|log| - 1]);
      ActKeeps(limits, Serve(limits, log[..|log| - 1]).value, log[|log| - 1]);
    }
  }

  // ---- theorems ----

  /** A live action turning unknown blocks the service, and so does any unknown action found at a restart. */
  lemma UnknownBlocks(limits: Limits, svc: Svc, e: ServiceStep)
    requires SvcInv(svc) && SvcPossible(svc, e)
    ensures e.Core? && TurnsUnknown(svc.sys, LIVE, e.step) ==> Act(limits, svc, e).web.blocked
    ensures e.Restart? && HasUnknown(Act(limits, svc, e).sys.shared.db) ==>
              Act(limits, svc, e).web.blocked && Act(limits, svc, e).web.flag
    ensures e.Restart? && svc.web.blocked ==> Act(limits, svc, e).web.blocked
  {
    if e.Restart? && svc.web.blocked { HasUnknownStays(limits, svc.sys, Crash(e.order)); }
  }

  /** While blocked, the loop neither arms nor launches a turn, and no live action begins. */
  lemma BlockedStartsNothing(limits: Limits, log: seq<ServiceStep>, svc: Svc)
    requires Serve(limits, log) == Some(svc) && svc.web.blocked
    ensures !SvcPossible(svc, Check) && !SvcPossible(svc, Launch)
    ensures !SvcPossible(svc, Core(RunnerStep(LIVE, BeginAction)))
  {
    ServeInv(limits, log);
    BlockedHalts(svc);
  }

  lemma BlockedHalts(svc: Svc)
    requires SvcInv(svc) && svc.web.blocked
    ensures !SvcPossible(svc, Check) && !SvcPossible(svc, Launch)
    ensures !SvcPossible(svc, Core(RunnerStep(LIVE, BeginAction)))
  {
    if svc.web.worker == Turning {
      UnknownTurnHalted(svc.sys, LIVE);
      HaltedTurn(svc.sys.runners[LIVE]);
    }
  }

  lemma OnlyClearUnblocks(limits: Limits, svc: Svc, e: ServiceStep)
    requires SvcInv(svc) && SvcPossible(svc, e) && svc.web.blocked && e != Clear
    ensures Act(limits, svc, e).web.blocked
  {
    if e.Restart? { UnknownBlocks(limits, svc, e); }
  }

  ghost predicate Blocked(limits: Limits, log: seq<ServiceStep>) {
    Serve(limits, log).Some? && Serve(limits, log).value.web.blocked
  }

  lemma ServedBefore(limits: Limits, log: seq<ServiceStep>)
    requires log != [] && Serve(limits, log).Some?
    ensures Serve(limits, log[..|log| - 1]).Some?
  {
  }

  lemma StaysBlockedOnce(limits: Limits, log: seq<ServiceStep>)
    requires log != [] && Serve(limits, log).Some? && log[|log| - 1] != Clear
    requires Blocked(limits, log[..|log| - 1])
    ensures Blocked(limits, log)
  {
    var before := log[..|log| - 1];
    ServeInv(limits, before);
    OnlyClearUnblocks(limits, Serve(limits, before).value, log[|log| - 1]);
  }

  lemma {:induction false} StillBlocked(limits: Limits, log: seq<ServiceStep>, more: seq<ServiceStep>)
    requires Blocked(limits, log) && Serve(limits, log + more).Some? && Clear !in more
    ensures Blocked(limits, log + more)
    decreases |more|
  {
    if more == [] {
      assert log + more == log;
    } else {
      var all := log + more;
      assert all[..|all| - 1] == log + more[..|more| - 1];
      ServedBefore(limits, all);
      StillBlocked(limits, log, more[..|more| - 1]);
      StaysBlockedOnce(limits, all);
    }
  }

  /** Between a moment the service is blocked and the next time a live action begins, through any number
      of restarts, an owner submission has cleared the flag: without one, no begin is possible. */
  lemma BeginNeedsOwner(limits: Limits, log: seq<ServiceStep>, more: seq<ServiceStep>, svc: Svc)
    requires Blocked(limits, log) && Serve(limits, log + more) == Some(svc)
    requires SvcPossible(svc, Core(RunnerStep(LIVE, BeginAction)))
    ensures Clear in more
  {
    if Clear !in more {
      StillBlocked(limits, log, more);
      BlockedStartsNothing(limits, log + more, svc);
    }
  }

  function Clears(log: seq<ServiceStep>): nat {
    if log == [] then 0 else Clears(log[..|log| - 1]) + if log[|log| - 1] == Clear then 1 else 0
  }

  function OwnerSubmits(log: seq<ServiceStep>): nat {
    if log == [] then 0 else OwnerSubmits(log[..|log| - 1]) + if log[|log| - 1].OwnerSubmit? then 1 else 0
  }

  /** Every clearing was paid for by its own new owner submission; repeated deliveries clear nothing. */
  lemma {:induction false} ClearsArePaidFor(limits: Limits, log: seq<ServiceStep>)
    requires Serve(limits, log).Some?
    ensures Clears(log) + Serve(limits, log).value.web.clearing <= OwnerSubmits(log)
    decreases |log|
  {
    if log != [] { ClearsArePaidFor(limits, log[..|log| - 1]); }
  }
}
