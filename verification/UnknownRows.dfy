/** Unknown results in the action table: they stay, and the turn they belong to can only end. */
module UnknownRows {
  import opened Wrappers
  import opened Protocol
  import opened LedgerModel
  import opened LedgerFacts
  import opened Kernel
  import opened KernelInvariant
  import opened KernelTables
  import opened KernelFrames
  import opened KernelMoves
  import opened KernelRounds
  import opened KernelRuns

  ghost predicate HasUnknown(db: Db) {
    exists id :: id in db.actions && db.actions[id].status == Unknown
  }

  /** Some action of the session turns unknown in this step. */
  predicate TurnsUnknown(sys: Sys, s: Session, step: Step) {
    step == RunnerStep(s, FinishAction) && Possible(sys, step)
    && sys.runners[s].phase.exec.status == Unknown
  }

  /** The session's turn in progress has an unknown action. */
  ghost predicate TurnUnknown(sys: Sys, s: Session) {
    s in sys.runners
    && exists id :: id in sys.shared.db.actions && sys.shared.db.actions[id].status == Unknown
         && id.round.turn == sys.runners[s].turn
  }

  lemma UnknownRowsStay(limits: Limits, sys: Sys, step: Step, id: ActionId)
    requires Inv(sys) && Possible(sys, step)
    requires id in sys.shared.db.actions && sys.shared.db.actions[id].status == Unknown
    ensures id in Apply(limits, sys, step).shared.db.actions
    ensures Apply(limits, sys, step).shared.db.actions[id].status == Unknown
  {
    if step.RunnerStep? {
      UnknownRowsStayMove(limits, sys.shared, sys.runners[step.session], step.move, id);
    } else {
      OutsideKeepsRows(limits, sys, step, id);
    }
  }

  lemma OutsideKeepsRows(limits: Limits, sys: Sys, step: Step, id: ActionId)
    requires Possible(sys, step) && !step.RunnerStep? && id in sys.shared.db.actions
    requires sys.shared.db.actions[id].status != Started
    ensures id in Apply(limits, sys, step).shared.db.actions
    ensures Apply(limits, sys, step).shared.db.actions[id] == sys.shared.db.actions[id]
  {
    if step.Crash? {
      RecoverKeepsRow(sys.shared.db, step.order, id);
      CrashDb(limits, sys, step.order);
    } else {
      AppendsOnly(limits, sys, step);
    }
  }

  lemma RecoverKeepsRow(db: Db, order: seq<ActionId>, id: ActionId)
    requires Enumerates(order, StartedIds(db)) && id in db.actions && db.actions[id].status != Started
    ensures id in Recover(db, order).actions && Recover(db, order).actions[id] == db.actions[id]
  {
    CloseAllRows(db, order);
  }

  lemma CrashDb(limits: Limits, sys: Sys, order: seq<ActionId>)
    requires Possible(sys, Crash(order))
    ensures Apply(limits, sys, Crash(order)).shared.db == Recover(sys.shared.db, order)
  {
  }

  /** Deliveries, observations, host events and new turns touch no action row. */
  lemma AppendsOnly(limits: Limits, sys: Sys, step: Step)
    requires Possible(sys, step) && !step.RunnerStep? && !step.Crash?
    ensures Apply(limits, sys, step).shared.db.actions == sys.shared.db.actions
  {
    if step.Deliver? {
      DeliverKeepsRows(sys.shared.db, step.key, step.payload, step.transport);
    }
  }

  lemma DeliverKeepsRows(db: Db, key: DeliveryKey, payload: string, transport: string)
    requires key in db.deliveries ==> InLog(db.events, db.deliveries[key]) && db.events[db.deliveries[key] - 1].body.Inbound?
    ensures Ingest(db, key, payload, transport).Ok? ==> Ingest(db, key, payload, transport).value.0.actions == db.actions
  {
  }

  lemma BeginKeepsRow(sh: Shared, r: Runner, id: ActionId)
    requires Enabled(r, BeginAction) && id in sh.db.actions
    ensures id in DoBegin(sh, r).0.db.actions && DoBegin(sh, r).0.db.actions[id] == sh.db.actions[id]
  {
  }

  lemma FinishKeepsRow(sh: Shared, r: Runner, id: ActionId)
    requires Enabled(r, FinishAction) && id in sh.db.actions && sh.db.actions[id].status != Started
    ensures id in DoFinish(sh, r).0.db.actions && DoFinish(sh, r).0.db.actions[id] == sh.db.actions[id]
  {
  }

  lemma JudgeKeepsRows(sh: Shared, r: Runner, allow: bool)
    requires Enabled(r, Judge(allow))
    ensures DoJudge(sh, r, allow).0.db.actions == sh.db.actions
  {
  }

  lemma UnknownRowsStayMove(limits: Limits, sh: Shared, r: Runner, m: Move, id: ActionId)
    requires Enabled(r, m) && id in sh.db.actions && sh.db.actions[id].status == Unknown
    ensures id in Do(limits, sh, r, m).0.db.actions && Do(limits, sh, r, m).0.db.actions[id] == sh.db.actions[id]
  {
    match m
    case BeginAction => BeginKeepsRow(sh, r, id);
    case FinishAction => FinishKeepsRow(sh, r, id);
    case Judge(allow) => JudgeKeepsRows(sh, r, allow);
    case _ => OtherMoves(limits, sh, r, m);
  }

  predicate SavesHistory(m: Move) { m.StoreHistory? || m.SaveRound? || m.SaveCorrection? }

  predicate OfLog(m: Move) { m.RecordRound? || m.RefuseAction? || m.EndTurn? || m.MoveCursor? }

  /** No other move touches an action row. */
  lemma OtherMoves(limits: Limits, sh: Shared, r: Runner, m: Move)
    requires Enabled(r, m) && !m.BeginAction? && !m.FinishAction? && !m.Judge?
    ensures Do(limits, sh, r, m).0.db.actions == sh.db.actions
  {
    if SavesHistory(m) {
      SavingMoves(limits, sh, r, m);
    } else if OfLog(m) {
      LogMoves(limits, sh, r, m);
    } else {
      QuietMoves(limits, sh, r, m);
    }
  }

  lemma SavingMoves(limits: Limits, sh: Shared, r: Runner, m: Move)
    requires Enabled(r, m) && SavesHistory(m)
    ensures Do(limits, sh, r, m).0.db.actions == sh.db.actions
  {
    match m
    case StoreHistory => StoreRows(sh, r, None);
    case SaveRound(_) => StoreRows(sh, WithRoundMessages(r), Some(Current(r)));
    case SaveCorrection => StoreRows(sh, WithCorrection(r), Some(Current(r)));
  }

  lemma StoreRows(sh: Shared, r: Runner, finished: Option<RoundId>)
    ensures Store(sh, r, finished).db.actions == sh.db.actions
  {
  }

  lemma LogMoves(limits: Limits, sh: Shared, r: Runner, m: Move)
    requires Enabled(r, m) && OfLog(m)
    ensures Do(limits, sh, r, m).0.db.actions == sh.db.actions
  {
  }

  lemma QuietMoves(limits: Limits, sh: Shared, r: Runner, m: Move)
    requires Enabled(r, m) && !SavesHistory(m) && !OfLog(m) && !m.BeginAction? && !m.FinishAction? && !m.Judge?
    ensures Do(limits, sh, r, m).0.db == sh.db
  {
  }

  lemma HasUnknownStays(limits: Limits, sys: Sys, step: Step)
    requires Inv(sys) && Possible(sys, step) && HasUnknown(sys.shared.db)
    ensures HasUnknown(Apply(limits, sys, step).shared.db)
  {
    var id :| id in sys.shared.db.actions && sys.shared.db.actions[id].status == Unknown;
    UnknownRowsStay(limits, sys, step, id);
  }

  /** A runner stays with its turn. */
  lemma SameTurn(limits: Limits, sys: Sys, s: Session, step: Step)
    requires Inv(sys) && Possible(sys, step) && s in sys.runners && s in Apply(limits, sys, step).runners
    ensures Apply(limits, sys, step).runners[s].turn == sys.runners[s].turn
  {
    if step.RunnerStep? && step.session == s {
      SerialsMove(limits, sys.shared, sys.runners[s], step.move, sys.serial);
    }
  }

  lemma TurnUnknownStays(limits: Limits, sys: Sys, s: Session, step: Step)
    requires Inv(sys) && Possible(sys, step) && TurnUnknown(sys, s) && s in Apply(limits, sys, step).runners
    ensures TurnUnknown(Apply(limits, sys, step), s)
  {
    var id :| id in sys.shared.db.actions && sys.shared.db.actions[id].status == Unknown
              && id.round.turn == sys.runners[s].turn;
    UnknownRowsStay(limits, sys, step, id);
    SameTurn(limits, sys, s, step);
  }

  lemma FinishedUnknownRow(sh: Shared, r: Runner)
    requires Enabled(r, FinishAction) && ActingInv(sh, r) && r.phase.exec.status == Unknown
    ensures DoFinish(sh, r).1.Some? && CurrentId(r).round.turn == r.turn
    ensures CurrentId(r) in DoFinish(sh, r).0.db.actions
    ensures DoFinish(sh, r).0.db.actions[CurrentId(r)].status == Unknown
  {
  }

  lemma TurningUnknown(limits: Limits, sys: Sys, s: Session)
    requires Inv(sys) && TurnsUnknown(sys, s, RunnerStep(s, FinishAction))
    ensures var next := Apply(limits, sys, RunnerStep(s, FinishAction));
            s in next.runners && TurnUnknown(next, s) && HasUnknown(next.shared.db)
  {
    var r := sys.runners[s];
    var step := RunnerStep(s, FinishAction);
    var next := Apply(limits, sys, step);
    assert RunnerInv(sys.shared, s, r);
    FinishedUnknownRow(sys.shared, r);
    assert next.shared == DoFinish(sys.shared, r).0;
    SameTurn(limits, sys, s, step);
  }

  /** A turn with an unknown action begins nothing more and is not checkpointed. */
  lemma UnknownTurnHalted(sys: Sys, s: Session)
    requires Inv(sys) && TurnUnknown(sys, s)
    ensures Halted(sys.runners[s].phase)
  {
    assert RunnerInv(sys.shared, s, sys.runners[s]);
  }
}
