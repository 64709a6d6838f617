/** The scheduler's drain around the kernel: it runs turns for one session while something is pending, moves
    the cursor after each turn that ended well, and returns at the first one that did not. */
module Mailbox {
  import opened Wrappers
  import opened Protocol
  import opened LedgerModel
  import opened LedgerFacts
  import opened Messages
  import opened Kernel
  import opened KernelInvariant
  import opened KernelTables
  import opened KernelFrames
  import opened KernelMoves
  import opened KernelRounds
  import opened KernelRuns
  import opened KernelTheorems
  import opened UnknownRows

  /** Between drains, about to look for work, having seen none, waiting out the coalescing window, or in a turn.
      `read` is auxiliary: the log length when nothing was seen pending.  `ended` is the good outcome once the
      turn has returned and its cursor is to be moved. */
  datatype Stage = Off | Waiting | Empty(read: nat) | Armed | Turning(ended: Option<Outcome>)

  /** `outcomes` are those of the current drain, or of the last one; `done` is the producers' flag.  `blocked` is
      auxiliary: an action of the session turned unknown and no drain was begun since. */
  datatype Mail = Mail(sys: Sys, stage: Stage, outcomes: seq<Outcome>, done: bool, blocked: bool)

  datatype MailStep =
    | Core(step: Step)
    | Call(done: bool)
    | ProducersDone
    | Find
    | FindNothing
    | Wake
    | Launch
    | Return(cancelled: bool)

  const NO_MAIL := Mail(INITIAL, Off, [], false, false)

  /** Only the drain starts turns of its session; a turn that ended well goes on to the cursor. */
  predicate CorePossible(s: Session, m: Mail, step: Step) {
    && Possible(m.sys, step)
    && (step.StartTurn? ==> step.session != s)
    && (step == RunnerStep(s, Leave) ==> !Good(m.sys.runners[s].phase.outcome))
  }

  ghost predicate MailPossible(s: Session, m: Mail, e: MailStep) {
    match e
    case Core(step) => CorePossible(s, m, step)
    case Call(_) => m.stage == Off
    case ProducersDone => true
    case Find => m.stage == Waiting && Pending(m.sys.shared.db, s) != []
    case FindNothing => m.stage == Waiting && Pending(m.sys.shared.db, s) == []
    case Wake => m.stage.Empty?
    case Launch => m.stage == Armed && s !in m.sys.runners
    case Return(cancelled) => m.stage.Empty? && (m.done || cancelled)
  }

  /** After a move of the session's turn: the drain goes on only when the cursor was moved; an error of the
      turn or of the checkpoint ends it without a further outcome. */
  function AfterMove(m: Mail, r: Runner, move: Move, next: Sys): Mail
    requires Enabled(r, move)
  {
    if r.turn.session in next.runners then
      m.(sys := next, stage := if move == ReadThrough then Turning(Some(r.phase.outcome)) else m.stage)
    else if move == MoveCursor && m.stage.Turning? && m.stage.ended.Some? then
      m.(sys := next, stage := Waiting, outcomes := m.outcomes + [m.stage.ended.value])
    else if move == Leave then
      m.(sys := next, stage := Off, outcomes := m.outcomes + [r.phase.outcome])
    else
      m.(sys := next, stage := Off)
  }

  function AfterCore(limits: Limits, s: Session, m: Mail, step: Step): Mail
    requires CorePossible(s, m, step)
  {
    var next := Apply(limits, m.sys, step);
    if step.Crash? then m.(sys := next, stage := Off)
    else if step.RunnerStep? && step.session == s then AfterMove(m, m.sys.runners[s], step.move, next)
    else m.(sys := next)
  }

  ghost function Act(limits: Limits, s: Session, m: Mail, e: MailStep): Mail
    requires MailPossible(s, m, e)
  {
    match e
    case Core(step) =>
      AfterCore(limits, s, m, step).(blocked := m.blocked || TurnsUnknown(m.sys, s, step))
    case Call(done) => m.(stage := Waiting, outcomes := [], done := done, blocked := false)
    case ProducersDone => m.(done := true)
    case Find => m.(stage := Armed)
    case FindNothing => m.(stage := Empty(|m.sys.shared.db.events|))
    case Wake => m.(stage := Waiting)
    case Launch => m.(sys := Apply(limits, m.sys, StartTurn(s, None)), stage := Turning(None))
    case Return(_) => m.(stage := Off)
  }

  ghost function Drained(limits: Limits, s: Session, log: seq<MailStep>): Option<Mail> {
    if log == [] then Some(NO_MAIL)
    else
      var before := Drained(limits, s, log[..|log| - 1]);
      var e := log[|log| - 1];
      if before.Some? && MailPossible(s, before.value, e) then Some(Act(limits, s, before.value, e)) else None
  }

  // ---- what is pending ----

  lemma {:induction false} LaterListed(ns: seq<nat>, after: nat, n: nat)
    ensures n in Later(ns, after) <==> n in ns && n > after
    decreases |ns|
  {
    if ns != [] {
      LaterListed(ns[..|ns| - 1], after, n);
      assert ns == ns[..|ns| - 1] + [ns[|ns| - 1]];
    }
  }

  lemma PendingListed(db: Db, s: Session, n: nat)
    ensures n in Pending(db, s) <==> AttentionAt(db.events, s, n) && n > Cursor(db, s)
  {
    LaterListed(Attention(db.events, s), Cursor(db, s), n);
    AttentionListed(db.events, s);
  }

  /** What is pending stays so until the session's cursor moves. */
  lemma PendingStays(limits: Limits, sys: Sys, s: Session, step: Step)
    requires Inv(sys) && Possible(sys, step) && step != RunnerStep(s, MoveCursor) && Pending(sys.shared.db, s) != []
    ensures Pending(Apply(limits, sys, step).shared.db, s) != []
  {
    var n := Pending(sys.shared.db, s)[0];
    LogGrows(limits, sys, step);
    CursorStill(limits, sys, step, s);
    assert n in Pending(sys.shared.db, s);
    PendingListed(sys.shared.db, s, n);
    PendingListed(Apply(limits, sys, step).shared.db, s, n);
  }

  // ---- invariant ----

  predicate AllGood(outcomes: seq<Outcome>) {
    forall i | 0 <= i < |outcomes| :: Good(outcomes[i])
  }

  predicate GoodButLast(outcomes: seq<Outcome>) {
    outcomes != [] ==> AllGood(outcomes[..|outcomes| - 1])
  }

  /** A turn about to move the cursor carries the highest projected event. */
  ghost predicate MarksAll(sys: Sys, s: Session) {
    s in sys.runners && sys.runners[s].phase.Marking? ==>
      forall n: nat | AttentionAt(sys.shared.db.events, s, n) && n in Projected(sys.shared.db, s) ::
        n <= sys.runners[s].phase.through
  }

  /** Nothing is running for the session, and what is pending or unshown was logged after `read`. */
  ghost predicate SeenUpTo(sys: Sys, s: Session, read: nat) {
    && read <= |sys.shared.db.events| && Saved(sys.shared, s) <= read
    && forall n: nat | AttentionAt(sys.shared.db.events, s, n) && n <= read :: n <= Cursor(sys.shared.db, s)
  }

  ghost predicate StageMeans(s: Session, m: Mail) {
    && (m.stage.Turning? <==> s in m.sys.runners)
    && (m.stage.Turning? && m.stage.ended.Some? ==> Good(m.stage.ended.value))
    && (m.stage.Turning? ==> (m.stage.ended.Some? <==> m.sys.runners[s].phase.Marking?))
    && (m.stage.Armed? ==> Pending(m.sys.shared.db, s) != [])
    && (m.stage.Empty? ==> SeenUpTo(m.sys, s, m.stage.read))
    && (if m.stage.Off? then GoodButLast(m.outcomes) else AllGood(m.outcomes))
  }

  ghost predicate MailInv(s: Session, m: Mail) {
    && Inv(m.sys)
    && StageMeans(s, m)
    && (m.blocked && !m.stage.Off? ==> TurnUnknown(m.sys, s))
    && MarksAll(m.sys, s)
  }

  lemma {:induction false} GoodKept(outcomes: seq<Outcome>, o: Outcome)
    requires AllGood(outcomes)
    ensures GoodButLast(outcomes) && GoodButLast(outcomes + [o])
    ensures Good(o) ==> AllGood(outcomes + [o])
  {
    assert (outcomes + [o])[..|outcomes|] == outcomes;
  }

  lemma EnteringMarks(limits: Limits, sh: Shared, r: Runner, move: Move)
    requires Enabled(r, move)
    ensures var next := Do(limits, sh, r, move).1;
            next.Some? ==> (next.value.phase.Marking? <==> move == ReadThrough)
  {
    if move == ReadThrough {
    } else {
      OnlyReadThroughMarks(limits, sh, r, move);
    }
  }

  // ---- a move of the session's own turn ----

  lemma MovesOn(limits: Limits, s: Session, m: Mail, move: Move)
    requires MailInv(s, m) && CorePossible(s, m, RunnerStep(s, move))
    requires s in Apply(limits, m.sys, RunnerStep(s, move)).runners
    ensures StageMeans(s, AfterCore(limits, s, m, RunnerStep(s, move)))
  {
    EnteringMarks(limits, m.sys.shared, m.sys.runners[s], move);
  }

  lemma RestMeans(s: Session, m: Mail)
    requires s !in m.sys.runners
    requires (m.stage.Off? && GoodButLast(m.outcomes)) || (m.stage.Waiting? && AllGood(m.outcomes))
    ensures StageMeans(s, m)
  {
  }

  lemma CursorOut(limits: Limits, s: Session, m: Mail)
    requires StageMeans(s, m) && CorePossible(s, m, RunnerStep(s, MoveCursor))
    ensures StageMeans(s, AfterCore(limits, s, m, RunnerStep(s, MoveCursor)))
  {
    GoodKept(m.outcomes, m.stage.ended.value);
    RestMeans(s, AfterCore(limits, s, m, RunnerStep(s, MoveCursor)));
  }

  lemma LeaveOut(limits: Limits, s: Session, m: Mail)
    requires StageMeans(s, m) && CorePossible(s, m, RunnerStep(s, Leave))
    ensures StageMeans(s, AfterCore(limits, s, m, RunnerStep(s, Leave)))
  {
    GoodKept(m.outcomes, m.sys.runners[s].phase.outcome);
    RestMeans(s, AfterCore(limits, s, m, RunnerStep(s, Leave)));
  }

  lemma MovesOut(limits: Limits, s: Session, m: Mail, move: Move)
    requires StageMeans(s, m) && CorePossible(s, m, RunnerStep(s, move))
    requires s !in Apply(limits, m.sys, RunnerStep(s, move)).runners && m.sys.runners[s].turn.session == s
    ensures StageMeans(s, AfterCore(limits, s, m, RunnerStep(s, move)))
  {
    if move == MoveCursor {
      CursorOut(limits, s, m);
    } else if move == Leave {
      LeaveOut(limits, s, m);
    } else {
      GoodKept(m.outcomes, Silent);
      RestMeans(s, AfterCore(limits, s, m, RunnerStep(s, move)));
    }
  }

  /** A step of anyone else. */
  predicate Elsewhere(s: Session, step: Step) {
    !step.Crash? && (step.RunnerStep? ==> step.session != s) && (step.StartTurn? ==> step.session != s)
  }

  lemma OthersRunners(limits: Limits, sys: Sys, s: Session, step: Step)
    requires Possible(sys, step) && Elsewhere(s, step)
    ensures var next := Apply(limits, sys, step);
            (s in next.runners <==> s in sys.runners) && (s in sys.runners ==> next.runners[s] == sys.runners[s])
  {
  }

  lemma SavedStill(limits: Limits, sys: Sys, s: Session, step: Step)
    requires Inv(sys) && Possible(sys, step) && Elsewhere(s, step)
    ensures Saved(Apply(limits, sys, step).shared, s) == Saved(sys.shared, s)
  {
    match step
    case RunnerStep(session, move) =>
      MoveKeeps(limits, sys.shared, session, sys.runners[session], move);
      assert Rely(sys.shared, Do(limits, sys.shared, sys.runners[session], move).0, s);
    case _ =>
  }

  lemma SeenStays(limits: Limits, sys: Sys, s: Session, step: Step, read: nat)
    requires Inv(sys) && Possible(sys, step) && Elsewhere(s, step) && SeenUpTo(sys, s, read)
    ensures SeenUpTo(Apply(limits, sys, step), s, read)
  {
    var next := Apply(limits, sys, step);
    LogGrows(limits, sys, step);
    CursorStill(limits, sys, step, s);
    SavedStill(limits, sys, s, step);
    forall n: nat | AttentionAt(next.shared.db.events, s, n) && n <= read ensures n <= Cursor(next.shared.db, s) {
      assert AttentionAt(sys.shared.db.events, s, n);
    }
  }

  /** A read that comes back empty has seen all there is. */
  lemma SeenNow(sys: Sys, s: Session)
    requires Inv(sys) && Pending(sys.shared.db, s) == []
    ensures SeenUpTo(sys, s, |sys.shared.db.events|)
  {
    assert SessionInv(sys.shared, s);
    forall n: nat | AttentionAt(sys.shared.db.events, s, n) ensures n <= Cursor(sys.shared.db, s) {
      PendingListed(sys.shared.db, s, n);
    }
  }

  lemma OthersStage(limits: Limits, s: Session, m: Mail, step: Step)
    requires MailInv(s, m) && CorePossible(s, m, step) && Elsewhere(s, step)
    ensures StageMeans(s, AfterCore(limits, s, m, step))
  {
    OthersRunners(limits, m.sys, s, step);
    if m.stage.Armed? {
      PendingStays(limits, m.sys, s, step);
    } else if m.stage.Empty? {
      SeenStays(limits, m.sys, s, step, m.stage.read);
    }
  }

  lemma CrashStage(limits: Limits, s: Session, m: Mail, step: Step)
    requires MailInv(s, m) && CorePossible(s, m, step) && step.Crash?
    ensures StageMeans(s, AfterCore(limits, s, m, step)) && s !in Apply(limits, m.sys, step).runners
  {
    if !m.stage.Off? {
      GoodKept(m.outcomes, Silent);
    }
  }

  lemma CoreStage(limits: Limits, s: Session, m: Mail, step: Step)
    requires MailInv(s, m) && CorePossible(s, m, step)
    ensures StageMeans(s, AfterCore(limits, s, m, step))
  {
    if step.Crash? {
      CrashStage(limits, s, m, step);
    } else if step.RunnerStep? && step.session == s {
      if s in Apply(limits, m.sys, step).runners {
        MovesOn(limits, s, m, step.move);
      } else {
        MovesOut(limits, s, m, step.move);
      }
    } else {
      OthersStage(limits, s, m, step);
    }
  }

  // ---- blocked ----

  /** Only a turn whose cursor has moved is followed by another one. */
  lemma LeavesOff(limits: Limits, s: Session, m: Mail, step: Step)
    requires MailInv(s, m) && CorePossible(s, m, step) && s in m.sys.runners && Halted(m.sys.runners[s].phase)
    requires s !in Apply(limits, m.sys, step).runners
    ensures AfterCore(limits, s, m, step).stage.Off?
  {
  }

  lemma SameSys(limits: Limits, s: Session, m: Mail, step: Step)
    requires CorePossible(s, m, step)
    ensures AfterCore(limits, s, m, step).sys == Apply(limits, m.sys, step)
    ensures AfterCore(limits, s, m, step).blocked == m.blocked
    ensures m.stage.Off? && s !in m.sys.runners ==> AfterCore(limits, s, m, step).stage.Off?
  {
  }

  lemma CoreBlocked(limits: Limits, s: Session, m: Mail, step: Step)
    requires MailInv(s, m) && CorePossible(s, m, step)
    requires m.blocked || TurnsUnknown(m.sys, s, step)
    ensures AfterCore(limits, s, m, step).stage.Off? || TurnUnknown(Apply(limits, m.sys, step), s)
  {
    SameSys(limits, s, m, step);
    if TurnsUnknown(m.sys, s, step) {
      TurningUnknown(limits, m.sys, s);
    } else if !m.stage.Off? {
      UnknownTurnHalted(m.sys, s);
      if s in Apply(limits, m.sys, step).runners {
        TurnUnknownStays(limits, m.sys, s, step);
      } else {
        LeavesOff(limits, s, m, step);
      }
    }
  }

  // ---- the mark ----

  lemma ProjectedStill(limits: Limits, sys: Sys, s: Session, step: Step)
    requires Inv(sys) && Possible(sys, step) && Elsewhere(s, step)
    ensures Projected(Apply(limits, sys, step).shared.db, s) == Projected(sys.shared.db, s)
  {
    match step
    case RunnerStep(session, move) =>
      MoveKeeps(limits, sys.shared, session, sys.runners[session], move);
      assert Rely(sys.shared, Do(limits, sys.shared, sys.runners[session], move).0, s);
    case _ =>
  }

  lemma MarkRead(sys: Sys, s: Session, limits: Limits)
    requires Possible(sys, RunnerStep(s, ReadThrough))
    ensures MarksAll(Apply(limits, sys, RunnerStep(s, ReadThrough)), s)
  {
    var db := sys.shared.db;
    ThroughProjected(db, s, |db.events|);
  }

  lemma MarkKept(limits: Limits, sys: Sys, s: Session, step: Step)
    requires Inv(sys) && Possible(sys, step) && Elsewhere(s, step) && MarksAll(sys, s)
    ensures MarksAll(Apply(limits, sys, step), s)
  {
    var next := Apply(limits, sys, step);
    OthersRunners(limits, sys, s, step);
    if s in sys.runners && sys.runners[s].phase.Marking? {
      LogGrows(limits, sys, step);
      ProjectedStill(limits, sys, s, step);
      assert SessionInv(sys.shared, s);
      forall n: nat | AttentionAt(next.shared.db.events, s, n) && n in Projected(next.shared.db, s)
        ensures n <= next.runners[s].phase.through
      {
        assert AttentionAt(sys.shared.db.events, s, n);
      }
    }
  }

  lemma CoreMarks(limits: Limits, s: Session, m: Mail, step: Step)
    requires MailInv(s, m) && CorePossible(s, m, step)
    ensures MarksAll(Apply(limits, m.sys, step), s)
  {
    if Elsewhere(s, step) {
      MarkKept(limits, m.sys, s, step);
    } else if step.RunnerStep? {
      if step.move == ReadThrough {
        MarkRead(m.sys, s, limits);
      } else {
        EnteringMarks(limits, m.sys.shared, m.sys.runners[s], step.move);
      }
    }
  }

  // ---- every run ----

  lemma CoreKeeps(limits: Limits, s: Session, m: Mail, step: Step)
    requires MailInv(s, m) && CorePossible(s, m, step)
    ensures MailInv(s, Act(limits, s, m, Core(step)))
  {
    StepKeeps(limits, m.sys, step);
    SameSys(limits, s, m, step);
    CoreStage(limits, s, m, step);
    CoreMarks(limits, s, m, step);
    if m.blocked || TurnsUnknown(m.sys, s, step) {
      CoreBlocked(limits, s, m, step);
    }
  }

  lemma LaunchKeeps(limits: Limits, s: Session, m: Mail)
    requires MailInv(s, m) && MailPossible(s, m, Launch)
    ensures MailInv(s, Act(limits, s, m, Launch))
  {
    StepKeeps(limits, m.sys, StartTurn(s, None));
  }

  lemma ActKeeps(limits: Limits, s: Session, m: Mail, e: MailStep)
    requires MailInv(s, m) && MailPossible(s, m, e)
    ensures MailInv(s, Act(limits, s, m, e))
  {
    match e
    case Core(step) => CoreKeeps(limits, s, m, step);
    case Launch => LaunchKeeps(limits, s, m);
    case FindNothing => SeenNow(m.sys, s);
    case Return(_) => GoodKept(m.outcomes, Silent);
    case _ =>
  }

  lemma {:induction false} DrainedInv(limits: Limits, s: Session, log: seq<MailStep>)
    requires Drained(limits, s, log).Some?
    ensures MailInv(s, Drained(limits, s, log).value)
    decreases |log|
  {
    if log == [] {
      InitialInv();
    } else {
      DrainedInv(limits, s, log[..|log| - 1]);
      ActKeeps(limits, s, Drained(limits, s, log[..|log| - 1]).value, log[|log| - 1]);
    }
  }

  // ---- theorems ----

  predicate NoCall(more: seq<MailStep>) {
    forall e | e in more :: !e.Call?
  }

  ghost predicate Blocked(limits: Limits, s: Session, log: seq<MailStep>) {
    Drained(limits, s, log).Some? && Drained(limits, s, log).value.blocked
  }

  lemma DrainedPrefix(limits: Limits, s: Session, log: seq<MailStep>, more: seq<MailStep>)
    requires more != [] && Drained(limits, s, log + more).Some?
    ensures var before := Drained(limits, s, log + more[..|more| - 1]); var e := more[|more| - 1];
            before.Some? && MailPossible(s, before.value, e)
            && Drained(limits, s, log + more) == Some(Act(limits, s, before.value, e))
  {
    assert (log + more)[..|log + more| - 1] == log + more[..|more| - 1];
    assert (log + more)[|log + more| - 1] == more[|more| - 1];
  }

  lemma {:induction false} DrainedBefore(limits: Limits, s: Session, log: seq<MailStep>, more: seq<MailStep>)
    requires Drained(limits, s, log + more).Some?
    ensures Drained(limits, s, log).Some?
    decreases |more|
  {
    if more == [] {
      assert log + more == log;
    } else {
      DrainedPrefix(limits, s, log, more);
      DrainedBefore(limits, s, log, more[..|more| - 1]);
    }
  }

  lemma {:induction false} StillBlocked(limits: Limits, s: Session, log: seq<MailStep>, more: seq<MailStep>)
    requires Blocked(limits, s, log) && Drained(limits, s, log + more).Some? && NoCall(more)
    ensures Blocked(limits, s, log + more)
    decreases |more|
  {
    if more == [] {
      assert log + more == log;
    } else {
      DrainedPrefix(limits, s, log, more);
      assert more[|more| - 1] in more && forall e | e in more[..|more| - 1] :: e in more;
      StillBlocked(limits, s, log, more[..|more| - 1]);
    }
  }

  /** Nothing is reviewed, begun or done for the session, no turn of it ends well or starts, and the drain
      does not look for further work. */
  ghost predicate Stopped(s: Session, m: Mail) {
    && !MailPossible(s, m, Find) && !MailPossible(s, m, Launch)
    && !MailPossible(s, m, Core(RunnerStep(s, BeginAction)))
    && (forall allow :: !MailPossible(s, m, Core(RunnerStep(s, Judge(allow)))))
    && (forall adapter, touched :: !MailPossible(s, m, Core(RunnerStep(s, Perform(adapter, touched)))))
    && (forall directory :: !MailPossible(s, m, Core(RunnerStep(s, Inspect(directory)))))
    && (forall input :: !MailPossible(s, m, Core(StartTurn(s, input))))
    && !MailPossible(s, m, Core(RunnerStep(s, ReadThrough)))
  }

  lemma OffStops(s: Session, m: Mail)
    requires m.stage.Off? && s !in m.sys.runners
    ensures Stopped(s, m)
  {
  }

  lemma HaltedStops(s: Session, m: Mail)
    requires m.stage.Turning? && s in m.sys.runners && Halted(m.sys.runners[s].phase)
    ensures Stopped(s, m)
  {
    HaltedTurn(m.sys.runners[s]);
  }

  lemma BlockedStops(s: Session, m: Mail)
    requires MailInv(s, m) && m.blocked
    ensures Stopped(s, m)
  {
    if m.stage.Off? {
      OffStops(s, m);
    } else {
      UnknownTurnHalted(m.sys, s);
      HaltedStops(s, m);
    }
  }

  /** From the step that turns an action of the drained session unknown, and whatever else happens, crashes
      included, the session's actions and turns stand still until somebody calls drain again. */
  lemma UnknownStopsTheDrain(limits: Limits, s: Session, log: seq<MailStep>, step: Step, more: seq<MailStep>, m: Mail)
    requires Drained(limits, s, log).Some? && TurnsUnknown(Drained(limits, s, log).value.sys, s, step)
    requires Drained(limits, s, log + [Core(step)] + more) == Some(m) && NoCall(more)
    ensures Stopped(s, m)
  {
    DrainedBefore(limits, s, log + [Core(step)], more);
    DrainedPrefix(limits, s, log, [Core(step)]);
    assert log + [Core(step)][..0] == log;
    StillBlocked(limits, s, log + [Core(step)], more);
    DrainedInv(limits, s, log + [Core(step)] + more);
    BlockedStops(s, m);
  }

  /** Every outcome of a drain but its last is good, and while the drain goes on all of them are. */
  lemma OnlyTheLastIsBad(limits: Limits, s: Session, log: seq<MailStep>, m: Mail)
    requires Drained(limits, s, log) == Some(m)
    ensures GoodButLast(m.outcomes) && (!m.stage.Off? ==> AllGood(m.outcomes))
  {
    DrainedInv(limits, s, log);
    if !m.stage.Off? {
      GoodKept(m.outcomes, Silent);
    }
  }

  /** A turn is only started while something is pending, however long ago the drain looked. */
  lemma LaunchHasWork(limits: Limits, s: Session, log: seq<MailStep>, m: Mail)
    requires Drained(limits, s, log) == Some(m) && MailPossible(s, m, Launch)
    ensures Pending(m.sys.shared.db, s) != []
  {
    DrainedInv(limits, s, log);
  }

  lemma CheckpointLeaves(sh: Shared, s: Session, through: nat, n: nat)
    requires SessionInv(sh, s) && through <= Saved(sh, s)
    requires forall k: nat | AttentionAt(sh.db.events, s, k) && k in Projected(sh.db, s) :: k <= through
    ensures n in Pending(Checkpoint(sh.db, s, through), s) <==>
              AttentionAt(sh.db.events, s, n) && n > Saved(sh, s)
  {
    PendingListed(Checkpoint(sh.db, s, through), s, n);
    if AttentionAt(sh.db.events, s, n) && n <= Saved(sh, s) {
      assert n in Projected(sh.db, s);
    }
  }

  lemma CursorMoved(limits: Limits, sys: Sys, s: Session)
    requires Possible(sys, RunnerStep(s, MoveCursor))
    ensures Apply(limits, sys, RunnerStep(s, MoveCursor)).shared.db
            == Checkpoint(sys.shared.db, s, sys.runners[s].phase.through)
  {
  }

  lemma MarkingMeans(sys: Sys, s: Session)
    requires Inv(sys) && s in sys.runners && sys.runners[s].phase.Marking?
    ensures SessionInv(sys.shared, s) && sys.runners[s].phase.through <= Saved(sys.shared, s)
  {
    assert RunnerInv(sys.shared, s, sys.runners[s]);
  }

  /** A turn that ended well leaves pending exactly what arrived after it last read the log. */
  lemma GoodTurnLeavesTheRest(limits: Limits, s: Session, log: seq<MailStep>, m: Mail, n: nat)
    requires Drained(limits, s, log) == Some(m) && MailPossible(s, m, Core(RunnerStep(s, MoveCursor)))
    ensures n in Pending(Apply(limits, m.sys, RunnerStep(s, MoveCursor)).shared.db, s) <==>
              AttentionAt(m.sys.shared.db.events, s, n) && n > Saved(m.sys.shared, s)
  {
    DrainedInv(limits, s, log);
    MarkingMeans(m.sys, s);
    CursorMoved(limits, m.sys, s);
    CheckpointLeaves(m.sys.shared, s, m.sys.runners[s].phase.through, n);
  }
}
