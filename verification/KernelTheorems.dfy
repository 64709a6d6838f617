/** What the kernel promises, for every state of every run. */
module KernelTheorems {
  import opened Wrappers
  import opened Protocol
  import opened LedgerModel
  import opened LedgerFacts
  import opened Messages
  import opened Kernel
  import opened KernelInvariant
  import opened KernelTables
  import opened KernelFrames
  import opened KernelMoves
  import opened KernelRounds
  import opened KernelRuns

  ghost predicate Reached(limits: Limits, steps: seq<Step>, sys: Sys) {
    Run(limits, steps) == Some(sys)
  }

  // ---- no lost attention ----

  lemma {:induction false} LaterKeepsAll(ns: seq<nat>, after: nat, n: nat)
    requires n in ns && n > after
    ensures n in Later(ns, after)
  {
    if n in ns[..|ns| - 1] { LaterKeepsAll(ns[..|ns| - 1], after, n); }
  }

  /** The projected inbound and observation events of a session are a prefix of all of them, the cursor
      never passes an unprojected one, and whatever is not projected is still pending. */
  lemma NoLostAttention(limits: Limits, steps: seq<Step>, sys: Sys, s: Session, n: nat)
    requires Reached(limits, steps, sys) && AttentionAt(sys.shared.db.events, s, n)
    ensures n in Projected(sys.shared.db, s) ==>
              forall m: nat | m < n && AttentionAt(sys.shared.db.events, s, m) :: m in Projected(sys.shared.db, s)
    ensures n <= Cursor(sys.shared.db, s) ==> n in Projected(sys.shared.db, s)
    ensures n !in Projected(sys.shared.db, s) ==> n in Pending(sys.shared.db, s)
  {
    RunInv(limits, steps);
    assert SessionInv(sys.shared, s);
    if n !in Projected(sys.shared.db, s) {
      AttentionListed(sys.shared.db.events, s);
      LaterKeepsAll(Attention(sys.shared.db.events, s), Cursor(sys.shared.db, s), n);
    }
  }

  /** At some earlier point a turn of the session had ended well with the event in its saved projection. */
  ghost predicate SeenByGoodTurn(limits: Limits, steps: seq<Step>, s: Session, n: nat) {
    exists i :: 0 <= i <= |steps| && GoodTurnAt(limits, steps[..i], s, n)
  }

  ghost predicate GoodTurnAt(limits: Limits, steps: seq<Step>, s: Session, n: nat) {
    var state := Run(limits, steps);
    && state.Some?
    && s in state.value.runners
    && state.value.runners[s].phase.Finished?
    && Good(state.value.runners[s].phase.outcome)
    && n in Projected(state.value.shared.db, s)
    && n in Facts(Projection(state.value.shared.db, s))
  }

  lemma SeenLater(limits: Limits, steps: seq<Step>, s: Session, n: nat)
    requires steps != [] && SeenByGoodTurn(limits, steps[..|steps| - 1], s, n)
    ensures SeenByGoodTurn(limits, steps, s, n)
  {
    var shorter := steps[..|steps| - 1];
    var i :| 0 <= i <= |shorter| && GoodTurnAt(limits, shorter[..i], s, n);
    assert shorter[..i] == steps[..i];
  }

  lemma JudgeCursors(sh: Shared, r: Runner, allow: bool)
    requires Enabled(r, Judge(allow))
    ensures DoJudge(sh, r, allow).0.db.cursors == sh.db.cursors
  {
  }

  lemma BeginCursors(sh: Shared, r: Runner)
    requires Enabled(r, BeginAction)
    ensures DoBegin(sh, r).0.db.cursors == sh.db.cursors
  {
  }

  lemma FinishCursors(sh: Shared, r: Runner)
    requires Enabled(r, FinishAction)
    ensures DoFinish(sh, r).0.db.cursors == sh.db.cursors
  {
  }

  lemma MoveKeepsCursors(limits: Limits, sh: Shared, r: Runner, m: Move)
    requires Enabled(r, m) && !m.MoveCursor?
    ensures Do(limits, sh, r, m).0.db.cursors == sh.db.cursors
  {
    match m
    case Judge(allow) => JudgeCursors(sh, r, allow);
    case BeginAction => BeginCursors(sh, r);
    case FinishAction => FinishCursors(sh, r);
    case _ =>
  }

  lemma OnlyReadThroughMarks(limits: Limits, sh: Shared, r: Runner, m: Move)
    requires Enabled(r, m) && !m.ReadThrough?
    ensures Do(limits, sh, r, m).1.Some? ==> !Do(limits, sh, r, m).1.value.phase.Marking?
  {
  }

  lemma MoveGrows(limits: Limits, sh: Shared, s: Session, r: Runner, m: Move)
    requires SharedInv(sh) && SessionInv(sh, s) && RunnerInv(sh, s, r) && Enabled(r, m)
    ensures sh.db.events <= Do(limits, sh, r, m).0.db.events
  {
    MoveKeeps(limits, sh, s, r, m);
    var other := s + "'";
    assert Rely(sh, Do(limits, sh, r, m).0, other);
  }

  lemma RecoverGrows(db: Db, order: seq<ActionId>)
    requires Enumerates(order, StartedIds(db))
    ensures db.events <= Recover(db, order).events
  {
    CloseAllRows(db, order);
  }

  lemma MoveResult(limits: Limits, sys: Sys, s: Session, m: Move)
    requires Possible(sys, RunnerStep(s, m))
    ensures Apply(limits, sys, RunnerStep(s, m)).shared == Do(limits, sys.shared, sys.runners[s], m).0
  {
  }

  lemma OutsideGrows(limits: Limits, sys: Sys, step: Step)
    requires Possible(sys, step) && !step.RunnerStep?
    ensures sys.shared.db.events <= Apply(limits, sys, step).shared.db.events
  {
    if step.Crash? {
      RecoverGrows(sys.shared.db, step.order);
    } else if step.Deliver? {
      DeliverResult(limits, sys, step.key, step.payload, step.transport);
    }
  }

  lemma RunnerReady(sys: Sys, s: Session)
    requires Inv(sys) && s in sys.runners
    ensures SharedInv(sys.shared) && SessionInv(sys.shared, s) && RunnerInv(sys.shared, s, sys.runners[s])
  {
  }

  /** The log only grows. */
  lemma LogGrows(limits: Limits, sys: Sys, step: Step)
    requires Inv(sys) && Possible(sys, step)
    ensures sys.shared.db.events <= Apply(limits, sys, step).shared.db.events
  {
    if step.RunnerStep? {
      RunnerReady(sys, step.session);
      MoveGrows(limits, sys.shared, step.session, sys.runners[step.session], step.move);
      MoveResult(limits, sys, step.session, step.move);
    } else {
      OutsideGrows(limits, sys, step);
    }
  }

  lemma ShownWhenProjected(sh: Shared, s: Session, n: nat)
    requires SessionInv(sh, s) && AttentionAt(sh.db.events, s, n) && n in Projected(sh.db, s)
    ensures n in Facts(Projection(sh.db, s))
  {
    var cut := Saved(sh, s);
    AttentionListed(sh.db.events[..cut], s);
    assert AttentionAt(sh.db.events[..cut], s, n);
  }

  /** Only a completed or silent turn reaches `Marking`, with a mark its saved projection covers. */
  lemma {:induction false} MarkingSeen(limits: Limits, steps: seq<Step>, sys: Sys, s: Session, n: nat)
    requires Reached(limits, steps, sys) && AttentionAt(sys.shared.db.events, s, n)
    requires s in sys.runners && sys.runners[s].phase.Marking? && n <= sys.runners[s].phase.through
    ensures SeenByGoodTurn(limits, steps, s, n)
    decreases |steps|
  {
    var k := |steps| - 1;
    var before := Run(limits, steps[..k]).value;
    RunInv(limits, steps[..k]);
    assert SessionInv(before.shared, s);
    var step := steps[k];
    if step == RunnerStep(s, ReadThrough) {
      MarkedFromGoodTurn(before.shared, s, n);
      assert GoodTurnAt(limits, steps[..k], s, n);
    } else {
      StillMarking(limits, before, step, s);
      LogGrows(limits, before, step);
      MarkWithinLog(before, s);
      assert AttentionAt(before.shared.db.events, s, n);
      MarkingSeen(limits, steps[..k], before, s, n);
      SeenLater(limits, steps, s, n);
    }
  }

  /** The mark read by `ReadThrough` is covered by the stored projection. */
  lemma MarkedFromGoodTurn(sh: Shared, s: Session, n: nat)
    requires SessionInv(sh, s) && AttentionAt(sh.db.events, s, n)
    requires n <= ProjectedThrough(sh.db, s, |sh.db.events|)
    ensures n in Projected(sh.db, s) && n in Facts(Projection(sh.db, s))
  {
    ThroughProjected(sh.db, s, |sh.db.events|);
    ShownWhenProjected(sh, s, n);
  }

  lemma StillMarking(limits: Limits, sys: Sys, step: Step, s: Session)
    requires Possible(sys, step) && step != RunnerStep(s, ReadThrough)
    requires s in Apply(limits, sys, step).runners && Apply(limits, sys, step).runners[s].phase.Marking?
    ensures s in sys.runners && sys.runners[s] == Apply(limits, sys, step).runners[s]
  {
    match step
    case RunnerStep(session, move) =>
      if session == s { OnlyReadThroughMarks(limits, sys.shared, sys.runners[s], move); }
    case _ =>
  }

  lemma MarkWithinLog(sys: Sys, s: Session)
    requires Inv(sys) && s in sys.runners && sys.runners[s].phase.Marking?
    ensures sys.runners[s].phase.through <= |sys.shared.db.events|
  {
    assert RunnerInv(sys.shared, s, sys.runners[s]) && SessionInv(sys.shared, s);
  }

  lemma CursorStill(limits: Limits, sys: Sys, step: Step, s: Session)
    requires Inv(sys) && Possible(sys, step) && step != RunnerStep(s, MoveCursor)
    ensures Cursor(Apply(limits, sys, step).shared.db, s) == Cursor(sys.shared.db, s)
  {
    match step
    case Crash(order) => CloseAllRows(sys.shared.db, order);
    case RunnerStep(session, move) =>
      if session != s {
        MoveKeeps(limits, sys.shared, session, sys.runners[session], move);
        assert Rely(sys.shared, Do(limits, sys.shared, sys.runners[session], move).0, s);
      } else {
        MoveKeepsCursors(limits, sys.shared, sys.runners[s], move);
      }
    case _ =>
  }

  /** Every event at or below the cursor was in the saved projection of a turn that ended completed or silent. */
  lemma {:induction false} CursorFollowsGoodTurns(limits: Limits, steps: seq<Step>, sys: Sys, s: Session, n: nat)
    requires Reached(limits, steps, sys) && AttentionAt(sys.shared.db.events, s, n)
    requires n <= Cursor(sys.shared.db, s)
    ensures SeenByGoodTurn(limits, steps, s, n)
    decreases |steps|
  {
    if steps != [] {
      var k := |steps| - 1;
      var before := Run(limits, steps[..k]).value;
      RunInv(limits, steps[..k]);
      assert SessionInv(before.shared, s);
      LogGrows(limits, before, steps[k]);
      if n <= Cursor(before.shared.db, s) {
        assert AttentionAt(before.shared.db.events, s, n);
        CursorFollowsGoodTurns(limits, steps[..k], before, s, n);
      } else {
        if steps[k] != RunnerStep(s, MoveCursor) { CursorStill(limits, before, steps[k], s); }
        MarkWithinLog(before, s);
        assert AttentionAt(before.shared.db.events, s, n);
        MarkingSeen(limits, steps[..k], before, s, n);
      }
      SeenLater(limits, steps, s, n);
    }
  }

  // ---- native pairing ----

  /** Stored projections are paired, and so is every message list a provider is asked with. */
  lemma NativePairing(limits: Limits, steps: seq<Step>, sys: Sys, s: Session)
    requires Reached(limits, steps, sys)
    ensures Paired(Projection(sys.shared.db, s))
    ensures s in sys.runners && sys.runners[s].phase.Asking? ==> Paired(sys.runners[s].live)
  {
    RunInv(limits, steps);
    assert SessionInv(sys.shared, s);
  }

  // ---- exactly once ----

  /** However often a delivery arrives, it is logged at most once; and the stored projection shows exactly
      the projected events, each once, in the order they were logged, and each with the logged payload; a result
      shown as recovered has its logged status. */
  lemma ExactlyOnce(limits: Limits, steps: seq<Step>, sys: Sys, key: DeliveryKey)
    requires Reached(limits, steps, sys)
    ensures |DeliveredAs(sys.shared.db.events, key)| <= 1
    ensures var facts := Facts(Projection(sys.shared.db, key.session));
            && (forall i, j | 0 <= i < j < |facts| :: facts[i] < facts[j])
            && (forall n :: n in facts <==>
                  AttentionAt(sys.shared.db.events, key.session, n) && n in Projected(sys.shared.db, key.session))
    ensures forall m | m in Projection(sys.shared.db, key.session) :: TellsLogged(sys.shared.db.events, key.session, m)
  {
    RunInv(limits, steps);
    var s := key.session;
    assert SessionInv(sys.shared, s);
    forall m | m in Projection(sys.shared.db, s) ensures TellsLogged(sys.shared.db.events, s, m) {
      assert Honest(sys.shared.db, s, m);
    }
    assert DeliveredAs(sys.shared.db.events, key) == ExpectedDelivery(sys.shared.db, key);
    var cut := Saved(sys.shared, s);
    AttentionListed(sys.shared.db.events[..cut], s);
    forall n
      ensures n in Facts(Projection(sys.shared.db, s)) <==>
                AttentionAt(sys.shared.db.events, s, n) && n in Projected(sys.shared.db, s)
    {
      assert AttentionAt(sys.shared.db.events[..cut], s, n) <==> AttentionAt(sys.shared.db.events, s, n) && n <= cut;
    }
  }

  /** The delivery table always points at inbound events, so a delivery is possible in every state. */
  lemma DeliveryAlwaysPossible(limits: Limits, steps: seq<Step>, sys: Sys, key: DeliveryKey, payload: string, transport: string)
    requires Reached(limits, steps, sys)
    ensures Possible(sys, Deliver(key, payload, transport))
  {
    RunInv(limits, steps);
    DeliveriesWellFormed(sys.shared.db);
  }

  lemma JudgeDeliveries(sh: Shared, r: Runner, allow: bool)
    requires Enabled(r, Judge(allow))
    ensures DoJudge(sh, r, allow).0.db.deliveries == sh.db.deliveries
  {
  }

  lemma BeginDeliveries(sh: Shared, r: Runner)
    requires Enabled(r, BeginAction)
    ensures DoBegin(sh, r).0.db.deliveries == sh.db.deliveries
  {
  }

  lemma FinishDeliveries(sh: Shared, r: Runner)
    requires Enabled(r, FinishAction)
    ensures DoFinish(sh, r).0.db.deliveries == sh.db.deliveries
  {
  }

  lemma MoveKeepsDeliveries(limits: Limits, sh: Shared, r: Runner, m: Move)
    requires Enabled(r, m)
    ensures Do(limits, sh, r, m).0.db.deliveries == sh.db.deliveries
  {
    match m
    case Judge(allow) => JudgeDeliveries(sh, r, allow);
    case BeginAction => BeginDeliveries(sh, r);
    case FinishAction => FinishDeliveries(sh, r);
    case _ =>
  }

  lemma RecoverKeepsDeliveries(db: Db, order: seq<ActionId>)
    requires Enumerates(order, StartedIds(db))
    ensures Recover(db, order).deliveries == db.deliveries
  {
    CloseAllRows(db, order);
  }

  lemma DeliverKeepsDelivery(limits: Limits, sys: Sys, other: DeliveryKey, payload: string, transport: string, key: DeliveryKey)
    requires Possible(sys, Deliver(other, payload, transport)) && key in sys.shared.db.deliveries
    ensures var after := Apply(limits, sys, Deliver(other, payload, transport)).shared.db.deliveries;
            key in after && after[key] == sys.shared.db.deliveries[key]
  {
    DeliverResult(limits, sys, other, payload, transport);
  }

  lemma AppendKeepsDeliveries(limits: Limits, sys: Sys, step: Step)
    requires Possible(sys, step) && (step.Observe? || step.Host? || step.StartTurn?)
    ensures Apply(limits, sys, step).shared.db.deliveries == sys.shared.db.deliveries
  {
  }

  lemma CrashKeepsDeliveries(limits: Limits, sys: Sys, order: seq<ActionId>)
    requires Possible(sys, Crash(order))
    ensures Apply(limits, sys, Crash(order)).shared.db.deliveries == sys.shared.db.deliveries
  {
    RecoverKeepsDeliveries(sys.shared.db, order);
  }

  lemma DeliveryStays(limits: Limits, sys: Sys, step: Step, key: DeliveryKey)
    requires Possible(sys, step) && key in sys.shared.db.deliveries
    ensures var after := Apply(limits, sys, step).shared.db.deliveries;
            key in after && after[key] == sys.shared.db.deliveries[key]
  {
    if step.RunnerStep? {
      MoveResult(limits, sys, step.session, step.move);
      MoveKeepsDeliveries(limits, sys.shared, sys.runners[step.session], step.move);
    } else if step.Crash? {
      CrashKeepsDeliveries(limits, sys, step.order);
    } else if step.Deliver? {
      DeliverKeepsDelivery(limits, sys, step.key, step.payload, step.transport, key);
    } else {
      AppendKeepsDeliveries(limits, sys, step);
    }
  }

  /** The log still holds at its place what a delivery recorded. */
  ghost predicate SameDelivery(a: Db, b: Db, key: DeliveryKey) {
    && key in a.deliveries && key in b.deliveries && b.deliveries[key] == a.deliveries[key]
    && InLog(a.events, a.deliveries[key]) && a.events <= b.events
    && a.events[a.deliveries[key] - 1].body.Inbound?
  }

  /** Through any later steps, crashes included, a delivery keeps its number and the event logged there. */
  lemma {:induction false} DeliveryStands(limits: Limits, steps: seq<Step>, more: seq<Step>, key: DeliveryKey)
    requires Run(limits, steps).Some? && Run(limits, steps + more).Some?
    requires key in Run(limits, steps).value.shared.db.deliveries
    ensures SameDelivery(Run(limits, steps).value.shared.db, Run(limits, steps + more).value.shared.db, key)
    decreases |more|
  {
    if more == [] {
      assert steps + more == steps;
      RunInv(limits, steps);
      DeliveriesWellFormed(Run(limits, steps).value.shared.db);
    } else {
      var n := |more| - 1;
      assert (steps + more)[..|steps + more| - 1] == steps + more[..n];
      assert (steps + more)[|steps + more| - 1] == more[n];
      DeliveryStands(limits, steps, more[..n], key);
      RunInv(limits, steps + more[..n]);
      DeliveryStays(limits, Run(limits, steps + more[..n]).value, more[n], key);
      LogGrows(limits, Run(limits, steps + more[..n]).value, more[n]);
    }
  }

  ghost predicate DeliversOnce(db: Db, key: DeliveryKey, payload: string, transport: string) {
    && key in db.deliveries
    && var n := db.deliveries[key];
       && InLog(db.events, n) && db.events[n - 1].body.Inbound?
       && DeliveredAs(db.events, key) == [n]
       && Ingest(db, key, payload, transport)
          == if transport == db.events[n - 1].body.transport then Ok((db, Receipt(n, false))) else Err(DeliveryReused)
  }

  lemma IngestedAgain(db: Db, key: DeliveryKey, payload: string, transport: string)
    requires DeliveriesMatch(db) && key in db.deliveries
    ensures DeliversOnce(db, key, payload, transport)
  {
    DeliveriesWellFormed(db);
    assert DeliveredAs(db.events, key) == ExpectedDelivery(db, key);
  }

  /** In every state, delivering again changes nothing and returns the first number; a delivery that reuses the
      id for another payload is refused. */
  lemma RepeatedDelivery(limits: Limits, steps: seq<Step>, sys: Sys, key: DeliveryKey, payload: string, transport: string)
    requires Reached(limits, steps, sys) && key in sys.shared.db.deliveries
    ensures DeliversOnce(sys.shared.db, key, payload, transport)
  {
    RunInv(limits, steps);
    IngestedAgain(sys.shared.db, key, payload, transport);
  }

  // ---- incremental history ----

  lemma {:induction false} OnlyNewFacts(db: Db, s: Session, n: nat)
    requires n <= |db.events|
    requires forall m: nat | OwnAt(db.events, s, m) :: m in Projected(db, s)
    ensures forall i | 0 <= i < |FreshMessages(db, s, n)| ::
      FreshMessages(db, s, n)[i].Fact? && FreshMessages(db, s, n)[i].at !in Projected(db, s)
  {
    if n > 0 {
      OnlyNewFacts(db, s, n - 1);
      if Unprojected(db, s, n) { assert !OwnAt(db.events, s, n); }
    }
  }

  /** At a loop boundary memory equals the store, a reload adds only facts nobody has shown yet, and
      exactly those reach the live list: no result is shown again as recovered. */
  lemma IncrementalRefinesReload(limits: Limits, steps: seq<Step>, sys: Sys, s: Session)
    requires Reached(limits, steps, sys) && s in sys.runners && sys.runners[s].phase.Boundary?
    ensures var r := sys.runners[s];
            var db := sys.shared.db;
            var added := FreshMessages(db, s, |db.events|);
            && r.history.messages == Projection(db, s)
            && Fetch(db, s).messages == r.history.messages + added
            && (forall i | 0 <= i < |added| :: added[i].Fact? && added[i].at !in Projected(db, s))
            && Facts(r.history.messages) + Facts(added) == Attention(db.events, s)
            && AfterRefresh(sys.shared, r).live == r.live + added
            && AfterRefresh(sys.shared, r).history.messages == Fetch(db, s).messages
  {
    RunInv(limits, steps);
    var r := sys.runners[s];
    var db := sys.shared.db;
    assert RunnerInv(sys.shared, s, r) && SessionInv(sys.shared, s);
    OnlyNewFacts(db, s, |db.events|);
    FreshFacts(db, s, Saved(sys.shared, s), |db.events|);
    assert db.events[..|db.events|] == db.events;
    var added := FreshMessages(db, s, |db.events|);
    assert (r.history.messages + added)[|r.history.messages|..] == added;
  }

  // ---- authorised effects, at most once ----

  /** Every external effect belongs to an action with an allow review of exactly its parameters, and no
      fact of any session was logged between the reviewed revision and the moment the action began. */
  lemma OnlyFreshlyAuthorised(limits: Limits, steps: seq<Step>, sys: Sys, i: nat)
    requires Reached(limits, steps, sys) && i < |sys.shared.effects|
    ensures var effect := sys.shared.effects[i];
            var db := sys.shared.db;
            && effect.id in db.actions && effect.id in db.reviews && effect.id in sys.shared.began
            && db.actions[effect.id].action == effect.action
            && db.reviews[effect.id] == Review(db.actions[effect.id].revision, Fingerprint(effect.action), true)
            && Explicit(effect.action)
            && sys.shared.began[effect.id] <= |db.events|
            && forall n: nat | FactAt(db.events, n) && n <= sys.shared.began[effect.id] :: n <= db.actions[effect.id].revision
  {
    RunInv(limits, steps);
    var effect := sys.shared.effects[i];
    var db := sys.shared.db;
    assert Authorised(sys.shared, effect.id);
    var begun := db.events[..sys.shared.began[effect.id]];
    RevisionIsLatestFact(begun);
    forall n: nat | FactAt(db.events, n) && n <= sys.shared.began[effect.id] ensures n <= db.actions[effect.id].revision {
      assert FactAt(begun, n);
    }
  }

  /** Across any number of crashes an action touches the world at most once, a started action has no
      result yet, and a closed one has exactly one, with the status of its row. */
  lemma AtMostOnceExactlyOneResult(limits: Limits, steps: seq<Step>, sys: Sys, id: ActionId)
    requires Reached(limits, steps, sys)
    ensures forall i, j | 0 <= i < j < |sys.shared.effects| :: !(sys.shared.effects[i].id == id == sys.shared.effects[j].id)
    ensures id !in sys.shared.db.actions ==> ResultsOf(sys.shared.db.events, id) == [] && !HasEffect(sys.shared, id)
    ensures id in sys.shared.db.actions ==>
              var status := sys.shared.db.actions[id].status;
              && ResultsOf(sys.shared.db.events, id) == (if status == Started then [] else [status])
              && (status == Succeeded ==> HasEffect(sys.shared, id))
  {
    RunInv(limits, steps);
    assert ResultsOf(sys.shared.db.events, id) == ExpectedResults(sys.shared.db, id);
  }

  // ---- truthful memory ----

  lemma {:induction false} DeliveredHasRow(db: Db, r: RoundId, messages: seq<OutgoingMessage>, k: nat) returns (i: nat)
    requires k < |DeliveredMessages(db, r, messages)|
    ensures i < |messages| && DeliveredMessages(db, r, messages)[k] == messages[i] && SendSucceeded(db, SendId(r, i))
    ensures k == |DeliveredMessages(db, r, messages[..i])|
    decreases |messages|
  {
    var n := |messages| - 1;
    if k < |DeliveredMessages(db, r, messages[..n])| {
      i := DeliveredHasRow(db, r, messages[..n], k);
      assert messages[..n][..i] == messages[..i];
    } else {
      i := n;
    }
  }

  /** An assistant message in a stored projection holds no reasoning and no scratchpad text; its content, if
      any, lists precisely the proposed messages whose send succeeded, in the proposed order. */
  lemma TruthfulMemory(limits: Limits, steps: seq<Step>, sys: Sys, s: Session, k: nat)
    requires Reached(limits, steps, sys) && k < |Projection(sys.shared.db, s)|
    requires Projection(sys.shared.db, s)[k].Assistant?
    ensures var m := Projection(sys.shared.db, s)[k];
            && m.reasoning == None
            && (m.content == NoContent || (m.content.Serialized? && m.content.envelope.toSelf == "" && m.calls == []))
            && (m.content.Serialized? ==>
                  && m.round in sys.shared.db.rounds
                  && var parsed := ParseEnvelope(sys.shared.db.rounds[m.round].assistant);
                     parsed.Ok?
                     && m.content.envelope.messages == DeliveredMessages(sys.shared.db, m.round, parsed.value.messages))
  {
    RunInv(limits, steps);
    assert SessionInv(sys.shared, s);
    assert Honest(sys.shared.db, s, Projection(sys.shared.db, s)[k]);
  }

  /** Each message a projection claims was sent has a succeeded action row for that very message, and
      the world was touched for it exactly once. */
  lemma SentMeansSent(limits: Limits, steps: seq<Step>, sys: Sys, s: Session, k: nat, j: nat) returns (id: ActionId)
    requires Reached(limits, steps, sys) && k < |Projection(sys.shared.db, s)|
    requires var m := Projection(sys.shared.db, s)[k];
             m.Assistant? && m.content.Serialized? && j < |m.content.envelope.messages|
    ensures id in sys.shared.db.actions && sys.shared.db.actions[id].status == Succeeded
    ensures sys.shared.db.actions[id].action == Send(Projection(sys.shared.db, s)[k].content.envelope.messages[j])
    ensures id.round == Projection(sys.shared.db, s)[k].round
    ensures exists e :: 0 <= e < |sys.shared.effects| && sys.shared.effects[e].id == id
              && sys.shared.effects[e].action == sys.shared.db.actions[id].action
  {
    RunInv(limits, steps);
    TruthfulMemory(limits, steps, sys, s, k);
    var m := Projection(sys.shared.db, s)[k];
    var proposed := ParseEnvelope(sys.shared.db.rounds[m.round].assistant).value.messages;
    var i := DeliveredHasRow(sys.shared.db, m.round, proposed, j);
    id := SendId(m.round, i);
    assert SendMatches(sys.shared.db, id);
    assert HasEffect(sys.shared, id);
    var e :| 0 <= e < |sys.shared.effects| && sys.shared.effects[e].id == id;
    assert sys.shared.effects[e].id in sys.shared.db.actions;
  }

  // ---- unknown results ----

  lemma HaltedTurn(r: Runner)
    requires Halted(r.phase)
    ensures !Enabled(r, BeginAction) && !MayExecute(r)
    ensures forall allow :: !Enabled(r, Judge(allow))
    ensures forall adapter, touched :: !Enabled(r, Perform(adapter, touched))
    ensures !Enabled(r, ReadThrough) && !Enabled(r, MoveCursor) && !Enabled(r, Refresh(false, false))
  {
  }

  /** Once an action of a turn is unknown, that turn begins, reviews and performs nothing more, and it
      cannot end completed or silent. */
  lemma UnknownHaltsTheTurn(limits: Limits, steps: seq<Step>, sys: Sys, s: Session, id: ActionId)
    requires Reached(limits, steps, sys) && s in sys.runners
    requires id in sys.shared.db.actions && id.round.turn == sys.runners[s].turn
    requires sys.shared.db.actions[id].status == Unknown
    ensures var r := sys.runners[s];
            && !Enabled(r, BeginAction) && !MayExecute(r)
            && (forall allow :: !Enabled(r, Judge(allow)))
            && (forall adapter, touched :: !Enabled(r, Perform(adapter, touched)))
            && !Enabled(r, ReadThrough) && !Enabled(r, MoveCursor) && !Enabled(r, Refresh(false, false))
  {
    RunInv(limits, steps);
    assert RunnerInv(sys.shared, s, sys.runners[s]);
    HaltedTurn(sys.runners[s]);
  }

  // ---- recovery ----

  /** Recovery closes every started action as unknown; a result that arrives afterwards is refused. */
  lemma LateFinishFails(db: Db, order: seq<ActionId>, id: ActionId, status: Status)
    requires Enumerates(order, StartedIds(db)) && id in db.actions
    ensures id in Recover(db, order).actions
    ensures db.actions[id].status == Started ==> Recover(db, order).actions[id].status == Unknown
    ensures db.actions[id].status != Started ==> Recover(db, order).actions[id] == db.actions[id]
    ensures Finish(Recover(db, order), id, status) == Err(AlreadyCommitted)
  {
    CloseAllRows(db, order);
    assert id in StartedIds(db) <==> db.actions[id].status == Started;
  }

  lemma {:induction false} EndsCover(db: Db, k: nat, n: nat)
    requires n <= k <= |db.events| && InLog(db.events, n) && Interrupted(db, n)
    ensures exists e :: e in InterruptedEnds(db, k) && e.body == TurnEnd && e.origin == db.events[n - 1].origin
    decreases k
  {
    if k == n {
      var e := Event(db.events[n - 1].session, db.events[n - 1].origin, TurnEnd);
      assert InterruptedEnds(db, k)[|InterruptedEnds(db, k)| - 1] == e;
    } else {
      EndsCover(db, k - 1, n);
      var e :| e in InterruptedEnds(db, k - 1) && e.body == TurnEnd && e.origin == db.events[n - 1].origin;
      assert e in InterruptedEnds(db, k);
    }
  }

  lemma {:induction false} NothingInterrupted(db: Db, n: nat)
    requires n <= |db.events| && forall m: nat | InLog(db.events, m) :: !Interrupted(db, m)
    ensures InterruptedEnds(db, n) == []
  {
    if n > 0 { NothingInterrupted(db, n - 1); }
  }

  function WithEnds(db: Db): Db {
    db.(events := db.events + InterruptedEnds(db, |db.events|))
  }

  lemma InterruptedBefore(db: Db, n: nat)
    requires InLog(db.events, n) && Interrupted(WithEnds(db), n)
    ensures Interrupted(db, n)
  {
    assert forall m | 0 <= m < |db.events| :: WithEnds(db).events[m] == db.events[m];
  }

  /** Once the missing ends are appended, no inbound event is interrupted. */
  lemma NoneInterrupted(db: Db, n: nat)
    requires InLog(WithEnds(db).events, n)
    ensures !Interrupted(WithEnds(db), n)
  {
    var ends := InterruptedEnds(db, |db.events|);
    EndsAreTurnEnds(db, |db.events|);
    if InLog(db.events, n) {
      if Interrupted(db, n) {
        EndsCover(db, |db.events|, n);
        var e :| e in ends && e.body == TurnEnd && e.origin == db.events[n - 1].origin;
        var j :| 0 <= j < |ends| && ends[j] == e;
        assert WithEnds(db).events[|db.events| + j] == e;
      } else if Interrupted(WithEnds(db), n) {
        InterruptedBefore(db, n);
      }
    }
  }

  lemma NothingStarted(db: Db, order: seq<ActionId>)
    requires Enumerates(order, StartedIds(db))
    ensures StartedIds(Recover(db, order)) == {}
  {
    forall id | id in Recover(db, order).actions ensures Recover(db, order).actions[id].status != Started {
      CloseAllRows(db, order);
      LateFinishFails(db, order, id, Failed);
    }
  }

  lemma SomethingEnumerated(order: seq<ActionId>, ids: set<ActionId>)
    requires Enumerates(order, ids) && order != []
    ensures ids != {}
  {
    assert order[0] in order;
  }

  /** Opening the ledger twice is the same as opening it once. */
  lemma RecoverTwice(db: Db, order: seq<ActionId>, again: seq<ActionId>)
    requires Enumerates(order, StartedIds(db))
    requires Enumerates(again, StartedIds(Recover(db, order)))
    ensures again == []
    ensures Recover(Recover(db, order), again) == Recover(db, order)
  {
    NothingStarted(db, order);
    if again != [] { SomethingEnumerated(again, StartedIds(Recover(db, order))); }
    var closed := CloseAll(db, order);
    var once := WithEnds(closed);
    forall m: nat | InLog(once.events, m) ensures !Interrupted(once, m) { NoneInterrupted(closed, m); }
    NothingInterrupted(once, |once.events|);
    assert once.events + [] == once.events;
  }
}
