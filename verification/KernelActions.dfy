/** Review, begin, effect and finish: the moves that change the action tables. */
module KernelActions {
  import opened Wrappers
  import opened Protocol
  import opened LedgerModel
  import opened LedgerFacts
  import opened Messages
  import opened Kernel
  import opened KernelInvariant
  import opened KernelTables
  import opened KernelFrames
  import opened KernelMoves

  lemma TrackedAgain(db: Db, r: Runner, r2: Runner)
    requires r.phase.Acting? && SendsTracked(db, r)
    requires r2.phase.Acting? && Current(r2) == Current(r)
    requires r2.phase.envelope == r.phase.envelope && r2.phase.results == r.phase.results
    ensures SendsTracked(db, r2)
  {
    forall i: nat | i < |r2.phase.envelope.messages|
      ensures SendSucceeded(db, SendId(Current(r2), i)) <==> i < |r2.phase.results| && r2.phase.results[i] == Succeeded
    {
      assert SendSucceeded(db, SendId(Current(r), i)) <==> i < |r.phase.results| && r.phase.results[i] == Succeeded;
    }
  }

  // ---- review ----

  function Reviewed(sh: Shared, id: ActionId, review: Review): Shared {
    sh.(db := sh.db.(reviews := sh.db.reviews[id := review]))
  }

  lemma ReviewRely(sh: Shared, id: ActionId, review: Review, t: Session)
    requires id !in sh.db.reviews
    ensures Rely(sh, Reviewed(sh, id, review), t)
  {
  }

  lemma ReviewKeepsSession(sh: Shared, s: Session, id: ActionId, review: Review)
    requires SessionInv(sh, s) && id !in sh.db.reviews
    ensures SessionInv(Reviewed(sh, id, review), s)
  {
    ReviewRely(sh, id, review, s);
    SessionKept(sh, Reviewed(sh, id, review), s, None);
  }

  lemma ReviewKeepsRunner(sh: Shared, s: Session, r: Runner, id: ActionId, review: Review)
    requires SessionInv(sh, s) && RunnerInv(sh, s, r) && id !in sh.db.reviews
    ensures RunnerInv(Reviewed(sh, id, review), s, r)
  {
    ReviewRely(sh, id, review, s);
    RunnerKept(sh, Reviewed(sh, id, review), s, r);
  }

  lemma ApprovedRunner(sh: Shared, s: Session, r: Runner, revision: nat)
    requires RunnerInv(sh, s, r) && Working(r) && r.phase.exec.Reviewing?
    requires CurrentId(r) in sh.db.reviews
    requires CurrentAction(r).Some?
    requires sh.db.reviews[CurrentId(r)] == Review(revision, Fingerprint(CurrentAction(r).value), true)
    ensures RunnerInv(sh, s, r.(phase := r.phase.(exec := Approved(revision))))
  {
    var r2 := r.(phase := r.phase.(exec := Approved(revision)));
    HistoryAgain(sh, s, r, r2);
    TrackedAgain(sh.db, r, r2);
  }

  lemma JudgeMove(sh: Shared, s: Session, r: Runner, allow: bool)
    requires SharedInv(sh) && SessionInv(sh, s) && RunnerInv(sh, s, r) && Enabled(r, Judge(allow))
    ensures Keeps(sh, s, DoJudge(sh, r, allow))
  {
    var id := CurrentId(r);
    var revision := r.phase.exec.revision;
    var review := Review(revision, Fingerprint(CurrentAction(r).value), allow);
    if id in sh.db.reviews {
      LocalKeeps(sh, s, None);
    } else {
      var b := Reviewed(sh, id, review);
      ReviewKeepsShared(sh, id, review);
      ReviewKeepsSession(sh, s, id, review);
      ReviewKeepsRunner(sh, s, r, id, review);
      forall t: Session | t != s ensures Rely(sh, b, t) { ReviewRely(sh, id, review, t); }
      if allow { ApprovedRunner(b, s, r, revision); } else { ResultMove(b, s, r, Rejected); }
    }
  }

  // ---- begin ----

  lemma BeginFrame(sh: Shared, id: ActionId, row: ActionRow, t: Session)
    requires id !in sh.db.actions && row.status == Started
    ensures SessionFrame(sh, BegunState(sh, id, row), t, None)
  {
  }

  lemma BeginRely(sh: Shared, id: ActionId, row: ActionRow, t: Session)
    requires id !in sh.db.actions && row.status == Started && id.round.turn.session != t
    ensures Rely(sh, BegunState(sh, id, row), t)
  {
    BeginFrame(sh, id, row, t);
  }

  lemma CurrentIdMatches(sh: Shared, r: Runner, row: ActionRow)
    requires Working(r) && ActingInv(sh, r) && CurrentAction(r) == Some(row.action)
    ensures CurrentId(r).round == Current(r)
    ensures SendMatches(BegunState(sh, CurrentId(r), row).db, CurrentId(r))
  {
  }

  /** A new action has had no effect before, because effects only belong to known actions. */
  lemma NoEffectYet(sh: Shared, id: ActionId)
    requires EffectsBacked(sh) && id !in sh.db.actions
    ensures !HasEffect(sh, id)
  {
  }

  lemma BegunTracked(sh: Shared, r: Runner, row: ActionRow)
    requires Working(r) && SendsTracked(sh.db, r) && CurrentId(r) !in sh.db.actions && row.status == Started
    ensures SendsTracked(BegunState(sh, CurrentId(r), row).db, r.(phase := r.phase.(exec := Begun)))
  {
    var b := BegunState(sh, CurrentId(r), row);
    forall i: nat | i < |r.phase.envelope.messages|
      ensures SendSucceeded(b.db, SendId(Current(r), i)) <==> i < |r.phase.results| && r.phase.results[i] == Succeeded
    {
      assert SendSucceeded(sh.db, SendId(Current(r), i)) <==> i < |r.phase.results| && r.phase.results[i] == Succeeded;
    }
  }

  lemma BegunHistory(sh: Shared, s: Session, r: Runner, row: ActionRow)
    requires SessionInv(sh, s) && RunnerInv(sh, s, r) && Working(r)
    requires CurrentId(r) !in sh.db.actions && row.status == Started
    ensures HistoryInv(BegunState(sh, CurrentId(r), row), s, r.(phase := r.phase.(exec := Begun)))
  {
    BeginFrame(sh, CurrentId(r), row, s);
    HistoryKept(sh, BegunState(sh, CurrentId(r), row), s, r, r.(phase := r.phase.(exec := Begun)), None);
  }

  lemma BegunActing(sh: Shared, s: Session, r: Runner, row: ActionRow)
    requires RunnerInv(sh, s, r) && Enabled(r, BeginAction)
    requires CurrentId(r) !in sh.db.actions && row.status == Started && row.action == CurrentAction(r).value
    requires !HasEffect(sh, CurrentId(r))
    ensures ActingInv(BegunState(sh, CurrentId(r), row), r.(phase := r.phase.(exec := Begun)))
  {
    BegunTracked(sh, r, row);
  }

  /** A turn about to begin an action has none of unknown outcome. */
  lemma BegunHalts(sh: Shared, s: Session, r: Runner, row: ActionRow)
    requires RunnerInv(sh, s, r) && Enabled(r, BeginAction) && row.status == Started
    ensures var b := BegunState(sh, CurrentId(r), row); var r2 := r.(phase := r.phase.(exec := Begun));
            RoundsOlder(b.db, s, r2) && UnknownHalts(b.db, r2)
  {
  }

  lemma BegunRunner(sh: Shared, s: Session, r: Runner, row: ActionRow)
    requires SessionInv(sh, s) && RunnerInv(sh, s, r) && Enabled(r, BeginAction)
    requires CurrentId(r) !in sh.db.actions && row.status == Started && row.action == CurrentAction(r).value
    requires !HasEffect(sh, CurrentId(r))
    ensures RunnerInv(BegunState(sh, CurrentId(r), row), s, r.(phase := r.phase.(exec := Begun)))
  {
    BegunHistory(sh, s, r, row);
    BegunActing(sh, s, r, row);
    BegunHalts(sh, s, r, row);
  }

  lemma BeginMove(sh: Shared, s: Session, r: Runner)
    requires SharedInv(sh) && SessionInv(sh, s) && RunnerInv(sh, s, r) && Enabled(r, BeginAction)
    ensures Keeps(sh, s, DoBegin(sh, r))
  {
    var id := CurrentId(r);
    var action := CurrentAction(r).value;
    var revision := r.phase.exec.revision;
    if Begin(sh.db, id, s, r.turn, action, revision).Err? {
      ResultMove(sh, s, r, Rejected);
      LocalKeeps(sh, s, Some(WithResult(r, Rejected)));
    } else {
      var row := ActionRow(s, r.turn, action, revision, Started);
      var b := BegunState(sh, id, row);
      CurrentIdMatches(sh, r, row);
      BeginKeepsShared(sh, id, row);
      BeginFrame(sh, id, row, s);
      SessionKept(sh, b, s, None);
      NoEffectYet(sh, id);
      BegunRunner(sh, s, r, row);
      forall t: Session | t != s ensures Rely(sh, b, t) { BeginRely(sh, id, row, t); }
    }
  }

  // ---- effect ----

  lemma EffectRely(sh: Shared, effect: Effect, t: Session)
    requires effect.id.round.turn.session != t
    ensures Rely(sh, sh.(effects := sh.effects + [effect]), t)
  {
    var b := sh.(effects := sh.effects + [effect]);
    forall id: ActionId | id.round.turn.session == t ensures HasEffect(sh, id) <==> HasEffect(b, id) {
      EffectAdded(sh, effect, id);
    }
  }

  lemma EffectAdded(sh: Shared, effect: Effect, id: ActionId)
    ensures HasEffect(sh.(effects := sh.effects + [effect]), id) <==> HasEffect(sh, id) || id == effect.id
  {
    var b := sh.(effects := sh.effects + [effect]);
    assert b.effects[|sh.effects|] == effect;
    if HasEffect(b, id) {
      var i :| 0 <= i < |b.effects| && b.effects[i].id == id;
      assert i < |sh.effects| ==> sh.effects[i].id == id;
    }
    if HasEffect(sh, id) {
      var i :| 0 <= i < |sh.effects| && sh.effects[i].id == id;
      assert b.effects[i].id == id;
    }
  }

  lemma PerformedRunner(a: Shared, b: Shared, s: Session, r: Runner, status: Status)
    requires RunnerInv(a, s, r) && Working(r) && r.phase.exec == Begun && status != Started
    requires b.db == a.db && b.saved == a.saved && (status == Succeeded ==> HasEffect(b, CurrentId(r)))
    ensures RunnerInv(b, s, r.(phase := r.phase.(exec := Performed(status))))
  {
    var r2 := r.(phase := r.phase.(exec := Performed(status)));
    TrackedAgain(b.db, r, r2);
  }

  lemma PerformMove(sh: Shared, s: Session, r: Runner, adapter: Adapter, touched: bool)
    requires SharedInv(sh) && SessionInv(sh, s) && RunnerInv(sh, s, r) && Enabled(r, Perform(adapter, touched))
    ensures Keeps(sh, s, DoPerform(sh, r, adapter, touched))
  {
    var id := CurrentId(r);
    var action := CurrentAction(r).value;
    var b := if touched then sh.(effects := sh.effects + [Effect(id, action)]) else sh;
    if touched { EffectAdded(sh, Effect(id, action), id); }
    PerformedRunner(sh, b, s, r, Classify(action, adapter));
    if touched {
      EffectKeepsShared(sh, Effect(id, action));
      forall t: Session | t != s ensures Rely(sh, b, t) { EffectRely(sh, Effect(id, action), t); }
    } else {
      LocalKeeps(sh, s, Some(r.(phase := r.phase.(exec := Performed(Classify(action, adapter))))));
    }
  }

  // ---- finish ----

  lemma CloseFrame(sh: Shared, id: ActionId, status: Status, t: Session)
    requires id in sh.db.actions && sh.db.actions[id].status == Started
    ensures SessionFrame(sh, sh.(db := Close(sh.db, id, status)), t, Some(id.round))
  {
  }

  /** Recovery never turns an action into a success, so no round's record of what was sent changes. */
  lemma CloseUnknownFrame(sh: Shared, id: ActionId, t: Session)
    requires id in sh.db.actions && sh.db.actions[id].status == Started
    ensures SessionFrame(sh, sh.(db := Close(sh.db, id, Unknown)), t, None)
  {
  }

  lemma CloseRely(sh: Shared, id: ActionId, status: Status, t: Session)
    requires id in sh.db.actions && sh.db.actions[id].status == Started
    requires sh.db.actions[id].session == id.round.turn.session != t
    ensures Rely(sh, sh.(db := Close(sh.db, id, status)), t)
  {
    CloseFrame(sh, id, status, t);
  }

  lemma OlderAvoids(messages: seq<Msg>, r: Runner)
    requires OnlyOlder(messages, r)
    ensures Avoids(messages, Some(Current(r)))
  {
  }

  lemma StoredAvoids(sh: Shared, s: Session, r: Runner)
    requires HistoryInv(sh, s, r)
    ensures Avoids(Projection(sh.db, s), Some(Current(r)))
  {
    var stored := Projection(sh.db, s);
    forall i | 0 <= i < |stored| && stored[i].Assistant? ensures Some(stored[i].round) != Some(Current(r)) {
      assert stored[i] == r.history.messages[i];
    }
  }

  lemma FinishedTracked(sh: Shared, r: Runner, r2: Runner, status: Status)
    requires Working(r) && ActingInv(sh, r) && r.phase.exec == Performed(status)
    requires r2 == WithResult(WithId(r, |sh.db.events| + 1), status)
    ensures SendsTracked(Close(sh.db, CurrentId(r), status), r2)
  {
    var id := CurrentId(r);
    var db := Close(sh.db, id, status);
    var k := |r.phase.results|;
    forall i: nat | i < |r2.phase.envelope.messages|
      ensures SendSucceeded(db, SendId(Current(r2), i)) <==> i < |r2.phase.results| && r2.phase.results[i] == Succeeded
    {
      assert SendSucceeded(sh.db, SendId(Current(r), i)) <==> i < k && r.phase.results[i] == Succeeded;
      assert SendId(Current(r), i) == id <==> i == k;
    }
  }

  lemma FinishedHistory(sh: Shared, s: Session, r: Runner, r2: Runner, status: Status)
    requires SessionInv(sh, s) && RunnerInv(sh, s, r)
    requires Working(r) && r.phase.exec == Performed(status)
    requires r2 == WithResult(WithId(r, |sh.db.events| + 1), status)
    ensures HistoryInv(sh.(db := Close(sh.db, CurrentId(r), status)), s, r2)
  {
    var id := CurrentId(r);
    var b := sh.(db := Close(sh.db, id, status));
    assert id.round == Current(r);
    CloseFrame(sh, id, status, s);
    OlderAvoids(r.history.messages, r);
    HistoryKept(sh, b, s, r, r2, Some(Current(r)));
  }

  lemma FinishedRunner(sh: Shared, s: Session, r: Runner, r2: Runner, status: Status)
    requires SessionInv(sh, s) && RunnerInv(sh, s, r)
    requires Working(r) && r.phase.exec == Performed(status)
    requires r2 == WithResult(WithId(r, |sh.db.events| + 1), status)
    ensures RunnerInv(sh.(db := Close(sh.db, CurrentId(r), status)), s, r2)
  {
    FinishedHistory(sh, s, r, r2, status);
    FinishedTracked(sh, r, r2, status);
    FinishedUnknown(sh, r, r2, status);
  }

  lemma FinishedUnknown(sh: Shared, r: Runner, r2: Runner, status: Status)
    requires UnknownHalts(sh.db, r) && Working(r) && r.phase.exec == Performed(status)
    requires CurrentId(r) in sh.db.actions
    requires r2 == WithResult(WithId(r, |sh.db.events| + 1), status)
    ensures UnknownHalts(Close(sh.db, CurrentId(r), status), r2)
  {
    var id := CurrentId(r);
    var db := Close(sh.db, id, status);
    forall other | other in db.actions && other.round.turn == r2.turn && db.actions[other].status == Unknown
      ensures Halted(r2.phase)
    {
      assert other in sh.db.actions;
      if other == id { assert r2.phase.results[|r.phase.results|] == Unknown; }
    }
  }

  lemma FinishedSession(sh: Shared, s: Session, r: Runner, status: Status)
    requires SessionInv(sh, s) && RunnerInv(sh, s, r)
    requires Working(r) && r.phase.exec == Performed(status)
    ensures SessionInv(sh.(db := Close(sh.db, CurrentId(r), status)), s)
  {
    var id := CurrentId(r);
    assert id.round == Current(r);
    CloseFrame(sh, id, status, s);
    StoredAvoids(sh, s, r);
    SessionKept(sh, sh.(db := Close(sh.db, id, status)), s, Some(Current(r)));
  }

  lemma FinishShared(sh: Shared, s: Session, r: Runner, status: Status)
    requires SharedInv(sh) && RunnerInv(sh, s, r)
    requires Working(r) && r.phase.exec == Performed(status)
    ensures SharedInv(sh.(db := Close(sh.db, CurrentId(r), status)))
    ensures forall t: Session | t != s :: Rely(sh, sh.(db := Close(sh.db, CurrentId(r), status)), t)
  {
    var id := CurrentId(r);
    assert id.round == Current(r);
    CloseKeepsShared(sh, id, status);
    forall t: Session | t != s ensures Rely(sh, sh.(db := Close(sh.db, id, status)), t) { CloseRely(sh, id, status, t); }
  }

  lemma FinishResult(sh: Shared, r: Runner)
    requires Enabled(r, FinishAction) && ActingInv(sh, r)
    ensures DoFinish(sh, r) == (sh.(db := Close(sh.db, CurrentId(r), r.phase.exec.status)),
                                Some(WithResult(WithId(r, |sh.db.events| + 1), r.phase.exec.status)))
  {
  }

  lemma FinishMove(sh: Shared, s: Session, r: Runner)
    requires SharedInv(sh) && SessionInv(sh, s) && RunnerInv(sh, s, r) && Enabled(r, FinishAction)
    ensures Keeps(sh, s, DoFinish(sh, r))
  {
    var status := r.phase.exec.status;
    FinishResult(sh, r);
    FinishShared(sh, s, r, status);
    FinishedSession(sh, s, r, status);
    FinishedRunner(sh, s, r, WithResult(WithId(r, |sh.db.events| + 1), status), status);
    KeepsIntro(sh, s, sh.(db := Close(sh.db, CurrentId(r), status)),
               Some(WithResult(WithId(r, |sh.db.events| + 1), status)));
  }
}
