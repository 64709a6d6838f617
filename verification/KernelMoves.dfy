/** Every move of a runner keeps the invariant and disturbs no other session. */
module KernelMoves {
  import opened Wrappers
  import opened Protocol
  import opened LedgerModel
  import opened LedgerFacts
  import opened Messages
  import opened Kernel
  import opened KernelInvariant
  import opened KernelTables
  import opened KernelFrames
  import opened KernelHistory

  ghost predicate Keeps(before: Shared, s: Session, next: (Shared, Option<Runner>)) {
    && SharedInv(next.0)
    && SessionInv(next.0, s)
    && (next.1.Some? ==> RunnerInv(next.0, s, next.1.value))
    && (forall t: Session | t != s :: Rely(before, next.0, t))
  }

  lemma RelySame(sh: Shared, t: Session)
    ensures Rely(sh, sh, t)
  {
  }

  lemma KeepsIntro(before: Shared, s: Session, after: Shared, runner: Option<Runner>)
    requires SharedInv(after) && SessionInv(after, s)
    requires runner.Some? ==> RunnerInv(after, s, runner.value)
    requires forall t: Session | t != s :: Rely(before, after, t)
    ensures Keeps(before, s, (after, runner))
  {
  }

  lemma LocalKeeps(sh: Shared, s: Session, runner: Option<Runner>)
    requires SharedInv(sh) && SessionInv(sh, s) && (runner.Some? ==> RunnerInv(sh, s, runner.value))
    ensures Keeps(sh, s, (sh, runner))
  {
    forall t: Session | t != s ensures Rely(sh, sh, t) { RelySame(sh, t); }
  }

  /** Appending an event that no runner owns is harmless to every session. */
  lemma RelyAppend(sh: Shared, e: Event, t: Session)
    requires !IsOwn(e)
    ensures Rely(sh, sh.(db := Append(sh.db, e)), t)
  {
  }

  lemma AppendKeepsSession(sh: Shared, e: Event, t: Session)
    requires SessionInv(sh, t) && !IsOwn(e)
    ensures SessionInv(sh.(db := Append(sh.db, e)), t)
  {
    RelyAppend(sh, e, t);
    SessionKept(sh, sh.(db := Append(sh.db, e)), t, None);
  }

  // ---- reading, routing and refreshing ----

  lemma FetchMove(sh: Shared, s: Session, r: Runner)
    requires SharedInv(sh) && SessionInv(sh, s) && RunnerInv(sh, s, r) && r.phase.Fetching?
    ensures RunnerInv(sh, s, r.(history := Fetch(sh.db, s), cut := |sh.db.events|, phase := Storing))
  {
    var r2 := r.(history := Fetch(sh.db, s), cut := |sh.db.events|, phase := Storing);
    FetchedHistory(sh, s, r, r2);
  }

  lemma HistoryAgain(sh: Shared, s: Session, r: Runner, r2: Runner)
    requires HistoryInv(sh, s, r)
    requires r2.turn == r.turn && r2.index == r.index && r2.history == r.history && r2.cut == r.cut
    ensures HistoryInv(sh, s, r2)
  {
  }

  lemma RouteMove(sh: Shared, s: Session, r: Runner, route: Route)
    requires RunnerInv(sh, s, r) && r.phase.Routing?
    ensures RunnerInv(sh, s, Routed(r, route))
  {
    HistoryAgain(sh, s, r, Routed(r, route));
  }

  lemma RefreshMove(limits: Limits, sh: Shared, s: Session, r: Runner, cancelled: bool, oversized: bool)
    requires SharedInv(sh) && SessionInv(sh, s) && RunnerInv(sh, s, r) && r.phase.Boundary?
    ensures RunnerInv(sh, s, RefreshBoundary(limits, sh, r, cancelled, oversized))
  {
    var r2 := RefreshBoundary(limits, sh, r, cancelled, oversized);
    if r.index >= limits.rounds || cancelled {
      HistoryAgain(sh, s, r, r2);
    } else {
      RefreshKeeps(sh, s, r);
      HistoryAgain(sh, s, AfterRefresh(sh, r), r2);
    }
  }

  lemma AskMove(sh: Shared, s: Session, r: Runner, reply: Reply)
    requires RunnerInv(sh, s, r) && r.phase.Asking?
    ensures RunnerInv(sh, s, Answered(r, reply))
  {
    HistoryAgain(sh, s, r, Answered(r, reply));
  }

  // ---- working through a round ----

  /** Recording an outcome that is not a success, without touching the ledger. */
  lemma ResultMove(sh: Shared, s: Session, r: Runner, status: Status)
    requires RunnerInv(sh, s, r) && Working(r) && (status == Cancelled || status == Rejected)
    ensures RunnerInv(sh, s, WithResult(r, status))
  {
    var r2 := WithResult(r, status);
    var k := |r.phase.results|;
    HistoryAgain(sh, s, r, r2);
    forall i: nat | i < |r2.phase.envelope.messages|
      ensures SendSucceeded(sh.db, SendId(Current(r2), i)) <==> i < |r2.phase.results| && r2.phase.results[i] == Succeeded
    {
      assert SendSucceeded(sh.db, SendId(Current(r), i)) <==> i < k && r.phase.results[i] == Succeeded;
    }
    assert Unknown in r.phase.results ==> Unknown in r2.phase.results;
  }

  lemma InspectMove(sh: Shared, s: Session, r: Runner, directory: Directory)
    requires RunnerInv(sh, s, r) && MayInspect(r, directory)
    ensures RunnerInv(sh, s, r.(phase := r.phase.(exec := Reviewing(Revision(sh.db.events)))))
  {
    var r2 := r.(phase := r.phase.(exec := Reviewing(Revision(sh.db.events))));
    HistoryAgain(sh, s, r, r2);
    var action := CurrentAction(r).value;
    if action.Send? { AcceptedExactlyWhenResolved(action.message, directory); }
    forall i: nat | i < |r2.phase.envelope.messages|
      ensures SendSucceeded(sh.db, SendId(Current(r2), i)) <==> i < |r2.phase.results| && r2.phase.results[i] == Succeeded
    {
      assert SendSucceeded(sh.db, SendId(Current(r), i)) <==> i < |r.phase.results| && r.phase.results[i] == Succeeded;
    }
  }

  lemma RefuseMove(sh: Shared, s: Session, r: Runner)
    requires SharedInv(sh) && SessionInv(sh, s) && RunnerInv(sh, s, r) && MayExecute(r)
    ensures Keeps(sh, s, (sh.(db := Append(sh.db, AuditEvent(r, Audit("action_rejected")))),
                          Some(WithResult(WithId(r, |sh.db.events| + 1), Rejected))))
  {
    var e := AuditEvent(r, Audit("action_rejected"));
    var b := sh.(db := Append(sh.db, e));
    var r2 := WithId(r, |sh.db.events| + 1);
    AppendKeepsShared(sh, e);
    AppendKeepsSession(sh, e, s);
    RelyAppend(sh, e, s);
    RunnerKept(sh, b, s, r);
    HistoryKept(sh, b, s, r, r2, None);
    IdAdded(b, s, r, r2);
    ResultMove(b, s, r2, Rejected);
    forall t: Session | t != s ensures Rely(sh, b, t) { RelyAppend(sh, e, t); }
  }

  /** Adding an id to the history changes nothing else about a working runner. */
  lemma IdAdded(sh: Shared, s: Session, r: Runner, r2: Runner)
    requires RunnerInv(sh, s, r) && r.phase.Acting? && HistoryInv(sh, s, r2)
    requires r2 == r.(history := r.history.(ids := r2.history.ids))
    ensures RunnerInv(sh, s, r2)
  {
    forall i: nat | i < |r2.phase.envelope.messages|
      ensures SendSucceeded(sh.db, SendId(Current(r2), i)) <==> i < |r2.phase.results| && r2.phase.results[i] == Succeeded
    {
      assert SendSucceeded(sh.db, SendId(Current(r), i)) <==> i < |r.phase.results| && r.phase.results[i] == Succeeded;
    }
  }
}
