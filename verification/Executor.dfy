/** The executor as the runtime runs it: one action through review, begin, effect and finish, while other
    tasks append events. */
module Executor {
  import opened Wrappers
  import opened Protocol
  import opened LedgerModel
  import opened LedgerStore
  import opened Kernel

  predicate Quiet(batch: seq<Event>) {
    forall e | e in batch :: !IsFact(e)
  }

  /** The revision stands still exactly while no fact is recorded. */
  lemma {:induction false} RevisionStands(events: seq<Event>, batch: seq<Event>)
    ensures Revision(events) <= |events|
    ensures Revision(events + batch) == Revision(events) <==> Quiet(batch)
    ensures !Quiet(batch) ==> Revision(events + batch) > |events|
    decreases |events| + |batch|
  {
    if batch == [] {
      assert events + batch == events;
      if events != [] {
        RevisionStands(events[..|events| - 1], []);
      }
    } else {
      var n := |batch| - 1;
      assert (events + batch)[..|events + batch| - 1] == events + batch[..n];
      assert forall e | e in batch :: e in batch[..n] || e == batch[n];
      assert forall e | e in batch[..n] :: e in batch;
      assert batch[n] in batch;
      RevisionStands(events, batch[..n]);
    }
  }

  datatype Execution = Execution(status: Status, event: Option<nat>)

  /** What comes of asking to begin an action: it has its started row, it may not, or the ledger call failed. */
  datatype Admission = Admitted | Refused(status: Status) | Broken(error: LedgerError)

  /** What the outside decides during one execution: events other tasks record at each await, the reviewer's
      verdict, when the turn is cancelled, what the adapter reports and whether it touched the world. */
  datatype Surroundings = Surroundings(
    whileReviewing: seq<Event>, beforeBegin: seq<Event>, whileActing: seq<Event>,
    cancelledInReview: bool, allow: bool, cancelled: bool, adapter: Adapter, touched: bool)

  predicate Plausible(w: Surroundings) {
    (w.adapter.NotStarted? ==> !w.touched) && (w.adapter.Accepted? ==> w.touched)
  }

  /** The action passes every gate: allowed, not cancelled, new, and no fact since the snapshot. */
  predicate Passes(db: Db, id: ActionId, valid: bool, w: Surroundings) {
    && valid && !w.cancelledInReview && w.allow && !w.cancelled
    && id !in db.reviews && id !in db.actions
    && Quiet(w.whileReviewing) && Quiet(w.beforeBegin)
  }

  class ActionExecutor {
    const ledger: Ledger
    var effects: seq<Effect>

    constructor (store: Ledger)
      ensures ledger == store && effects == []
    {
      ledger := store;
      effects := [];
    }

    method Interleave(batch: seq<Event>)
      modifies ledger
      ensures ledger.Tables() == old(ledger.Tables()).(events := old(ledger.events) + batch)
    {
      ledger.events := ledger.events + batch;
    }

    /** Up to the begin point. */
    method Authorise(id: ActionId, s: Session, turn: TurnId, action: Action, w: Surroundings)
      returns (admission: Admission)
      modifies ledger
      ensures admission.Admitted? == Passes(old(ledger.Tables()), id, true, w)
      ensures admission.Admitted? ==>
                ledger.actions == old(ledger.actions)[id := ActionRow(s, turn, action, Revision(old(ledger.events)), Started)]
      ensures !admission.Admitted? ==>
                && ledger.actions == old(ledger.actions)
                && admission == if w.cancelledInReview then Refused(Cancelled)
                                else if id in old(ledger.reviews) then Broken(DuplicateKey)
                                else if w.allow && w.cancelled then Refused(Cancelled) else Refused(Rejected)
      ensures old(ledger.events) <= ledger.events
    {
      var revision := ledger.CurrentRevision();
      ghost var before := ledger.events;
      var at := ledger.AppendEvent(Event(s, OfTurn(turn), Audit("review_started")));
      Interleave(w.whileReviewing);
      ghost var later := [Event(s, OfTurn(turn), Audit("review_started"))] + w.whileReviewing;
      assert ledger.events == before + later;
      if w.cancelledInReview { return Refused(Cancelled); }
      var recorded := ledger.AddReview(id, Review(revision, Fingerprint(action), w.allow));
      if recorded.Err? { return Broken(recorded.error); }
      Interleave(w.beforeBegin);
      assert ledger.events == before + (later + w.beforeBegin);
      RevisionStands(before, later + w.beforeBegin);
      QuietParts(Event(s, OfTurn(turn), Audit("review_started")), w.whileReviewing, w.beforeBegin);
      if !w.allow { return Refused(Rejected); }
      if w.cancelled { return Refused(Cancelled); }
      var begun := ledger.BeginAction(id, s, turn, action, revision);
      return if begun.Ok? then Admitted else Refused(Rejected);
    }

    /** One action: it happens at most once, and exactly when every gate is passed; its row and its one result
        event then agree with what the adapter reported. */
    method Execute(id: ActionId, s: Session, turn: TurnId, action: Action, valid: bool, w: Surroundings)
      returns (r: Result<Execution, LedgerError>)
      requires Plausible(w)
      modifies this, ledger
      ensures var begun := Passes(old(ledger.Tables()), id, valid, w);
              && effects == old(effects) + (if begun && w.touched then [Effect(id, action)] else [])
              && (begun ==>
                    var status := Classify(action, w.adapter);
                    && r == Ok(Execution(status, Some(|ledger.events|)))
                    && ledger.events != [] && ledger.events[|ledger.events| - 1] == Event(s, OfTurn(turn), ActionResult(id, status))
                    && id in ledger.actions
                    && ledger.actions[id] == ActionRow(s, turn, action, Revision(old(ledger.events)), status))
              && (!begun ==>
                    && ledger.actions == old(ledger.actions)
                    && (r.Ok? ==> r.value.status == Rejected || r.value.status == Cancelled))
      ensures old(ledger.events) <= ledger.events
    {
      if !valid {
        var refusedAt := ledger.AppendEvent(Event(s, OfTurn(turn), Audit("action_rejected")));
        return Ok(Execution(Rejected, Some(refusedAt)));
      }
      var admission := Authorise(id, s, turn, action, w);
      if admission.Refused? { return Ok(Execution(admission.status, None)); }
      if admission.Broken? { return Err(admission.error); }
      var at := ledger.AppendEvent(Event(s, OfTurn(turn), Audit("action_started")));
      if w.touched {
        effects := effects + [Effect(id, action)];
      }
      Interleave(w.whileActing);
      var status := Classify(action, w.adapter);
      var finished := ledger.FinishAction(id, status);
      r := Ok(Execution(status, Some(finished.value)));
    }
  }

  lemma QuietParts(first: Event, a: seq<Event>, b: seq<Event>)
    requires !IsFact(first)
    ensures Quiet([first] + a + b) <==> Quiet(a) && Quiet(b)
  {
    var all := [first] + a + b;
    if Quiet(a) && Quiet(b) {
      forall e | e in all ensures !IsFact(e) {
      }
    }
    if Quiet(all) {
      assert forall e | e in a || e in b :: e in all;
    }
  }
}
