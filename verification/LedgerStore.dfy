/** The ledger as the object the runtime calls: tables in fields, one atomic method per transaction.
    Each method is proved to compute the transaction function that the kernel's steps are made of. */
module LedgerStore {
  import opened Wrappers
  import opened Protocol
  import opened LedgerModel

  /** How the pending events read after one more event. */
  lemma LaterStep(events: seq<Event>, s: Session, after: nat, n: nat)
    requires 0 < n <= |events|
    ensures Later(Attention(events[..n], s), after)
            == Later(Attention(events[..n - 1], s), after) + if AttentionAt(events, s, n) && n > after then [n] else []
  {
    assert events[..n][..n - 1] == events[..n - 1];
    var seen := Attention(events[..n - 1], s);
    if AttentionAt(events, s, n) {
      assert (seen + [n])[..|seen|] == seen;
    } else {
      assert seen + [] == seen;
    }
  }

  class Ledger {
    var events: seq<Event>
    var reviews: map<ActionId, Review>
    var actions: map<ActionId, ActionRow>
    var rounds: map<RoundId, RoundRow>
    var projections: map<Session, seq<Msg>>
    var projected: map<Session, set<nat>>
    var deliveries: map<DeliveryKey, nat>
    var cursors: map<Session, nat>

    function Tables(): Db
      reads this
    {
      Db(events, reviews, actions, rounds, projections, projected, deliveries, cursors)
    }

    constructor (stored: Db)
      ensures Tables() == stored
    {
      events, reviews, actions, rounds := stored.events, stored.reviews, stored.actions, stored.rounds;
      projections, projected := stored.projections, stored.projected;
      deliveries, cursors := stored.deliveries, stored.cursors;
    }

    method AppendEvent(e: Event) returns (n: nat)
      modifies this
      ensures Tables() == Append(old(Tables()), e) && n == |events|
    {
      events := events + [e];
      n := |events|;
    }

    /** Rows still `started`, in whatever order the query yields them. */
    method PendingActions() returns (order: seq<ActionId>)
      ensures Enumerates(order, StartedIds(Tables()))
    {
      var left := StartedIds(Tables());
      order := [];
      while left != {}
        invariant left <= StartedIds(Tables())
        invariant forall id | id in order :: id in StartedIds(Tables()) && id !in left
        invariant forall id | id in StartedIds(Tables()) :: id in order || id in left
        invariant forall i, j | 0 <= i < j < |order| :: order[i] != order[j]
        decreases left
      {
        var id :| id in left;
        order := order + [id];
        left := left - {id};
      }
    }

    /** Close what the previous process left started, with a result event for each. */
    method CloseOpened() returns (order: seq<ActionId>)
      modifies this
      ensures Enumerates(order, StartedIds(old(Tables())))
      ensures Tables() == CloseAll(old(Tables()), order)
    {
      order := PendingActions();
      for i := 0 to |order|
        invariant forall id | id in order :: id in old(actions)
        invariant Tables() == CloseAll(old(Tables()), order[..i])
        invariant actions.Keys == old(actions).Keys
      {
        assert order[..i + 1][..i] == order[..i];
        var id := order[i];
        assert id in order;
        var row := actions[id];
        actions := actions[id := row.(status := Unknown)];
        events := events + [Event(row.session, OfTurn(row.turn), ActionResult(id, Unknown))];
      }
      assert order[..|order|] == order;
    }

    /** Whether the turn that `e` opened has an end in the log. */
    method HasEnd(e: Event) returns (ended: bool)
      ensures ended <==> exists k :: 0 <= k < |events| && events[k].body.TurnEnd? && events[k].origin == e.origin
    {
      ended := false;
      for m := 0 to |events|
        invariant ended <==> exists k :: 0 <= k < m && events[k].body.TurnEnd? && events[k].origin == e.origin
      {
        if events[m].body.TurnEnd? && events[m].origin == e.origin { ended := true; }
      }
    }

    /** The ends of turns that the previous process left open. */
    method MissingEnds() returns (ends: seq<Event>)
      ensures ends == InterruptedEnds(Tables(), |events|)
    {
      ends := [];
      for n := 1 to |events| + 1
        invariant ends == InterruptedEnds(Tables(), n - 1)
      {
        var e := events[n - 1];
        if e.body.Inbound? && n !in deliveries.Values {
          var ended := HasEnd(e);
          if !ended { ends := ends + [Event(e.session, e.origin, TurnEnd)]; }
        }
      }
    }

    /** Both, in one transaction. */
    method RecoverOpened() returns (order: seq<ActionId>)
      modifies this
      ensures Enumerates(order, StartedIds(old(Tables())))
      ensures Tables() == Recover(old(Tables()), order)
    {
      order := CloseOpened();
      var ends := MissingEnds();
      events := events + ends;
    }

    method CurrentRevision() returns (n: nat)
      ensures n == Revision(events)
    {
      n := |events|;
      assert events[..n] == events;
      while n > 0 && !IsFact(events[n - 1])
        invariant n <= |events|
        invariant Revision(events) == Revision(events[..n])
      {
        assert events[..n][..n - 1] == events[..n - 1];
        n := n - 1;
      }
      assert n > 0 ==> events[..n][n - 1] == events[n - 1];
    }

    method Deliver(key: DeliveryKey, payload: string, transport: string) returns (r: Result<Receipt, LedgerError>)
      requires key in deliveries ==> InLog(events, deliveries[key]) && events[deliveries[key] - 1].body.Inbound?
      modifies this
      ensures match Ingest(old(Tables()), key, payload, transport)
              case Ok((db, receipt)) => Tables() == db && r == Ok(receipt)
              case Err(e) => Tables() == old(Tables()) && r == Err(e)
    {
      if key in deliveries {
        var n := deliveries[key];
        if events[n - 1].body.transport != transport { return Err(DeliveryReused); }
        return Ok(Receipt(n, false));
      }
      events := events + [Event(key.session, OfDelivery(key.source, key.external), Inbound(payload, transport))];
      deliveries := deliveries[key := |events|];
      return Ok(Receipt(|events|, true));
    }

    method AddReview(id: ActionId, review: Review) returns (r: Result<(), LedgerError>)
      modifies this
      ensures match RecordReview(old(Tables()), id, review)
              case Ok(db) => Tables() == db && r == Ok(())
              case Err(e) => Tables() == old(Tables()) && r == Err(e)
    {
      if id in reviews { return Err(DuplicateKey); }
      reviews := reviews[id := review];
      return Ok(());
    }

    /** The short execution boundary: no fact may have arrived since the reviewed revision. */
    method BeginAction(id: ActionId, s: Session, turn: TurnId, action: Action, revision: nat)
      returns (r: Result<(), LedgerError>)
      modifies this
      ensures match Begin(old(Tables()), id, s, turn, action, revision)
              case Ok(db) => Tables() == db && r == Ok(())
              case Err(e) => Tables() == old(Tables()) && r == Err(e)
    {
      var current := CurrentRevision();
      if current != revision { return Err(StaleRevision); }
      if id !in reviews { return Err(MissingReview); }
      var review := reviews[id];
      if review.revision != revision || review.fingerprint != Fingerprint(action) || !review.allow {
        return Err(NotAuthorized);
      }
      if id in actions { return Err(DuplicateKey); }
      actions := actions[id := ActionRow(s, turn, action, revision, Started)];
      return Ok(());
    }

    method FinishAction(id: ActionId, status: Status) returns (r: Result<nat, LedgerError>)
      modifies this
      ensures match Finish(old(Tables()), id, status)
              case Ok((db, n)) => Tables() == db && r == Ok(n)
              case Err(e) => Tables() == old(Tables()) && r == Err(e)
    {
      if id !in actions { return Err(NoSuchAction); }
      var row := actions[id];
      if row.status != Started { return Err(AlreadyCommitted); }
      actions := actions[id := row.(status := status)];
      events := events + [Event(row.session, OfTurn(row.turn), ActionResult(id, status))];
      return Ok(|events|);
    }

    method AddRound(id: RoundId, s: Session, round: AssistantRound) returns (r: Result<nat, LedgerError>)
      modifies this
      ensures match InsertRound(old(Tables()), id, s, round)
              case Ok((db, n)) => Tables() == db && r == Ok(n)
              case Err(e) => Tables() == old(Tables()) && r == Err(e)
    {
      if id in rounds { return Err(DuplicateKey); }
      rounds := rounds[id := RoundRow(s, id.turn, WithoutReasoning(round), false)];
      events := events + [Event(s, OfTurn(id.turn), ModelRound(id))];
      return Ok(|events|);
    }

    /** The recovered messages of an unfinished round: its calls, then what became of each. */
    method RecoverRound(id: RoundId) returns (messages: seq<Msg>)
      requires id in rounds && rounds[id].assistant.calls != []
      ensures messages == [Assistant(id, NoContent, rounds[id].assistant.calls, None)]
                       + RecoveredReplies(Tables(), id, rounds[id].assistant.calls)
    {
      var calls := rounds[id].assistant.calls;
      messages := [Assistant(id, NoContent, calls, None)];
      for i := 0 to |calls|
        invariant messages == [Assistant(id, NoContent, calls, None)] + RecoveredReplies(Tables(), id, calls[..i])
      {
        var action := ToolId(id, calls[i].id);
        var status := if action in actions then actions[action].status else Cancelled;
        assert calls[..i + 1][..i] == calls[..i];
        messages := messages + [ToolReply(calls[i].id, status)];
      }
      assert calls[..|calls|] == calls;
    }

    method EventMessages(n: nat) returns (messages: seq<Msg>)
      requires InLog(events, n)
      ensures messages == Project(Tables(), n)
    {
      messages := [];
      match events[n - 1].body
      case Inbound(payload, _) => messages := [Fact(n, payload)];
      case MediaObservation(payload) => messages := [Fact(n, payload)];
      case ActionResult(_, status) => messages := [Recovered(n, status)];
      case ModelRound(r) =>
        if r in rounds && !rounds[r].finished && rounds[r].assistant.calls != [] { messages := RecoverRound(r); }
      case _ =>
    }

    method HighestProjected(s: Session) returns (through: nat)
      ensures through == ThroughSeq(Tables(), s, 0)
    {
      var done := if s in projected then projected[s] else {};
      through := |events|;
      while through != 0 && through !in done
        invariant 0 <= through <= |events|
        invariant Highest(done, |events|) == Highest(done, through)
        decreases through
      {
        through := through - 1;
      }
    }

    method ReadHistory(s: Session) returns (h: History)
      ensures h == Fetch(Tables(), s)
    {
      var db := Tables();
      var added: seq<Msg> := [];
      var ids: seq<nat> := [];
      var through := HighestProjected(s);
      for n := 1 to |events| + 1
        invariant Tables() == db
        invariant added == FreshMessages(db, s, n - 1)
        invariant ids == FreshIds(db, s, n - 1)
        invariant through == ThroughSeq(db, s, n - 1)
      {
        if Unprojected(db, s, n) {
          var more := EventMessages(n);
          added, ids, through := added + more, ids + [n], if through < n then n else through;
        }
      }
      h := History(Projection(db, s) + added, ids, through);
    }

    method StoreHistory(s: Session, h: History, finished: Option<RoundId>)
      modifies this
      ensures Tables() == SaveHistory(old(Tables()), s, h, finished)
    {
      projections := projections[s := h.messages];
      var done := if s in projected then projected[s] else {};
      for i := 0 to |h.ids|
        invariant done == Projected(old(Tables()), s) + SeqSet(h.ids[..i])
      {
        done := done + {h.ids[i]};
        assert h.ids[..i + 1] == h.ids[..i] + [h.ids[i]];
      }
      assert h.ids[..|h.ids|] == h.ids;
      projected := projected[s := done];
      if finished.Some? && finished.value in rounds {
        rounds := rounds[finished.value := rounds[finished.value].(finished := true)];
      }
    }

    method ReadProjectedThrough(s: Session) returns (n: nat)
      ensures n == ProjectedThrough(Tables(), s, |events|)
    {
      n := |events|;
      while n > 0 && !(events[n - 1].session == s && IsAttention(events[n - 1]) && s in projected && n in projected[s])
        invariant n <= |events|
        invariant ProjectedThrough(Tables(), s, |events|) == ProjectedThrough(Tables(), s, n)
      {
        n := n - 1;
      }
    }

    method MoveCursor(s: Session, through: nat)
      modifies this
      ensures Tables() == Checkpoint(old(Tables()), s, through)
    {
      var old' := if s in cursors then cursors[s] else 0;
      cursors := cursors[s := if old' < through then through else old'];
    }

    /** Inbound and observation events after the cursor: what a scheduler still has to attend to. */
    method ReadPending(s: Session) returns (ns: seq<nat>)
      ensures ns == Pending(Tables(), s)
    {
      var after := if s in cursors then cursors[s] else 0;
      ns := [];
      for n := 1 to |events| + 1
        invariant ns == Later(Attention(events[..n - 1], s), after)
      {
        LaterStep(events, s, after, n);
        if events[n - 1].session == s && IsAttention(events[n - 1]) && n > after { ns := ns + [n]; }
      }
      assert events[..|events|] == events;
    }
  }
}
