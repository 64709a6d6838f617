/** Every ledger transaction and every external effect keeps the table invariants. */
module KernelTables {
  import opened Wrappers
  import opened Protocol
  import opened LedgerModel
  import opened LedgerFacts
  import opened Kernel
  import opened KernelInvariant

  /** Same actions up to their status, no review lost, a longer log. */
  ghost predicate SameAuthority(a: Shared, b: Shared) {
    && a.db.events <= b.db.events
    && a.began == b.began
    && (forall id | id in b.db.actions ::
          && id in a.db.actions
          && b.db.actions[id].revision == a.db.actions[id].revision
          && b.db.actions[id].action == a.db.actions[id].action)
    && (forall id | id in a.db.reviews :: id in b.db.reviews && b.db.reviews[id] == a.db.reviews[id])
  }

  lemma AuthorityKept(a: Shared, b: Shared)
    requires AllAuthorised(a) && SameAuthority(a, b)
    ensures AllAuthorised(b)
  {
    forall id | id in b.db.actions ensures Authorised(b, id) {
      assert Authorised(a, id);
      var n := a.began[id];
      assert b.db.events[..n] == a.db.events[..n];
    }
  }

  lemma SendsKept(a: Db, b: Db)
    requires SendsMatch(a)
    requires forall id | id in b.actions :: id in a.actions && b.actions[id].action == a.actions[id].action
    requires forall r | r in a.rounds :: r in b.rounds && b.rounds[r].assistant == a.rounds[r].assistant
    ensures SendsMatch(b)
  {
    forall id | id in b.actions ensures SendMatches(b, id) {
      assert SendMatches(a, id);
    }
  }

  predicate Plain(e: Event) {
    !e.body.ActionResult? && !(e.body.Inbound? && e.origin.OfDelivery?) && RoundEventBelongs(e)
  }

  lemma PlainResults(db: Db, e: Event)
    requires ResultsMatch(db) && !e.body.ActionResult?
    ensures ResultsMatch(Append(db, e))
  {
    forall id ensures ResultsOf(Append(db, e).events, id) == ExpectedResults(Append(db, e), id) {
      ResultsAppend(db.events, e, id);
      assert ResultsOf(db.events, id) == ExpectedResults(db, id);
    }
  }

  lemma PlainDeliveries(db: Db, e: Event)
    requires DeliveriesMatch(db) && forall key :: !IsDelivery(e, key)
    ensures DeliveriesMatch(Append(db, e))
  {
    forall key ensures DeliveredAs(Append(db, e).events, key) == ExpectedDelivery(Append(db, e), key) {
      DeliveredAppend(db.events, e, key);
      assert DeliveredAs(db.events, key) == ExpectedDelivery(db, key);
    }
  }

  lemma SuccessKept(a: Shared, b: Shared)
    requires SuccessTouched(a) && (forall id | HasEffect(a, id) :: HasEffect(b, id))
    requires forall id | id in b.db.actions && b.db.actions[id].status == Succeeded ::
               HasEffect(b, id) || (id in a.db.actions && a.db.actions[id].status == Succeeded)
    ensures SuccessTouched(b)
  {
  }

  lemma SameEffects(a: Shared, b: Shared)
    requires a.effects == b.effects
    ensures forall id :: HasEffect(a, id) <==> HasEffect(b, id)
  {
  }

  lemma AppendKeepsShared(sh: Shared, e: Event)
    requires SharedInv(sh) && Plain(e)
    ensures SharedInv(sh.(db := Append(sh.db, e)))
  {
    var next := sh.(db := Append(sh.db, e));
    PlainResults(sh.db, e);
    PlainDeliveries(sh.db, e);
    AuthorityKept(sh, next);
    SendsKept(sh.db, next.db);
  }

  /** The delivery table is well formed, so `Ingest` can always be called. */
  lemma DeliveriesWellFormed(db: Db)
    requires DeliveriesMatch(db)
    ensures WellFormedDeliveries(db)
  {
    forall key | key in db.deliveries
      ensures InLog(db.events, db.deliveries[key]) && db.events[db.deliveries[key] - 1].body.Inbound?
    {
      assert DeliveredAs(db.events, key) == ExpectedDelivery(db, key);
      DeliveredListed(db.events, key, db.deliveries[key]);
    }
  }

  lemma NewDeliveryMatches(db: Db, key: DeliveryKey, e: Event)
    requires DeliveriesMatch(db) && key !in db.deliveries
    requires e.body.Inbound? && e.session == key.session && e.origin == OfDelivery(key.source, key.external)
    ensures DeliveriesMatch(Append(db, e).(deliveries := db.deliveries[key := |db.events| + 1]))
  {
    var next := Append(db, e).(deliveries := db.deliveries[key := |db.events| + 1]);
    forall other ensures DeliveredAs(next.events, other) == ExpectedDelivery(next, other) {
      DeliveredAppend(db.events, e, other);
      assert DeliveredAs(db.events, other) == ExpectedDelivery(db, other);
      assert IsDelivery(e, other) <==> other == key;
    }
  }

  lemma DeliverKeepsShared(sh: Shared, key: DeliveryKey, payload: string, transport: string)
    requires SharedInv(sh) && WellFormedDeliveries(sh.db)
    ensures match Ingest(sh.db, key, payload, transport)
            case Ok((db, _)) => SharedInv(sh.(db := db))
            case Err(_) => true
  {
    if key !in sh.db.deliveries {
      var e := Event(key.session, OfDelivery(key.source, key.external), Inbound(payload, transport));
      var db := Append(sh.db, e).(deliveries := sh.db.deliveries[key := |sh.db.events| + 1]);
      NewDeliveryMatches(sh.db, key, e);
      PlainResults(sh.db, e);
      forall id ensures ResultsOf(db.events, id) == ExpectedResults(db, id) {
        assert ResultsOf(Append(sh.db, e).events, id) == ExpectedResults(Append(sh.db, e), id);
      }
      AuthorityKept(sh, sh.(db := db));
      SendsKept(sh.db, db);
    }
  }

  lemma CloseResults(db: Db, id: ActionId, status: Status)
    requires ResultsMatch(db) && id in db.actions && db.actions[id].status == Started && status != Started
    ensures ResultsMatch(Close(db, id, status))
  {
    var next := Close(db, id, status);
    var e := next.events[|db.events|];
    forall other ensures ResultsOf(next.events, other) == ExpectedResults(next, other) {
      ResultsAppend(db.events, e, other);
      assert ResultsOf(db.events, other) == ExpectedResults(db, other);
    }
  }

  lemma CloseRows(db: Db, id: ActionId, status: Status)
    requires RowsBelong(db) && id in db.actions
    ensures RowsBelong(Close(db, id, status))
  {
    var next := Close(db, id, status);
    forall i | 0 <= i < |next.events| ensures RoundEventBelongs(next.events[i]) {
      if i < |db.events| { assert RoundEventBelongs(db.events[i]); }
    }
  }

  lemma CloseDeliveries(db: Db, id: ActionId, status: Status)
    requires DeliveriesMatch(db) && id in db.actions
    ensures DeliveriesMatch(Close(db, id, status))
  {
    var next := Close(db, id, status);
    forall key ensures DeliveredAs(next.events, key) == ExpectedDelivery(next, key) {
      DeliveredAppend(db.events, next.events[|db.events|], key);
      assert DeliveredAs(db.events, key) == ExpectedDelivery(db, key);
    }
  }

  lemma CloseKeepsShared(sh: Shared, id: ActionId, status: Status)
    requires SharedInv(sh) && id in sh.db.actions && sh.db.actions[id].status == Started && status != Started
    requires status == Succeeded ==> HasEffect(sh, id)
    ensures SharedInv(sh.(db := Close(sh.db, id, status)))
  {
    var db := Close(sh.db, id, status);
    SameEffects(sh, sh.(db := db));
    SuccessKept(sh, sh.(db := db));
    CloseRows(sh.db, id, status);
    CloseResults(sh.db, id, status);
    CloseDeliveries(sh.db, id, status);
    AuthorityKept(sh, sh.(db := db));
    SendsKept(sh.db, db);
  }

  /** A change of projections, cursors or round flags only. */
  ghost predicate SameTables(a: Db, b: Db) {
    && a.events == b.events && a.reviews == b.reviews && a.actions == b.actions && a.deliveries == b.deliveries
    && (forall r | r in a.rounds ::
          && r in b.rounds
          && b.rounds[r].assistant == a.rounds[r].assistant
          && b.rounds[r].session == a.rounds[r].session
          && b.rounds[r].turn == a.rounds[r].turn)
    && (forall r | r in b.rounds :: r in a.rounds)
  }

  lemma SameTablesKeepShared(a: Shared, b: Shared)
    requires SharedInv(a) && SameTables(a.db, b.db) && a.effects == b.effects && a.began == b.began
    ensures SharedInv(b)
  {
    AuthorityKept(a, b);
    forall id ensures ResultsOf(b.db.events, id) == ExpectedResults(b.db, id) {
      assert ResultsOf(a.db.events, id) == ExpectedResults(a.db, id);
    }
    forall key ensures DeliveredAs(b.db.events, key) == ExpectedDelivery(b.db, key) {
      assert DeliveredAs(a.db.events, key) == ExpectedDelivery(a.db, key);
    }
    SendsKept(a.db, b.db);
  }

  lemma InsertRoundKeepsShared(sh: Shared, r: RoundId, round: AssistantRound)
    requires SharedInv(sh) && r !in sh.db.rounds
    ensures SharedInv(sh.(db := InsertRound(sh.db, r, r.turn.session, round).value.0))
  {
    var db := InsertRound(sh.db, r, r.turn.session, round).value.0;
    var e := Event(r.turn.session, OfTurn(r.turn), ModelRound(r));
    AppendKeepsShared(sh, e);
    var middle := sh.(db := Append(sh.db, e));
    AuthorityKept(middle, middle.(db := db));
    forall id ensures ResultsOf(db.events, id) == ExpectedResults(db, id) {
      assert ResultsOf(middle.db.events, id) == ExpectedResults(middle.db, id);
    }
    forall key ensures DeliveredAs(db.events, key) == ExpectedDelivery(db, key) {
      assert DeliveredAs(middle.db.events, key) == ExpectedDelivery(middle.db, key);
    }
    SendsKept(sh.db, db);
  }

  lemma ReviewKeepsShared(sh: Shared, id: ActionId, review: Review)
    requires SharedInv(sh) && id !in sh.db.reviews
    ensures SharedInv(sh.(db := sh.db.(reviews := sh.db.reviews[id := review])))
  {
    var db := sh.db.(reviews := sh.db.reviews[id := review]);
    AuthorityKept(sh, sh.(db := db));
    forall other ensures ResultsOf(db.events, other) == ExpectedResults(db, other) {
      assert ResultsOf(sh.db.events, other) == ExpectedResults(sh.db, other);
    }
    forall key ensures DeliveredAs(db.events, key) == ExpectedDelivery(db, key) {
      assert DeliveredAs(sh.db.events, key) == ExpectedDelivery(sh.db, key);
    }
    SendsKept(sh.db, db);
  }

  /** The shared state after a successful begin. */
  function BegunState(sh: Shared, id: ActionId, row: ActionRow): Shared {
    sh.(db := sh.db.(actions := sh.db.actions[id := row]), began := sh.began[id := |sh.db.events|])
  }

  lemma BeginAuthorised(sh: Shared, id: ActionId, row: ActionRow)
    requires AllAuthorised(sh) && id !in sh.db.actions
    requires Revision(sh.db.events) == row.revision && Explicit(row.action)
    requires id in sh.db.reviews && sh.db.reviews[id] == Review(row.revision, Fingerprint(row.action), true)
    ensures AllAuthorised(BegunState(sh, id, row))
  {
    var next := BegunState(sh, id, row);
    assert sh.db.events[..|sh.db.events|] == sh.db.events;
    forall other | other in next.db.actions ensures Authorised(next, other) {
      if other != id { assert Authorised(sh, other); }
    }
  }

  lemma BeginKeepsShared(sh: Shared, id: ActionId, row: ActionRow)
    requires SharedInv(sh) && id !in sh.db.actions && id.round in sh.db.rounds
    requires row.status == Started && row.session == id.round.turn.session && row.turn == id.round.turn
    requires Revision(sh.db.events) == row.revision && Explicit(row.action)
    requires id in sh.db.reviews && sh.db.reviews[id] == Review(row.revision, Fingerprint(row.action), true)
    requires SendMatches(BegunState(sh, id, row).db, id)
    ensures SharedInv(BegunState(sh, id, row))
  {
    var next := BegunState(sh, id, row);
    BeginAuthorised(sh, id, row);
    forall other ensures ResultsOf(next.db.events, other) == ExpectedResults(next.db, other) {
      assert ResultsOf(sh.db.events, other) == ExpectedResults(sh.db, other);
    }
    forall key ensures DeliveredAs(next.db.events, key) == ExpectedDelivery(next.db, key) {
      assert DeliveredAs(sh.db.events, key) == ExpectedDelivery(sh.db, key);
    }
    forall other | other in next.db.actions ensures SendMatches(next.db, other) {
      if other != id { assert SendMatches(sh.db, other); }
    }
  }

  lemma EffectKeepsShared(sh: Shared, effect: Effect)
    requires SharedInv(sh) && effect.id in sh.db.actions && sh.db.actions[effect.id].action == effect.action
    requires !HasEffect(sh, effect.id)
    ensures SharedInv(sh.(effects := sh.effects + [effect]))
  {
    var next := sh.(effects := sh.effects + [effect]);
    assert forall i | 0 <= i < |sh.effects| :: sh.effects[i].id != effect.id && next.effects[i] == sh.effects[i];
    forall id | HasEffect(sh, id) ensures HasEffect(next, id) {
      var i :| 0 <= i < |sh.effects| && sh.effects[i].id == id;
      assert next.effects[i].id == id;
    }
    SuccessKept(sh, next);
    AuthorityKept(sh, next);
  }

  /** Closing the actions of `order` makes their rows unknown and changes nothing else in the table. */
  lemma {:induction false} CloseAllRows(db: Db, order: seq<ActionId>)
    requires forall id | id in order :: id in db.actions
    ensures var after := CloseAll(db, order);
            && after == db.(events := after.events, actions := after.actions)
            && db.events <= after.events
            && after.actions.Keys == db.actions.Keys
    ensures forall id | id in db.actions :: CloseAll(db, order).actions[id] ==
              if id in order then db.actions[id].(status := Unknown) else db.actions[id]
    decreases |order|
  {
    if order != [] {
      var n := |order| - 1;
      CloseAllRows(db, order[..n]);
      assert order[n] in db.actions;
      assert order == order[..n] + [order[n]];
    }
  }

  /** Closing every started action, one after another. */
  lemma {:induction false} CloseAllKeepsShared(sh: Shared, order: seq<ActionId>)
    requires SharedInv(sh)
    requires forall id | id in order :: id in sh.db.actions && sh.db.actions[id].status == Started
    requires forall i, j | 0 <= i < j < |order| :: order[i] != order[j]
    ensures SharedInv(sh.(db := CloseAll(sh.db, order)))
    decreases |order|
  {
    if order != [] {
      var n := |order| - 1;
      CloseAllKeepsShared(sh, order[..n]);
      CloseAllRows(sh.db, order[..n]);
      assert order[n] !in order[..n];
      assert order[n] in order;
      CloseKeepsShared(sh.(db := CloseAll(sh.db, order[..n])), order[n], Unknown);
    }
  }
}
