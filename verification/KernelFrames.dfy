/** What a session's stored projection and running turn keep while others act. */
module KernelFrames {
  import opened Wrappers
  import opened Protocol
  import opened LedgerModel
  import opened LedgerFacts
  import opened Messages
  import opened Kernel
  import opened KernelInvariant

  ghost predicate SameStore(a: Shared, b: Shared, t: Session) {
    && Projection(a.db, t) == Projection(b.db, t)
    && Projected(a.db, t) == Projected(b.db, t)
    && Cursor(a.db, t) == Cursor(b.db, t)
    && Saved(a, t) == Saved(b, t)
  }

  ghost predicate RoundsKept(a: Db, b: Db, t: Session) {
    forall r | r in a.rounds && r.turn.session == t :: r in b.rounds && b.rounds[r].assistant == a.rounds[r].assistant
  }

  /** Send outcomes are the same, except possibly for one round. */
  ghost predicate SameOutcomes(a: Db, b: Db, t: Session, except: Option<RoundId>) {
    forall id: ActionId | id.round.turn.session == t && Some(id.round) != except ::
      SendSucceeded(a, id) <==> SendSucceeded(b, id)
  }

  ghost predicate SessionFrame(a: Shared, b: Shared, t: Session, except: Option<RoundId>) {
    && a.db.events <= b.db.events
    && SameStore(a, b, t)
    && RoundsKept(a.db, b.db, t)
    && SameOutcomes(a.db, b.db, t, except)
  }

  lemma {:induction false} DeliveredSame(a: Db, b: Db, r: RoundId, messages: seq<OutgoingMessage>)
    requires forall i: nat | i < |messages| :: SendSucceeded(a, SendId(r, i)) <==> SendSucceeded(b, SendId(r, i))
    ensures DeliveredMessages(a, r, messages) == DeliveredMessages(b, r, messages)
    decreases |messages|
  {
    if messages != [] { DeliveredSame(a, b, r, messages[..|messages| - 1]); }
  }

  lemma HonestKept(a: Db, b: Db, t: Session, except: Option<RoundId>, m: Msg)
    requires Honest(a, t, m) && RoundsKept(a, b, t) && SameOutcomes(a, b, t, except) && a.events <= b.events
    requires m.Assistant? ==> Some(m.round) != except
    ensures Honest(b, t, m)
  {
    if m.Assistant? && m.content != NoContent {
      var parsed := ParseEnvelope(a.rounds[m.round].assistant);
      DeliveredSame(a, b, m.round, parsed.value.messages);
    }
  }

  ghost predicate Avoids(messages: seq<Msg>, except: Option<RoundId>) {
    forall i | 0 <= i < |messages| :: messages[i].Assistant? ==> Some(messages[i].round) != except
  }

  lemma AllHonestKept(a: Db, b: Db, t: Session, except: Option<RoundId>, messages: seq<Msg>)
    requires AllHonest(a, t, messages) && RoundsKept(a, b, t) && SameOutcomes(a, b, t, except) && a.events <= b.events
    requires Avoids(messages, except)
    ensures AllHonest(b, t, messages)
  {
    forall i | 0 <= i < |messages| ensures Honest(b, t, messages[i]) {
      HonestKept(a, b, t, except, messages[i]);
    }
  }

  lemma CoveredKept(a: Db, b: Db, s: Session, cut: nat)
    requires CoveredUpTo(a, s, cut) && ProjectedInLog(a, s) && cut <= |a.events|
    requires a.events <= b.events && Projected(a, s) == Projected(b, s)
    ensures CoveredUpTo(b, s, cut)
  {
    forall m: nat | AttentionAt(b.events, s, m) ensures m in Projected(b, s) <==> m <= cut {
      if m <= |a.events| { assert AttentionAt(a.events, s, m); }
    }
  }

  lemma SessionKept(a: Shared, b: Shared, t: Session, except: Option<RoundId>)
    requires SessionInv(a, t) && SessionFrame(a, b, t, except) && Avoids(Projection(a.db, t), except)
    ensures SessionInv(b, t)
  {
    var cut := Saved(a, t);
    assert b.db.events[..cut] == a.db.events[..cut];
    CoveredKept(a.db, b.db, t, cut);
    AllHonestKept(a.db, b.db, t, except, Projection(a.db, t));
  }

  /** What every other participant guarantees to the turn of session `t`. */
  ghost predicate Rely(a: Shared, b: Shared, t: Session) {
    && SessionFrame(a, b, t, None)
    && (forall n: nat | OwnAt(b.db.events, t, n) :: n <= |a.db.events|)
    && (forall r | r in b.db.rounds && r.turn.session == t :: r in a.db.rounds)
    && (forall id | id in a.db.reviews :: id in b.db.reviews && b.db.reviews[id] == a.db.reviews[id])
    && (forall id: ActionId | id.round.turn.session == t ::
          && (id in a.db.actions <==> id in b.db.actions)
          && (id in a.db.actions ==> a.db.actions[id] == b.db.actions[id]))
    && (forall id: ActionId | id.round.turn.session == t :: HasEffect(a, id) <==> HasEffect(b, id))
  }

  /** A step that only touches projections, cursors or round flags of other sessions. */
  lemma RelyStill(a: Shared, b: Shared, t: Session)
    requires SameStore(a, b, t)
    requires a.db.events == b.db.events && a.db.actions == b.db.actions && a.db.reviews == b.db.reviews
    requires a.effects == b.effects && a.db.rounds.Keys == b.db.rounds.Keys && RoundsKept(a.db, b.db, t)
    ensures Rely(a, b, t)
  {
  }

  /** Ids added to a history since an earlier state name later, non-attention events. */
  ghost predicate IdsGrow(a: Db, b: Db, before: seq<nat>, after: seq<nat>) {
    && (forall n | n in before :: n in after)
    && (forall n | n in after && n !in before ::
          InLog(b.events, n) && n > |a.events| && !IsAttention(b.events[n - 1]))
  }

  lemma HistoryCoversKept(a: Db, b: Db, s: Session, r: Runner, r2: Runner)
    requires HistoryCovers(a, s, r) && IdsInLog(a, r.history.ids) && ProjectedInLog(a, s) && r.cut <= |a.events|
    requires a.events <= b.events && Projected(a, s) == Projected(b, s)
    requires r2.cut == r.cut && IdsGrow(a, b, r.history.ids, r2.history.ids)
    ensures HistoryCovers(b, s, r2)
  {
    forall m: nat | AttentionAt(b.events, s, m)
      ensures (m in Projected(b, s) || m in r2.history.ids) <==> m <= r2.cut
    {
      if m <= |a.events| { assert AttentionAt(a.events, s, m); }
    }
  }

  lemma OwnCoveredKept(a: Db, b: Db, s: Session, r: Runner, r2: Runner)
    requires OwnCovered(a, s, r) && a.events <= b.events && Projected(a, s) == Projected(b, s)
    requires IdsGrow(a, b, r.history.ids, r2.history.ids)
    requires forall n: nat | OwnAt(b.events, s, n) && n > |a.events| :: n in r2.history.ids
    ensures OwnCovered(b, s, r2)
  {
    forall m: nat | OwnAt(b.events, s, m) ensures m in Projected(b, s) || m in r2.history.ids {
      if m <= |a.events| { assert OwnAt(a.events, s, m); }
    }
  }

  /** The in-memory history stays good when only later events, possibly its own, were added. */
  lemma HistoryKept(a: Shared, b: Shared, t: Session, r: Runner, r2: Runner, except: Option<RoundId>)
    requires SessionInv(a, t) && HistoryInv(a, t, r)
    requires SessionFrame(a, b, t, except) && Avoids(r.history.messages, except)
    requires r2.turn == r.turn && r2.index == r.index && r2.cut == r.cut && r2.history.messages == r.history.messages
    requires IdsGrow(a.db, b.db, r.history.ids, r2.history.ids)
    requires forall n: nat | OwnAt(b.db.events, t, n) && n > |a.db.events| :: n in r2.history.ids
    ensures HistoryInv(b, t, r2)
  {
    assert b.db.events[..r.cut] == a.db.events[..r.cut];
    HistoryCoversKept(a.db, b.db, t, r, r2);
    OwnCoveredKept(a.db, b.db, t, r, r2);
    AllHonestKept(a.db, b.db, t, except, r.history.messages);
  }

  lemma ActingKept(a: Shared, b: Shared, r: Runner)
    requires r.phase.Acting? && ActingInv(a, r) && Rely(a, b, r.turn.session)
    ensures ActingInv(b, r)
  {
    forall i: nat | i < |r.phase.envelope.messages|
      ensures SendSucceeded(b.db, SendId(Current(r), i)) <==> i < |r.phase.results| && r.phase.results[i] == Succeeded
    {
      assert SendSucceeded(a.db, SendId(Current(r), i)) <==> i < |r.phase.results| && r.phase.results[i] == Succeeded;
    }
    if r.phase.exec != Idle { assert CurrentId(r).round == Current(r); }
  }

  lemma RunnerKept(a: Shared, b: Shared, t: Session, r: Runner)
    requires SessionInv(a, t) && RunnerInv(a, t, r) && Rely(a, b, t)
    ensures RunnerInv(b, t, r)
  {
    if !r.phase.Fetching? { HistoryKept(a, b, t, r, r, None); }
    if r.phase.Acting? { ActingKept(a, b, r); }
  }
}
