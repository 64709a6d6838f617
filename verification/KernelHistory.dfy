/** Reading, saving and refreshing a turn's history. */
module KernelHistory {
  import opened Wrappers
  import opened Protocol
  import opened LedgerModel
  import opened LedgerFacts
  import opened Messages
  import opened Kernel
  import opened KernelInvariant
  import opened KernelFrames

  /** Messages of a recent read are fit to keep and older than anything the turn will do. */
  lemma FetchHonest(sh: Shared, s: Session, r: Runner)
    requires SharedInv(sh) && SessionInv(sh, s) && RoundsOlder(sh.db, s, r) && !InRound(r.phase)
    ensures AllHonest(sh.db, s, Fetch(sh.db, s).messages)
    ensures OnlyOlder(Fetch(sh.db, s).messages, r)
  {
    var stored := Projection(sh.db, s);
    var recent := FreshMessages(sh.db, s, |sh.db.events|);
    forall i | 0 <= i < |stored + recent|
      ensures Honest(sh.db, s, (stored + recent)[i])
      ensures (stored + recent)[i].Assistant? ==> Older((stored + recent)[i].round, r)
    {
      if i < |stored| {
        assert Honest(sh.db, s, stored[i]);
      } else {
        FreshTells(sh.db, s, |sh.db.events|, i - |stored|);
      }
      if i >= |stored| && (stored + recent)[i].Assistant? {
        FreshAssistants(sh.db, s, |sh.db.events|, i - |stored|);
        var k :| InLog(sh.db.events, k) && sh.db.events[k - 1].session == s
                 && sh.db.events[k - 1].body == ModelRound((stored + recent)[i].round);
        assert RoundEventBelongs(sh.db.events[k - 1]);
      }
    }
  }

  lemma FetchShows(sh: Shared, s: Session)
    requires SessionInv(sh, s)
    ensures Facts(Fetch(sh.db, s).messages) == Attention(sh.db.events, s)
    ensures Paired(Fetch(sh.db, s).messages)
  {
    var n := |sh.db.events|;
    FreshFacts(sh.db, s, Saved(sh, s), n);
    FreshPaired(sh.db, s, n);
    FactsConcat(Projection(sh.db, s), FreshMessages(sh.db, s, n));
    PairedConcat(Projection(sh.db, s), FreshMessages(sh.db, s, n));
    assert sh.db.events[..n] == sh.db.events;
  }

  /** A turn whose history was just read. */
  lemma FetchedHistory(sh: Shared, s: Session, r: Runner, r2: Runner)
    requires SharedInv(sh) && SessionInv(sh, s) && RoundsOlder(sh.db, s, r) && !InRound(r.phase)
    requires r2.turn == r.turn && r2.index == r.index
    requires r2.history == Fetch(sh.db, s) && r2.cut == |sh.db.events|
    ensures HistoryInv(sh, s, r2)
  {
    var n := |sh.db.events|;
    FetchHonest(sh, s, r);
    FetchShows(sh, s);
    FreshIdsListed(sh.db, s, n);
    assert sh.db.events[..n] == sh.db.events;
  }

  lemma {:induction false} NothingFresh(db: Db, s: Session, n: nat, m: nat)
    requires n <= |db.events| && m <= n && FreshMessages(db, s, n) == [] && AttentionAt(db.events, s, m)
    ensures m in Projected(db, s)
  {
    if m < n { NothingFresh(db, s, n - 1, m); }
  }

  /** When nothing new is to be shown, the stored projection covers the whole log. */
  lemma UnchangedHistory(sh: Shared, s: Session, r: Runner)
    requires SessionInv(sh, s) && HistoryInv(sh, s, r) && Synced(sh.db, s, r)
    requires FreshMessages(sh.db, s, |sh.db.events|) == []
    ensures HistoryInv(sh, s, r.(cut := |sh.db.events|))
  {
    var n := |sh.db.events|;
    var r2 := r.(cut := n);
    forall m: nat | AttentionAt(sh.db.events, s, m)
      ensures (m in Projected(sh.db, s) || m in r2.history.ids) <==> m <= r2.cut
    {
      NothingFresh(sh.db, s, n, m);
    }
    FetchShows(sh, s);
    assert Fetch(sh.db, s).messages == Projection(sh.db, s);
    assert sh.db.events[..n] == sh.db.events;
  }

  lemma RefreshKeeps(sh: Shared, s: Session, r: Runner)
    requires SharedInv(sh) && SessionInv(sh, s) && RunnerInv(sh, s, r) && r.phase.Boundary?
    ensures HistoryInv(sh, s, AfterRefresh(sh, r)) && LiveInv(AfterRefresh(sh, r))
  {
    var r2 := AfterRefresh(sh, r);
    var recent := FreshMessages(sh.db, s, |sh.db.events|);
    var fetched := Fetch(sh.db, s).messages;
    assert fetched == r.history.messages + recent;
    if recent == [] {
      UnchangedHistory(sh, s, r);
    } else {
      FetchedHistory(sh, s, r, r2);
      assert fetched[|r.history.messages|..] == recent;
      FreshPaired(sh.db, s, |sh.db.events|);
      PairedConcat(r.live, recent);
      FactsConcat(r.live, recent);
      FactsConcat(r.history.messages, recent);
    }
  }

  // ---- saving ----

  /** What a turn must guarantee about the history it is about to store. */
  ghost predicate Storable(sh: Shared, s: Session, r: Runner) {
    && r.turn.session == s
    && Saved(sh, s) <= r.cut <= |sh.db.events|
    && IdsInLog(sh.db, r.history.ids)
    && HistoryCovers(sh.db, s, r)
    && OwnCovered(sh.db, s, r)
    && Facts(r.history.messages) == Attention(sh.db.events[..r.cut], s)
    && Paired(r.history.messages)
    && AllHonest(sh.db, s, r.history.messages)
  }

  lemma StoreProjected(sh: Shared, r: Runner, finished: Option<RoundId>)
    ensures var b := Store(sh, r, finished);
            var s := r.turn.session;
            && Projection(b.db, s) == r.history.messages
            && Projected(b.db, s) == Projected(sh.db, s) + SeqSet(r.history.ids)
            && Cursor(b.db, s) == Cursor(sh.db, s)
            && Saved(b, s) == r.cut
            && b.db.events == sh.db.events && b.db.actions == sh.db.actions && b.db.reviews == sh.db.reviews
            && b.effects == sh.effects
            && RoundsKept(sh.db, b.db, s)
  {
  }

  lemma StoreElsewhere(sh: Shared, r: Runner, finished: Option<RoundId>, t: Session)
    requires t != r.turn.session
    ensures SameStore(sh, Store(sh, r, finished), t)
  {
  }

  lemma StoreRounds(sh: Shared, r: Runner, finished: Option<RoundId>, t: Session)
    ensures var b := Store(sh, r, finished);
            b.db.rounds.Keys == sh.db.rounds.Keys && RoundsKept(sh.db, b.db, t)
  {
  }

  lemma StoreKeepsSession(sh: Shared, s: Session, r: Runner, finished: Option<RoundId>)
    requires SessionInv(sh, s) && Storable(sh, s, r)
    ensures SessionInv(Store(sh, r, finished), s)
  {
    var b := Store(sh, r, finished);
    StoreProjected(sh, r, finished);
    forall m: nat | AttentionAt(b.db.events, s, m) ensures m in Projected(b.db, s) <==> m <= r.cut {
      assert AttentionAt(sh.db.events, s, m);
    }
    AllHonestKept(sh.db, b.db, s, None, r.history.messages);
  }

  /** After a save the turn's history is exactly what is stored. */
  lemma StoreSyncs(sh: Shared, s: Session, r: Runner, finished: Option<RoundId>, r2: Runner)
    requires SessionInv(sh, s) && Storable(sh, s, r)
    requires r2.turn == r.turn && r2.history == r.history && r2.cut == r.cut && OnlyOlder(r.history.messages, r2)
    ensures HistoryInv(Store(sh, r, finished), s, r2) && Synced(Store(sh, r, finished).db, s, r2)
  {
    var b := Store(sh, r, finished);
    StoreProjected(sh, r, finished);
    forall m: nat | AttentionAt(b.db.events, s, m)
      ensures (m in Projected(b.db, s) || m in r2.history.ids) <==> m <= r2.cut
    {
      assert AttentionAt(sh.db.events, s, m);
    }
    forall m: nat | OwnAt(b.db.events, s, m) ensures m in Projected(b.db, s) || m in r2.history.ids {
      assert OwnAt(sh.db.events, s, m);
    }
    AllHonestKept(sh.db, b.db, s, None, r.history.messages);
  }

  lemma StoreRely(sh: Shared, r: Runner, finished: Option<RoundId>, t: Session)
    requires t != r.turn.session
    ensures Rely(sh, Store(sh, r, finished), t)
  {
    StoreElsewhere(sh, r, finished, t);
    StoreRounds(sh, r, finished, t);
    RelyStill(sh, Store(sh, r, finished), t);
  }

  lemma StoreKeepsUnknown(sh: Shared, r: Runner, finished: Option<RoundId>, r2: Runner)
    requires UnknownHalts(sh.db, r) && r2.turn == r.turn && (Halted(r.phase) ==> Halted(r2.phase))
    ensures UnknownHalts(Store(sh, r, finished).db, r2)
  {
    StoreProjected(sh, r, finished);
  }
}
