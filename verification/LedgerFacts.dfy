/** How the ledger's readings change when the log grows, and what recovery and `history` compute. */
module LedgerFacts {
  import opened Wrappers
  import opened Protocol
  import opened LedgerModel
  import opened Messages
  import opened KernelInvariant

  lemma AttentionAppend(events: seq<Event>, e: Event, s: Session)
    ensures Attention(events + [e], s)
         == Attention(events, s) + if e.session == s && IsAttention(e) then [|events| + 1] else []
  {
    assert (events + [e])[..|events|] == events;
  }

  lemma ResultsAppend(events: seq<Event>, e: Event, id: ActionId)
    ensures ResultsOf(events + [e], id)
         == ResultsOf(events, id) + if e.body.ActionResult? && e.body.id == id then [e.body.status] else []
  {
    assert (events + [e])[..|events|] == events;
  }

  lemma DeliveredAppend(events: seq<Event>, e: Event, key: DeliveryKey)
    ensures DeliveredAs(events + [e], key)
         == DeliveredAs(events, key) + if IsDelivery(e, key) then [|events| + 1] else []
  {
    assert (events + [e])[..|events|] == events;
  }

  /** The sequence numbers listed by `Attention` are exactly the attention events, in increasing order. */
  lemma {:induction false} AttentionListed(events: seq<Event>, s: Session)
    ensures forall n :: n in Attention(events, s) <==> AttentionAt(events, s, n)
    ensures forall i, j | 0 <= i < j < |Attention(events, s)| :: Attention(events, s)[i] < Attention(events, s)[j]
  {
    if events != [] {
      var shorter := events[..|events| - 1];
      AttentionListed(shorter, s);
      forall n ensures n in Attention(events, s) <==> AttentionAt(events, s, n) {
        assert n in Attention(events, s) <==>
          n in Attention(shorter, s) || (n == |events| && AttentionAt(events, s, n));
      }
      forall i, j | 0 <= i < j < |Attention(events, s)|
        ensures Attention(events, s)[i] < Attention(events, s)[j]
      {
        if j == |Attention(shorter, s)| {
          assert Attention(shorter, s)[i] in Attention(shorter, s);
        }
      }
    }
  }

  lemma {:induction false} DeliveredListed(events: seq<Event>, key: DeliveryKey, n: nat)
    requires n in DeliveredAs(events, key)
    ensures InLog(events, n) && IsDelivery(events[n - 1], key)
  {
    if events != [] {
      if n in DeliveredAs(events[..|events| - 1], key) { DeliveredListed(events[..|events| - 1], key, n); }
    }
  }

  /** `Revision` is the latest fact: nothing after it is one. */
  lemma {:induction false} RevisionIsLatestFact(events: seq<Event>)
    ensures Revision(events) <= |events|
    ensures Revision(events) > 0 ==> FactAt(events, Revision(events))
    ensures forall n: nat | FactAt(events, n) :: n <= Revision(events)
  {
    if events != [] && !IsFact(events[|events| - 1]) {
      var shorter := events[..|events| - 1];
      RevisionIsLatestFact(shorter);
      forall n: nat | FactAt(events, n) ensures n <= Revision(events) {
        assert FactAt(shorter, n);
      }
    }
  }

  lemma ProjectPaired(db: Db, n: nat)
    requires InLog(db.events, n)
    ensures Paired(Project(db, n))
  {
    match db.events[n - 1].body
    case Inbound(payload, _) => PairedOne(Fact(n, payload));
    case MediaObservation(payload) => PairedOne(Fact(n, payload));
    case ActionResult(_, status) => PairedOne(Recovered(n, status));
    case ModelRound(r) =>
      if r in db.rounds {
        var calls := db.rounds[r].assistant.calls;
        PairedBlock(Assistant(r, NoContent, calls, None), RecoveredReplies(db, r, calls));
      }
    case _ =>
  }

  lemma {:induction false} FreshPaired(db: Db, s: Session, n: nat)
    requires n <= |db.events|
    ensures Paired(FreshMessages(db, s, n))
  {
    if n > 0 {
      FreshPaired(db, s, n - 1);
      if Unprojected(db, s, n) {
        ProjectPaired(db, n);
        PairedConcat(FreshMessages(db, s, n - 1), Project(db, n));
      } else {
        assert FreshMessages(db, s, n - 1) + [] == FreshMessages(db, s, n - 1);
      }
    }
  }

  lemma ProjectFacts(db: Db, n: nat)
    requires InLog(db.events, n)
    ensures Facts(Project(db, n)) == if IsAttention(db.events[n - 1]) then [n] else []
  {
    var messages := Project(db, n);
    if IsAttention(db.events[n - 1]) {
      assert messages[..0] == [];
    } else {
      NoFacts(messages);
    }
  }


  lemma FreshFactsStep(db: Db, s: Session, n: nat)
    requires 0 < n <= |db.events|
    ensures Facts(FreshMessages(db, s, n))
            == Facts(FreshMessages(db, s, n - 1))
               + if AttentionAt(db.events, s, n) && n !in Projected(db, s) then [n] else []
  {
    var before := FreshMessages(db, s, n - 1);
    if Unprojected(db, s, n) {
      ProjectFacts(db, n);
      FactsConcat(before, Project(db, n));
    } else {
      assert before + [] == before;
    }
  }

  lemma AttentionStep(events: seq<Event>, s: Session, n: nat)
    requires 0 < n <= |events|
    ensures Attention(events[..n], s) == Attention(events[..n - 1], s) + if AttentionAt(events, s, n) then [n] else []
  {
    assert events[..n] == events[..n - 1] + [events[n - 1]];
    AttentionAppend(events[..n - 1], events[n - 1], s);
  }

  /** If exactly the attention events up to `cut` are projected, a fresh message shows an event iff it is later. */
  lemma CoveredStep(db: Db, s: Session, cut: nat, n: nat)
    requires cut <= |db.events| && 0 < n <= |db.events| && CoveredUpTo(db, s, cut)
    ensures Facts(FreshMessages(db, s, n))
            == Facts(FreshMessages(db, s, n - 1)) + if AttentionAt(db.events, s, n) && n > cut then [n] else []
  {
    FreshFactsStep(db, s, n);
  }

  /** So none of the fresh messages shows an event up to the cut. */
  lemma {:induction false} FreshBelow(db: Db, s: Session, cut: nat, n: nat)
    requires n <= cut <= |db.events| && CoveredUpTo(db, s, cut)
    ensures Facts(FreshMessages(db, s, n)) == []
  {
    if n > 0 {
      FreshBelow(db, s, cut, n - 1);
      CoveredStep(db, s, cut, n);
    }
  }

  /** And the fresh messages show all the others, in order. */
  lemma {:induction false} FreshFacts(db: Db, s: Session, cut: nat, n: nat)
    requires cut <= n <= |db.events| && CoveredUpTo(db, s, cut)
    ensures Attention(db.events[..cut], s) + Facts(FreshMessages(db, s, n)) == Attention(db.events[..n], s)
    decreases n
  {
    if n == cut {
      FreshBelow(db, s, cut, n);
    } else {
      FreshFacts(db, s, cut, n - 1);
      CoveredStep(db, s, cut, n);
      AttentionStep(db.events, s, n);
      AppendFacts(Attention(db.events[..cut], s), Facts(FreshMessages(db, s, n - 1)), n);
    }
  }

  lemma AppendFacts(a: seq<nat>, b: seq<nat>, n: nat)
    ensures a + b + [n] == a + (b + [n]) && b + [] == b
  {
  }

  lemma {:induction false} FreshIdsListed(db: Db, s: Session, n: nat)
    requires n <= |db.events|
    ensures forall m :: m in FreshIds(db, s, n) <==>
      1 <= m <= n && db.events[m - 1].session == s && m !in Projected(db, s)
  {
    if n > 0 { FreshIdsListed(db, s, n - 1); }
  }

  /** Assistant messages produced by recovery carry no content. */
  lemma {:induction false} FreshAssistants(db: Db, s: Session, n: nat, i: nat)
    requires n <= |db.events| && i < |FreshMessages(db, s, n)|
    requires FreshMessages(db, s, n)[i].Assistant?
    ensures var m := FreshMessages(db, s, n)[i];
            m.content == NoContent && m.reasoning == None && m.round in db.rounds && !db.rounds[m.round].finished
            && exists k :: InLog(db.events, k) && db.events[k - 1].session == s && db.events[k - 1].body == ModelRound(m.round)
    decreases n
  {
    var before := FreshMessages(db, s, n - 1);
    if i < |before| {
      FreshAssistants(db, s, n - 1, i);
    } else {
      assert InLog(db.events, n) && db.events[n - 1].session == s;
      assert FreshMessages(db, s, n)[i] == Project(db, n)[i - |before|];
    }
  }

  /** Messages of a recent read tell what the log holds. */
  lemma {:induction false} FreshTells(db: Db, s: Session, n: nat, i: nat)
    requires n <= |db.events| && i < |FreshMessages(db, s, n)|
    ensures TellsLogged(db.events, s, FreshMessages(db, s, n)[i])
    decreases n
  {
    var before := FreshMessages(db, s, n - 1);
    if i < |before| {
      FreshTells(db, s, n - 1, i);
    } else {
      assert FreshMessages(db, s, n)[i] == Project(db, n)[i - |before|];
    }
  }

  lemma {:induction false} ThroughProjected(db: Db, s: Session, n: nat)
    requires n <= |db.events|
    ensures var t := ProjectedThrough(db, s, n);
            t > 0 ==> AttentionAt(db.events, s, t) && t in Projected(db, s)
    ensures forall m: nat | ProjectedThrough(db, s, n) < m <= n && AttentionAt(db.events, s, m) :: m !in Projected(db, s)
  {
    if n > 0 && !(AttentionAt(db.events, s, n) && n in Projected(db, s)) { ThroughProjected(db, s, n - 1); }
  }
}
