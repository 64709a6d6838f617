/** Recovered results: a projection shows each of them once, and only for rounds that were never finished, whose
    results no saved reply carries.  A second inductive invariant, over the one of `KernelRuns`. */
module KernelRecovered {
  import opened Wrappers
  import opened Protocol
  import opened LedgerModel
  import opened LedgerFacts
  import opened Messages
  import opened Kernel
  import opened KernelInvariant
  import opened KernelTables
  import opened KernelFrames
  import opened KernelHistory
  import opened KernelMoves
  import opened KernelRounds
  import opened KernelRuns
  import opened KernelTheorems

  // ---- the invariant ----

  /** A result is recorded for an action of the table, in its session. */
  predicate ResultBelongs(db: Db, e: Event) {
    e.body.ActionResult? ==> e.body.id in db.actions && e.session == e.body.id.round.turn.session
  }

  ghost predicate ResultsBelong(db: Db) {
    forall i | 0 <= i < |db.events| :: ResultBelongs(db, db.events[i])
  }

  predicate ResultAt(events: seq<Event>, n: nat, round: RoundId) {
    InLog(events, n) && events[n - 1].body.ActionResult? && events[n - 1].body.id.round == round
  }

  ghost predicate NoneStarted(db: Db, round: RoundId) {
    forall id | id in db.actions && id.round == round :: db.actions[id].status != Started
  }

  ghost predicate ResultsSaved(db: Db, round: RoundId) {
    forall n: nat | ResultAt(db.events, n, round) :: n in Projected(db, round.turn.session)
  }

  /** In a finished round nothing is under way, and every result is covered by the saved projection. */
  ghost predicate Settled(db: Db) {
    forall round | round in db.rounds && db.rounds[round].finished :: NoneStarted(db, round) && ResultsSaved(db, round)
  }

  /** A recovered result belongs to a round of the session that is not finished. */
  predicate OfOpenRound(db: Db, s: Session, at: nat) {
    && InLog(db.events, at) && db.events[at - 1].session == s && db.events[at - 1].body.ActionResult?
    && var round := db.events[at - 1].body.id.round;
       round in db.rounds && !db.rounds[round].finished
  }

  predicate OnceOnly(messages: seq<Msg>) {
    forall i, j | 0 <= i < j < |messages| && messages[i].Recovered? && messages[j].Recovered? ::
      messages[i].at != messages[j].at
  }

  ghost predicate AllOpen(db: Db, s: Session, messages: seq<Msg>) {
    forall i | 0 <= i < |messages| && messages[i].Recovered? :: OfOpenRound(db, s, messages[i].at)
  }

  ghost predicate AllWithin(messages: seq<Msg>, known: set<nat>) {
    forall i | 0 <= i < |messages| && messages[i].Recovered? :: messages[i].at in known
  }

  ghost predicate Recounts(db: Db, s: Session, messages: seq<Msg>, known: set<nat>) {
    AllOpen(db, s, messages) && OnceOnly(messages) && AllWithin(messages, known)
  }

  ghost predicate ProjectionFits(db: Db, s: Session) {
    Recounts(db, s, Projection(db, s), Projected(db, s))
  }

  predicate OfAnotherTurn(db: Db, at: nat, turn: TurnId) {
    InLog(db.events, at) && db.events[at - 1].body.ActionResult? ==> db.events[at - 1].body.id.round.turn != turn
  }

  /** A turn's own results are in its memory, so none of them is among the recovered ones. */
  ghost predicate AllOthers(db: Db, messages: seq<Msg>, turn: TurnId) {
    forall i | 0 <= i < |messages| && messages[i].Recovered? :: OfAnotherTurn(db, messages[i].at, turn)
  }

  ghost predicate HistoryFits(db: Db, s: Session, r: Runner) {
    && Recounts(db, s, r.history.messages, Projected(db, s) + SeqSet(r.history.ids))
    && AllOthers(db, r.history.messages, r.turn)
  }

  predicate UnderWay(r: Runner, id: ActionId) {
    Working(r) && (r.phase.exec.Begun? || r.phase.exec.Performed?) && id == CurrentId(r)
  }

  ghost predicate OnlyCurrentStarted(db: Db, r: Runner) {
    forall id | id in db.actions && id.round == Current(r) && db.actions[id].status == Started :: UnderWay(r, id)
  }

  ghost predicate RoundOpen(db: Db, r: Runner) {
    InRound(r.phase) ==>
      && Current(r) in db.rounds && !db.rounds[Current(r)].finished
      && OnlyCurrentStarted(db, r)
  }

  ghost predicate RunnerFits(db: Db, s: Session, r: Runner) {
    && (r.phase.Fetching? ==> r.index == 0)
    && (!r.phase.Fetching? ==> HistoryFits(db, s, r))
    && RoundOpen(db, r)
  }

  ghost predicate Fits(sys: Sys) {
    && ResultsBelong(sys.shared.db)
    && Settled(sys.shared.db)
    && (forall s: Session :: ProjectionFits(sys.shared.db, s))
    && (forall s | s in sys.runners :: RunnerFits(sys.shared.db, s, sys.runners[s]))
  }

  // ---- what stays ----

  /** The log grows, and no round of the session but one becomes finished. */
  ghost predicate FlagsKept(a: Db, b: Db, s: Session, except: Option<RoundId>) {
    && a.events <= b.events
    && forall round | round in a.rounds && round.turn.session == s && Some(round) != except ::
         round in b.rounds && b.rounds[round].finished == a.rounds[round].finished
  }

  /** No recovered result belongs to that round. */
  ghost predicate NoneOf(db: Db, messages: seq<Msg>, except: Option<RoundId>) {
    forall i | 0 <= i < |messages| && messages[i].Recovered? && InLog(db.events, messages[i].at)
               && db.events[messages[i].at - 1].body.ActionResult? ::
      Some(db.events[messages[i].at - 1].body.id.round) != except
  }

  lemma OpenKept(a: Db, b: Db, s: Session, at: nat, except: Option<RoundId>)
    requires ResultsBelong(a) && FlagsKept(a, b, s, except) && OfOpenRound(a, s, at)
    requires Some(a.events[at - 1].body.id.round) != except
    ensures OfOpenRound(b, s, at) && b.events[at - 1] == a.events[at - 1]
  {
    assert ResultBelongs(a, a.events[at - 1]);
  }

  lemma RecountsKept(a: Db, b: Db, s: Session, messages: seq<Msg>, known: set<nat>, more: set<nat>, except: Option<RoundId>)
    requires ResultsBelong(a) && FlagsKept(a, b, s, except) && NoneOf(a, messages, except)
    requires Recounts(a, s, messages, known) && known <= more
    ensures Recounts(b, s, messages, more)
  {
    forall i | 0 <= i < |messages| && messages[i].Recovered? ensures OfOpenRound(b, s, messages[i].at) {
      OpenKept(a, b, s, messages[i].at, except);
    }
  }

  lemma OthersStay(a: Db, b: Db, s: Session, messages: seq<Msg>, turn: TurnId)
    requires a.events <= b.events && AllOpen(a, s, messages) && AllOthers(a, messages, turn)
    ensures AllOthers(b, messages, turn)
  {
    forall i | 0 <= i < |messages| && messages[i].Recovered? ensures OfAnotherTurn(b, messages[i].at, turn) {
      assert OfOpenRound(a, s, messages[i].at);
    }
  }

  /** What steps of others leave of a session. */
  ghost predicate Still(a: Db, b: Db, s: Session) {
    && FlagsKept(a, b, s, None)
    && Projection(b, s) == Projection(a, s) && Projected(b, s) == Projected(a, s)
    && (forall id: ActionId | id.round.turn.session == s && id in b.actions ::
          id in a.actions && b.actions[id] == a.actions[id])
  }

  lemma ProjectionStill(a: Db, b: Db, s: Session)
    requires ResultsBelong(a) && ProjectionFits(a, s) && FlagsKept(a, b, s, None)
    requires Projection(b, s) == Projection(a, s) && Projected(b, s) == Projected(a, s)
    ensures ProjectionFits(b, s)
  {
    RecountsKept(a, b, s, Projection(a, s), Projected(a, s), Projected(a, s), None);
  }

  lemma HistoryStill(a: Db, b: Db, s: Session, r: Runner, r2: Runner)
    requires ResultsBelong(a) && HistoryFits(a, s, r) && FlagsKept(a, b, s, None) && Projected(b, s) == Projected(a, s)
    requires r2.turn == r.turn && r2.history.messages == r.history.messages
    requires forall n | n in r.history.ids :: n in r2.history.ids
    ensures HistoryFits(b, s, r2)
  {
    RecountsKept(a, b, s, r.history.messages, Projected(a, s) + SeqSet(r.history.ids),
                 Projected(b, s) + SeqSet(r2.history.ids), None);
    OthersStay(a, b, s, r.history.messages, r.turn);
  }

  lemma RunnerStill(a: Db, b: Db, s: Session, r: Runner)
    requires ResultsBelong(a) && RunnerFits(a, s, r) && Still(a, b, s) && r.turn.session == s
    ensures RunnerFits(b, s, r)
  {
    if !r.phase.Fetching? {
      HistoryStill(a, b, s, r, r);
    }
  }

  // ---- the tables ----

  /** Nothing is recorded for an action, and no round or action changes. */
  predicate SameRows(a: Db, b: Db) {
    && a.events <= b.events && b.actions == a.actions && b.rounds == a.rounds
    && (forall i | |a.events| <= i < |b.events| :: !b.events[i].body.ActionResult?)
  }

  lemma BelongKept(a: Db, b: Db)
    requires ResultsBelong(a) && a.events <= b.events && (forall id | id in a.actions :: id in b.actions)
    requires forall i | |a.events| <= i < |b.events| :: ResultBelongs(b, b.events[i])
    ensures ResultsBelong(b)
  {
    forall i | 0 <= i < |b.events| ensures ResultBelongs(b, b.events[i]) {
      if i < |a.events| {
        assert ResultBelongs(a, a.events[i]);
      }
    }
  }

  lemma SettledKept(a: Db, b: Db)
    requires Settled(a) && SameRows(a, b) && (forall s: Session :: Projected(a, s) <= Projected(b, s))
    ensures Settled(b)
  {
    forall round | round in b.rounds && b.rounds[round].finished ensures NoneStarted(b, round) && ResultsSaved(b, round) {
      assert NoneStarted(a, round) && ResultsSaved(a, round);
      forall n: nat | ResultAt(b.events, n, round) ensures n in Projected(b, round.turn.session) {
        assert ResultAt(a.events, n, round);
      }
    }
  }

  lemma TablesKept(a: Db, b: Db)
    requires ResultsBelong(a) && Settled(a) && SameRows(a, b) && (forall s: Session :: Projected(a, s) <= Projected(b, s))
    ensures ResultsBelong(b) && Settled(b)
  {
    BelongKept(a, b);
    SettledKept(a, b);
  }

  // ---- reading the history ----

  predicate NoRecovered(messages: seq<Msg>) {
    forall i | 0 <= i < |messages| :: !messages[i].Recovered?
  }

  lemma ProjectRecovered(db: Db, n: nat)
    requires InLog(db.events, n)
    ensures if db.events[n - 1].body.ActionResult? then Project(db, n) == [Recovered(n, db.events[n - 1].body.status)]
            else NoRecovered(Project(db, n))
  {
  }

  /** An unprojected result belongs to a round that is not finished. */
  lemma UnprojectedIsOpen(db: Db, s: Session, n: nat)
    requires RowsBelong(db) && ResultsBelong(db) && Settled(db)
    requires InLog(db.events, n) && Unprojected(db, s, n) && db.events[n - 1].body.ActionResult?
    ensures OfOpenRound(db, s, n)
  {
    assert ResultBelongs(db, db.events[n - 1]);
    var round := db.events[n - 1].body.id.round;
    assert ResultAt(db.events, n, round);
    assert db.rounds[round].finished ==> ResultsSaved(db, round);
  }

  /** The recovered results among fresh messages: later than all before, unprojected, and of open rounds. */
  ghost predicate FreshRecounts(db: Db, s: Session, n: nat, messages: seq<Msg>)
    requires n <= |db.events|
  {
    && AllOpen(db, s, messages) && OnceOnly(messages)
    && (forall i | 0 <= i < |messages| && messages[i].Recovered? ::
          1 <= messages[i].at <= n && messages[i].at !in Projected(db, s))
  }

  lemma OnceMore(messages: seq<Msg>, more: seq<Msg>)
    requires OnceOnly(messages) && OnceOnly(more)
    requires forall i, j | 0 <= i < |messages| && 0 <= j < |more| && messages[i].Recovered? && more[j].Recovered? ::
               messages[i].at != more[j].at
    ensures OnceOnly(messages + more)
  {
  }

  lemma FreshStep(db: Db, s: Session, n: nat, before: seq<Msg>, more: seq<Msg>)
    requires RowsBelong(db) && ResultsBelong(db) && Settled(db) && 0 < n <= |db.events|
    requires FreshRecounts(db, s, n - 1, before)
    requires more == if Unprojected(db, s, n) then Project(db, n) else []
    ensures FreshRecounts(db, s, n, before + more)
  {
    ProjectRecovered(db, n);
    if Unprojected(db, s, n) && db.events[n - 1].body.ActionResult? {
      UnprojectedIsOpen(db, s, n);
    }
    OnceMore(before, more);
    forall i | 0 <= i < |before + more| && (before + more)[i].Recovered?
      ensures OfOpenRound(db, s, (before + more)[i].at) && 1 <= (before + more)[i].at <= n
              && (before + more)[i].at !in Projected(db, s)
    {
      if i < |before| {
        assert OfOpenRound(db, s, before[i].at);
      } else {
        assert more[i - |before|].Recovered?;
      }
    }
  }

  lemma {:induction false} FreshRecountsAll(db: Db, s: Session, n: nat)
    requires RowsBelong(db) && ResultsBelong(db) && Settled(db) && n <= |db.events|
    ensures FreshRecounts(db, s, n, FreshMessages(db, s, n))
  {
    if n > 0 {
      FreshRecountsAll(db, s, n - 1);
      FreshStep(db, s, n, FreshMessages(db, s, n - 1), if Unprojected(db, s, n) then Project(db, n) else []);
    }
  }

  lemma FetchRecounts(db: Db, s: Session)
    requires RowsBelong(db) && ResultsBelong(db) && Settled(db) && ProjectionFits(db, s)
    ensures Recounts(db, s, Fetch(db, s).messages, Projected(db, s) + SeqSet(Fetch(db, s).ids))
  {
    var n := |db.events|;
    var stored := Projection(db, s);
    var recent := FreshMessages(db, s, n);
    FreshRecountsAll(db, s, n);
    FreshIdsListed(db, s, n);
    OnceMore(stored, recent);
    forall i | 0 <= i < |stored + recent| && (stored + recent)[i].Recovered?
      ensures OfOpenRound(db, s, (stored + recent)[i].at)
              && (stored + recent)[i].at in Projected(db, s) + SeqSet(Fetch(db, s).ids)
    {
      if i < |stored| {
        assert OfOpenRound(db, s, stored[i].at);
      } else {
        assert OfOpenRound(db, s, recent[i - |stored|].at);
      }
    }
  }

  /** A turn that has not asked yet has no round, so no recovered result is its own. */
  lemma NoneOwn(db: Db, s: Session, r: Runner, messages: seq<Msg>)
    requires ResultsBelong(db) && RoundsOlder(db, s, r) && !InRound(r.phase) && r.index == 0 && AllOpen(db, s, messages)
    ensures AllOthers(db, messages, r.turn)
  {
    forall i | 0 <= i < |messages| && messages[i].Recovered? ensures OfAnotherTurn(db, messages[i].at, r.turn) {
      assert OfOpenRound(db, s, messages[i].at);
      assert ResultBelongs(db, db.events[messages[i].at - 1]);
    }
  }

  lemma FetchFits(db: Db, s: Session, r: Runner, r2: Runner)
    requires RowsBelong(db) && ResultsBelong(db) && Settled(db) && ProjectionFits(db, s)
    requires RoundsOlder(db, s, r) && r.phase.Fetching? && r.index == 0
    requires r2.turn == r.turn && r2.history == Fetch(db, s)
    ensures HistoryFits(db, s, r2)
  {
    FetchRecounts(db, s);
    NoneOwn(db, s, r, Fetch(db, s).messages);
  }

  lemma RecountsMore(db: Db, s: Session, messages: seq<Msg>, more: seq<Msg>, known: set<nat>, wider: set<nat>)
    requires Recounts(db, s, messages, known) && NoRecovered(more) && known <= wider
    ensures Recounts(db, s, messages + more, wider)
  {
    OnceMore(messages, more);
    forall i | 0 <= i < |messages + more| && (messages + more)[i].Recovered?
      ensures OfOpenRound(db, s, (messages + more)[i].at) && (messages + more)[i].at in wider
    {
      assert i < |messages|;
      assert OfOpenRound(db, s, messages[i].at);
    }
  }

  lemma OthersMore(db: Db, messages: seq<Msg>, more: seq<Msg>, turn: TurnId)
    requires AllOthers(db, messages, turn) && NoRecovered(more)
    ensures AllOthers(db, messages + more, turn)
  {
    forall i | 0 <= i < |messages + more| && (messages + more)[i].Recovered?
      ensures OfAnotherTurn(db, (messages + more)[i].at, turn)
    {
      assert i < |messages|;
      assert OfAnotherTurn(db, messages[i].at, turn);
    }
  }

  lemma RefreshFits(sh: Shared, s: Session, r: Runner)
    requires HistoryInv(sh, s, r) && Synced(sh.db, s, r) && HistoryFits(sh.db, s, r) && r.turn.session == s
    ensures HistoryFits(sh.db, s, AfterRefresh(sh, r))
  {
    var db := sh.db;
    var recent := FreshMessages(db, s, |db.events|);
    assert Fetch(db, s).messages == r.history.messages + recent;
    OnlyNewFacts(db, s, |db.events|);
    if recent != [] {
      RecountsMore(db, s, r.history.messages, recent, Projected(db, s) + SeqSet(r.history.ids),
                   Projected(db, s) + SeqSet(Fetch(db, s).ids));
      OthersMore(db, r.history.messages, recent, r.turn);
    }
  }

  // ---- saving ----

  lemma StoreTables(sh: Shared, r: Runner, finished: Option<RoundId>)
    requires finished.Some? ==> finished.value.turn == r.turn
    ensures var b := Store(sh, r, finished).db; var s := r.turn.session;
            && b.events == sh.db.events && b.actions == sh.db.actions && b.rounds.Keys == sh.db.rounds.Keys
            && (forall round | round in b.rounds && Some(round) != finished :: b.rounds[round] == sh.db.rounds[round])
            && Projection(b, s) == r.history.messages
            && Projected(b, s) == Projected(sh.db, s) + SeqSet(r.history.ids)
            && (forall t: Session | t != s :: Projected(b, t) == Projected(sh.db, t) && Projection(b, t) == Projection(sh.db, t))
  {
  }

  /** The messages of the history, and those of the round being saved, in the saved projection. */
  lemma StoredRecounts(sh: Shared, s: Session, r: Runner, r1: Runner, finished: Option<RoundId>, more: seq<Msg>)
    requires ResultsBelong(sh.db) && HistoryFits(sh.db, s, r) && r.turn.session == s && NoRecovered(more)
    requires finished.Some? ==> finished.value.turn == r.turn
    requires r1.turn == r.turn && r1.history == r.history.(messages := r.history.messages + more)
    ensures var b := Store(sh, r1, finished).db;
            ProjectionFits(b, s) && AllOthers(b, r1.history.messages, r.turn)
  {
    var b := Store(sh, r1, finished).db;
    StoreTables(sh, r1, finished);
    RecountsKept(sh.db, b, s, r.history.messages, Projected(sh.db, s) + SeqSet(r.history.ids), Projected(b, s), finished);
    RecountsMore(b, s, r.history.messages, more, Projected(b, s), Projected(b, s));
    OthersStay(sh.db, b, s, r.history.messages, r.turn);
    OthersMore(b, r.history.messages, more, r.turn);
  }

  lemma StoredHistory(sh: Shared, s: Session, r1: Runner, finished: Option<RoundId>, r2: Runner)
    requires r1.turn.session == s && (finished.Some? ==> finished.value.turn == r1.turn)
    requires ProjectionFits(Store(sh, r1, finished).db, s)
    requires AllOthers(Store(sh, r1, finished).db, r1.history.messages, r1.turn)
    requires r2.turn == r1.turn && r2.history == r1.history
    ensures HistoryFits(Store(sh, r1, finished).db, s, r2)
  {
    StoreTables(sh, r1, finished);
  }

  /** Every result of the session is covered once the turn's ids are saved. */
  lemma SavedResults(sh: Shared, s: Session, r: Runner, r1: Runner, finished: Option<RoundId>)
    requires ResultsBelong(sh.db) && OwnCovered(sh.db, s, r) && r.turn.session == s
    requires finished.Some? ==> finished.value.turn == r.turn
    requires r1.turn == r.turn && r1.history.ids == r.history.ids
    ensures ResultsSaved(Store(sh, r1, finished).db, Current(r))
  {
    var b := Store(sh, r1, finished).db;
    StoreTables(sh, r1, finished);
    forall n: nat | ResultAt(b.events, n, Current(r)) ensures n in Projected(b, s) {
      assert ResultBelongs(sh.db, sh.db.events[n - 1]);
      assert OwnAt(sh.db.events, s, n);
    }
  }

  lemma StoreSettled(sh: Shared, s: Session, r: Runner, r1: Runner, finished: Option<RoundId>)
    requires ResultsBelong(sh.db) && Settled(sh.db) && OwnCovered(sh.db, s, r) && r.turn.session == s
    requires r1.turn == r.turn && r1.history.ids == r.history.ids
    requires finished == None || (finished == Some(Current(r)) && NoneStarted(sh.db, Current(r)))
    ensures ResultsBelong(Store(sh, r1, finished).db) && Settled(Store(sh, r1, finished).db)
  {
    var b := Store(sh, r1, finished).db;
    StoreTables(sh, r1, finished);
    BelongKept(sh.db, b);
    SavedResults(sh, s, r, r1, finished);
    forall round | round in b.rounds && b.rounds[round].finished ensures NoneStarted(b, round) && ResultsSaved(b, round) {
      if Some(round) != finished {
        assert NoneStarted(sh.db, round) && ResultsSaved(sh.db, round);
        forall n: nat | ResultAt(b.events, n, round) ensures n in Projected(b, round.turn.session) {
          assert ResultAt(sh.db.events, n, round);
        }
      }
    }
  }

  lemma NothingUnderWay(db: Db, r: Runner)
    requires RoundOpen(db, r) && InRound(r.phase) && (r.phase.Acting? ==> r.phase.exec == Idle)
    ensures NoneStarted(db, Current(r))
  {
  }

  lemma RoundRecovers(r: Runner)
    requires RoundDone(r)
    ensures NoRecovered(RoundHistory(Current(r), r.phase.round, r.phase.envelope, r.phase.results))
  {
  }

  lemma CorrectionRecovers(id: RoundId, round: AssistantRound)
    ensures NoRecovered(CorrectionHistory(id, round))
  {
  }

  /** What holds of the tables and of the session after a move of its turn. */
  ghost predicate MoveFits(s: Session, next: (Shared, Option<Runner>)) {
    && ResultsBelong(next.0.db) && Settled(next.0.db) && ProjectionFits(next.0.db, s)
    && (next.1.Some? ==> RunnerFits(next.0.db, s, next.1.value))
  }

  /** What a move of the turn starts from. */
  ghost predicate Ready(sh: Shared, s: Session, r: Runner) {
    && RowsBelong(sh.db) && RunnerInv(sh, s, r)
    && ResultsBelong(sh.db) && Settled(sh.db) && ProjectionFits(sh.db, s) && RunnerFits(sh.db, s, r)
  }

  lemma StoreFits(sh: Shared, s: Session, r: Runner, r1: Runner, finished: Option<RoundId>, r2: Runner, more: seq<Msg>)
    requires Ready(sh, s, r) && !r.phase.Fetching? && NoRecovered(more)
    requires finished == None || (finished == Some(Current(r)) && NoneStarted(sh.db, Current(r)))
    requires r1.turn == r.turn && r1.history == r.history.(messages := r.history.messages + more)
    requires r2.turn == r.turn && r2.history == r1.history && !InRound(r2.phase) && !r2.phase.Fetching?
    ensures MoveFits(s, (Store(sh, r1, finished), Some(r2)))
  {
    StoredRecounts(sh, s, r, r1, finished, more);
    StoredHistory(sh, s, r1, finished, r2);
    StoreSettled(sh, s, r, r1, finished);
  }

  lemma SaveRoundFits(limits: Limits, sh: Shared, s: Session, r: Runner, cancelled: bool)
    requires Ready(sh, s, r) && RoundDone(r)
    ensures MoveFits(s, (Store(sh, WithRoundMessages(r), Some(Current(r))),
                         Some(NextPhase(limits, WithRoundMessages(r), cancelled))))
  {
    NothingUnderWay(sh.db, r);
    RoundRecovers(r);
    NextPhaseShape(limits, r, cancelled);
    StoreFits(sh, s, r, WithRoundMessages(r), Some(Current(r)), NextPhase(limits, WithRoundMessages(r), cancelled),
              RoundHistory(Current(r), r.phase.round, r.phase.envelope, r.phase.results));
  }

  lemma SaveCorrectionFits(limits: Limits, sh: Shared, s: Session, r: Runner)
    requires Ready(sh, s, r) && r.phase.Correcting?
    ensures MoveFits(s, (Store(sh, WithCorrection(r), Some(Current(r))), Some(AfterCorrection(limits, WithCorrection(r)))))
  {
    NothingUnderWay(sh.db, r);
    CorrectionRecovers(Current(r), r.phase.round);
    AfterCorrectionShape(limits, r);
    StoreFits(sh, s, r, WithCorrection(r), Some(Current(r)), AfterCorrection(limits, WithCorrection(r)),
              CorrectionHistory(Current(r), r.phase.round));
  }

  lemma StoreHistoryFits(sh: Shared, s: Session, r: Runner)
    requires Ready(sh, s, r) && r.phase.Storing?
    ensures MoveFits(s, (Store(sh, r, None), Some(r.(live := r.history.messages, phase := Routing))))
  {
    assert r.history.messages + [] == r.history.messages;
    StoreFits(sh, s, r, r, None, r.(live := r.history.messages, phase := Routing), []);
  }

  // ---- moves that record nothing for an action ----

  lemma QuietFits(sh: Shared, s: Session, r: Runner, sh2: Shared, r2: Option<Runner>)
    requires Ready(sh, s, r) && SameRows(sh.db, sh2.db)
    requires sh2.db.projections == sh.db.projections && sh2.db.projected == sh.db.projected
    requires r2.Some? ==>
               && !r.phase.Fetching? && !r2.value.phase.Fetching? && r2.value.turn == r.turn
               && r2.value.history.messages == r.history.messages
               && (forall n | n in r.history.ids :: n in r2.value.history.ids)
               && RoundOpen(sh2.db, r2.value)
    ensures MoveFits(s, (sh2, r2))
  {
    TablesKept(sh.db, sh2.db);
    ProjectionStill(sh.db, sh2.db, s);
    if r2.Some? {
      HistoryStill(sh.db, sh2.db, s, r, r2.value);
    }
  }

  lemma OpenStays(a: Db, b: Db, r: Runner, r2: Runner)
    requires RoundOpen(a, r) && r.phase.Acting? && SameRows(a, b) && Current(r2) == Current(r)
    requires !r.phase.exec.Begun? && !r.phase.exec.Performed?
    ensures RoundOpen(b, r2)
  {
  }

  lemma NotInRound(db: Db, r: Runner)
    requires !InRound(r.phase)
    ensures RoundOpen(db, r)
  {
  }

  lemma LocalFits(sh: Shared, s: Session, r: Runner, r2: Runner)
    requires Ready(sh, s, r) && !r.phase.Fetching? && !r2.phase.Fetching?
    requires r2.turn == r.turn && r2.history == r.history && RoundOpen(sh.db, r2)
    ensures MoveFits(s, (sh, Some(r2)))
  {
    QuietFits(sh, s, r, sh, Some(r2));
  }

  lemma GoneFits(sh: Shared, s: Session, r: Runner)
    requires Ready(sh, s, r)
    ensures MoveFits(s, (sh, None))
  {
    QuietFits(sh, s, r, sh, None);
  }

  lemma FetchMoveFits(sh: Shared, s: Session, r: Runner)
    requires Ready(sh, s, r) && r.phase.Fetching?
    ensures MoveFits(s, (sh, Some(r.(history := Fetch(sh.db, s), cut := |sh.db.events|, phase := Storing))))
  {
    FetchFits(sh.db, s, r, r.(history := Fetch(sh.db, s), cut := |sh.db.events|, phase := Storing));
  }

  lemma RefreshMoveFits(limits: Limits, sh: Shared, s: Session, r: Runner, cancelled: bool, oversized: bool)
    requires Ready(sh, s, r) && r.phase.Boundary?
    ensures MoveFits(s, (sh, Some(RefreshBoundary(limits, sh, r, cancelled, oversized))))
  {
    var r2 := RefreshBoundary(limits, sh, r, cancelled, oversized);
    RefreshFits(sh, s, r);
    HistoryStill(sh.db, sh.db, s, r, r.(phase := r2.phase));
    HistoryStill(sh.db, sh.db, s, AfterRefresh(sh, r), AfterRefresh(sh, r).(phase := r2.phase));
  }

  lemma ResultFits(sh: Shared, s: Session, r: Runner, status: Status)
    requires Ready(sh, s, r) && r.phase.Acting? && !r.phase.exec.Begun? && !r.phase.exec.Performed?
    ensures MoveFits(s, (sh, Some(WithResult(r, status))))
  {
    OpenStays(sh.db, sh.db, r, WithResult(r, status));
    LocalFits(sh, s, r, WithResult(r, status));
  }

  lemma InspectFits(sh: Shared, s: Session, r: Runner, revision: nat)
    requires Ready(sh, s, r) && Choosing(r)
    ensures MoveFits(s, (sh, Some(r.(phase := r.phase.(exec := Reviewing(revision))))))
  {
    var r2 := r.(phase := r.phase.(exec := Reviewing(revision)));
    OpenStays(sh.db, sh.db, r, r2);
    LocalFits(sh, s, r, r2);
  }

  lemma RefuseFits(sh: Shared, s: Session, r: Runner, e: Event, n: nat)
    requires Ready(sh, s, r) && Choosing(r) && !e.body.ActionResult?
    ensures MoveFits(s, (sh.(db := Append(sh.db, e)), Some(WithResult(WithId(r, n), Rejected))))
  {
    var r2 := WithResult(WithId(r, n), Rejected);
    OpenStays(sh.db, Append(sh.db, e), r, r2);
    QuietFits(sh, s, r, sh.(db := Append(sh.db, e)), Some(r2));
  }

  lemma JudgeFits(sh: Shared, s: Session, r: Runner, allow: bool)
    requires Ready(sh, s, r) && Enabled(r, Judge(allow))
    ensures MoveFits(s, DoJudge(sh, r, allow))
  {
    var (sh2, r2) := DoJudge(sh, r, allow);
    if r2.Some? {
      OpenStays(sh.db, sh2.db, r, r2.value);
    }
    QuietFits(sh, s, r, sh2, r2);
  }

  lemma PerformFits(sh: Shared, s: Session, r: Runner, adapter: Adapter, touched: bool)
    requires Ready(sh, s, r) && Enabled(r, Perform(adapter, touched))
    ensures MoveFits(s, DoPerform(sh, r, adapter, touched))
  {
    var (sh2, r2) := DoPerform(sh, r, adapter, touched);
    PerformedOpen(sh.db, r, r2.value.phase.exec.status);
    QuietFits(sh, s, r, sh2, r2);
  }

  lemma PerformedOpen(db: Db, r: Runner, status: Status)
    requires RoundOpen(db, r) && Working(r) && r.phase.exec.Begun?
    ensures RoundOpen(db, r.(phase := r.phase.(exec := Performed(status))))
  {
    var r2 := r.(phase := r.phase.(exec := Performed(status)));
    assert CurrentId(r2) == CurrentId(r) && Working(r2);
    forall id | id in db.actions && id.round == Current(r2) && db.actions[id].status == Started ensures UnderWay(r2, id) {
      assert UnderWay(r, id);
    }
  }

  lemma EndFits(sh: Shared, s: Session, r: Runner, e: Event)
    requires Ready(sh, s, r) && r.phase.Ending? && !e.body.ActionResult?
    ensures MoveFits(s, (sh.(db := Append(sh.db, e)), Some(r.(phase := Finished(r.phase.outcome)))))
  {
    QuietFits(sh, s, r, sh.(db := Append(sh.db, e)), Some(r.(phase := Finished(r.phase.outcome))));
  }

  lemma CursorFits(sh: Shared, s: Session, r: Runner)
    requires Ready(sh, s, r) && r.phase.Marking?
    ensures MoveFits(s, (sh.(db := Checkpoint(sh.db, s, r.phase.through)), None))
  {
    QuietFits(sh, s, r, sh.(db := Checkpoint(sh.db, s, r.phase.through)), None);
  }

  // ---- moves that change rounds and actions ----

  lemma RecordSettled(db: Db, r: Runner, round: AssistantRound)
    requires ResultsBelong(db) && Settled(db) && Current(r) !in db.rounds
    ensures var b := InsertRound(db, Current(r), r.turn.session, round).value.0; ResultsBelong(b) && Settled(b)
  {
    var b := InsertRound(db, Current(r), r.turn.session, round).value.0;
    BelongKept(db, b);
    forall old' | old' in b.rounds && b.rounds[old'].finished ensures NoneStarted(b, old') && ResultsSaved(b, old') {
      assert NoneStarted(db, old') && ResultsSaved(db, old');
      forall n: nat | ResultAt(b.events, n, old') ensures n in Projected(b, old'.turn.session) {
        assert ResultAt(db.events, n, old');
      }
    }
  }

  lemma RecordFits(sh: Shared, s: Session, r: Runner)
    requires Ready(sh, s, r) && r.phase.Recording?
    ensures MoveFits(s, DoRecord(sh, r))
  {
    if Current(r) in sh.db.rounds {
      GoneFits(sh, s, r);
    } else {
      var b := InsertRound(sh.db, Current(r), r.turn.session, r.phase.round).value.0;
      var r2 := Recorded(r, |sh.db.events| + 1);
      RecordSettled(sh.db, r, r.phase.round);
      ProjectionStill(sh.db, b, s);
      HistoryStill(sh.db, b, s, r, r2);
    }
  }

  lemma BegunSettled(db: Db, r: Runner, id: ActionId, row: ActionRow)
    requires ResultsBelong(db) && Settled(db) && id !in db.actions && id.round == Current(r)
    requires Current(r) in db.rounds && !db.rounds[Current(r)].finished
    ensures var b := db.(actions := db.actions[id := row]); ResultsBelong(b) && Settled(b)
  {
    var b := db.(actions := db.actions[id := row]);
    BelongKept(db, b);
    forall round | round in b.rounds && b.rounds[round].finished ensures NoneStarted(b, round) && ResultsSaved(b, round) {
      assert NoneStarted(db, round) && ResultsSaved(db, round);
      forall n: nat | ResultAt(b.events, n, round) ensures n in Projected(b, round.turn.session) {
        assert ResultAt(db.events, n, round);
      }
    }
  }

  lemma BegunOpen(db: Db, r: Runner, row: ActionRow)
    requires RoundOpen(db, r) && Working(r) && r.phase.exec.Approved?
    ensures RoundOpen(db.(actions := db.actions[CurrentId(r) := row]), r.(phase := r.phase.(exec := Begun)))
  {
    var b := db.(actions := db.actions[CurrentId(r) := row]);
    var r2 := r.(phase := r.phase.(exec := Begun));
    assert Working(r2) && CurrentId(r2) == CurrentId(r);
    forall id | id in b.actions && id.round == Current(r2) && b.actions[id].status == Started ensures UnderWay(r2, id) {
      assert id in db.actions && db.actions[id].status == Started ==> UnderWay(r, id);
    }
  }

  lemma BeginFits(sh: Shared, s: Session, r: Runner)
    requires Ready(sh, s, r) && Enabled(r, BeginAction)
    ensures MoveFits(s, DoBegin(sh, r))
  {
    var id := CurrentId(r);
    var begun := Begin(sh.db, id, r.turn.session, r.turn, CurrentAction(r).value, r.phase.exec.revision);
    if begun.Err? {
      ResultFits(sh, s, r, Rejected);
    } else {
      var row := ActionRow(r.turn.session, r.turn, CurrentAction(r).value, r.phase.exec.revision, Started);
      BegunSettled(sh.db, r, id, row);
      BegunOpen(sh.db, r, row);
      ProjectionStill(sh.db, begun.value, s);
      HistoryStill(sh.db, begun.value, s, r, r.(phase := r.phase.(exec := Begun)));
    }
  }

  /** Closing a started action whose round is open. */
  lemma CloseSettled(db: Db, id: ActionId, status: Status)
    requires RowsBelong(db) && ResultsBelong(db) && Settled(db)
    requires id in db.actions && db.actions[id].status == Started && status != Started
    ensures ResultsBelong(Close(db, id, status)) && Settled(Close(db, id, status))
  {
    var b := Close(db, id, status);
    BelongKept(db, b);
    forall round | round in b.rounds && b.rounds[round].finished ensures NoneStarted(b, round) && ResultsSaved(b, round) {
      assert NoneStarted(db, round) && ResultsSaved(db, round);
      assert round != id.round;
      forall n: nat | ResultAt(b.events, n, round) ensures n in Projected(b, round.turn.session) {
        assert ResultAt(db.events, n, round);
      }
    }
  }

  lemma FinishedOpen(db: Db, r: Runner, r2: Runner, status: Status)
    requires RoundOpen(db, r) && Working(r) && CurrentId(r) in db.actions && status != Started
    requires Current(r2) == Current(r) && CurrentId(r).round == Current(r)
    ensures RoundOpen(Close(db, CurrentId(r), status), r2)
  {
    var b := Close(db, CurrentId(r), status);
    forall id | id in b.actions && id.round == Current(r2) ensures b.actions[id].status != Started {
      assert db.actions[id].status == Started ==> UnderWay(r, id);
    }
  }

  lemma FinishReady(sh: Shared, s: Session, r: Runner)
    requires RunnerInv(sh, s, r) && Enabled(r, FinishAction)
    ensures CurrentId(r) in sh.db.actions && sh.db.actions[CurrentId(r)].status == Started
    ensures r.phase.exec.status != Started && CurrentId(r).round == Current(r)
    ensures DoFinish(sh, r) == (sh.(db := Close(sh.db, CurrentId(r), r.phase.exec.status)),
                                Some(WithResult(WithId(r, |sh.db.events| + 1), r.phase.exec.status)))
  {
  }

  lemma FinishFits(sh: Shared, s: Session, r: Runner)
    requires Ready(sh, s, r) && Enabled(r, FinishAction)
    ensures MoveFits(s, DoFinish(sh, r))
  {
    FinishReady(sh, s, r);
    ClosedFits(sh, s, r, r.phase.exec.status);
  }

  lemma ClosedFits(sh: Shared, s: Session, r: Runner, status: Status)
    requires Ready(sh, s, r) && Working(r) && status != Started && CurrentId(r).round == Current(r)
    requires CurrentId(r) in sh.db.actions && sh.db.actions[CurrentId(r)].status == Started
    ensures MoveFits(s, (sh.(db := Close(sh.db, CurrentId(r), status)), Some(WithResult(WithId(r, |sh.db.events| + 1), status))))
  {
    var b := Close(sh.db, CurrentId(r), status);
    var r2 := WithResult(WithId(r, |sh.db.events| + 1), status);
    CloseSettled(sh.db, CurrentId(r), status);
    FinishedOpen(sh.db, r, r2, status);
    ProjectionStill(sh.db, b, s);
    HistoryStill(sh.db, b, s, r, r2);
  }

  // ---- any move of a turn ----

  lemma SavingFits(limits: Limits, sh: Shared, s: Session, r: Runner, m: Move)
    requires Ready(sh, s, r) && Enabled(r, m) && !OfRead(m) && !OfWork(m)
    ensures MoveFits(s, Do(limits, sh, r, m))
  {
    match m
    case StoreHistory => StoreHistoryFits(sh, s, r);
    case RecordRound => RecordFits(sh, s, r);
    case RefuseAction => RefuseFits(sh, s, r, AuditEvent(r, Audit("action_rejected")), |sh.db.events| + 1);
    case SaveRound(cancelled) => SaveRoundFits(limits, sh, s, r, cancelled);
    case SaveCorrection => SaveCorrectionFits(limits, sh, s, r);
    case EndTurn => EndFits(sh, s, r, AuditEvent(r, TurnEnd));
    case MoveCursor => CursorFits(sh, s, r);
    case Leave => GoneFits(sh, s, r);
    case Abort => GoneFits(sh, s, r);
  }

  lemma ReadingFits(limits: Limits, sh: Shared, s: Session, r: Runner, m: Move)
    requires Ready(sh, s, r) && Enabled(r, m) && OfRead(m)
    ensures MoveFits(s, Do(limits, sh, r, m))
  {
    match m
    case FetchHistory => FetchMoveFits(sh, s, r);
    case Refresh(cancelled, oversized) => RefreshMoveFits(limits, sh, s, r, cancelled, oversized);
    case ChooseRoute(route) => LocalFits(sh, s, r, Routed(r, route));
    case Ask(reply) => LocalFits(sh, s, r, Answered(r, reply));
    case Inspect(_) => InspectFits(sh, s, r, Revision(sh.db.events));
    case ReadThrough =>
      LocalFits(sh, s, r, r.(phase := Marking(ProjectedThrough(sh.db, r.turn.session, |sh.db.events|))));
    case SkipAction => ResultFits(sh, s, r, Cancelled);
    case RefuseArguments => ResultFits(sh, s, r, Rejected);
    case Abandon => ResultFits(sh, s, r, Cancelled);
  }

  lemma OwnMoveFits(limits: Limits, sh: Shared, s: Session, r: Runner, m: Move)
    requires Ready(sh, s, r) && Enabled(r, m)
    ensures MoveFits(s, Do(limits, sh, r, m))
  {
    if OfRead(m) {
      ReadingFits(limits, sh, s, r, m);
    } else if OfWork(m) {
      match m
      case Judge(allow) => JudgeFits(sh, s, r, allow);
      case BeginAction => BeginFits(sh, s, r);
      case Perform(adapter, touched) => PerformFits(sh, s, r, adapter, touched);
      case FinishAction => FinishFits(sh, s, r);
    } else {
      SavingFits(limits, sh, s, r, m);
    }
  }

  // ---- what a move leaves of other sessions ----

  /** Rounds of other turns keep their flags. */
  ghost predicate OtherFlags(a: Db, b: Db, turn: TurnId) {
    forall round | round in a.rounds && round.turn != turn :: round in b.rounds && b.rounds[round].finished == a.rounds[round].finished
  }

  lemma StoreFlags(sh: Shared, r: Runner, finished: Option<RoundId>)
    requires finished.Some? ==> finished.value.turn == r.turn
    ensures OtherFlags(sh.db, Store(sh, r, finished).db, r.turn)
  {
  }

  lemma JudgeFlags(sh: Shared, r: Runner, allow: bool)
    requires Enabled(r, Judge(allow))
    ensures DoJudge(sh, r, allow).0.db.rounds == sh.db.rounds
  {
  }

  lemma BeginFlags(sh: Shared, r: Runner)
    requires Enabled(r, BeginAction)
    ensures DoBegin(sh, r).0.db.rounds == sh.db.rounds
  {
  }

  lemma FinishFlags(sh: Shared, r: Runner)
    requires Enabled(r, FinishAction)
    ensures DoFinish(sh, r).0.db.rounds == sh.db.rounds
  {
  }

  lemma MoveFlags(limits: Limits, sh: Shared, r: Runner, m: Move)
    requires Enabled(r, m)
    ensures OtherFlags(sh.db, Do(limits, sh, r, m).0.db, r.turn)
  {
    match m
    case StoreHistory => StoreFlags(sh, r, None);
    case SaveRound(_) => StoreFlags(sh, WithRoundMessages(r), Some(Current(r)));
    case SaveCorrection => StoreFlags(sh, WithCorrection(r), Some(Current(r)));
    case Judge(allow) => JudgeFlags(sh, r, allow);
    case BeginAction => BeginFlags(sh, r);
    case FinishAction => FinishFlags(sh, r);
    case _ =>
  }

  lemma StillFromRely(a: Shared, b: Shared, t: Session, turn: TurnId)
    requires Rely(a, b, t) && OtherFlags(a.db, b.db, turn) && turn.session != t
    ensures Still(a.db, b.db, t)
  {
  }

  lemma MoveStill(limits: Limits, sh: Shared, s: Session, r: Runner, m: Move)
    requires SharedInv(sh) && SessionInv(sh, s) && RunnerInv(sh, s, r) && Enabled(r, m)
    ensures forall t: Session | t != s :: Still(sh.db, Do(limits, sh, r, m).0.db, t)
  {
    MoveKeeps(limits, sh, s, r, m);
    MoveFlags(limits, sh, r, m);
    forall t: Session | t != s ensures Still(sh.db, Do(limits, sh, r, m).0.db, t) {
      StillFromRely(sh, Do(limits, sh, r, m).0, t, r.turn);
    }
  }

  lemma RunnerStepFits(limits: Limits, sys: Sys, s: Session, m: Move)
    requires Inv(sys) && Fits(sys) && Possible(sys, RunnerStep(s, m))
    ensures Fits(Apply(limits, sys, RunnerStep(s, m)))
  {
    var r := sys.runners[s];
    assert RunnerInv(sys.shared, s, r) && SessionInv(sys.shared, s);
    OwnMoveFits(limits, sys.shared, s, r, m);
    MoveStill(limits, sys.shared, s, r, m);
    SetFits(sys, s, Do(limits, sys.shared, r, m));
  }

  lemma SetFits(sys: Sys, s: Session, next: (Shared, Option<Runner>))
    requires Inv(sys) && Fits(sys) && MoveFits(s, next)
    requires forall t: Session | t != s :: Still(sys.shared.db, next.0.db, t)
    ensures Fits(SetRunner(sys, s, next.0, next.1))
  {
    OthersFit(sys, SetRunner(sys, s, next.0, next.1), s);
  }

  lemma OthersFit(sys: Sys, next: Sys, s: Session)
    requires Inv(sys) && Fits(sys)
    requires forall t: Session | t != s :: Still(sys.shared.db, next.shared.db, t)
    requires forall t | t in next.runners && t != s :: t in sys.runners && next.runners[t] == sys.runners[t]
    requires ResultsBelong(next.shared.db) && Settled(next.shared.db) && ProjectionFits(next.shared.db, s)
    requires s in next.runners ==> RunnerFits(next.shared.db, s, next.runners[s])
    ensures Fits(next)
  {
    forall t: Session ensures ProjectionFits(next.shared.db, t) {
      if t != s {
        assert Still(sys.shared.db, next.shared.db, t);
        ProjectionStill(sys.shared.db, next.shared.db, t);
      }
    }
    forall t | t in next.runners ensures RunnerFits(next.shared.db, t, next.runners[t]) {
      if t != s {
        assert RunnerInv(sys.shared, t, sys.runners[t]);
        assert Still(sys.shared.db, next.shared.db, t);
        RunnerStill(sys.shared.db, next.shared.db, t, sys.runners[t]);
      }
    }
  }

  // ---- steps from outside, and crashes ----

  /** A step that only appends events no runner owns. */
  lemma OutsideFits(sys: Sys, next: Sys)
    requires Inv(sys) && Fits(sys) && next.runners == sys.runners && SameRows(sys.shared.db, next.shared.db)
    requires next.shared.db.projections == sys.shared.db.projections && next.shared.db.projected == sys.shared.db.projected
    ensures Fits(next)
  {
    TablesKept(sys.shared.db, next.shared.db);
    forall t: Session ensures Still(sys.shared.db, next.shared.db, t) {
    }
    forall t: Session ensures ProjectionFits(next.shared.db, t) {
      ProjectionStill(sys.shared.db, next.shared.db, t);
    }
    forall t | t in next.runners ensures RunnerFits(next.shared.db, t, next.runners[t]) {
      assert RunnerInv(sys.shared, t, sys.runners[t]);
      RunnerStill(sys.shared.db, next.shared.db, t, sys.runners[t]);
    }
  }

  lemma StartFits(limits: Limits, sys: Sys, s: Session, input: Option<string>)
    requires Inv(sys) && Fits(sys) && s !in sys.runners
    ensures Fits(Apply(limits, sys, StartTurn(s, input)))
  {
    var turn := TurnId(s, sys.serial);
    var started := sys.(runners := sys.runners[s := NewRunner(turn)], serial := sys.serial + 1);
    NewRunnerInv(sys.shared, s, sys.serial);
    assert Inv(started) && Fits(started);
    if input.Some? {
      OutsideFits(started, Apply(limits, sys, StartTurn(s, input)));
    }
  }

  ghost predicate TablesFit(db: Db) {
    ResultsBelong(db) && Settled(db) && forall s: Session :: ProjectionFits(db, s)
  }

  lemma CloseFits(db: Db, id: ActionId)
    requires RowsBelong(db) && TablesFit(db) && id in db.actions && db.actions[id].status == Started
    ensures TablesFit(Close(db, id, Unknown))
  {
    CloseSettled(db, id, Unknown);
    forall s: Session ensures ProjectionFits(Close(db, id, Unknown), s) {
      ProjectionStill(db, Close(db, id, Unknown), s);
    }
  }

  lemma CloseNextFits(sh: Shared, order: seq<ActionId>)
    requires SharedInv(sh) && order != []
    requires forall id | id in order :: id in sh.db.actions && sh.db.actions[id].status == Started
    requires TablesFit(CloseAllBut(sh.db, order))
    requires forall i, j | 0 <= i < j < |order| :: order[i] != order[j]
    ensures TablesFit(CloseAll(sh.db, order))
  {
    var n := |order| - 1;
    CloseAllKeepsShared(sh, order[..n]);
    CloseAllRows(sh.db, order[..n]);
    assert order[n] !in order[..n] && order[n] in order;
    CloseFits(CloseAllBut(sh.db, order), order[n]);
  }

  function CloseAllBut(db: Db, order: seq<ActionId>): Db
    requires order != [] && forall id | id in order :: id in db.actions
  {
    assert forall id | id in order[..|order| - 1] :: id in order;
    CloseAll(db, order[..|order| - 1])
  }

  lemma {:induction false} CloseAllFits(sh: Shared, order: seq<ActionId>)
    requires SharedInv(sh) && TablesFit(sh.db)
    requires forall id | id in order :: id in sh.db.actions && sh.db.actions[id].status == Started
    requires forall i, j | 0 <= i < j < |order| :: order[i] != order[j]
    ensures TablesFit(CloseAll(sh.db, order))
    decreases |order|
  {
    if order != [] {
      CloseAllFits(sh, order[..|order| - 1]);
      CloseNextFits(sh, order);
    }
  }

  lemma EndsFit(db: Db, ends: seq<Event>)
    requires TablesFit(db) && OnlyTurnEnds(ends)
    ensures TablesFit(db.(events := db.events + ends))
  {
    var b := db.(events := db.events + ends);
    TablesKept(db, b);
    forall s: Session ensures ProjectionFits(b, s) {
      ProjectionStill(db, b, s);
    }
  }

  lemma CrashFits(limits: Limits, sys: Sys, order: seq<ActionId>)
    requires Inv(sys) && Fits(sys) && Possible(sys, Crash(order))
    ensures Fits(Apply(limits, sys, Crash(order)))
  {
    var closed := CloseAll(sys.shared.db, order);
    CloseAllFits(sys.shared, order);
    EndsAreTurnEnds(closed, |closed.events|);
    EndsFit(closed, InterruptedEnds(closed, |closed.events|));
  }

  lemma StepFits(limits: Limits, sys: Sys, step: Step)
    requires Inv(sys) && Fits(sys) && Possible(sys, step)
    ensures Fits(Apply(limits, sys, step))
  {
    match step
    case Deliver(key, payload, transport) =>
      DeliverResult(limits, sys, key, payload, transport);
      OutsideFits(sys, Apply(limits, sys, step));
    case Observe(_, _, _) => OutsideFits(sys, Apply(limits, sys, step));
    case Host(_) => OutsideFits(sys, Apply(limits, sys, step));
    case StartTurn(session, input) => StartFits(limits, sys, session, input);
    case RunnerStep(session, move) => RunnerStepFits(limits, sys, session, move);
    case Crash(order) => CrashFits(limits, sys, order);
  }

  lemma {:induction false} RunFits(limits: Limits, steps: seq<Step>)
    requires Run(limits, steps).Some?
    ensures Fits(Run(limits, steps).value)
    decreases |steps|
  {
    if steps != [] {
      RunFits(limits, steps[..|steps| - 1]);
      RunInv(limits, steps[..|steps| - 1]);
      StepFits(limits, Run(limits, steps[..|steps| - 1]).value, steps[|steps| - 1]);
    }
  }

  // ---- theorems ----

  /** Over every stored projection: a recovered result is shown once at most, with its logged status, and its
      action belongs to a round of the session that was never finished, whose own replies were never saved. */
  lemma RecoveredOnce(limits: Limits, steps: seq<Step>, sys: Sys, s: Session)
    requires Reached(limits, steps, sys)
    ensures OnceOnly(Projection(sys.shared.db, s))
    ensures AllOpen(sys.shared.db, s, Projection(sys.shared.db, s))
    ensures forall m | m in Projection(sys.shared.db, s) :: TellsLogged(sys.shared.db.events, s, m)
  {
    RunFits(limits, steps);
    RunInv(limits, steps);
    assert SessionInv(sys.shared, s) && ProjectionFits(sys.shared.db, s);
    forall m | m in Projection(sys.shared.db, s) ensures TellsLogged(sys.shared.db.events, s, m) {
      assert Honest(sys.shared.db, s, m);
    }
  }

  /** In a finished round every action is closed, and the projection saved with it covers all their results. */
  lemma FinishedIsSettled(limits: Limits, steps: seq<Step>, sys: Sys, round: RoundId)
    requires Reached(limits, steps, sys) && round in sys.shared.db.rounds && sys.shared.db.rounds[round].finished
    ensures NoneStarted(sys.shared.db, round) && ResultsSaved(sys.shared.db, round)
  {
    RunFits(limits, steps);
  }
}
