/** The inductive invariant of the kernel: what holds of the tables, of each session's stored
    projection, and of a running turn's in-memory history, whatever has happened so far. */
module KernelInvariant {
  import opened Wrappers
  import opened Protocol
  import opened LedgerModel
  import opened Messages
  import opened Kernel

  // ---- tables shared by all sessions ----

  predicate RoundEventBelongs(e: Event) {
    e.body.ModelRound? ==> e.session == e.body.round.turn.session
  }

  ghost predicate RowsBelong(db: Db) {
    && (forall id | id in db.actions ::
          && db.actions[id].session == id.round.turn.session
          && db.actions[id].turn == id.round.turn
          && id.round in db.rounds)
    && (forall r | r in db.rounds :: db.rounds[r].session == r.turn.session && db.rounds[r].turn == r.turn)
    && (forall i | 0 <= i < |db.events| :: RoundEventBelongs(db.events[i]))
  }

  /** Results the log must hold for an action: none while started, one when closed. */
  function ExpectedResults(db: Db, id: ActionId): seq<Status> {
    if id in db.actions && db.actions[id].status != Started then [db.actions[id].status] else []
  }

  ghost predicate ResultsMatch(db: Db) {
    forall id :: ResultsOf(db.events, id) == ExpectedResults(db, id)
  }

  ghost predicate Authorised(sh: Shared, id: ActionId)
    requires id in sh.db.actions
  {
    var row := sh.db.actions[id];
    && id in sh.db.reviews
    && sh.db.reviews[id] == Review(row.revision, Fingerprint(row.action), true)
    && Explicit(row.action)
    && id in sh.began
    && sh.began[id] <= |sh.db.events|
    && Revision(sh.db.events[..sh.began[id]]) == row.revision
  }

  ghost predicate AllAuthorised(sh: Shared) {
    forall id | id in sh.db.actions :: Authorised(sh, id)
  }

  ghost predicate HasEffect(sh: Shared, id: ActionId) {
    exists i :: 0 <= i < |sh.effects| && sh.effects[i].id == id
  }

  ghost predicate EffectsBacked(sh: Shared) {
    && (forall i | 0 <= i < |sh.effects| ::
          && sh.effects[i].id in sh.db.actions
          && sh.db.actions[sh.effects[i].id].action == sh.effects[i].action)
    && (forall i, j | 0 <= i < j < |sh.effects| :: sh.effects[i].id != sh.effects[j].id)
  }

  /** A receipt is only recorded for something that happened. */
  ghost predicate SuccessTouched(sh: Shared) {
    forall id | id in sh.db.actions && sh.db.actions[id].status == Succeeded :: HasEffect(sh, id)
  }

  function ExpectedDelivery(db: Db, key: DeliveryKey): seq<nat> {
    if key in db.deliveries then [db.deliveries[key]] else []
  }

  ghost predicate DeliveriesMatch(db: Db) {
    forall key :: DeliveredAs(db.events, key) == ExpectedDelivery(db, key)
  }

  ghost predicate SendMatches(db: Db, id: ActionId)
    requires id in db.actions
  {
    id.SendId? ==>
      && id.round in db.rounds
      && var parsed := ParseEnvelope(db.rounds[id.round].assistant);
         parsed.Ok? && id.index < |parsed.value.messages| && db.actions[id].action == Send(parsed.value.messages[id.index])
  }

  ghost predicate SendsMatch(db: Db) {
    forall id | id in db.actions :: SendMatches(db, id)
  }

  ghost predicate SharedInv(sh: Shared) {
    && RowsBelong(sh.db)
    && ResultsMatch(sh.db)
    && AllAuthorised(sh)
    && EffectsBacked(sh)
    && SuccessTouched(sh)
    && DeliveriesMatch(sh.db)
    && SendsMatch(sh.db)
  }

  ghost predicate SerialsUsed(db: Db, serial: nat) {
    forall r | r in db.rounds :: r.turn.serial < serial
  }

  // ---- stored projections ----

  predicate SendSucceeded(db: Db, id: ActionId) {
    id in db.actions && db.actions[id].status == Succeeded
  }

  /** Of the messages a round proposed, those with a succeeded send action, in order. */
  function DeliveredMessages(db: Db, r: RoundId, messages: seq<OutgoingMessage>): seq<OutgoingMessage> {
    if messages == [] then []
    else
      var n := |messages| - 1;
      DeliveredMessages(db, r, messages[..n]) + if SendSucceeded(db, SendId(r, n)) then [messages[n]] else []
  }

  predicate Says(body: Body, payload: string) {
    (body.Inbound? || body.MediaObservation?) && body.payload == payload
  }

  /** A message that tells of an event says what was logged there, for this session. */
  predicate TellsLogged(events: seq<Event>, s: Session, m: Msg) {
    match m
    case Fact(at, payload) => InLog(events, at) && events[at - 1].session == s && Says(events[at - 1].body, payload)
    case Recovered(at, status) =>
      && InLog(events, at) && events[at - 1].session == s
      && events[at - 1].body.ActionResult? && events[at - 1].body.status == status
    case _ => true
  }

  /** A message fit to keep: what it tells of the log is so, and an assistant's holds no reasoning, and either no
      content or exactly what was sent. */
  ghost predicate Honest(db: Db, s: Session, m: Msg) {
    && TellsLogged(db.events, s, m)
    && (m.Assistant? ==>
          && m.round.turn.session == s
          && m.round in db.rounds
          && m.reasoning == None
          && (m.content == NoContent || HonestContent(db, m)))
  }

  ghost predicate HonestContent(db: Db, m: Msg)
    requires m.Assistant? && m.round in db.rounds
  {
    var parsed := ParseEnvelope(db.rounds[m.round].assistant);
    m.calls == [] && parsed.Ok?
    && m.content == Serialized(Envelope("", DeliveredMessages(db, m.round, parsed.value.messages)))
  }

  ghost predicate AllHonest(db: Db, s: Session, messages: seq<Msg>) {
    forall i | 0 <= i < |messages| :: Honest(db, s, messages[i])
  }

  ghost predicate CoveredUpTo(db: Db, s: Session, cut: nat) {
    forall m: nat | AttentionAt(db.events, s, m) :: m in Projected(db, s) <==> m <= cut
  }

  ghost predicate ProjectedInLog(db: Db, s: Session) {
    forall m | m in Projected(db, s) :: InLog(db.events, m)
  }

  ghost predicate SessionInv(sh: Shared, s: Session) {
    var cut := Saved(sh, s);
    && cut <= |sh.db.events|
    && ProjectedInLog(sh.db, s)
    && CoveredUpTo(sh.db, s, cut)
    && Facts(Projection(sh.db, s)) == Attention(sh.db.events[..cut], s)
    && Paired(Projection(sh.db, s))
    && AllHonest(sh.db, s, Projection(sh.db, s))
    && Cursor(sh.db, s) <= cut
  }

  // ---- running turns ----

  predicate Older(a: RoundId, r: Runner) {
    a.turn.serial < r.turn.serial || (a.turn == r.turn && a.index < r.index)
  }

  ghost predicate OnlyOlder(messages: seq<Msg>, r: Runner) {
    forall i | 0 <= i < |messages| :: messages[i].Assistant? ==> Older(messages[i].round, r)
  }

  ghost predicate IdsInLog(db: Db, ids: seq<nat>) {
    forall n | n in ids :: InLog(db.events, n)
  }

  /** Attention events are covered, by the stored projection or by this turn, exactly up to the cut. */
  ghost predicate HistoryCovers(db: Db, s: Session, r: Runner) {
    forall m: nat | AttentionAt(db.events, s, m) :: (m in Projected(db, s) || m in r.history.ids) <==> m <= r.cut
  }

  ghost predicate OwnCovered(db: Db, s: Session, r: Runner) {
    forall m: nat | OwnAt(db.events, s, m) :: m in Projected(db, s) || m in r.history.ids
  }

  ghost predicate HistoryInv(sh: Shared, s: Session, r: Runner) {
    && Saved(sh, s) <= r.cut <= |sh.db.events|
    && IdsInLog(sh.db, r.history.ids)
    && HistoryCovers(sh.db, s, r)
    && OwnCovered(sh.db, s, r)
    && Facts(r.history.messages) == Attention(sh.db.events[..r.cut], s)
    && Paired(r.history.messages)
    && AllHonest(sh.db, s, r.history.messages)
    && OnlyOlder(r.history.messages, r)
    && Projection(sh.db, s) <= r.history.messages
  }

  ghost predicate LiveInv(r: Runner) {
    Paired(r.live) && Facts(r.live) == Facts(r.history.messages)
  }

  predicate InRound(phase: Phase) {
    phase.Acting? || phase.Correcting?
  }

  ghost predicate RoundsOlder(db: Db, s: Session, r: Runner) {
    forall a | a in db.rounds && a.turn.session == s :: Older(a, r) || (InRound(r.phase) && a == Current(r))
  }

  /** Nothing in memory that is not stored. */
  ghost predicate Synced(db: Db, s: Session, r: Runner) {
    r.history.messages == Projection(db, s) && forall n | n in r.history.ids :: n in Projected(db, s)
  }

  ghost predicate RoundKept(db: Db, r: Runner, round: AssistantRound) {
    Current(r) in db.rounds && db.rounds[Current(r)].assistant == WithoutReasoning(round)
  }

  ghost predicate SendsTracked(db: Db, r: Runner)
    requires r.phase.Acting?
  {
    forall i: nat | i < |r.phase.envelope.messages| ::
      SendSucceeded(db, SendId(Current(r), i)) <==> i < |r.phase.results| && r.phase.results[i] == Succeeded
  }

  ghost predicate ExecInv(sh: Shared, r: Runner)
    requires r.phase.Acting?
  {
    r.phase.exec != Idle ==>
      && Working(r)
      && CurrentAction(r).Some?
      && Explicit(CurrentAction(r).value)
      && Unknown !in r.phase.results
      && match r.phase.exec
         case Approved(revision) =>
           && CurrentId(r) in sh.db.reviews
           && sh.db.reviews[CurrentId(r)] == Review(revision, Fingerprint(CurrentAction(r).value), true)
         case Begun =>
           && CurrentId(r) in sh.db.actions
           && sh.db.actions[CurrentId(r)].action == CurrentAction(r).value
           && sh.db.actions[CurrentId(r)].status == Started
           && !HasEffect(sh, CurrentId(r))
         case Performed(status) =>
           && CurrentId(r) in sh.db.actions
           && sh.db.actions[CurrentId(r)].status == Started
           && status != Started
           && (status == Succeeded ==> HasEffect(sh, CurrentId(r)))
         case _ => true
  }

  ghost predicate ActingInv(sh: Shared, r: Runner)
    requires r.phase.Acting?
  {
    && RoundKept(sh.db, r, r.phase.round)
    && ParseEnvelope(r.phase.round) == Ok(r.phase.envelope)
    && |r.phase.results| <= ActionCount(r.phase.round, r.phase.envelope)
    && SendsTracked(sh.db, r)
    && ExecInv(sh, r)
  }

  /** A turn in which no further action can begin. */
  predicate Halted(phase: Phase) {
    || (phase.Acting? && phase.exec == Idle && Unknown in phase.results)
    || (phase.Ending? && !Good(phase.outcome))
    || (phase.Finished? && !Good(phase.outcome))
  }

  ghost predicate UnknownHalts(db: Db, r: Runner) {
    forall id | id in db.actions && id.round.turn == r.turn && db.actions[id].status == Unknown :: Halted(r.phase)
  }

  ghost predicate PhaseInv(sh: Shared, s: Session, r: Runner) {
    match r.phase
    case Fetching => true
    case Storing => true
    case Routing => Synced(sh.db, s, r) && LiveInv(r)
    case Boundary => Synced(sh.db, s, r) && LiveInv(r)
    case Acting(_, _, _, _) => LiveInv(r) && ActingInv(sh, r)
    case Correcting(round) => LiveInv(r) && RoundKept(sh.db, r, round)
    case Marking(through) => LiveInv(r) && through <= Saved(sh, s)
    case _ => LiveInv(r)
  }

  ghost predicate RunnerInv(sh: Shared, s: Session, r: Runner) {
    && r.turn.session == s
    && (!r.phase.Fetching? ==> HistoryInv(sh, s, r))
    && RoundsOlder(sh.db, s, r)
    && UnknownHalts(sh.db, r)
    && PhaseInv(sh, s, r)
  }

  ghost predicate Inv(sys: Sys) {
    && SharedInv(sys.shared)
    && SerialsUsed(sys.shared.db, sys.serial)
    && (forall s: Session :: SessionInv(sys.shared, s))
    && (forall s | s in sys.runners :: RunnerInv(sys.shared, s, sys.runners[s]) && sys.runners[s].turn.serial < sys.serial)
  }
}
