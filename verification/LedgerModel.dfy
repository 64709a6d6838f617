/** The ledger as a value: an append-only event log, the tables beside it, and each of the
    ledger's transactions as a function from one ledger to the next.  An event's sequence
    number is its position in the log counted from one, so zero means "no event". */
module LedgerModel {
  import opened Wrappers
  import opened Protocol

  type Session = string

  /** A turn id is a fresh UUID; here the session it serves and a serial that is never reused. */
  datatype TurnId = TurnId(session: Session, serial: nat)

  datatype RoundId = RoundId(turn: TurnId, index: nat)

  datatype ActionId = SendId(round: RoundId, index: nat) | ToolId(round: RoundId, call: string)

  datatype Status = Started | Succeeded | Failed | Rejected | Unknown | Cancelled

  /** The `turn_id` column: the turn itself, an external delivery, or a host-chosen tag. */
  datatype Origin = OfTurn(turn: TurnId) | OfDelivery(source: string, external: string) | OfHost(tag: string)

  datatype Body =
    | Inbound(payload: string, transport: string)
    | MediaObservation(payload: string)
    | ActionResult(id: ActionId, status: Status)
    | ModelRound(round: RoundId)
    | MediaRegistered
    | ProfileChanged
    | CapabilitiesChanged
    | TurnEnd
    | Audit(kind: string)

  datatype Event = Event(session: Session, origin: Origin, body: Body)

  datatype Review = Review(revision: nat, fingerprint: Fingerprint, allow: bool)

  datatype ActionRow = ActionRow(session: Session, turn: TurnId, action: Action, revision: nat, status: Status)

  datatype RoundRow = RoundRow(session: Session, turn: TurnId, assistant: AssistantRound, finished: bool)

  datatype DeliveryKey = DeliveryKey(session: Session, source: string, external: string)

  /** Content of an assistant message: null, the model's own text, or a re-serialized envelope. */
  datatype Shown = NoContent | Verbatim(content: Content) | Serialized(envelope: Envelope)

  /** Provider messages, tagged with where they came from. */
  datatype Msg =
    | Fact(at: nat, payload: string)
    | Recovered(at: nat, status: Status)
    | Assistant(round: RoundId, content: Shown, calls: seq<ToolCall>, reasoning: Option<string>)
    | ToolReply(call: string, status: Status)
    | Observation(note: string)

  datatype Db = Db(
    events: seq<Event>,
    reviews: map<ActionId, Review>,
    actions: map<ActionId, ActionRow>,
    rounds: map<RoundId, RoundRow>,
    projections: map<Session, seq<Msg>>,
    projected: map<Session, set<nat>>,
    deliveries: map<DeliveryKey, nat>,
    cursors: map<Session, nat>)

  datatype History = History(messages: seq<Msg>, ids: seq<nat>, through: nat)

  const EMPTY_DB := Db([], map[], map[], map[], map[], map[], map[], map[])

  // ---- reading the log ----

  predicate IsAttention(e: Event) { e.body.Inbound? || e.body.MediaObservation? }

  /** Events that invalidate a review made before them. */
  predicate IsFact(e: Event) {
    || IsAttention(e) || e.body.ActionResult? || e.body.MediaRegistered?
    || e.body.ProfileChanged? || e.body.CapabilitiesChanged?
  }

  /** Rows that only a session's own runner (or recovery) adds. */
  predicate IsOwn(e: Event) { e.body.ActionResult? || e.body.ModelRound? }

  predicate InLog(events: seq<Event>, n: nat) { 1 <= n <= |events| }

  predicate AttentionAt(events: seq<Event>, s: Session, n: nat) {
    InLog(events, n) && events[n - 1].session == s && IsAttention(events[n - 1])
  }

  predicate FactAt(events: seq<Event>, n: nat) {
    InLog(events, n) && IsFact(events[n - 1])
  }

  predicate OwnAt(events: seq<Event>, s: Session, n: nat) {
    InLog(events, n) && events[n - 1].session == s && IsOwn(events[n - 1])
  }

  /** Sequence numbers of a session's inbound and observation events, oldest first. */
  function Attention(events: seq<Event>, s: Session): seq<nat> {
    if events == [] then []
    else
      var n := |events|;
      Attention(events[..n - 1], s) + if AttentionAt(events, s, n) then [n] else []
  }

  /** Highest fact in the log; a review is valid only at the revision it was made for. */
  function Revision(events: seq<Event>): nat {
    if events == [] then 0
    else if IsFact(events[|events| - 1]) then |events|
    else Revision(events[..|events| - 1])
  }

  /** Results recorded for one action, oldest first. */
  function ResultsOf(events: seq<Event>, id: ActionId): seq<Status> {
    if events == [] then []
    else
      var e := events[|events| - 1];
      ResultsOf(events[..|events| - 1], id)
      + if e.body.ActionResult? && e.body.id == id then [e.body.status] else []
  }

  /** Sequence numbers of the inbound events recorded for one external delivery. */
  function DeliveredAs(events: seq<Event>, key: DeliveryKey): seq<nat> {
    if events == [] then []
    else
      var n := |events|;
      DeliveredAs(events[..n - 1], key) + if IsDelivery(events[n - 1], key) then [n] else []
  }

  predicate IsDelivery(e: Event, key: DeliveryKey) {
    e.body.Inbound? && e.session == key.session && e.origin == OfDelivery(key.source, key.external)
  }

  // ---- projection ----

  function Projection(db: Db, s: Session): seq<Msg> {
    if s in db.projections then db.projections[s] else []
  }

  function Projected(db: Db, s: Session): set<nat> {
    if s in db.projected then db.projected[s] else {}
  }

  function Cursor(db: Db, s: Session): nat {
    if s in db.cursors then db.cursors[s] else 0
  }

  function RecoveredStatus(db: Db, id: ActionId): Status {
    if id in db.actions then db.actions[id].status else Cancelled
  }

  function RecoveredReplies(db: Db, r: RoundId, calls: seq<ToolCall>): (replies: seq<Msg>)
    ensures |replies| == |calls|
    ensures forall i | 0 <= i < |calls| ::
      replies[i] == ToolReply(calls[i].id, RecoveredStatus(db, ToolId(r, calls[i].id)))
  {
    if calls == [] then []
    else
      RecoveredReplies(db, r, calls[..|calls| - 1])
      + [ToolReply(calls[|calls| - 1].id, RecoveredStatus(db, ToolId(r, calls[|calls| - 1].id)))]
  }

  /** Messages that an event contributes when it has not been projected yet. */
  function Project(db: Db, n: nat): seq<Msg>
    requires InLog(db.events, n)
  {
    match db.events[n - 1].body
    case Inbound(payload, _) => [Fact(n, payload)]
    case MediaObservation(payload) => [Fact(n, payload)]
    case ActionResult(_, status) => [Recovered(n, status)]
    case ModelRound(r) =>
      if r in db.rounds && !db.rounds[r].finished && db.rounds[r].assistant.calls != []
      then
        [Assistant(r, NoContent, db.rounds[r].assistant.calls, None)]
        + RecoveredReplies(db, r, db.rounds[r].assistant.calls)
      else []
    case _ => []
  }

  predicate Unprojected(db: Db, s: Session, n: nat)
    requires InLog(db.events, n)
  {
    db.events[n - 1].session == s && n !in Projected(db, s)
  }

  /** Messages for the unprojected events among the first `n`. */
  function FreshMessages(db: Db, s: Session, n: nat): seq<Msg>
    requires n <= |db.events|
  {
    if n == 0 then []
    else FreshMessages(db, s, n - 1) + if Unprojected(db, s, n) then Project(db, n) else []
  }

  function FreshIds(db: Db, s: Session, n: nat): seq<nat>
    requires n <= |db.events|
  {
    if n == 0 then []
    else FreshIds(db, s, n - 1) + if Unprojected(db, s, n) then [n] else []
  }

  function Highest(s: set<nat>, bound: nat): nat {
    if bound == 0 || bound in s then bound else Highest(s, bound - 1)
  }

  function ThroughSeq(db: Db, s: Session, n: nat): nat
    requires n <= |db.events|
  {
    if n == 0 then Highest(Projected(db, s), |db.events|)
    else
      var before := ThroughSeq(db, s, n - 1);
      if Unprojected(db, s, n) && before < n then n else before
  }

  function Fetch(db: Db, s: Session): History {
    var n := |db.events|;
    History(Projection(db, s) + FreshMessages(db, s, n), FreshIds(db, s, n), ThroughSeq(db, s, n))
  }

  function SeqSet(ids: seq<nat>): set<nat> {
    set n | n in ids
  }

  function SaveHistory(db: Db, s: Session, h: History, finished: Option<RoundId>): Db {
    var saved := db.(
      projections := db.projections[s := h.messages],
      projected := db.projected[s := Projected(db, s) + SeqSet(h.ids)]);
    if finished.Some? && finished.value in db.rounds
    then saved.(rounds := db.rounds[finished.value := db.rounds[finished.value].(finished := true)])
    else saved
  }

  /** Highest projected inbound or observation event. */
  function ProjectedThrough(db: Db, s: Session, n: nat): nat
    requires n <= |db.events|
  {
    if n == 0 then 0
    else if AttentionAt(db.events, s, n) && n in Projected(db, s) then n
    else ProjectedThrough(db, s, n - 1)
  }

  function Checkpoint(db: Db, s: Session, through: nat): Db {
    db.(cursors := db.cursors[s := if Cursor(db, s) < through then through else Cursor(db, s)])
  }

  /** Attention events after the cursor. */
  function Pending(db: Db, s: Session): seq<nat> {
    Later(Attention(db.events, s), Cursor(db, s))
  }

  function Later(ns: seq<nat>, after: nat): seq<nat> {
    if ns == [] then []
    else Later(ns[..|ns| - 1], after) + if ns[|ns| - 1] > after then [ns[|ns| - 1]] else []
  }

  // ---- transactions ----

  datatype LedgerError =
    | DeliveryReused | StaleRevision | MissingReview | NotAuthorized | DuplicateKey | NoSuchAction | AlreadyCommitted

  function Append(db: Db, e: Event): Db {
    db.(events := db.events + [e])
  }

  datatype Receipt = Receipt(at: nat, created: bool)

  function Ingest(db: Db, key: DeliveryKey, payload: string, transport: string): Result<(Db, Receipt), LedgerError>
    requires key in db.deliveries ==> InLog(db.events, db.deliveries[key]) && db.events[db.deliveries[key] - 1].body.Inbound?
  {
    if key in db.deliveries then
      var n := db.deliveries[key];
      if db.events[n - 1].body.transport != transport then Err(DeliveryReused)
      else Ok((db, Receipt(n, false)))
    else
      var n := |db.events| + 1;
      var event := Event(key.session, OfDelivery(key.source, key.external), Inbound(payload, transport));
      Ok((Append(db, event).(deliveries := db.deliveries[key := n]), Receipt(n, true)))
  }

  function RecordReview(db: Db, id: ActionId, review: Review): Result<Db, LedgerError> {
    if id in db.reviews then Err(DuplicateKey) else Ok(db.(reviews := db.reviews[id := review]))
  }

  function Begin(db: Db, id: ActionId, s: Session, turn: TurnId, action: Action, revision: nat): Result<Db, LedgerError> {
    if Revision(db.events) != revision then Err(StaleRevision)
    else if id !in db.reviews then Err(MissingReview)
    else if db.reviews[id] != Review(revision, Fingerprint(action), true) then Err(NotAuthorized)
    else if id in db.actions then Err(DuplicateKey)
    else Ok(db.(actions := db.actions[id := ActionRow(s, turn, action, revision, Started)]))
  }

  /** Close a started action: its row and its result event change together. */
  function Close(db: Db, id: ActionId, status: Status): Db
    requires id in db.actions
  {
    var row := db.actions[id];
    Append(db, Event(row.session, OfTurn(row.turn), ActionResult(id, status)))
      .(actions := db.actions[id := row.(status := status)])
  }

  function Finish(db: Db, id: ActionId, status: Status): Result<(Db, nat), LedgerError> {
    if id !in db.actions then Err(NoSuchAction)
    else if db.actions[id].status != Started then Err(AlreadyCommitted)
    else Ok((Close(db, id, status), |db.events| + 1))
  }

  function InsertRound(db: Db, r: RoundId, s: Session, round: AssistantRound): Result<(Db, nat), LedgerError> {
    if r in db.rounds then Err(DuplicateKey)
    else
      var row := RoundRow(s, r.turn, WithoutReasoning(round), false);
      Ok((Append(db, Event(s, OfTurn(r.turn), ModelRound(r))).(rounds := db.rounds[r := row]), |db.events| + 1))
  }

  // ---- recovery when the ledger is opened ----

  function StartedIds(db: Db): set<ActionId> {
    set id | id in db.actions && db.actions[id].status == Started
  }

  function CloseAll(db: Db, order: seq<ActionId>): Db
    requires forall id | id in order :: id in db.actions
    decreases |order|
  {
    if order == [] then db
    else
      var rest := CloseAll(db, order[..|order| - 1]);
      if order[|order| - 1] in rest.actions then Close(rest, order[|order| - 1], Unknown) else rest
  }

  /** A terminal inbound event whose turn never ended. */
  predicate Interrupted(db: Db, n: nat)
    requires InLog(db.events, n)
  {
    && db.events[n - 1].body.Inbound?
    && n !in db.deliveries.Values
    && forall m | 0 <= m < |db.events| ::
         db.events[m].body.TurnEnd? ==> db.events[m].origin != db.events[n - 1].origin
  }

  function InterruptedEnds(db: Db, n: nat): seq<Event>
    requires n <= |db.events|
  {
    if n == 0 then []
    else
      InterruptedEnds(db, n - 1)
      + if Interrupted(db, n) then [Event(db.events[n - 1].session, db.events[n - 1].origin, TurnEnd)] else []
  }

  /** The rows still `started` are visited in `order`; SQL leaves that order open. */
  predicate Enumerates(order: seq<ActionId>, ids: set<ActionId>) {
    && (forall id | id in order :: id in ids)
    && (forall id | id in ids :: id in order)
    && (forall i, j | 0 <= i < j < |order| :: order[i] != order[j])
  }

  function Recover(db: Db, order: seq<ActionId>): Db
    requires forall id | id in order :: id in db.actions
  {
    var closed := CloseAll(db, order);
    closed.(events := closed.events + InterruptedEnds(closed, |closed.events|))
  }
}
