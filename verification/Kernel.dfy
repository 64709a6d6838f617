/** The orchestration kernel as a labelled transition system.  One runner at most serves a session;
    runners of different sessions, deliveries, host events and crashes interleave freely.  A step
    runs from one await point to the next and contains at most one ledger transaction.  Audit events
    (`review_started`, `context_snapshot`, ...) are read by no rule below, so they are `Host` steps. */
module Kernel {
  import opened Wrappers
  import opened Protocol
  import opened LedgerModel

  datatype Outcome =
    | RoundLimit | Silent | TurnCancelled | ContextLimit | ProviderError
    | ProtocolError | UnknownReceipt | ReviewRejected | Completed

  predicate Good(outcome: Outcome) { outcome == Completed || outcome == Silent }

  /** Where the executor stands with the action it is working on. */
  datatype Exec = Idle | Reviewing(revision: nat) | Approved(revision: nat) | Begun | Performed(status: Status)

  datatype Phase =
    | Fetching
    | Storing
    | Routing
    | Boundary
    | Asking
    | Recording(round: AssistantRound)
    | Acting(round: AssistantRound, envelope: Envelope, results: seq<Status>, exec: Exec)
    | Correcting(round: AssistantRound)
    | Ending(outcome: Outcome)
    | Finished(outcome: Outcome)
    | Marking(through: nat)

  /** A turn in progress.  `cut` is auxiliary: the log length when `history` was last read. */
  datatype Runner = Runner(
    turn: TurnId, index: nat, corrections: nat, template: Option<Envelope>,
    history: History, live: seq<Msg>, cut: nat, phase: Phase)

  datatype Effect = Effect(id: ActionId, action: Action)

  /** The ledger and three auxiliary records: external effects in the order they happened, the log
      length at each begin, and the log length covered by each stored projection. */
  datatype Shared = Shared(db: Db, effects: seq<Effect>, began: map<ActionId, nat>, saved: map<Session, nat>)

  datatype Limits = Limits(rounds: nat, corrections: nat)

  datatype Sys = Sys(shared: Shared, runners: map<Session, Runner>, serial: nat)

  // ---- the actions of a round ----

  function Current(r: Runner): RoundId { RoundId(r.turn, r.index) }

  function ActionCount(round: AssistantRound, envelope: Envelope): nat {
    |envelope.messages| + |round.calls|
  }

  function IdAt(id: RoundId, round: AssistantRound, envelope: Envelope, k: nat): ActionId
    requires k < ActionCount(round, envelope)
  {
    if k < |envelope.messages| then SendId(id, k)
    else ToolId(id, round.calls[k - |envelope.messages|].id)
  }

  /** None when a tool call's arguments are not JSON. */
  function ActionAt(round: AssistantRound, envelope: Envelope, k: nat): Option<Action>
    requires k < ActionCount(round, envelope)
  {
    if k < |envelope.messages| then Some(Send(envelope.messages[k]))
    else
      var call := round.calls[k - |envelope.messages|];
      if call.arguments.Json? then Some(Tool(call.name, call.arguments.value)) else None
  }

  datatype Adapter = Accepted | EffectUnknown | NotStarted | Failure

  function Classify(action: Action, adapter: Adapter): Status {
    match adapter
    case Accepted => Succeeded
    case EffectUnknown => Unknown
    case NotStarted => Rejected
    case Failure => if action.Send? then Unknown else Failed
  }

  // ---- messages a finished round leaves behind ----

  function Replies(calls: seq<ToolCall>, statuses: seq<Status>): (replies: seq<Msg>)
    requires |calls| == |statuses|
    ensures |replies| == |calls|
    ensures forall i | 0 <= i < |calls| :: replies[i] == ToolReply(calls[i].id, statuses[i])
  {
    seq(|calls|, i requires 0 <= i < |calls| => ToolReply(calls[i].id, statuses[i]))
  }

  /** The proposed messages whose send succeeded, in the order they were proposed. */
  function SentMessages(messages: seq<OutgoingMessage>, results: seq<Status>): seq<OutgoingMessage>
    requires |messages| <= |results|
  {
    if messages == [] then []
    else
      var n := |messages| - 1;
      SentMessages(messages[..n], results) + if results[n] == Succeeded then [messages[n]] else []
  }

  function SendFeedback(envelope: Envelope): seq<Msg> {
    if envelope.messages != [] then [Observation("send_results")] else []
  }

  function RoundHistory(id: RoundId, round: AssistantRound, envelope: Envelope, results: seq<Status>): seq<Msg>
    requires |results| == ActionCount(round, envelope)
  {
    var sent := SentMessages(envelope.messages, results);
    (if round.calls != [] then [Assistant(id, NoContent, round.calls, None)]
     else if sent != [] then [Assistant(id, Serialized(Envelope("", sent)), [], None)]
     else [])
    + Replies(round.calls, results[|envelope.messages|..])
    + SendFeedback(envelope)
  }

  function RoundLive(id: RoundId, round: AssistantRound, envelope: Envelope, results: seq<Status>): seq<Msg>
    requires |results| == ActionCount(round, envelope)
  {
    [Assistant(id, Verbatim(round.content), round.calls, round.reasoning)]
    + Replies(round.calls, results[|envelope.messages|..])
    + SendFeedback(envelope)
  }

  function AllRejected(calls: seq<ToolCall>): (statuses: seq<Status>)
    ensures |statuses| == |calls|
  {
    seq(|calls|, i => Rejected)
  }

  function CorrectionHistory(id: RoundId, round: AssistantRound): seq<Msg> {
    (if round.calls != []
     then [Assistant(id, NoContent, round.calls, None)] + Replies(round.calls, AllRejected(round.calls))
     else [])
    + [Observation("content_error")]
  }

  function CorrectionLive(id: RoundId, round: AssistantRound): seq<Msg> {
    [Assistant(id, Verbatim(round.content), round.calls, round.reasoning)]
    + Replies(round.calls, AllRejected(round.calls))
    + [Observation("content_error")]
  }

  // ---- moves of one runner ----

  datatype Route = Generate | UseTemplate(envelope: Envelope) | StaySilent(cancelled: bool)

  datatype Reply = Answer(round: AssistantRound) | ProviderFailed | AskCancelled | ContextOverflow

  datatype Move =
    | FetchHistory
    | StoreHistory
    | ChooseRoute(route: Route)
    | Refresh(cancelled: bool, oversized: bool)
    | Ask(reply: Reply)
    | RecordRound
    | SkipAction
    | RefuseArguments
    | RefuseAction
    | Inspect(directory: Directory)
    | Abandon
    | Judge(allow: bool)
    | BeginAction
    | Perform(adapter: Adapter, touched: bool)
    | FinishAction
    | SaveRound(cancelled: bool)
    | SaveCorrection
    | EndTurn
    | ReadThrough
    | MoveCursor
    | Leave
    | Abort

  predicate Working(r: Runner) {
    r.phase.Acting? && |r.phase.results| < ActionCount(r.phase.round, r.phase.envelope)
  }

  function CurrentId(r: Runner): ActionId
    requires Working(r)
  {
    IdAt(Current(r), r.phase.round, r.phase.envelope, |r.phase.results|)
  }

  function CurrentAction(r: Runner): Option<Action>
    requires Working(r)
  {
    ActionAt(r.phase.round, r.phase.envelope, |r.phase.results|)
  }

  predicate Choosing(r: Runner) {
    Working(r) && r.phase.exec == Idle
  }

  /** An action may be offered for review only if nothing before it in the round is unknown. */
  predicate MayExecute(r: Runner) {
    Choosing(r) && Unknown !in r.phase.results && CurrentAction(r).Some?
  }

  predicate MayInspect(r: Runner, directory: Directory) {
    MayExecute(r) && (CurrentAction(r).value.Send? ==> MessageProblem(CurrentAction(r).value.message, directory).None?)
  }

  predicate RoundDone(r: Runner) {
    r.phase.Acting? && r.phase.exec == Idle && |r.phase.results| == ActionCount(r.phase.round, r.phase.envelope)
  }

  predicate Enabled(r: Runner, m: Move) {
    match m
    case FetchHistory => r.phase.Fetching?
    case StoreHistory => r.phase.Storing?
    case ChooseRoute(_) => r.phase.Routing?
    case Refresh(_, _) => r.phase.Boundary?
    case Ask(reply) => r.phase.Asking? && (r.template.Some? && r.index == 0 ==> reply == Answer(TemplateRound(r.template.value)))
    case RecordRound => r.phase.Recording?
    case SkipAction => Choosing(r) && Unknown in r.phase.results
    case RefuseArguments => Choosing(r) && Unknown !in r.phase.results && CurrentAction(r).None?
    case RefuseAction => MayExecute(r)
    case Inspect(directory) => MayInspect(r, directory)
    case Abandon => Working(r) && (r.phase.exec.Reviewing? || r.phase.exec.Approved?)
    case Judge(_) => Working(r) && r.phase.exec.Reviewing? && CurrentAction(r).Some?
    case BeginAction => Working(r) && r.phase.exec.Approved? && CurrentAction(r).Some?
    case Perform(adapter, touched) =>
      Working(r) && r.phase.exec.Begun? && CurrentAction(r).Some?
      && (adapter.NotStarted? ==> !touched) && (adapter.Accepted? ==> touched)
    case FinishAction => Working(r) && r.phase.exec.Performed?
    case SaveRound(_) => RoundDone(r)
    case SaveCorrection => r.phase.Correcting?
    case EndTurn => r.phase.Ending?
    case ReadThrough => r.phase.Finished? && Good(r.phase.outcome)
    case MoveCursor => r.phase.Marking?
    case Leave => r.phase.Finished?
    case Abort => true
  }

  function TemplateRound(envelope: Envelope): AssistantRound {
    AssistantRound(Proposal(envelope, 0), [], None)
  }

  function Saved(sh: Shared, s: Session): nat {
    if s in sh.saved then sh.saved[s] else 0
  }

  function WithResult(r: Runner, status: Status): Runner
    requires r.phase.Acting?
  {
    r.(phase := r.phase.(results := r.phase.results + [status], exec := Idle))
  }

  function WithId(r: Runner, n: nat): Runner {
    r.(history := r.history.(ids := r.history.ids + [n]))
  }

  function AfterRefresh(sh: Shared, r: Runner): Runner {
    var fetched := Fetch(sh.db, r.turn.session);
    var known := |r.history.messages|;
    if |fetched.messages| > known
    then r.(live := r.live + fetched.messages[known..], history := fetched, cut := |sh.db.events|)
    else r.(cut := |sh.db.events|)
  }

  function RefreshBoundary(limits: Limits, sh: Shared, r: Runner, cancelled: bool, oversized: bool): Runner {
    if r.index >= limits.rounds then r.(phase := Ending(RoundLimit))
    else if cancelled then r.(phase := Ending(TurnCancelled))
    else AfterRefresh(sh, r).(phase := if oversized then Ending(ContextLimit) else Asking)
  }

  function Answered(r: Runner, reply: Reply): Runner {
    match reply
    case Answer(round) => r.(phase := Recording(round))
    case ProviderFailed => r.(phase := Ending(ProviderError))
    case AskCancelled => r.(phase := Ending(TurnCancelled))
    case ContextOverflow => r.(phase := Ending(ContextLimit))
  }

  function Routed(r: Runner, route: Route): Runner {
    match route
    case Generate => r.(phase := Boundary)
    case UseTemplate(envelope) => r.(template := Some(envelope), phase := Boundary)
    case StaySilent(cancelled) => r.(phase := Ending(if cancelled then TurnCancelled else Silent))
  }

  /** How the loop continues once a round has been saved. */
  function NextPhase(limits: Limits, r: Runner, cancelled: bool): Runner
    requires RoundDone(r)
  {
    var refused := Rejected in r.phase.results[..|r.phase.envelope.messages|];
    var next := r.(index := r.index + 1, phase := Boundary);
    if cancelled then next.(phase := Ending(TurnCancelled))
    else if Unknown in r.phase.results then next.(phase := Ending(UnknownReceipt))
    else if r.phase.round.calls != [] then next
    else if !refused then next.(phase := Ending(Completed))
    else if r.corrections + 1 > limits.corrections
    then next.(corrections := r.corrections + 1, phase := Ending(ReviewRejected))
    else next.(corrections := r.corrections + 1)
  }

  function AfterCorrection(limits: Limits, r: Runner): Runner {
    r.(index := r.index + 1, corrections := r.corrections + 1,
    phase := if r.corrections + 1 > limits.corrections then Ending(ProtocolError) else Boundary)
  }

  function Store(sh: Shared, r: Runner, finished: Option<RoundId>): Shared {
    sh.(db := SaveHistory(sh.db, r.turn.session, r.history, finished),
    saved := sh.saved[r.turn.session := r.cut])
  }

  function WithRoundMessages(r: Runner): Runner
    requires RoundDone(r)
  {
    var p := r.phase;
    r.(history := r.history.(messages := r.history.messages + RoundHistory(Current(r), p.round, p.envelope, p.results)),
    live := r.live + RoundLive(Current(r), p.round, p.envelope, p.results))
  }

  function WithCorrection(r: Runner): Runner
    requires r.phase.Correcting?
  {
    r.(history := r.history.(messages := r.history.messages + CorrectionHistory(Current(r), r.phase.round)),
    live := r.live + CorrectionLive(Current(r), r.phase.round))
  }

  function Recorded(r: Runner, n: nat): Runner
    requires r.phase.Recording?
  {
    var round := r.phase.round;
    match ParseEnvelope(round)
    case Err(_) => WithId(r, n).(phase := Correcting(round))
    case Ok(envelope) => WithId(r, n).(phase := Acting(round, envelope, [], Idle))
  }

  function AuditEvent(r: Runner, body: Body): Event {
    Event(r.turn.session, OfTurn(r.turn), body)
  }

  /** One move; a runner that ends, or whose transaction fails, is gone afterwards. */
  function Do(limits: Limits, sh: Shared, r: Runner, m: Move): (Shared, Option<Runner>)
    requires Enabled(r, m)
  {
    match m
    case FetchHistory =>
      (sh, Some(r.(history := Fetch(sh.db, r.turn.session), cut := |sh.db.events|, phase := Storing)))
    case StoreHistory => (Store(sh, r, None), Some(r.(live := r.history.messages, phase := Routing)))
    case ChooseRoute(route) => (sh, Some(Routed(r, route)))
    case Refresh(cancelled, oversized) => (sh, Some(RefreshBoundary(limits, sh, r, cancelled, oversized)))
    case Ask(reply) => (sh, Some(Answered(r, reply)))
    case RecordRound => DoRecord(sh, r)
    case SkipAction => (sh, Some(WithResult(r, Cancelled)))
    case RefuseArguments => (sh, Some(WithResult(r, Rejected)))
    case RefuseAction =>
      (sh.(db := Append(sh.db, AuditEvent(r, Audit("action_rejected")))),
       Some(WithResult(WithId(r, |sh.db.events| + 1), Rejected)))
    case Inspect(_) => (sh, Some(r.(phase := r.phase.(exec := Reviewing(Revision(sh.db.events))))))
    case Abandon => (sh, Some(WithResult(r, Cancelled)))
    case Judge(allow) => DoJudge(sh, r, allow)
    case BeginAction => DoBegin(sh, r)
    case Perform(adapter, touched) => DoPerform(sh, r, adapter, touched)
    case FinishAction => DoFinish(sh, r)
    case SaveRound(cancelled) =>
      (Store(sh, WithRoundMessages(r), Some(Current(r))), Some(NextPhase(limits, WithRoundMessages(r), cancelled)))
    case SaveCorrection =>
      (Store(sh, WithCorrection(r), Some(Current(r))), Some(AfterCorrection(limits, WithCorrection(r))))
    case EndTurn =>
      (sh.(db := Append(sh.db, AuditEvent(r, TurnEnd))), Some(r.(phase := Finished(r.phase.outcome))))
    case ReadThrough =>
      (sh, Some(r.(phase := Marking(ProjectedThrough(sh.db, r.turn.session, |sh.db.events|)))))
    case MoveCursor => (sh.(db := Checkpoint(sh.db, r.turn.session, r.phase.through)), None)
    case Leave => (sh, None)
    case Abort => (sh, None)
  }

  function DoRecord(sh: Shared, r: Runner): (Shared, Option<Runner>)
    requires r.phase.Recording?
  {
    match InsertRound(sh.db, Current(r), r.turn.session, r.phase.round)
    case Err(_) => (sh, None)
    case Ok((db, n)) => (sh.(db := db), Some(Recorded(r, n)))
  }

  function DoJudge(sh: Shared, r: Runner, allow: bool): (Shared, Option<Runner>)
    requires Enabled(r, Judge(allow))
  {
    var revision := r.phase.exec.revision;
    match RecordReview(sh.db, CurrentId(r), Review(revision, Fingerprint(CurrentAction(r).value), allow))
    case Err(_) => (sh, None)
    case Ok(db) =>
      (sh.(db := db),
       Some(if allow then r.(phase := r.phase.(exec := Approved(revision))) else WithResult(r, Rejected)))
  }

  function DoBegin(sh: Shared, r: Runner): (Shared, Option<Runner>)
    requires Enabled(r, BeginAction)
  {
    var revision := r.phase.exec.revision;
    match Begin(sh.db, CurrentId(r), r.turn.session, r.turn, CurrentAction(r).value, revision)
    case Err(_) => (sh, Some(WithResult(r, Rejected)))
    case Ok(db) =>
      (sh.(db := db, began := sh.began[CurrentId(r) := |sh.db.events|]), Some(r.(phase := r.phase.(exec := Begun))))
  }

  function DoPerform(sh: Shared, r: Runner, adapter: Adapter, touched: bool): (Shared, Option<Runner>)
    requires Enabled(r, Perform(adapter, touched))
  {
    var action := CurrentAction(r).value;
    (if touched then sh.(effects := sh.effects + [Effect(CurrentId(r), action)]) else sh,
     Some(r.(phase := r.phase.(exec := Performed(Classify(action, adapter))))))
  }

  function DoFinish(sh: Shared, r: Runner): (Shared, Option<Runner>)
    requires Enabled(r, FinishAction)
  {
    match Finish(sh.db, CurrentId(r), r.phase.exec.status)
    case Err(_) => (sh, None)
    case Ok((db, n)) => (sh.(db := db), Some(WithResult(WithId(r, n), r.phase.exec.status)))
  }

  // ---- steps of the whole system ----

  datatype Step =
    | Deliver(key: DeliveryKey, payload: string, transport: string)
    | Observe(session: Session, origin: Origin, payload: string)
    | Host(event: Event)
    | StartTurn(session: Session, input: Option<string>)
    | RunnerStep(session: Session, move: Move)
    | Crash(order: seq<ActionId>)

  predicate HostBody(body: Body) {
    body.MediaRegistered? || body.ProfileChanged? || body.CapabilitiesChanged? || body.Audit?
  }

  predicate WellFormedDeliveries(db: Db) {
    forall key | key in db.deliveries ::
      InLog(db.events, db.deliveries[key]) && db.events[db.deliveries[key] - 1].body.Inbound?
  }

  predicate Possible(sys: Sys, step: Step) {
    match step
    case Deliver(_, _, _) => WellFormedDeliveries(sys.shared.db)
    case Observe(_, origin, _) => !origin.OfTurn?
    case Host(event) => HostBody(event.body)
    case StartTurn(session, _) => session !in sys.runners
    case RunnerStep(session, move) =>
      session in sys.runners && sys.runners[session].turn.session == session && Enabled(sys.runners[session], move)
    case Crash(order) => Enumerates(order, StartedIds(sys.shared.db))
  }

  function WithDb(sys: Sys, db: Db): Sys {
    sys.(shared := sys.shared.(db := db))
  }

  function NewRunner(turn: TurnId): Runner {
    Runner(turn, 0, 0, None, History([], [], 0), [], 0, Fetching)
  }

  function SetRunner(sys: Sys, s: Session, shared: Shared, runner: Option<Runner>): Sys {
    match runner
    case Some(r) => sys.(shared := shared, runners := sys.runners[s := r])
    case None => sys.(shared := shared, runners := sys.runners - {s})
  }

  function Apply(limits: Limits, sys: Sys, step: Step): Sys
    requires Possible(sys, step)
  {
    var db := sys.shared.db;
    match step
    case Deliver(key, payload, transport) =>
      (match Ingest(db, key, payload, transport)
       case Ok((next, _)) => WithDb(sys, next)
       case Err(_) => sys)
    case Observe(session, origin, payload) => WithDb(sys, Append(db, Event(session, origin, MediaObservation(payload))))
    case Host(event) => WithDb(sys, Append(db, event))
    case StartTurn(session, input) =>
      var turn := TurnId(session, sys.serial);
      var started := sys.(runners := sys.runners[session := NewRunner(turn)], serial := sys.serial + 1);
      if input.Some? then WithDb(started, Append(db, Event(session, OfTurn(turn), Inbound(input.value, "")))) else started
    case RunnerStep(session, move) =>
      var (shared, runner) := Do(limits, sys.shared, sys.runners[session], move);
      SetRunner(sys, session, shared, runner)
    case Crash(order) =>
      sys.(shared := sys.shared.(db := Recover(db, order)), runners := map[])
  }

  const INITIAL := Sys(Shared(EMPTY_DB, [], map[], map[]), map[], 0)

  /** The state after a list of steps, when each was possible where it was taken. */
  function Run(limits: Limits, steps: seq<Step>): Option<Sys> {
    if steps == [] then Some(INITIAL)
    else
      var before := Run(limits, steps[..|steps| - 1]);
      var step := steps[|steps| - 1];
      if before.Some? && Possible(before.value, step) then Some(Apply(limits, before.value, step)) else None
  }
}
