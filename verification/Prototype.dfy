/** One conversation of the prototype scheduler: chat controller, wait-notice timer, sender and worker
    share its state under two locks.  A section under the conversation lock is one step, everything may
    interleave between awaits, and a chat task may be cancelled or fail at any of them. */
module Prototype {
  import opened Wrappers

  datatype Kind = Reply | Waiting | ErrorNotice

  datatype Outcome = Succeeded | Failed | Unknown

  datatype Key = Key(turn: nat, kind: Kind, index: nat)

  /** Store events in the order they are appended, and (auxiliary) turn creation, each model call with the
      notice flag its context carried, the moment a reply or silence is decided, a turn that ends well, and
      process restarts.  `Worked` is a recorded start of a worker's tool or the recording of its report;
      `Reported` is a job whose result a turn's reply has delivered. */
  datatype Mark =
    | InboundAt(input: nat)
    | TurnCreated(turn: nat)
    | Asked(turn: nat, sawWait: bool)
    | Decided(turn: nat, sawWait: bool, messages: nat)
    | SendStarted(key: Key)
    | SendResult(key: Key, outcome: Outcome)
    | GoodEnd(turn: nat)
    | Reported(turn: nat, job: nat)
    | Worked
    | Restarted(open: bool)

  datatype Timer = NoTimer | Armed | Fired | Stopped

  datatype Chat =
    | Context
    | Asking(sawWait: bool)
    | Publishing(sawWait: bool, messages: nat)
    | Sending(messages: nat, next: nat)
    | Awaiting(messages: nat, next: nat)
    | Published
    | Reporting
    | Cleaning
    | Gone

  /** `late` tells that the deadline has passed, `report` the finished job the turn is about; `decision` is
      auxiliary: what was decided, once `valid`. */
  datatype Turn = Turn(
    superseded: bool, finished: bool, expired: bool, late: bool, silent: bool, outputStarted: bool,
    waitClaimed: bool, waitSent: bool, waitDone: bool, valid: bool, sentCount: nat, sendFailed: bool,
    timer: Timer, chat: Chat, report: Option<nat>, decision: Mark)

  /** A delivery task: waiting for the send lock, holding it, refused, or past `send_started`. */
  datatype Delivery = Queued | Holding | Refused | InFlight | Receipted(outcome: Outcome) | Settled(outcome: Outcome)

  /** `leaving` tells that the worker broke off its loop, `settled` that the job's stored status is no longer
      running, so that a change of the active job does not find it. */
  datatype Work = Work(stop: bool, restart: bool, leaving: bool, settled: bool)

  /** `entering` counts submissions that found the scheduler open and wait for the lock.  Jobs are numbered as they
      are created; `results` are finished ones waiting for a turn. */
  datatype Conv = Conv(
    closing: bool, entering: nat, log: seq<Mark>, pending: seq<nat>, jobs: nat, results: seq<nat>, delivered: set<nat>, turn: Option<nat>,
    turns: map<nat, Turn>, nextTurn: nat, controller: Option<nat>, allow: bool, sendLock: Option<Key>,
    deliveries: map<Key, Delivery>, work: Option<Work>)

  const START := Conv(false, 0, [], [], 0, [], {}, None, map[], 0, None, true, None, map[], None)

  function NewTurn(notify: bool, report: Option<nat>): Turn {
    Turn(false, false, false, false, false, false, false, false, false, false, 0, false,
         if notify then Armed else NoTimer, Context, report, Worked)
  }

  // ---- reading the log ----

  function StartsOf(log: seq<Mark>, key: Key): nat {
    if log == [] then 0 else StartsOf(log[..|log| - 1], key) + if log[|log| - 1] == SendStarted(key) then 1 else 0
  }

  function ResultsOf(log: seq<Mark>, key: Key): seq<Outcome> {
    if log == [] then []
    else
      var last := log[|log| - 1];
      ResultsOf(log[..|log| - 1], key) + if last.SendResult? && last.key == key then [last.outcome] else []
  }

  function DecisionsOf(log: seq<Mark>, t: nat): seq<Mark> {
    if log == [] then []
    else
      var last := log[|log| - 1];
      DecisionsOf(log[..|log| - 1], t) + if last.Decided? && last.turn == t then [last] else []
  }

  /** The notice flag in the context of the turn's latest model call. */
  function LastAsk(log: seq<Mark>, t: nat): Option<bool> {
    if log == [] then None
    else
      var last := log[|log| - 1];
      if last.Asked? && last.turn == t then Some(last.sawWait) else LastAsk(log[..|log| - 1], t)
  }

  /** The turn was created and no inbound event was recorded since. */
  predicate Undisturbed(log: seq<Mark>, t: nat) {
    if log == [] then false
    else if log[|log| - 1] == TurnCreated(t) then true
    else if log[|log| - 1].InboundAt? then false
    else Undisturbed(log[..|log| - 1], t)
  }

  /** No inbound event since the last good turn end, or since a restart that found nothing pending. */
  predicate GateOpen(log: seq<Mark>) {
    if log == [] then true
    else
      match log[|log| - 1]
      case GoodEnd(_) => true
      case InboundAt(_) => false
      case Restarted(open) => open
      case _ => GateOpen(log[..|log| - 1])
  }

  predicate HasInbound(log: seq<Mark>) {
    exists i :: 0 <= i < |log| && log[i].InboundAt?
  }

  // ---- steps ----

  datatype Step =
    | Enter
    | Submit(input: nat)
    | Take(notify: bool)
    | ResultArrives(job: nat)
    | TakeResult
    | Ask(turn: nat)
    | Answer(turn: nat, messages: nat)
    | Again(turn: nat)
    | StartJob(turn: nat)
    | ChangeJob(turn: nat, stop: bool)
    | Decide(turn: nat)
    | SpawnSend(turn: nat)
    | Collect(turn: nat)
    | GiveUp(turn: nat)
    | MarkDelivered(turn: nat)
    | EndChat(turn: nat)
    | PassDeadline(turn: nat)
    | Kill(turn: nat)
    | Fail(turn: nat, notify: bool)
    | Leave(turn: nat)
    | Clean(turn: nat)
    | MarkFinished(turn: nat)
    | ClearTurn(turn: nat)
    | FireTimer(turn: nat)
    | Acquire(key: Key)
    | Check(key: Key)
    | Receive(key: Key, outcome: Outcome)
    | Settle(key: Key)
    | BeginWork
    | TakeRestart
    | StopWork
    | DoWork
    | LeaveLoop
    | SettleJob
    | EndWork
    | Close
    | Restart(replayed: seq<nat>)

  predicate InPhase(c: Conv, key: Key, phase: Delivery) {
    key in c.deliveries && c.deliveries[key] == phase
  }

  function ReplyKey(t: nat, i: nat): Key { Key(t, Reply, i) }

  function WaitKey(t: nat): Key { Key(t, Waiting, 0) }

  function ErrorKey(t: nat): Key { Key(t, ErrorNotice, 0) }

  /** Neither superseded nor displaced, with nothing waiting: the test made under the lock. */
  predicate Current(c: Conv, t: nat) {
    t in c.turns && !c.turns[t].superseded && c.pending == [] && c.turn == Some(t)
  }

  predicate Running(chat: Chat) {
    !chat.Cleaning? && !chat.Gone? && !chat.Reporting?
  }

  predicate Possible(c: Conv, step: Step) {
    match step
    case Enter => !c.closing
    case Submit(_) => c.entering > 0
    case Take(_) => !c.closing && c.controller == None && c.pending != []
    case ResultArrives(job) => job < c.jobs && job !in c.delivered && job !in c.results
    case TakeResult => !c.closing && c.controller == None && c.pending == [] && c.results != []
    case Ask(t) => t in c.turns && c.turns[t].chat.Context?
    case Answer(t, _) => t in c.turns && c.turns[t].chat.Asking?
    case Again(t) => t in c.turns && (c.turns[t].chat.Asking? || c.turns[t].chat.Publishing?)
    case StartJob(t) => t in c.turns
    case ChangeJob(t, _) => t in c.turns
    case Decide(t) => t in c.turns && c.turns[t].chat.Publishing?
    case SpawnSend(t) => t in c.turns && c.turns[t].chat.Sending? && c.turns[t].chat.next < c.turns[t].chat.messages
    case Collect(t) =>
      && t in c.turns && c.turns[t].chat.Awaiting?
      && var key := ReplyKey(t, c.turns[t].chat.next);
         key in c.deliveries && (c.deliveries[key].Refused? || c.deliveries[key].Settled?)
    case GiveUp(t) =>
      t in c.turns && ((c.turns[t].chat.Context? && c.turns[t].superseded)
                       || (c.turns[t].chat.Sending? && c.turns[t].chat.next >= c.turns[t].chat.messages))
    case MarkDelivered(t) => t in c.turns && MayReport(c.turns[t])
    case EndChat(t) => t in c.turns && c.turns[t].chat.Published?
    case PassDeadline(t) => t in c.turns
    case Kill(t) => t in c.turns && !c.turns[t].chat.Gone?
    case Fail(t, _) => t in c.turns && Running(c.turns[t].chat)
    case Leave(t) => t in c.turns && c.turns[t].chat.Cleaning?
    case Clean(t) => t in c.turns && (c.turns[t].chat.Cleaning? || c.turns[t].chat.Reporting? || c.turns[t].chat.Gone?)
    case MarkFinished(t) => t in c.turns && c.turns[t].chat.Gone? && c.controller == Some(t)
    case ClearTurn(t) => t in c.turns && c.turns[t].chat.Gone? && c.turns[t].finished && c.controller == Some(t)
    case FireTimer(t) => t in c.turns && c.turns[t].timer == Armed
    case Acquire(key) => InPhase(c, key, Queued) && c.sendLock == None
    case Check(key) => InPhase(c, key, Holding) && key.turn in c.turns
    case Receive(key, _) => InPhase(c, key, InFlight)
    case Settle(key) => key in c.deliveries && c.deliveries[key].Receipted? && key.turn in c.turns
    case BeginWork => c.work == None && c.jobs > 0
    case TakeRestart => c.work.Some? && !c.work.value.leaving && !c.work.value.stop && c.work.value.restart
    case StopWork => c.work.Some?
    case DoWork => c.work.Some? && Unasked(c.work.value) && MayWork(c)
    case LeaveLoop => c.work.Some?
    case SettleJob => c.work.Some?
    case EndWork => c.work.Some?
    case Close => true
    case Restart(replayed) => forall input | input in replayed :: InboundAt(input) in c.log
  }

  /** The gate of `_worker_action`, and of the report, under the lock: otherwise it waits or gives up. */
  predicate MayWork(c: Conv) {
    !c.closing && c.pending == [] && c.allow
  }

  /** The worker is in its loop, and neither a stop nor a restart is asked of it. */
  predicate Unasked(work: Work) {
    !work.leaving && !work.stop && !work.restart
  }

  /** A change of the active job by turn `t` reaches the running work. */
  predicate Reaches(c: Conv, t: nat) {
    Current(c, t) && c.work.Some? && !c.work.value.settled
  }

  /** The turn's reply is out, every message of it, and it was about a job; whether it was superseded in its
      last moment is left open. */
  predicate MayReport(turn: Turn) {
    turn.chat.Published? && turn.valid && !turn.sendFailed && turn.outputStarted && turn.report.Some?
  }

  function Log(c: Conv, mark: Mark): Conv { c.(log := c.log + [mark]) }

  function SetTurn(c: Conv, t: nat, turn: Turn): Conv { c.(turns := c.turns[t := turn]) }

  function SetChat(c: Conv, t: nat, chat: Chat): Conv
    requires t in c.turns
  {
    SetTurn(c, t, c.turns[t].(chat := chat))
  }

  function SetDelivery(c: Conv, key: Key, phase: Delivery): Conv {
    c.(deliveries := c.deliveries[key := phase])
  }

  function Supersede(c: Conv): Conv {
    if c.turn.Some? && c.turn.value in c.turns
    then SetTurn(c, c.turn.value, c.turns[c.turn.value].(superseded := true))
    else c
  }

  /** A submission's section under the lock, which may come after the scheduler began to close. */
  function Submitted(c: Conv, input: nat): Conv
    requires c.entering > 0
  {
    Log(Supersede(c), InboundAt(input)).(entering := c.entering - 1, pending := c.pending + [input], allow := false)
  }

  function Created(c: Conv, notify: bool, report: Option<nat>): Conv {
    var t := c.nextTurn;
    Log(c, TurnCreated(t)).(turns := c.turns[t := NewTurn(notify, report)], nextTurn := t + 1, turn := Some(t), controller := Some(t))
  }

  /** The first waiting result gets a turn, unless its job was delivered meanwhile. */
  function ResultTaken(c: Conv): Conv
    requires c.results != []
  {
    var next := c.(results := c.results[1..]);
    if c.results[0] in c.delivered then next else Created(next, false, Some(c.results[0]))
  }

  /** `_publish_reply` under the lock. */
  function Decision(c: Conv, t: nat): Conv
    requires t in c.turns && c.turns[t].chat.Publishing?
  {
    var turn := c.turns[t];
    var n := turn.chat.messages;
    if !Current(c, t) then SetChat(c, t, Published)
    else if turn.waitClaimed && !turn.waitDone then c
    else if turn.waitSent && !turn.chat.sawWait then SetChat(c, t, Context)
    else
      var decision := Decided(t, turn.chat.sawWait, n);
      Log(SetTurn(c, t, turn.(outputStarted := n > 0, silent := n == 0, valid := true,
                              decision := decision, chat := Sending(n, 0))),
          decision)
  }

  function Collected(c: Conv, t: nat): Conv
    requires Possible(c, Collect(t))
  {
    var turn := c.turns[t];
    if c.deliveries[ReplyKey(t, turn.chat.next)] == Settled(Succeeded)
    then SetChat(c, t, Sending(turn.chat.messages, turn.chat.next + 1))
    else SetTurn(c, t, turn.(sendFailed := true, chat := Published))
  }

  /** How a chat turn's status reads when its pipeline returned. */
  predicate EndedWell(turn: Turn) {
    turn.valid && !turn.sendFailed && (turn.sentCount > 0 || turn.silent)
  }

  function Ended(c: Conv, t: nat): Conv
    requires t in c.turns
  {
    var next := SetChat(c, t, Cleaning);
    if EndedWell(c.turns[t]) && Current(c, t) then Log(next.(allow := true), GoodEnd(t)) else next
  }

  function Failing(c: Conv, t: nat, notify: bool): Conv
    requires t in c.turns
  {
    var next := SetTurn(c, t, c.turns[t].(expired := true, chat := Reporting));
    if notify && !c.turns[t].superseded then SetDelivery(next, ErrorKey(t), Queued) else next
  }

  /** The tests `_deliver` makes before `send_started`; only an error notice may go out past the deadline. */
  predicate Deliverable(c: Conv, key: Key)
    requires key.turn in c.turns
  {
    var turn := c.turns[key.turn];
    && !c.closing
    && Current(c, key.turn)
    && (key.kind != ErrorNotice ==> !turn.expired && !turn.finished && !turn.late)
    && (key.kind == Waiting ==> !turn.outputStarted && !turn.silent && !turn.waitClaimed && !turn.finished)
  }

  function Checked(c: Conv, key: Key): Conv
    requires key.turn in c.turns
  {
    var turn := c.turns[key.turn];
    if Deliverable(c, key) then
      var next := SetDelivery(c, key, InFlight);
      var claimed := if key.kind == Waiting then SetTurn(next, key.turn, turn.(waitClaimed := true)) else next;
      Log(claimed, SendStarted(key))
    else
      var next := SetDelivery(c, key, Refused).(sendLock := None);
      if key.kind == Waiting then SetTurn(next, key.turn, turn.(waitDone := true)) else next
  }

  function Settling(c: Conv, key: Key): Conv
    requires key in c.deliveries && c.deliveries[key].Receipted? && key.turn in c.turns
  {
    var outcome := c.deliveries[key].outcome;
    var turn := c.turns[key.turn];
    var next := SetDelivery(c, key, Settled(outcome)).(sendLock := None);
    match key.kind
    case Reply => if outcome == Succeeded then SetTurn(next, key.turn, turn.(sentCount := turn.sentCount + 1)) else next
    case Waiting => SetTurn(next, key.turn, turn.(waitSent := outcome == Succeeded, waitDone := true))
    case ErrorNotice => next
  }

  /** Results added when the scheduler starts: one `unknown` per `send_started` that has none. */
  function OrphanResults(log: seq<Mark>, n: nat): seq<Mark>
    requires n <= |log|
  {
    if n == 0 then []
    else
      var m := log[n - 1];
      OrphanResults(log, n - 1)
      + if m.SendStarted? && ResultsOf(log, m.key) == [] then [SendResult(m.key, Unknown)] else []
  }

  function StoppedDelivery(d: Delivery): Delivery {
    match d
    case Queued => Refused
    case Holding => Refused
    case InFlight => Settled(Unknown)
    case Receipted(outcome) => Settled(outcome)
    case _ => d
  }

  function StoppedTurn(c: Conv, t: nat): Turn
    requires t in c.turns
  {
    var w := WaitKey(t);
    c.turns[t].(
      chat := Gone,
      timer := if c.turns[t].timer == Armed then Stopped else c.turns[t].timer,
      waitSent := w in c.deliveries && StoppedDelivery(c.deliveries[w]) == Settled(Succeeded),
      waitDone := w in c.deliveries)
  }

  /** A new process: unfinished inputs are pending again, orphaned sends get an unknown result. */
  function Restarting(c: Conv, replayed: seq<nat>): Conv {
    var receipts := if HasInbound(c.log) then OrphanResults(c.log, |c.log|) else [];
    Conv(false, 0, c.log + receipts + [Restarted(replayed == [])], replayed, c.jobs, [], c.delivered, None,
         map t | t in c.turns :: StoppedTurn(c, t), c.nextTurn, None, replayed == [], None,
         map key | key in c.deliveries :: StoppedDelivery(c.deliveries[key]), None)
  }

  // Steps of the chat task, those that create a delivery, of deliveries, of a turn's end, of the worker, all others.

  predicate OfChat(step: Step) {
    step.Ask? || step.Answer? || step.Again? || step.Decide? || step.Collect? || step.GiveUp? || step.EndChat?
  }

  predicate OfSpawning(step: Step) {
    step.SpawnSend? || step.FireTimer? || step.Fail?
  }

  predicate OfDelivery(step: Step) {
    step.Acquire? || step.Check? || step.Receive? || step.Settle?
  }

  predicate OfLeaving(step: Step) {
    step.Kill? || step.Leave? || step.Clean? || step.MarkFinished? || step.PassDeadline?
  }

  predicate OfWorker(step: Step) {
    step.ChangeJob? || step.BeginWork? || step.TakeRestart? || step.StopWork?
    || step.DoWork? || step.LeaveLoop? || step.SettleJob? || step.EndWork?
  }

  predicate OfHost(step: Step) {
    !OfChat(step) && !OfSpawning(step) && !OfDelivery(step) && !OfLeaving(step) && !OfWorker(step)
  }

  function ApplyChat(c: Conv, step: Step): Conv
    requires Possible(c, step) && OfChat(step)
  {
    match step
    case Ask(t) => Log(SetChat(c, t, Asking(c.turns[t].waitSent)), Asked(t, c.turns[t].waitSent))
    case Answer(t, messages) => SetChat(c, t, Publishing(c.turns[t].chat.sawWait, messages))
    case Again(t) => SetChat(c, t, Context)
    case Decide(t) => Decision(c, t)
    case Collect(t) => Collected(c, t)
    case GiveUp(t) => SetChat(c, t, Published)
    case EndChat(t) => Ended(c, t)
  }

  function ApplySpawning(c: Conv, step: Step): Conv
    requires Possible(c, step) && OfSpawning(step)
  {
    match step
    case SpawnSend(t) =>
      var chat := c.turns[t].chat;
      SetDelivery(SetChat(c, t, Awaiting(chat.messages, chat.next)), ReplyKey(t, chat.next), Queued)
    case Fail(t, notify) => Failing(c, t, notify)
    case FireTimer(t) => SetDelivery(SetTurn(c, t, c.turns[t].(timer := Fired)), WaitKey(t), Queued)
  }

  function ApplyDelivery(c: Conv, step: Step): Conv
    requires Possible(c, step) && OfDelivery(step)
  {
    match step
    case Acquire(key) => SetDelivery(c, key, Holding).(sendLock := Some(key))
    case Check(key) => Checked(c, key)
    case Receive(key, outcome) => Log(SetDelivery(c, key, Receipted(outcome)), SendResult(key, outcome))
    case Settle(key) => Settling(c, key)
  }

  function ApplyLeaving(c: Conv, step: Step): Conv
    requires Possible(c, step) && OfLeaving(step)
  {
    match step
    case PassDeadline(t) => SetTurn(c, t, c.turns[t].(late := true))
    case Kill(t) => SetChat(c, t, Cleaning)
    case Leave(t) => SetChat(c, t, Gone)
    case Clean(t) =>
      SetTurn(c, t, c.turns[t].(chat := Gone, timer := if c.turns[t].timer == Armed then Stopped else c.turns[t].timer))
    case MarkFinished(t) => SetTurn(c, t, c.turns[t].(finished := true))
  }

  function ApplyWorker(c: Conv, step: Step): Conv
    requires Possible(c, step) && OfWorker(step)
  {
    match step
    case ChangeJob(t, stop) =>
      if Reaches(c, t) then c.(work := Some(c.work.value.(stop := stop, restart := true))) else c
    case BeginWork => c.(work := Some(Work(false, false, false, false)))
    case TakeRestart => c.(work := Some(c.work.value.(restart := false)))
    case StopWork => c.(work := Some(c.work.value.(stop := true)))
    case DoWork => Log(c, Worked)
    case LeaveLoop => c.(work := Some(c.work.value.(leaving := true)))
    case SettleJob => c.(work := Some(c.work.value.(settled := true)))
    case EndWork => c.(work := None)
  }

  function ApplyHost(c: Conv, step: Step): Conv
    requires Possible(c, step) && OfHost(step)
  {
    match step
    case Enter => c.(entering := c.entering + 1)
    case Submit(input) => Submitted(c, input)
    case Take(notify) => Created(c, notify, None).(pending := [])
    case ResultArrives(job) => c.(results := c.results + [job])
    case TakeResult => ResultTaken(c)
    // The operation is a task of its own, which may outlive the chat task that asked for it.
    case StartJob(t) => if Current(c, t) then c.(jobs := c.jobs + 1) else c
    case MarkDelivered(t) =>
      Log(c, Reported(t, c.turns[t].report.value)).(delivered := c.delivered + {c.turns[t].report.value})
    case ClearTurn(t) => c.(turn := if c.turn == Some(t) then None else c.turn, controller := None)
    case Close => Supersede(c).(closing := true, allow := true)
    case Restart(replayed) => Restarting(c, replayed)
  }

  function Apply(c: Conv, step: Step): Conv
    requires Possible(c, step)
  {
    if OfChat(step) then ApplyChat(c, step)
    else if OfSpawning(step) then ApplySpawning(c, step)
    else if OfDelivery(step) then ApplyDelivery(c, step)
    else if OfLeaving(step) then ApplyLeaving(c, step)
    else if OfWorker(step) then ApplyWorker(c, step)
    else ApplyHost(c, step)
  }

  function Run(steps: seq<Step>): Option<Conv> {
    if steps == [] then Some(START)
    else
      var before := Run(steps[..|steps| - 1]);
      var step := steps[|steps| - 1];
      if before.Some? && Possible(before.value, step) then Some(Apply(before.value, step)) else None
  }
}
