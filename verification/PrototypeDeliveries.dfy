/** Steps of the delivery tasks keep the invariant. */
module PrototypeDeliveries {
  import opened Wrappers
  import opened Prototype
  import opened PrototypeInvariant
  import opened PrototypeSteps
  import opened PrototypeTurns

  /** One delivery moves to a new phase, its turn's record and the send lock with it. */
  function Phased(c: Conv, key: Key, phase: Delivery, turn: Turn, lock: Option<Key>): Conv {
    c.(deliveries := c.deliveries[key := phase], turns := c.turns[key.turn := turn], sendLock := lock)
  }

  lemma RecordedTurnOk(log: seq<Mark>, marks: seq<Mark>, d: map<Key, Delivery>, t: nat, turn: Turn)
    requires TurnOk(log, d, t, turn) && |marks| <= 1
    requires forall m | m in marks :: m.SendStarted? || m.SendResult?
    ensures TurnOk(log + marks, d, t, turn)
  {
    if marks == [] {
      assert log + marks == log;
    } else {
      assert marks[0] in marks && marks == [marks[0]];
      AppendedTurn(log, marks[0], t);
      LoggedTurnOk(log, log + marks, d, t, turn);
    }
  }

  lemma PhasedTurns(c: Conv, key: Key, phase: Delivery, turn: Turn, marks: seq<Mark>)
    requires AllTurns(c.log, c.deliveries, c.turns) && |marks| <= 1
    requires forall m | m in marks :: m.SendStarted? || m.SendResult?
    requires TurnOk(c.log, c.deliveries[key := phase], key.turn, turn)
    ensures AllTurns(c.log + marks, c.deliveries[key := phase], c.turns[key.turn := turn])
  {
    var next := c.(log := c.log + marks, deliveries := c.deliveries[key := phase], turns := c.turns[key.turn := turn]);
    RecordedTurnOk(c.log, marks, next.deliveries, key.turn, turn);
    assert OnlyTouches(c, next, marks, key.turn) by {
      forall u: nat | u != key.turn ensures AgreeOn(c.deliveries, next.deliveries, u) {
      }
    }
    OthersKept(c, next, marks, key.turn);
  }

  lemma PhasedShape(c: Conv, key: Key, phase: Delivery, turn: Turn, lock: Option<Key>)
    requires Shape(c) && key.turn in c.turns && (key.kind.Waiting? ==> key == WaitKey(key.turn))
    ensures Shape(Phased(c, key, phase, turn, lock))
  {
  }

  lemma PhasedLive(c: Conv, key: Key, phase: Delivery, turn: Turn, lock: Option<Key>)
    requires Live(c) && key.turn in c.turns && turn.superseded == c.turns[key.turn].superseded
    ensures Live(Phased(c, key, phase, turn, lock))
  {
  }

  /** A change of phase that the log does not see. */
  lemma PhasedStep(c: Conv, key: Key, phase: Delivery, turn: Turn, lock: Option<Key>)
    requires Inv(c) && key.turn in c.turns && (key.kind.Waiting? ==> key == WaitKey(key.turn))
    requires Started(phase) <==> key in c.deliveries && Started(c.deliveries[key])
    requires ReceiptOf(phase) == ExpectedReceipts(c.deliveries, key)
    requires turn.superseded == c.turns[key.turn].superseded
    requires TurnOk(c.log, c.deliveries[key := phase], key.turn, turn)
    ensures Inv(Phased(c, key, phase, turn, lock))
  {
    Parts(c);
    CountsPhase(c.log, c.deliveries, key, phase);
    PhasedTurns(c, key, phase, turn, []);
    assert c.log + [] == c.log;
    PhasedShape(c, key, phase, turn, lock);
    PhasedLive(c, key, phase, turn, lock);
    Assembled(Phased(c, key, phase, turn, lock));
  }

  lemma CountsMarked(log: seq<Mark>, deliveries: map<Key, Delivery>, key: Key, phase: Delivery, m: Mark)
    requires Counts(log, deliveries)
    requires || (m == SendStarted(key) && phase == InFlight && ExpectedStarts(deliveries, key) == 0)
             || (m.SendResult? && m.key == key && phase == Receipted(m.outcome) && InFlightIn(deliveries, key))
    ensures Counts(log + [m], deliveries[key := phase])
  {
    forall k ensures StartsOf(log + [m], k) == ExpectedStarts(deliveries[key := phase], k)
                     && ResultsOf(log + [m], k) == ExpectedReceipts(deliveries[key := phase], k) {
      CountsMarkedAt(log, deliveries, key, phase, m, k);
    }
  }

  lemma CountsMarkedAt(log: seq<Mark>, deliveries: map<Key, Delivery>, key: Key, phase: Delivery, m: Mark, k: Key)
    requires StartsOf(log, k) == ExpectedStarts(deliveries, k) && ResultsOf(log, k) == ExpectedReceipts(deliveries, k)
    requires || (m == SendStarted(key) && phase == InFlight && ExpectedStarts(deliveries, key) == 0)
             || (m.SendResult? && m.key == key && phase == Receipted(m.outcome) && InFlightIn(deliveries, key))
    ensures StartsOf(log + [m], k) == ExpectedStarts(deliveries[key := phase], k)
    ensures ResultsOf(log + [m], k) == ExpectedReceipts(deliveries[key := phase], k)
  {
    assert (log + [m])[..|log|] == log;
  }

  predicate InFlightIn(deliveries: map<Key, Delivery>, key: Key) {
    key in deliveries && deliveries[key] == InFlight
  }

  /** A start or a receipt is recorded with the change of phase. */
  lemma RecordedStep(c: Conv, key: Key, phase: Delivery, turn: Turn, m: Mark)
    requires Inv(c) && key.turn in c.turns && key in c.deliveries && Grounds(c.log, m)
    requires || (m == SendStarted(key) && phase == InFlight && !Started(c.deliveries[key]))
             || (m.SendResult? && m.key == key && phase == Receipted(m.outcome) && c.deliveries[key] == InFlight)
    requires turn.superseded == c.turns[key.turn].superseded
    requires TurnOk(c.log, c.deliveries[key := phase], key.turn, turn)
    ensures Inv(Log(Phased(c, key, phase, turn, c.sendLock), m))
  {
    Parts(c);
    var next := Phased(c, key, phase, turn, c.sendLock);
    HistoryGrows(c.log, m);
    CountsMarked(c.log, c.deliveries, key, phase, m);
    PhasedTurns(c, key, phase, turn, [m]);
    PhasedShape(c, key, phase, turn, c.sendLock);
    ShapeLog(next, m);
    PhasedLive(c, key, phase, turn, c.sendLock);
    LiveLog(next, m, c.allow);
    assert Log(next, m).(allow := c.allow) == Log(next, m);
    Assembled(Log(next, m));
  }

  // ---- the turn's own part ----

  lemma SpawnTurnOk(log: seq<Mark>, d: map<Key, Delivery>, t: nat, turn: Turn)
    requires TurnOk(log, d, t, turn) && turn.chat.Sending? && turn.chat.next < turn.chat.messages
    ensures TurnOk(log, d[ReplyKey(t, turn.chat.next) := Queued], t, turn.(chat := Awaiting(turn.chat.messages, turn.chat.next)))
  {
    var i := turn.chat.next;
    var after := d[ReplyKey(t, i) := Queued];
    assert ReplyKey(t, i) !in d;
    assert forall j: nat :: Sent(d, ReplyKey(t, j)) ==> Sent(after, ReplyKey(t, j));
    assert forall n: nat :: SentBelow(d, t, n) ==> SentBelow(after, t, n);
    assert NoneFrom(after, t, i + 1);
    assert InOrder(after, t);
  }

  /** Replies and error notices, while the key stays known and nothing sent is unsent. */
  lemma PlainTurnOk(log: seq<Mark>, d: map<Key, Delivery>, t: nat, turn: Turn, key: Key, phase: Delivery, sent: nat)
    requires TurnOk(log, d, t, turn) && key in d && key.turn == t && !key.kind.Waiting?
    requires Sent(d, key) ==> phase == Settled(Succeeded)
    ensures TurnOk(log, d[key := phase], t, turn.(sentCount := sent))
  {
    var after := d[key := phase];
    assert forall j: nat :: Sent(d, ReplyKey(t, j)) ==> Sent(after, ReplyKey(t, j));
    assert forall n: nat :: SentBelow(d, t, n) ==> SentBelow(after, t, n);
    assert forall n: nat :: NoneFrom(d, t, n) ==> NoneFrom(after, t, n);
    assert InOrder(after, t);
  }

  /** The turn's fields that follow the notice's delivery, whatever the phase. */
  function WithWait(turn: Turn, phase: Delivery): Turn {
    turn.(waitClaimed := Started(phase), waitSent := phase == Settled(Succeeded),
          waitDone := phase.Refused? || phase.Settled?)
  }

  lemma WaitTurnOk(log: seq<Mark>, d: map<Key, Delivery>, t: nat, turn: Turn, phase: Delivery)
    requires TurnOk(log, d, t, turn) && turn.timer == Fired
    requires turn.valid ==> !Underway(phase) && (phase == Settled(Succeeded) ==> turn.waitSent)
    ensures TurnOk(log, d[WaitKey(t) := phase], t, WithWait(turn, phase))
  {
    var after := d[WaitKey(t) := phase];
    assert forall j: nat :: Agree(d, after, ReplyKey(t, j));
    assert forall n: nat :: SentBelow(d, t, n) ==> SentBelow(after, t, n);
    assert forall n: nat :: NoneFrom(d, t, n) ==> NoneFrom(after, t, n);
    assert InOrder(after, t);
  }

  lemma FireTurnOk(log: seq<Mark>, d: map<Key, Delivery>, t: nat, turn: Turn)
    requires TurnOk(log, d, t, turn) && turn.timer == Armed
    ensures TurnOk(log, d[WaitKey(t) := Queued], t, turn.(timer := Fired))
  {
    var after := d[WaitKey(t) := Queued];
    assert forall j: nat :: Agree(d, after, ReplyKey(t, j));
    assert forall n: nat :: SentBelow(d, t, n) ==> SentBelow(after, t, n);
    assert forall n: nat :: NoneFrom(d, t, n) ==> NoneFrom(after, t, n);
    assert InOrder(after, t);
  }

  lemma ReportTurnOk(log: seq<Mark>, d: map<Key, Delivery>, t: nat, turn: Turn)
    requires TurnOk(log, d, t, turn)
    ensures TurnOk(log, d, t, turn.(expired := true, chat := Reporting))
    ensures TurnOk(log, d[ErrorKey(t) := Queued], t, turn.(expired := true, chat := Reporting))
  {
    var after := d[ErrorKey(t) := Queued];
    assert Agree(d, after, WaitKey(t));
    assert forall j: nat :: Agree(d, after, ReplyKey(t, j));
    assert forall n: nat :: SentBelow(d, t, n) ==> SentBelow(after, t, n);
    assert forall n: nat :: NoneFrom(d, t, n) ==> NoneFrom(after, t, n);
    assert InOrder(after, t);
  }

  // ---- the steps ----

  lemma SpawnStep(c: Conv, t: nat)
    requires Inv(c) && Possible(c, SpawnSend(t))
    ensures var chat := c.turns[t].chat;
            Inv(SetDelivery(SetChat(c, t, Awaiting(chat.messages, chat.next)), ReplyKey(t, chat.next), Queued))
  {
    var turn := c.turns[t];
    var key := ReplyKey(t, turn.chat.next);
    var awaiting := turn.(chat := Awaiting(turn.chat.messages, turn.chat.next));
    TurnOf(c, t);
    assert key !in c.deliveries;
    SpawnTurnOk(c.log, c.deliveries, t, turn);
    PhasedStep(c, key, Queued, awaiting, c.sendLock);
    assert SetDelivery(SetTurn(c, t, awaiting), key, Queued) == Phased(c, key, Queued, awaiting, c.sendLock);
  }

  lemma FireStep(c: Conv, t: nat)
    requires Inv(c) && t in c.turns && c.turns[t].timer == Armed
    ensures Inv(SetDelivery(SetTurn(c, t, c.turns[t].(timer := Fired)), WaitKey(t), Queued))
  {
    var turn := c.turns[t];
    TurnOf(c, t);
    FireTurnOk(c.log, c.deliveries, t, turn);
    PhasedStep(c, WaitKey(t), Queued, turn.(timer := Fired), c.sendLock);
    assert SetDelivery(SetTurn(c, t, turn.(timer := Fired)), WaitKey(t), Queued) == Phased(c, WaitKey(t), Queued, turn.(timer := Fired), c.sendLock);
  }

  lemma ReportStep(c: Conv, t: nat, notified: bool)
    requires Inv(c) && t in c.turns && Running(c.turns[t].chat)
    ensures var reporting := c.turns[t].(expired := true, chat := Reporting);
            Inv(if notified then Phased(c, ErrorKey(t), Queued, reporting, c.sendLock) else SetTurn(c, t, reporting))
  {
    var turn := c.turns[t];
    var reporting := turn.(expired := true, chat := Reporting);
    TurnOf(c, t);
    assert ErrorKey(t) !in c.deliveries;
    ReportTurnOk(c.log, c.deliveries, t, turn);
    if notified {
      PhasedStep(c, ErrorKey(t), Queued, reporting, c.sendLock);
    } else {
      TurnOnly(c, t, reporting);
    }
  }

  lemma FailStep(c: Conv, t: nat, notify: bool)
    requires Inv(c) && t in c.turns && Running(c.turns[t].chat)
    ensures Inv(Failing(c, t, notify))
  {
    ReportStep(c, t, notify && !c.turns[t].superseded);
  }

  /** The delivery's turn exists, and a notice's phase is what its turn's fields say. */
  lemma KeyOf(c: Conv, key: Key)
    requires Inv(c) && key in c.deliveries
    ensures key.turn in c.turns && TurnOk(c.log, c.deliveries, key.turn, c.turns[key.turn])
    ensures key.kind.Waiting? ==> key == WaitKey(key.turn) && c.turns[key.turn].timer == Fired
                                  && c.turns[key.turn] == WithWait(c.turns[key.turn], c.deliveries[key])
  {
    TurnOf(c, key.turn);
  }

  /** The turn's record after one of its deliveries moved to `phase`. */
  function Moved(turn: Turn, key: Key, phase: Delivery, sent: nat): Turn {
    if key.kind.Waiting? then WithWait(turn, phase) else turn.(sentCount := sent)
  }

  lemma MovedTurnOk(c: Conv, key: Key, phase: Delivery, sent: nat)
    requires Inv(c) && key in c.deliveries && key.turn in c.turns
    requires !c.deliveries[key].Settled? && !c.deliveries[key].Refused?
    requires key.kind.Waiting? && c.turns[key.turn].valid ==> !Underway(phase) && phase != Settled(Succeeded)
    ensures TurnOk(c.log, c.deliveries[key := phase], key.turn, Moved(c.turns[key.turn], key, phase, sent))
  {
    KeyOf(c, key);
    if key.kind.Waiting? {
      WaitTurnOk(c.log, c.deliveries, key.turn, c.turns[key.turn], phase);
    } else {
      PlainTurnOk(c.log, c.deliveries, key.turn, c.turns[key.turn], key, phase, sent);
    }
  }

  /** A delivery moves on without a mark: the lock is taken, it is refused, or it is settled. */
  lemma MoveStep(c: Conv, key: Key, phase: Delivery, sent: nat, lock: Option<Key>)
    requires Inv(c) && key in c.deliveries && key.turn in c.turns
    requires || (!Started(c.deliveries[key]) && !c.deliveries[key].Refused? && (phase.Holding? || phase.Refused?))
             || (c.deliveries[key].Receipted? && phase == Settled(c.deliveries[key].outcome))
    ensures Inv(Phased(c, key, phase, Moved(c.turns[key.turn], key, phase, sent), lock))
  {
    KeyOf(c, key);
    MovedTurnOk(c, key, phase, sent);
    PhasedStep(c, key, phase, Moved(c.turns[key.turn], key, phase, sent), lock);
  }

  /** Leaving a turn's record as it was. */
  lemma Untouched(c: Conv, t: nat)
    requires t in c.turns
    ensures c.turns[t := c.turns[t]] == c.turns
  {
  }

  lemma AcquireResult(c: Conv, key: Key, turn: Turn)
    requires key.turn in c.turns && turn == c.turns[key.turn]
    ensures SetDelivery(c, key, Holding).(sendLock := Some(key)) == Phased(c, key, Holding, turn, Some(key))
  {
    Untouched(c, key.turn);
  }

  lemma RefuseResult(c: Conv, key: Key, turn: Turn)
    requires InPhase(c, key, Holding) && key.turn in c.turns && !Deliverable(c, key)
    requires turn == if key.kind.Waiting? then c.turns[key.turn].(waitDone := true) else c.turns[key.turn]
    ensures Checked(c, key) == Phased(c, key, Refused, turn, None)
  {
    Untouched(c, key.turn);
  }

  function SettledCount(turn: Turn, key: Key, outcome: Outcome): nat {
    turn.sentCount + if key.kind.Reply? && outcome == Succeeded then 1 else 0
  }

  /** How `_deliver` leaves the turn's record when the sender's answer is in. */
  function SettledTurn(turn: Turn, key: Key, outcome: Outcome): Turn {
    match key.kind
    case Reply => if outcome == Succeeded then turn.(sentCount := turn.sentCount + 1) else turn
    case Waiting => turn.(waitSent := outcome == Succeeded, waitDone := true)
    case ErrorNotice => turn
  }

  lemma SettleResult(c: Conv, key: Key, outcome: Outcome)
    requires key.turn in c.turns && key in c.deliveries && c.deliveries[key] == Receipted(outcome)
    ensures Settling(c, key) == Phased(c, key, Settled(outcome), SettledTurn(c.turns[key.turn], key, outcome), None)
  {
    Untouched(c, key.turn);
  }

  // The same records, written as what the notice's phase implies.

  lemma MovedKept(turn: Turn, key: Key, phase: Delivery, next: Delivery)
    requires key.kind.Waiting? ==> turn == WithWait(turn, phase)
    requires Started(phase) == Started(next) && !phase.Settled? && !phase.Refused? && !next.Settled? && !next.Refused?
    ensures Moved(turn, key, next, turn.sentCount) == turn
  {
  }

  lemma MovedRefused(turn: Turn, key: Key)
    requires key.kind.Waiting? ==> turn == WithWait(turn, Holding)
    ensures Moved(turn, key, Refused, turn.sentCount) == if key.kind.Waiting? then turn.(waitDone := true) else turn
  {
  }

  lemma MovedStarted(turn: Turn, key: Key)
    requires key.kind.Waiting? ==> turn == WithWait(turn, Holding)
    ensures Moved(turn, key, InFlight, turn.sentCount) == if key.kind.Waiting? then turn.(waitClaimed := true) else turn
  {
  }

  lemma MovedSettled(turn: Turn, key: Key, outcome: Outcome)
    requires key.kind.Waiting? ==> turn == WithWait(turn, Receipted(outcome))
    ensures Moved(turn, key, Settled(outcome), SettledCount(turn, key, outcome)) == SettledTurn(turn, key, outcome)
  {
    match key.kind
    case Reply => SameCount(turn);
    case Waiting => NoticeSettled(turn, outcome);
    case ErrorNotice => SameCount(turn);
  }

  lemma NoticeSettled(turn: Turn, outcome: Outcome)
    requires turn == WithWait(turn, Receipted(outcome))
    ensures WithWait(turn, Settled(outcome)) == turn.(waitSent := outcome == Succeeded, waitDone := true)
  {
    assert turn.waitClaimed;
  }

  lemma SameCount(turn: Turn)
    ensures turn.(sentCount := turn.sentCount) == turn
  {
  }

  lemma WaitUndecided(c: Conv, key: Key)
    requires Inv(c) && InPhase(c, key, Holding) && key.turn in c.turns && Deliverable(c, key)
    ensures key.kind.Waiting? ==> !c.turns[key.turn].valid
  {
    TurnOf(c, key.turn);
  }

  lemma StartGroundsHold(c: Conv, key: Key)
    requires Inv(c) && InPhase(c, key, Holding) && key.turn in c.turns && Deliverable(c, key)
    ensures Grounds(c.log, SendStarted(key))
  {
    var t := key.turn;
    var turn := c.turns[t];
    KeyOf(c, key);
    assert StartsOf(c.log, key) == ExpectedStarts(c.deliveries, key);
    assert Undisturbed(c.log, t);
    if key.kind.Reply? {
      ReplyGroundsHold(c, key);
    }
  }

  lemma ReplyGroundsHold(c: Conv, key: Key)
    requires Inv(c) && key in c.deliveries && key.turn in c.turns && key.kind.Reply?
    ensures ReplyGrounds(c.log, key)
  {
    var t := key.turn;
    TurnOf(c, t);
    assert ReplyKey(t, key.index) == key;
    assert c.turns[t].valid && key.index < c.turns[t].decision.messages;
    WaitIsOver(c, t);
    forall j: nat | j < key.index ensures ResultsOf(c.log, ReplyKey(t, j)) == [Succeeded] {
      assert Sent(c.deliveries, ReplyKey(t, j));
    }
  }

  lemma WaitIsOver(c: Conv, t: nat)
    requires Inv(c) && t in c.turns && c.turns[t].valid
    ensures StartsOf(c.log, WaitKey(t)) == |ResultsOf(c.log, WaitKey(t))|
    ensures c.turns[t].decision.Decided?
    ensures ResultsOf(c.log, WaitKey(t)) == [Succeeded] ==> c.turns[t].decision.sawWait
  {
    TurnOf(c, t);
    assert StartsOf(c.log, WaitKey(t)) == ExpectedStarts(c.deliveries, WaitKey(t));
    assert ResultsOf(c.log, WaitKey(t)) == ExpectedReceipts(c.deliveries, WaitKey(t));
  }

  /** A start or a receipt. */
  lemma RecordStep(c: Conv, key: Key, phase: Delivery, m: Mark)
    requires Inv(c) && key in c.deliveries && key.turn in c.turns && Grounds(c.log, m)
    requires || (m == SendStarted(key) && phase == InFlight && c.deliveries[key] == Holding
                 && (key.kind.Waiting? ==> !c.turns[key.turn].valid))
             || (m.SendResult? && m.key == key && phase == Receipted(m.outcome) && c.deliveries[key] == InFlight)
    ensures Inv(Log(Phased(c, key, phase, Moved(c.turns[key.turn], key, phase, c.turns[key.turn].sentCount), c.sendLock), m))
  {
    KeyOf(c, key);
    MovedTurnOk(c, key, phase, c.turns[key.turn].sentCount);
    RecordedStep(c, key, phase, Moved(c.turns[key.turn], key, phase, c.turns[key.turn].sentCount), m);
  }

  lemma SendResultIs(c: Conv, key: Key, turn: Turn)
    requires InPhase(c, key, Holding) && key.turn in c.turns && Deliverable(c, key)
    requires turn == if key.kind.Waiting? then c.turns[key.turn].(waitClaimed := true) else c.turns[key.turn]
    ensures Checked(c, key) == Log(Phased(c, key, InFlight, turn, c.sendLock), SendStarted(key))
  {
    Untouched(c, key.turn);
  }

  lemma ReceiveResult(c: Conv, key: Key, outcome: Outcome, turn: Turn)
    requires key.turn in c.turns && turn == c.turns[key.turn]
    ensures Log(SetDelivery(c, key, Receipted(outcome)), SendResult(key, outcome))
            == Log(Phased(c, key, Receipted(outcome), turn, c.sendLock), SendResult(key, outcome))
  {
    Untouched(c, key.turn);
  }

  lemma ReceiptGrounds(c: Conv, key: Key, outcome: Outcome)
    requires Inv(c) && key in c.deliveries && c.deliveries[key] == InFlight
    ensures Grounds(c.log, SendResult(key, outcome))
  {
    assert StartsOf(c.log, key) == ExpectedStarts(c.deliveries, key);
    assert ResultsOf(c.log, key) == ExpectedReceipts(c.deliveries, key);
  }

  // ---- put together ----

  lemma AcquireStep(c: Conv, key: Key)
    requires Inv(c) && InPhase(c, key, Queued)
    ensures Inv(SetDelivery(c, key, Holding).(sendLock := Some(key)))
  {
    KeyOf(c, key);
    var turn := c.turns[key.turn];
    MoveStep(c, key, Holding, turn.sentCount, Some(key));
    MovedKept(turn, key, Queued, Holding);
    AcquireResult(c, key, turn);
  }

  lemma CheckStep(c: Conv, key: Key)
    requires Inv(c) && InPhase(c, key, Holding) && key.turn in c.turns
    ensures Inv(Checked(c, key))
  {
    KeyOf(c, key);
    var turn := c.turns[key.turn];
    if Deliverable(c, key) {
      StartGroundsHold(c, key);
      WaitUndecided(c, key);
      RecordStep(c, key, InFlight, SendStarted(key));
      MovedStarted(turn, key);
      SendResultIs(c, key, Moved(turn, key, InFlight, turn.sentCount));
    } else {
      MoveStep(c, key, Refused, turn.sentCount, None);
      MovedRefused(turn, key);
      RefuseResult(c, key, Moved(turn, key, Refused, turn.sentCount));
    }
  }

  lemma ReceiveStep(c: Conv, key: Key, outcome: Outcome)
    requires Inv(c) && InPhase(c, key, InFlight)
    ensures Inv(Log(SetDelivery(c, key, Receipted(outcome)), SendResult(key, outcome)))
  {
    KeyOf(c, key);
    var turn := c.turns[key.turn];
    ReceiptGrounds(c, key, outcome);
    RecordStep(c, key, Receipted(outcome), SendResult(key, outcome));
    MovedKept(turn, key, InFlight, Receipted(outcome));
    ReceiveResult(c, key, outcome, turn);
  }

  lemma SettleStep(c: Conv, key: Key, outcome: Outcome)
    requires Inv(c) && InPhase(c, key, Receipted(outcome)) && key.turn in c.turns
    ensures Inv(Settling(c, key))
  {
    KeyOf(c, key);
    var turn := c.turns[key.turn];
    MoveStep(c, key, Settled(outcome), SettledCount(turn, key, outcome), None);
    MovedSettled(turn, key, outcome);
    SettleResult(c, key, outcome);
  }
}
