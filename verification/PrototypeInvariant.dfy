/** The inductive invariant of the prototype: the log against delivery phases, each turn's fields against
    both, and what every mark in the log could rely on when it was written. */
module PrototypeInvariant {
  import opened Wrappers
  import opened Prototype

  // ---- deliveries and the log ----

  predicate Started(d: Delivery) { d.InFlight? || d.Receipted? || d.Settled? }

  predicate Underway(d: Delivery) { d.InFlight? || d.Receipted? }

  function ReceiptOf(d: Delivery): seq<Outcome> {
    if d.Receipted? || d.Settled? then [d.outcome] else []
  }

  function ExpectedStarts(deliveries: map<Key, Delivery>, key: Key): nat {
    if key in deliveries && Started(deliveries[key]) then 1 else 0
  }

  function ExpectedReceipts(deliveries: map<Key, Delivery>, key: Key): seq<Outcome> {
    if key in deliveries then ReceiptOf(deliveries[key]) else []
  }

  ghost predicate Counts(log: seq<Mark>, deliveries: map<Key, Delivery>) {
    && (forall key :: StartsOf(log, key) == ExpectedStarts(deliveries, key))
    && (forall key :: ResultsOf(log, key) == ExpectedReceipts(deliveries, key))
  }

  predicate Sent(deliveries: map<Key, Delivery>, key: Key) {
    key in deliveries && deliveries[key] == Settled(Succeeded)
  }

  // ---- one turn ----

  predicate Undecided(chat: Chat) { chat.Context? || chat.Asking? || chat.Publishing? }

  predicate WaitFields(deliveries: map<Key, Delivery>, t: nat, turn: Turn) {
    var w := WaitKey(t);
    && (w in deliveries <==> turn.timer == Fired)
    && (turn.waitClaimed <==> w in deliveries && Started(deliveries[w]))
    && (turn.waitSent <==> Sent(deliveries, w))
    && (turn.waitDone <==> w in deliveries && (deliveries[w].Refused? || deliveries[w].Settled?))
  }

  predicate DecisionFields(log: seq<Mark>, t: nat, turn: Turn) {
    && DecisionsOf(log, t) == (if turn.valid then [turn.decision] else [])
    && (turn.valid ==> turn.decision.Decided? && turn.decision.turn == t)
    && (turn.valid <==> turn.outputStarted || turn.silent)
    && (turn.outputStarted && turn.decision.Decided? ==> turn.decision.messages > 0)
    && (turn.chat.Asking? || turn.chat.Publishing? ==> LastAsk(log, t) == Some(turn.chat.sawWait))
  }

  /** Once a reply is decided no notice is under way, and a delivered one had been seen. */
  predicate Handshake(deliveries: map<Key, Delivery>, t: nat, turn: Turn) {
    var w := WaitKey(t);
    && (turn.valid && w in deliveries ==> !Underway(deliveries[w]))
    && (turn.valid && turn.waitSent && turn.decision.Decided? ==> turn.decision.sawWait)
  }

  predicate SentBelow(deliveries: map<Key, Delivery>, t: nat, n: nat) {
    forall j: nat | j < n :: Sent(deliveries, ReplyKey(t, j))
  }

  ghost predicate NoneFrom(deliveries: map<Key, Delivery>, t: nat, n: nat) {
    forall j: nat | n <= j :: ReplyKey(t, j) !in deliveries
  }

  /** A later message is only ever spawned once every earlier one was sent. */
  ghost predicate InOrder(deliveries: map<Key, Delivery>, t: nat) {
    forall j: nat | ReplyKey(t, j) in deliveries :: SentBelow(deliveries, t, j)
  }

  ghost predicate ReplyProgress(deliveries: map<Key, Delivery>, t: nat, turn: Turn) {
    && InOrder(deliveries, t)
    && (turn.valid <==> turn.decision.Decided?)
    && (!turn.valid ==> NoneFrom(deliveries, t, 0))
    && (turn.valid ==> NoneFrom(deliveries, t, turn.decision.messages))
    && (Undecided(turn.chat) ==> !turn.valid)
    && (turn.chat.Sending? || turn.chat.Awaiting? ==> turn.valid && turn.chat.messages == turn.decision.messages)
    && (turn.chat.Sending? ==> turn.chat.next <= turn.chat.messages && SentBelow(deliveries, t, turn.chat.next)
                               && NoneFrom(deliveries, t, turn.chat.next))
    && (turn.chat.Awaiting? ==> turn.chat.next < turn.chat.messages && SentBelow(deliveries, t, turn.chat.next)
                                && NoneFrom(deliveries, t, turn.chat.next + 1))
    && (turn.chat.Published? && turn.valid && !turn.sendFailed ==> SentBelow(deliveries, t, turn.decision.messages))
    && (ErrorKey(t) in deliveries ==> !Running(turn.chat))
  }

  ghost predicate TurnOk(log: seq<Mark>, deliveries: map<Key, Delivery>, t: nat, turn: Turn) {
    && DecisionFields(log, t, turn)
    && WaitFields(deliveries, t, turn)
    && Handshake(deliveries, t, turn)
    && ReplyProgress(deliveries, t, turn)
  }

  ghost predicate AllTurns(log: seq<Mark>, deliveries: map<Key, Delivery>, turns: map<nat, Turn>) {
    forall t | t in turns :: TurnOk(log, deliveries, t, turns[t])
  }

  // ---- what a mark relied on when it was written ----

  ghost predicate StartGrounds(log: seq<Mark>, key: Key) {
    var t := key.turn;
    && Undisturbed(log, t)
    && StartsOf(log, key) == 0
    && (key.kind.Waiting? ==> key == WaitKey(t) && DecisionsOf(log, t) == [])
    && (key.kind.Reply? ==> ReplyGrounds(log, key))
  }

  ghost predicate ReplyGrounds(log: seq<Mark>, key: Key) {
    var t := key.turn;
    var decisions := DecisionsOf(log, t);
    && |decisions| == 1 && decisions[0].Decided?
    && key.index < decisions[0].messages
    && StartsOf(log, WaitKey(t)) == |ResultsOf(log, WaitKey(t))|
    && (ResultsOf(log, WaitKey(t)) == [Succeeded] ==> decisions[0].sawWait)
    && (forall j: nat | j < key.index :: ResultsOf(log, ReplyKey(t, j)) == [Succeeded])
  }

  ghost predicate Grounds(log: seq<Mark>, mark: Mark) {
    match mark
    case TurnCreated(t) => TurnCreated(t) !in log
    case Asked(t, saw) => saw ==> ResultsOf(log, WaitKey(t)) == [Succeeded]
    case Decided(t, saw, _) => DecisionsOf(log, t) == [] && LastAsk(log, t) == Some(saw) && Undisturbed(log, t)
    case SendStarted(key) => StartGrounds(log, key)
    case SendResult(key, _) => StartsOf(log, key) == 1 && ResultsOf(log, key) == []
    case GoodEnd(t) =>
      && Undisturbed(log, t)
      && |DecisionsOf(log, t)| == 1 && DecisionsOf(log, t)[0].Decided?
      && (forall j: nat | j < DecisionsOf(log, t)[0].messages :: ResultsOf(log, ReplyKey(t, j)) == [Succeeded])
    case Reported(t, _) =>
      && |DecisionsOf(log, t)| == 1 && DecisionsOf(log, t)[0].Decided? && DecisionsOf(log, t)[0].messages > 0
      && (forall j: nat | j < DecisionsOf(log, t)[0].messages :: ResultsOf(log, ReplyKey(t, j)) == [Succeeded])
    case Worked => GateOpen(log)
    case _ => true
  }

  ghost predicate Grounded(log: seq<Mark>, p: nat)
    requires p < |log|
  {
    Grounds(log[..p], log[p])
  }

  ghost predicate History(log: seq<Mark>) {
    forall p: nat | p < |log| :: Grounded(log, p)
  }

  // ---- the whole state ----

  predicate WasCreated(log: seq<Mark>, t: nat) { TurnCreated(t) in log }

  ghost predicate Shape(c: Conv) {
    && (forall t | t in c.turns :: t < c.nextTurn)
    && (forall t: nat | WasCreated(c.log, t) :: t < c.nextTurn)
    && (forall key | key in c.deliveries :: key.turn in c.turns)
    && (forall key | key in c.deliveries :: key.kind.Waiting? ==> key == WaitKey(key.turn))
    && (c.turn.Some? ==> c.turn.value in c.turns)
    && (c.turns != map[] || c.jobs > 0 || c.pending != [] || c.results != [] ==> HasInbound(c.log))
  }

  ghost predicate Live(c: Conv) {
    && (c.turn.Some? && c.turn.value in c.turns && !c.turns[c.turn.value].superseded ==> Undisturbed(c.log, c.turn.value))
    && (!c.closing && c.allow ==> GateOpen(c.log))
  }

  ghost predicate Inv(c: Conv) {
    && Shape(c)
    && Counts(c.log, c.deliveries)
    && AllTurns(c.log, c.deliveries, c.turns)
    && History(c.log)
    && Live(c)
  }
}
