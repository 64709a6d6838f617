/** Steps of the chat task, the worker and the host keep the invariant. */
module PrototypeTurns {
  import opened Wrappers
  import opened Prototype
  import opened PrototypeInvariant
  import opened PrototypeSteps

  /** A step that only rewrites one turn, without lifting its supersession. */
  lemma TurnOnly(c: Conv, t: nat, turn: Turn)
    requires Inv(c) && t in c.turns
    requires c.turns[t].superseded ==> turn.superseded
    requires TurnOk(c.log, c.deliveries, t, turn)
    ensures Inv(SetTurn(c, t, turn))
  {
    Parts(c);
    TurnOnlyTurns(c, t, turn);
    TurnOnlyRest(c, t, turn);
    Assembled(SetTurn(c, t, turn));
  }

  lemma TurnOnlyTurns(c: Conv, t: nat, turn: Turn)
    requires AllTurns(c.log, c.deliveries, c.turns) && t in c.turns && TurnOk(c.log, c.deliveries, t, turn)
    ensures AllTurns(c.log, c.deliveries, SetTurn(c, t, turn).turns)
  {
    assert c.log + [] == c.log;
    OthersKept(c, SetTurn(c, t, turn), [], t);
  }

  lemma TurnOnlyRest(c: Conv, t: nat, turn: Turn)
    requires Shape(c) && Live(c) && t in c.turns && (c.turns[t].superseded ==> turn.superseded)
    ensures Shape(SetTurn(c, t, turn)) && Live(SetTurn(c, t, turn))
  {
  }

  lemma ChatChange(c: Conv, t: nat, chat: Chat)
    requires Inv(c) && t in c.turns && TurnOk(c.log, c.deliveries, t, c.turns[t].(chat := chat))
    ensures Inv(SetChat(c, t, chat))
  {
    TurnOnly(c, t, c.turns[t].(chat := chat));
  }

  lemma AnswerStep(c: Conv, t: nat, messages: nat)
    requires Inv(c) && t in c.turns && c.turns[t].chat.Asking?
    ensures Inv(SetChat(c, t, Publishing(c.turns[t].chat.sawWait, messages)))
  {
    assert TurnOk(c.log, c.deliveries, t, c.turns[t]);
    ChatChange(c, t, Publishing(c.turns[t].chat.sawWait, messages));
  }

  lemma AgainStep(c: Conv, t: nat)
    requires Inv(c) && t in c.turns && (c.turns[t].chat.Asking? || c.turns[t].chat.Publishing?)
    ensures Inv(SetChat(c, t, Context))
  {
    assert TurnOk(c.log, c.deliveries, t, c.turns[t]);
    ChatChange(c, t, Context);
  }

  lemma GiveUpStep(c: Conv, t: nat)
    requires Inv(c) && Possible(c, GiveUp(t))
    ensures Inv(SetChat(c, t, Published))
  {
    assert TurnOk(c.log, c.deliveries, t, c.turns[t]);
    ChatChange(c, t, Published);
  }

  lemma CollectTurnOk(log: seq<Mark>, deliveries: map<Key, Delivery>, t: nat, turn: Turn)
    requires TurnOk(log, deliveries, t, turn) && turn.chat.Awaiting?
    ensures TurnOk(log, deliveries, t, turn.(sendFailed := true, chat := Published))
    ensures Sent(deliveries, ReplyKey(t, turn.chat.next))
            ==> TurnOk(log, deliveries, t, turn.(chat := Sending(turn.chat.messages, turn.chat.next + 1)))
  {
  }

  /** What collecting a delivery makes of the turn. */
  function CollectedTurn(turn: Turn, sent: bool): Turn
    requires turn.chat.Awaiting?
  {
    if sent then turn.(chat := Sending(turn.chat.messages, turn.chat.next + 1))
    else turn.(sendFailed := true, chat := Published)
  }

  lemma CollectStep(c: Conv, t: nat, sent: bool)
    requires Inv(c) && t in c.turns && c.turns[t].chat.Awaiting?
    requires sent ==> Sent(c.deliveries, ReplyKey(t, c.turns[t].chat.next))
    ensures Inv(SetTurn(c, t, CollectedTurn(c.turns[t], sent)))
  {
    TurnOf(c, t);
    CollectTurnOk(c.log, c.deliveries, t, c.turns[t]);
    TurnOnly(c, t, CollectedTurn(c.turns[t], sent));
  }

  lemma CollectResult(c: Conv, t: nat)
    requires Possible(c, Collect(t))
    ensures Collected(c, t)
            == SetTurn(c, t, CollectedTurn(c.turns[t], Sent(c.deliveries, ReplyKey(t, c.turns[t].chat.next))))
  {
  }

  lemma LeavingStep(c: Conv, t: nat, chat: Chat, timer: Timer)
    requires Inv(c) && t in c.turns && (chat.Cleaning? || chat.Gone?)
    requires timer == c.turns[t].timer || (c.turns[t].timer == Armed && timer == Stopped)
    ensures Inv(SetTurn(c, t, c.turns[t].(chat := chat, timer := timer)))
  {
    assert TurnOk(c.log, c.deliveries, t, c.turns[t]);
    TurnOnly(c, t, c.turns[t].(chat := chat, timer := timer));
  }

  lemma FinishedStep(c: Conv, t: nat)
    requires Inv(c) && t in c.turns
    ensures Inv(SetTurn(c, t, c.turns[t].(finished := true)))
  {
    SameTurnOk(c.log, c.deliveries, t, c.turns[t], c.turns[t].(finished := true));
    TurnOnly(c, t, c.turns[t].(finished := true));
  }

  lemma SupersedeStep(c: Conv)
    requires Inv(c)
    ensures Inv(Supersede(c)) && Supersede(c) == c.(turns := Supersede(c).turns)
    ensures c.turn.Some? && c.turn.value in Supersede(c).turns ==> Supersede(c).turns[c.turn.value].superseded
  {
    if c.turn.Some? && c.turn.value in c.turns {
      var t := c.turn.value;
      SameTurnOk(c.log, c.deliveries, t, c.turns[t], c.turns[t].(superseded := true));
      TurnOnly(c, t, c.turns[t].(superseded := true));
    }
  }

  lemma AllTurnsAppend(c: Conv, m: Mark)
    requires AllTurns(c.log, c.deliveries, c.turns) && !m.Decided? && !m.Asked?
    ensures AllTurns(c.log + [m], c.deliveries, c.turns)
  {
    forall t | t in c.turns ensures TurnOk(c.log + [m], c.deliveries, t, c.turns[t]) {
      AppendedTurn(c.log, m, t);
      TurnFrame(c.log, c.log + [m], c.deliveries, c.deliveries, t, c.turns[t]);
    }
  }

  lemma WorkedStep(c: Conv)
    requires Inv(c) && MayWork(c)
    ensures Inv(Log(c, Worked))
  {
    HistoryGrows(c.log, Worked);
    CountsKept(c.log, Worked, c.deliveries);
    AllTurnsAppend(c, Worked);
    ShapeLog(c, Worked);
    LiveLog(c, Worked, c.allow);
    assert Log(c, Worked) == Log(c, Worked).(allow := c.allow);
  }

  lemma NewTurnOk(log: seq<Mark>, deliveries: map<Key, Delivery>, t: nat, notify: bool, report: Option<nat>)
    requires DecisionsOf(log, t) == []
    requires forall key: Key | key.turn == t :: key !in deliveries
    ensures TurnOk(log, deliveries, t, NewTurn(notify, report))
  {
  }

  /** Nothing in the log is about a turn that does not exist yet. */
  lemma {:induction false} Unheard(log: seq<Mark>, t: nat)
    requires History(log) && !WasCreated(log, t)
    ensures DecisionsOf(log, t) == []
  {
    if log != [] {
      var n := |log| - 1;
      forall p: nat | p < n ensures Grounded(log[..n], p) {
        assert Grounded(log, p);
        assert log[..n][..p] == log[..p];
      }
      assert forall m | m in log[..n] :: m in log;
      Unheard(log[..n], t);
      if log[n].Decided? && log[n].turn == t {
        assert Grounded(log, n);
        NeverUndisturbed(log[..n], t);
      }
    }
  }

  lemma NeverUndisturbed(log: seq<Mark>, t: nat)
    requires !WasCreated(log, t)
    ensures !Undisturbed(log, t)
  {
    if log != [] {
      assert log[|log| - 1] in log;
      assert forall m | m in log[..|log| - 1] :: m in log;
      NeverUndisturbed(log[..|log| - 1], t);
    }
  }

  lemma CreatedStep(c: Conv, notify: bool, report: Option<nat>)
    requires Inv(c) && HasInbound(c.log)
    ensures Inv(Created(c, notify, report))
  {
    var t := c.nextTurn;
    var m := TurnCreated(t);
    var next := Created(c, notify, report);
    assert !WasCreated(c.log, t);
    HistoryGrows(c.log, m);
    CountsKept(c.log, m, c.deliveries);
    AppendedGate(c.log, m);
    AppendedTurn(c.log, m, t);
    Unheard(c.log, t);
    NewTurnOk(next.log, next.deliveries, t, notify, report);
    assert t !in c.turns;
    OthersKept(c, next, [m], t);
  }

  lemma AskTurnOk(log: seq<Mark>, deliveries: map<Key, Delivery>, t: nat, turn: Turn)
    requires TurnOk(log, deliveries, t, turn) && turn.chat.Context?
    ensures TurnOk(log + [Asked(t, turn.waitSent)], deliveries, t, turn.(chat := Asking(turn.waitSent)))
  {
    AppendedTurn(log, Asked(t, turn.waitSent), t);
  }

  lemma AskGrounds(c: Conv, t: nat)
    requires Inv(c) && t in c.turns
    ensures Grounds(c.log, Asked(t, c.turns[t].waitSent))
  {
    TurnOf(c, t);
    assert ResultsOf(c.log, WaitKey(t)) == ExpectedReceipts(c.deliveries, WaitKey(t));
  }

  lemma AskStep(c: Conv, t: nat)
    requires Inv(c) && t in c.turns && c.turns[t].chat.Context?
    ensures Inv(Marked(c, Asked(t, c.turns[t].waitSent), t, c.turns[t].(chat := Asking(c.turns[t].waitSent)), c.allow))
  {
    var turn := c.turns[t];
    TurnOf(c, t);
    AskGrounds(c, t);
    AskTurnOk(c.log, c.deliveries, t, turn);
    MarkedTurn(c, Asked(t, turn.waitSent), t, turn.(chat := Asking(turn.waitSent)), c.allow);
  }

  lemma AskResult(c: Conv, t: nat)
    requires t in c.turns
    ensures Log(SetChat(c, t, Asking(c.turns[t].waitSent)), Asked(t, c.turns[t].waitSent))
            == Marked(c, Asked(t, c.turns[t].waitSent), t, c.turns[t].(chat := Asking(c.turns[t].waitSent)), c.allow)
  {
  }

  function DecidedTurn(t: nat, turn: Turn): Turn
    requires turn.chat.Publishing?
  {
    var n := turn.chat.messages;
    turn.(outputStarted := n > 0, silent := n == 0, valid := true,
          decision := Decided(t, turn.chat.sawWait, n), chat := Sending(n, 0))
  }

  lemma DecideTurnOk(log: seq<Mark>, deliveries: map<Key, Delivery>, t: nat, turn: Turn)
    requires TurnOk(log, deliveries, t, turn) && turn.chat.Publishing?
    requires turn.waitClaimed ==> turn.waitDone
    requires turn.waitSent ==> turn.chat.sawWait
    ensures TurnOk(log + [Decided(t, turn.chat.sawWait, turn.chat.messages)], deliveries, t, DecidedTurn(t, turn))
  {
    AppendedTurn(log, Decided(t, turn.chat.sawWait, turn.chat.messages), t);
  }

  lemma DecideGrounds(c: Conv, t: nat)
    requires Inv(c) && t in c.turns && c.turns[t].chat.Publishing? && Current(c, t)
    ensures Grounds(c.log, Decided(t, c.turns[t].chat.sawWait, c.turns[t].chat.messages))
  {
    TurnOf(c, t);
  }

  /** The branch of `_publish_reply` that settles the reply or the silence. */
  predicate MayDecide(c: Conv, t: nat)
    requires t in c.turns && c.turns[t].chat.Publishing?
  {
    var turn := c.turns[t];
    Current(c, t) && (turn.waitClaimed ==> turn.waitDone) && (turn.waitSent ==> turn.chat.sawWait)
  }

  lemma DecideNow(c: Conv, t: nat)
    requires Inv(c) && t in c.turns && c.turns[t].chat.Publishing? && MayDecide(c, t)
    ensures Inv(Marked(c, Decided(t, c.turns[t].chat.sawWait, c.turns[t].chat.messages), t, DecidedTurn(t, c.turns[t]), c.allow))
  {
    var turn := c.turns[t];
    var decided := DecidedTurn(t, turn);
    TurnOf(c, t);
    DecideGrounds(c, t);
    DecideTurnOk(c.log, c.deliveries, t, turn);
    MarkedTurn(c, Decided(t, turn.chat.sawWait, turn.chat.messages), t, decided, c.allow);
  }

  lemma DecideResult(c: Conv, t: nat)
    requires t in c.turns && c.turns[t].chat.Publishing? && MayDecide(c, t)
    ensures Decision(c, t) == Marked(c, Decided(t, c.turns[t].chat.sawWait, c.turns[t].chat.messages), t,
                                     DecidedTurn(t, c.turns[t]), c.allow)
  {
  }

  lemma DecideStep(c: Conv, t: nat)
    requires Inv(c) && t in c.turns && c.turns[t].chat.Publishing?
    ensures Inv(Decision(c, t))
  {
    if MayDecide(c, t) {
      DecideNow(c, t);
      DecideResult(c, t);
    } else {
      UndecidedChange(c, t, Context);
      UndecidedChange(c, t, Published);
    }
  }

  lemma UndecidedChange(c: Conv, t: nat, chat: Chat)
    requires Inv(c) && t in c.turns && Undecided(c.turns[t].chat) && (chat.Context? || chat.Published?)
    ensures Inv(SetChat(c, t, chat))
  {
    TurnOf(c, t);
    ChatChange(c, t, chat);
  }

  lemma GoodEndGrounds(c: Conv, t: nat)
    requires Inv(c) && t in c.turns && c.turns[t].chat.Published? && EndedWell(c.turns[t]) && Current(c, t)
    ensures Grounds(c.log, GoodEnd(t))
  {
    var turn := c.turns[t];
    assert TurnOk(c.log, c.deliveries, t, turn);
    forall j: nat | j < turn.decision.messages ensures ResultsOf(c.log, ReplyKey(t, j)) == [Succeeded] {
      assert Sent(c.deliveries, ReplyKey(t, j));
    }
  }

  lemma LateStep(c: Conv, t: nat)
    requires Inv(c) && t in c.turns
    ensures Inv(SetTurn(c, t, c.turns[t].(late := true)))
  {
    TurnOf(c, t);
    SameTurnOk(c.log, c.deliveries, t, c.turns[t], c.turns[t].(late := true));
    TurnOnly(c, t, c.turns[t].(late := true));
  }

  lemma ReportGrounds(c: Conv, t: nat, job: nat)
    requires Inv(c) && t in c.turns && MayReport(c.turns[t])
    ensures Grounds(c.log, Reported(t, job))
  {
    var turn := c.turns[t];
    TurnOf(c, t);
    forall j: nat | j < turn.decision.messages ensures ResultsOf(c.log, ReplyKey(t, j)) == [Succeeded] {
      assert Sent(c.deliveries, ReplyKey(t, j));
    }
  }

  lemma ReportedStep(c: Conv, t: nat, job: nat, delivered: set<nat>)
    requires Inv(c) && t in c.turns && MayReport(c.turns[t])
    ensures Inv(Log(c, Reported(t, job)).(delivered := delivered))
  {
    var m := Reported(t, job);
    ReportGrounds(c, t, job);
    HistoryGrows(c.log, m);
    CountsKept(c.log, m, c.deliveries);
    AllTurnsAppend(c, m);
    ShapeLog(c, m);
    LiveLog(c, m, c.allow);
    assert Log(c, m) == Log(c, m).(allow := c.allow);
    Assembled(Log(c, m).(delivered := delivered));
  }

  lemma CleaningOk(log: seq<Mark>, deliveries: map<Key, Delivery>, t: nat, turn: Turn)
    requires TurnOk(log, deliveries, t, turn)
    ensures TurnOk(log + [GoodEnd(t)], deliveries, t, turn.(chat := Cleaning))
  {
    AppendedTurn(log, GoodEnd(t), t);
  }

  lemma EndChatStep(c: Conv, t: nat)
    requires Inv(c) && t in c.turns && c.turns[t].chat.Published?
    ensures Inv(Ended(c, t))
  {
    var turn := c.turns[t];
    if EndedWell(turn) && Current(c, t) {
      GoodEndGrounds(c, t);
      TurnOf(c, t);
      CleaningOk(c.log, c.deliveries, t, turn);
      MarkedTurn(c, GoodEnd(t), t, turn.(chat := Cleaning), true);
      assert Ended(c, t) == Marked(c, GoodEnd(t), t, turn.(chat := Cleaning), true);
    } else {
      LeavingStep(c, t, Cleaning, turn.timer);
      assert Ended(c, t) == SetTurn(c, t, turn.(chat := Cleaning, timer := turn.timer));
    }
  }
}
