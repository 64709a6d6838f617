/** Every step of the prototype keeps the invariant: how the log reads after one more mark, what a step on
    one turn leaves alone, then the steps in groups. */
module PrototypeSteps {
  import opened Wrappers
  import opened Prototype
  import opened PrototypeInvariant

  // ---- one more mark ----

  lemma Appended(log: seq<Mark>, m: Mark)
    ensures forall key :: StartsOf(log + [m], key) == StartsOf(log, key) + if m == SendStarted(key) then 1 else 0
    ensures forall key :: ResultsOf(log + [m], key)
                          == ResultsOf(log, key) + if m.SendResult? && m.key == key then [m.outcome] else []
  {
    assert (log + [m])[..|log|] == log;
  }

  lemma AppendedTurn(log: seq<Mark>, m: Mark, t: nat)
    ensures DecisionsOf(log + [m], t) == DecisionsOf(log, t) + if m.Decided? && m.turn == t then [m] else []
    ensures LastAsk(log + [m], t) == if m.Asked? && m.turn == t then Some(m.sawWait) else LastAsk(log, t)
    ensures Undisturbed(log + [m], t) <==> m == TurnCreated(t) || (!m.InboundAt? && Undisturbed(log, t))
  {
    assert (log + [m])[..|log|] == log;
  }

  lemma AppendedGate(log: seq<Mark>, m: Mark)
    ensures GateOpen(log + [m])
            <==> m.GoodEnd? || (m.Restarted? && m.open) || (!m.InboundAt? && !m.Restarted? && GateOpen(log))
    ensures HasInbound(log) || m.InboundAt? ==> HasInbound(log + [m])
    ensures forall t: nat :: WasCreated(log + [m], t) <==> WasCreated(log, t) || m == TurnCreated(t)
  {
    assert (log + [m])[..|log|] == log;
    if HasInbound(log) {
      var i :| 0 <= i < |log| && log[i].InboundAt?;
      assert (log + [m])[i].InboundAt?;
    }
    assert (log + [m])[|log|] == m;
  }

  lemma HistoryGrows(log: seq<Mark>, m: Mark)
    requires History(log) && Grounds(log, m)
    ensures History(log + [m])
  {
    var longer := log + [m];
    forall p: nat | p < |longer| ensures Grounded(longer, p) {
      if p < |log| {
        assert Grounded(log, p);
        assert longer[..p] == log[..p];
      } else {
        assert longer[..p] == log;
      }
    }
  }

  // ---- what one step leaves alone ----

  predicate Agree(before: map<Key, Delivery>, after: map<Key, Delivery>, key: Key) {
    && (key in before <==> key in after)
    && (key in before && key in after ==> before[key] == after[key])
  }

  ghost predicate AgreeOn(before: map<Key, Delivery>, after: map<Key, Delivery>, t: nat) {
    forall key: Key | key.turn == t :: Agree(before, after, key)
  }

  lemma TurnFrame(log: seq<Mark>, longer: seq<Mark>, before: map<Key, Delivery>, after: map<Key, Delivery>, t: nat, turn: Turn)
    requires TurnOk(log, before, t, turn)
    requires DecisionsOf(longer, t) == DecisionsOf(log, t) && LastAsk(longer, t) == LastAsk(log, t)
    requires AgreeOn(before, after, t)
    ensures TurnOk(longer, after, t, turn)
  {
    assert Agree(before, after, WaitKey(t)) && Agree(before, after, ErrorKey(t));
    forall j: nat ensures Agree(before, after, ReplyKey(t, j)) {
    }
    assert forall n: nat :: SentBelow(before, t, n) ==> SentBelow(after, t, n);
    assert forall n: nat :: NoneFrom(before, t, n) ==> NoneFrom(after, t, n);
    assert InOrder(after, t);
  }

  /** A turn's record reads of the log only its decisions and its latest model call. */
  lemma LoggedTurnOk(log: seq<Mark>, longer: seq<Mark>, d: map<Key, Delivery>, t: nat, turn: Turn)
    requires TurnOk(log, d, t, turn)
    requires DecisionsOf(longer, t) == DecisionsOf(log, t) && LastAsk(longer, t) == LastAsk(log, t)
    ensures TurnOk(longer, d, t, turn)
  {
  }

  predicate About(marks: seq<Mark>, t: nat) {
    && |marks| <= 1
    && (forall m | m in marks :: m.Decided? || m.Asked? ==> m.turn == t)
  }

  ghost predicate OnlyTouches(c: Conv, next: Conv, marks: seq<Mark>, t: nat) {
    && next.log == c.log + marks && About(marks, t)
    && t in next.turns
    && (forall u | u in next.turns && u != t :: u in c.turns && next.turns[u] == c.turns[u])
    && (forall u: nat | u != t :: AgreeOn(c.deliveries, next.deliveries, u))
  }

  lemma MarksOfAnother(log: seq<Mark>, marks: seq<Mark>, t: nat, u: nat)
    requires About(marks, t) && u != t
    ensures DecisionsOf(log + marks, u) == DecisionsOf(log, u) && LastAsk(log + marks, u) == LastAsk(log, u)
  {
    if marks == [] {
      assert log + marks == log;
    } else {
      assert marks[0] in marks && marks == [marks[0]];
      AppendedTurn(log, marks[0], u);
    }
  }

  lemma OthersKept(c: Conv, next: Conv, marks: seq<Mark>, t: nat)
    requires AllTurns(c.log, c.deliveries, c.turns) && OnlyTouches(c, next, marks, t)
    requires TurnOk(next.log, next.deliveries, t, next.turns[t])
    ensures AllTurns(next.log, next.deliveries, next.turns)
  {
    forall u | u in next.turns ensures TurnOk(next.log, next.deliveries, u, next.turns[u]) {
      if u != t {
        MarksOfAnother(c.log, marks, t, u);
        TurnFrame(c.log, next.log, c.deliveries, next.deliveries, u, c.turns[u]);
      }
    }
  }

  /** The fields that the turn invariants read. */
  predicate SameProgress(a: Turn, b: Turn) {
    && a.silent == b.silent && a.outputStarted == b.outputStarted && a.waitClaimed == b.waitClaimed
    && a.waitSent == b.waitSent && a.waitDone == b.waitDone && a.valid == b.valid && a.sendFailed == b.sendFailed
    && a.timer == b.timer && a.chat == b.chat && a.decision == b.decision
  }

  lemma SameTurnOk(log: seq<Mark>, deliveries: map<Key, Delivery>, t: nat, a: Turn, b: Turn)
    requires TurnOk(log, deliveries, t, a) && SameProgress(a, b)
    ensures TurnOk(log, deliveries, t, b)
  {
  }

  lemma CountsKept(log: seq<Mark>, m: Mark, deliveries: map<Key, Delivery>)
    requires Counts(log, deliveries) && !m.SendStarted? && !m.SendResult?
    ensures Counts(log + [m], deliveries)
  {
    Appended(log, m);
  }

  lemma CountsPhase(log: seq<Mark>, deliveries: map<Key, Delivery>, key: Key, phase: Delivery)
    requires Counts(log, deliveries)
    requires Started(phase) <==> key in deliveries && Started(deliveries[key])
    requires ReceiptOf(phase) == ExpectedReceipts(deliveries, key)
    ensures Counts(log, deliveries[key := phase])
  {
    forall k ensures StartsOf(log, k) == ExpectedStarts(deliveries[key := phase], k)
                     && ResultsOf(log, k) == ExpectedReceipts(deliveries[key := phase], k) {
      assert StartsOf(log, k) == ExpectedStarts(deliveries, k);
    }
  }

  // ---- the parts of the invariant over the whole state ----

  lemma ShapeLog(c: Conv, m: Mark)
    requires Shape(c) && !m.TurnCreated?
    ensures Shape(Log(c, m))
  {
    AppendedGate(c.log, m);
  }

  lemma LiveLog(c: Conv, m: Mark, allow: bool)
    requires Live(c) && !m.InboundAt? && !m.Restarted? && (allow ==> c.allow || m.GoodEnd?)
    ensures Live(Log(c, m).(allow := allow))
  {
    AppendedGate(c.log, m);
    if c.turn.Some? {
      AppendedTurn(c.log, m, c.turn.value);
    }
  }

  lemma Assembled(c: Conv)
    requires Shape(c) && Counts(c.log, c.deliveries) && AllTurns(c.log, c.deliveries, c.turns) && History(c.log) && Live(c)
    ensures Inv(c)
  {
  }

  lemma Parts(c: Conv)
    requires Inv(c)
    ensures Shape(c) && Counts(c.log, c.deliveries) && AllTurns(c.log, c.deliveries, c.turns) && History(c.log) && Live(c)
  {
  }

  lemma TurnOf(c: Conv, t: nat)
    requires Inv(c) && t in c.turns
    ensures TurnOk(c.log, c.deliveries, t, c.turns[t])
  {
  }

  function Marked(c: Conv, m: Mark, t: nat, turn: Turn, allow: bool): Conv {
    Log(SetTurn(c, t, turn), m).(allow := allow)
  }

  lemma MarkedShape(c: Conv, m: Mark, t: nat, turn: Turn, allow: bool)
    requires Shape(c) && t in c.turns && !m.TurnCreated?
    ensures Shape(Marked(c, m, t, turn, allow))
  {
    assert Shape(SetTurn(c, t, turn));
    ShapeLog(SetTurn(c, t, turn), m);
  }

  lemma MarkedLive(c: Conv, m: Mark, t: nat, turn: Turn, allow: bool)
    requires Live(c) && t in c.turns
    requires !m.InboundAt? && !m.Restarted?
    requires c.turns[t].superseded ==> turn.superseded
    requires allow ==> c.allow || m.GoodEnd?
    ensures Live(Marked(c, m, t, turn, allow))
  {
    LiveLog(SetTurn(c, t, turn), m, allow);
  }

  lemma MarkedTurns(c: Conv, m: Mark, t: nat, turn: Turn, allow: bool)
    requires AllTurns(c.log, c.deliveries, c.turns) && t in c.turns && About([m], t)
    requires TurnOk(c.log + [m], c.deliveries, t, turn)
    ensures AllTurns(c.log + [m], c.deliveries, Marked(c, m, t, turn, allow).turns)
  {
    OthersKept(c, Marked(c, m, t, turn, allow), [m], t);
  }

  /** A mark and the rewriting of the turn it is about. */
  lemma MarkedTurn(c: Conv, m: Mark, t: nat, turn: Turn, allow: bool)
    requires Inv(c) && t in c.turns && Grounds(c.log, m) && About([m], t)
    requires !m.SendStarted? && !m.SendResult? && !m.TurnCreated? && !m.InboundAt? && !m.Restarted?
    requires c.turns[t].superseded ==> turn.superseded
    requires allow ==> c.allow || m.GoodEnd?
    requires TurnOk(c.log + [m], c.deliveries, t, turn)
    ensures Inv(Marked(c, m, t, turn, allow))
  {
    HistoryGrows(c.log, m);
    CountsKept(c.log, m, c.deliveries);
    MarkedTurns(c, m, t, turn, allow);
    MarkedShape(c, m, t, turn, allow);
    MarkedLive(c, m, t, turn, allow);
    Assembled(Marked(c, m, t, turn, allow));
  }
}
