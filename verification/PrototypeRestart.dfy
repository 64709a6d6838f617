/** A restart keeps the invariant: the receipts it adds are one `unknown` for each start that had none. */
module PrototypeRestart {
  import opened Wrappers
  import opened Prototype
  import opened PrototypeInvariant
  import opened PrototypeSteps

  lemma {:induction false} StartsGrow(log: seq<Mark>, n: nat, key: Key)
    requires n <= |log|
    ensures StartsOf(log[..n], key) <= StartsOf(log, key)
  {
    if n < |log| {
      assert log[..|log| - 1][..n] == log[..n];
      StartsGrow(log[..|log| - 1], n, key);
    } else {
      assert log[..n] == log;
    }
  }

  predicate Missing(log: seq<Mark>, n: nat, key: Key)
    requires n <= |log|
  {
    StartsOf(log[..n], key) == 1 && ResultsOf(log, key) == []
  }

  ghost predicate SingleStarts(log: seq<Mark>) {
    forall key :: StartsOf(log, key) <= 1
  }

  /** What the log says of sends once the first `n` marks have been looked at. */
  ghost predicate Repaired(log: seq<Mark>, n: nat, longer: seq<Mark>)
    requires n <= |log|
  {
    && (forall key :: StartsOf(longer, key) == StartsOf(log, key))
    && (forall key :: ResultsOf(longer, key) == ResultsOf(log, key) + if Missing(log, n, key) then [Unknown] else [])
  }

  lemma RepairedNext(log: seq<Mark>, n: nat, longer: seq<Mark>)
    requires 0 < n <= |log| && SingleStarts(log) && Repaired(log, n - 1, longer)
    ensures var m := log[n - 1];
            if m.SendStarted? && ResultsOf(log, m.key) == []
            then ResultsOf(longer, m.key) == [] && StartsOf(longer, m.key) == 1
                 && Repaired(log, n, longer + [SendResult(m.key, Unknown)])
            else Repaired(log, n, longer)
  {
    var m := log[n - 1];
    var before := log[..n - 1];
    assert log[..n] == before + [m];
    Appended(before, m);
    forall key ensures StartsOf(log[..n], key) <= 1 {
      StartsGrow(log, n, key);
    }
    if m.SendStarted? && ResultsOf(log, m.key) == [] {
      assert StartsOf(before, m.key) + 1 == StartsOf(log[..n], m.key);
      StartsGrow(log, n, m.key);
      Appended(longer, SendResult(m.key, Unknown));
    }
  }

  lemma {:induction false} OrphansRepair(log: seq<Mark>, n: nat)
    requires n <= |log| && SingleStarts(log) && History(log)
    ensures Repaired(log, n, log + OrphanResults(log, n))
    ensures History(log + OrphanResults(log, n))
  {
    if n == 0 {
      assert log + OrphanResults(log, n) == log;
      assert log[..0] == [];
    } else {
      var m := log[n - 1];
      var longer := log + OrphanResults(log, n - 1);
      OrphansRepair(log, n - 1);
      RepairedNext(log, n, longer);
      if m.SendStarted? && ResultsOf(log, m.key) == [] {
        assert log + OrphanResults(log, n) == longer + [SendResult(m.key, Unknown)];
        HistoryGrows(longer, SendResult(m.key, Unknown));
      } else {
        assert log + OrphanResults(log, n) == longer;
      }
    }
  }

  /** The receipts touch nothing but receipts. */
  lemma {:induction false} OrphansQuiet(log: seq<Mark>, n: nat, t: nat)
    requires n <= |log|
    ensures DecisionsOf(log + OrphanResults(log, n), t) == DecisionsOf(log, t)
    ensures LastAsk(log + OrphanResults(log, n), t) == LastAsk(log, t)
    ensures WasCreated(log + OrphanResults(log, n), t) ==> WasCreated(log, t)
  {
    if n == 0 {
      assert log + OrphanResults(log, n) == log;
    } else {
      var m := log[n - 1];
      var longer := log + OrphanResults(log, n - 1);
      OrphansQuiet(log, n - 1, t);
      if m.SendStarted? && ResultsOf(log, m.key) == [] {
        var r := SendResult(m.key, Unknown);
        assert log + OrphanResults(log, n) == longer + [r];
        AppendedTurn(longer, r, t);
      } else {
        assert log + OrphanResults(log, n) == longer;
      }
    }
  }

  lemma {:induction false} NoStarts(log: seq<Mark>, n: nat)
    requires n <= |log|
    requires forall key :: StartsOf(log, key) == 0
    ensures OrphanResults(log, n) == []
  {
    if n > 0 {
      NoStarts(log, n - 1);
      if log[n - 1].SendStarted? {
        assert log[..n] == log[..n - 1] + [log[n - 1]];
        Appended(log[..n - 1], log[n - 1]);
        StartsGrow(log, n, log[n - 1].key);
      }
    }
  }

  /** A conversation whose state cannot be rebuilt from an inbound event has no send to repair. */
  lemma NothingSkipped(c: Conv)
    requires Inv(c)
    ensures (if HasInbound(c.log) then OrphanResults(c.log, |c.log|) else []) == OrphanResults(c.log, |c.log|)
  {
    if !HasInbound(c.log) {
      forall key ensures StartsOf(c.log, key) == 0 {
        assert StartsOf(c.log, key) == ExpectedStarts(c.deliveries, key);
      }
      NoStarts(c.log, |c.log|);
    }
  }

  function StoppedDeliveries(deliveries: map<Key, Delivery>): map<Key, Delivery> {
    map key | key in deliveries :: StoppedDelivery(deliveries[key])
  }

  lemma StoppedCounts(log: seq<Mark>, deliveries: map<Key, Delivery>, longer: seq<Mark>)
    requires Counts(log, deliveries) && Repaired(log, |log|, longer)
    ensures Counts(longer, StoppedDeliveries(deliveries))
  {
    var stopped := StoppedDeliveries(deliveries);
    assert log[..|log|] == log;
    forall key
      ensures StartsOf(longer, key) == ExpectedStarts(stopped, key)
              && ResultsOf(longer, key) == ExpectedReceipts(stopped, key) {
      assert StartsOf(log, key) == ExpectedStarts(deliveries, key);
      assert ResultsOf(log, key) == ExpectedReceipts(deliveries, key);
      assert StartsOf(longer, key) == StartsOf(log, key);
      assert ResultsOf(longer, key) == ResultsOf(log, key) + if Missing(log, |log|, key) then [Unknown] else [];
    }
  }

  lemma StoppedTurnOk(c: Conv, longer: seq<Mark>, t: nat)
    requires t in c.turns && TurnOk(c.log, c.deliveries, t, c.turns[t])
    requires DecisionsOf(longer, t) == DecisionsOf(c.log, t)
    ensures TurnOk(longer, StoppedDeliveries(c.deliveries), t, StoppedTurn(c, t))
  {
    var stopped := StoppedDeliveries(c.deliveries);
    assert forall j: nat :: Sent(c.deliveries, ReplyKey(t, j)) ==> Sent(stopped, ReplyKey(t, j));
    assert forall n: nat :: SentBelow(c.deliveries, t, n) ==> SentBelow(stopped, t, n);
    assert forall n: nat :: NoneFrom(c.deliveries, t, n) ==> NoneFrom(stopped, t, n);
    assert InOrder(stopped, t);
  }

  lemma RestartedTurns(c: Conv, longer: seq<Mark>)
    requires AllTurns(c.log, c.deliveries, c.turns)
    requires forall t: nat :: DecisionsOf(longer, t) == DecisionsOf(c.log, t)
    ensures AllTurns(longer, StoppedDeliveries(c.deliveries), map t | t in c.turns :: StoppedTurn(c, t))
  {
    var turns := map t | t in c.turns :: StoppedTurn(c, t);
    forall t | t in turns ensures TurnOk(longer, StoppedDeliveries(c.deliveries), t, turns[t]) {
      StoppedTurnOk(c, longer, t);
    }
  }

  lemma RestartLog(c: Conv, m: Mark)
    requires Inv(c) && m.Restarted?
    ensures var longer := c.log + OrphanResults(c.log, |c.log|) + [m];
            && History(longer) && Counts(longer, StoppedDeliveries(c.deliveries))
            && (forall t: nat :: DecisionsOf(longer, t) == DecisionsOf(c.log, t))
            && (forall t: nat :: WasCreated(longer, t) ==> WasCreated(c.log, t))
            && (HasInbound(c.log) ==> HasInbound(longer))
  {
    Parts(c);
    var repaired := c.log + OrphanResults(c.log, |c.log|);
    forall key ensures StartsOf(c.log, key) <= 1 {
      assert StartsOf(c.log, key) == ExpectedStarts(c.deliveries, key);
    }
    OrphansRepair(c.log, |c.log|);
    StoppedCounts(c.log, c.deliveries, repaired);
    HistoryGrows(repaired, m);
    CountsKept(repaired, m, StoppedDeliveries(c.deliveries));
    AppendedGate(repaired, m);
    forall t: nat ensures DecisionsOf(repaired + [m], t) == DecisionsOf(c.log, t)
                          && (WasCreated(repaired + [m], t) ==> WasCreated(c.log, t)) {
      OrphansQuiet(c.log, |c.log|, t);
      AppendedTurn(repaired, m, t);
    }
    if HasInbound(c.log) {
      var i :| 0 <= i < |c.log| && c.log[i].InboundAt?;
      assert repaired[i].InboundAt?;
    }
  }

  lemma RestartParts(c: Conv, replayed: seq<nat>)
    requires Inv(c)
    ensures var next := Restarting(c, replayed);
            && next.log == c.log + OrphanResults(c.log, |c.log|) + [Restarted(replayed == [])]
            && next.deliveries == StoppedDeliveries(c.deliveries)
            && next.turns == (map t | t in c.turns :: StoppedTurn(c, t))
  {
    NothingSkipped(c);
  }

  lemma RestartShape(c: Conv, replayed: seq<nat>, next: Conv)
    requires Shape(c) && next.turns.Keys == c.turns.Keys && next.deliveries.Keys == c.deliveries.Keys
    requires next.nextTurn == c.nextTurn && next.turn == None && next.jobs == c.jobs && next.results == [] && next.pending == replayed
    requires forall t: nat :: WasCreated(next.log, t) ==> WasCreated(c.log, t)
    requires HasInbound(c.log) ==> HasInbound(next.log)
    requires forall input | input in replayed :: InboundAt(input) in c.log
    ensures Shape(next)
  {
    if replayed != [] {
      assert replayed[0] in replayed;
      assert HasInbound(c.log);
    }
    if next.turns != map[] {
      var t :| t in next.turns;
      assert t in next.turns.Keys;
      assert c.turns != map[];
    }
  }

  lemma RestartLive(c: Conv, replayed: seq<nat>)
    requires Inv(c)
    ensures Live(Restarting(c, replayed))
  {
    RestartParts(c, replayed);
    AppendedGate(c.log + OrphanResults(c.log, |c.log|), Restarted(replayed == []));
  }

  lemma RestartTables(c: Conv, replayed: seq<nat>)
    requires Inv(c)
    ensures var next := Restarting(c, replayed);
            Counts(next.log, next.deliveries) && AllTurns(next.log, next.deliveries, next.turns) && History(next.log)
  {
    RestartParts(c, replayed);
    RestartLog(c, Restarted(replayed == []));
    Parts(c);
    RestartedTurns(c, Restarting(c, replayed).log);
  }

  lemma RestartStep(c: Conv, replayed: seq<nat>)
    requires Inv(c)
    requires forall input | input in replayed :: InboundAt(input) in c.log
    ensures Inv(Restarting(c, replayed))
  {
    RestartParts(c, replayed);
    RestartLog(c, Restarted(replayed == []));
    Parts(c);
    RestartShape(c, replayed, Restarting(c, replayed));
    RestartLive(c, replayed);
    RestartTables(c, replayed);
    Assembled(Restarting(c, replayed));
  }
}
