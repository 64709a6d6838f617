/** The invariant holds in every state of every run: any interleaving of deliveries, observations,
    host events, turns of any sessions, failures and crashes. */
module KernelRuns {
  import opened Wrappers
  import opened Protocol
  import opened LedgerModel
  import opened LedgerFacts
  import opened Messages
  import opened Kernel
  import opened KernelInvariant
  import opened KernelTables
  import opened KernelFrames
  import opened KernelMoves
  import opened KernelActions
  import opened KernelRounds

  lemma InitialInv()
    ensures Inv(INITIAL)
  {
    forall s: Session ensures SessionInv(INITIAL.shared, s) {
      assert INITIAL.shared.db.events[..0] == [];
    }
  }

  // ---- steps from outside any turn ----

  /** A step that leaves the runners alone and that every session can rely on. */
  lemma OutsideStep(sys: Sys, next: Sys)
    requires Inv(sys) && next.runners == sys.runners && next.serial == sys.serial
    requires SharedInv(next.shared) && SerialsUsed(next.shared.db, next.serial)
    requires forall t: Session :: Rely(sys.shared, next.shared, t)
    ensures Inv(next)
  {
    forall s: Session ensures SessionInv(next.shared, s) {
      assert Rely(sys.shared, next.shared, s);
      SessionKept(sys.shared, next.shared, s, None);
    }
    forall s | s in next.runners
      ensures RunnerInv(next.shared, s, next.runners[s]) && next.runners[s].turn.serial < next.serial
    {
      RunnerKept(sys.shared, next.shared, s, sys.runners[s]);
    }
  }

  lemma AppendStep(sys: Sys, e: Event)
    requires Inv(sys) && Plain(e) && !IsOwn(e)
    ensures Inv(WithDb(sys, Append(sys.shared.db, e)))
  {
    var next := WithDb(sys, Append(sys.shared.db, e));
    AppendKeepsShared(sys.shared, e);
    forall t: Session ensures Rely(sys.shared, next.shared, t) { RelyAppend(sys.shared, e, t); }
    OutsideStep(sys, next);
  }

  function Delivered(db: Db, key: DeliveryKey, e: Event): Db {
    Append(db, e).(deliveries := db.deliveries[key := |db.events| + 1])
  }

  lemma DeliverRely(sh: Shared, e: Event, key: DeliveryKey, t: Session)
    requires !IsOwn(e)
    ensures Rely(sh, sh.(db := Delivered(sh.db, key, e)), t)
  {
  }

  lemma DeliverResult(limits: Limits, sys: Sys, key: DeliveryKey, payload: string, transport: string)
    requires Possible(sys, Deliver(key, payload, transport))
    ensures Apply(limits, sys, Deliver(key, payload, transport)) ==
              if key in sys.shared.db.deliveries then sys
              else
                WithDb(sys, Delivered(sys.shared.db, key,
                                      Event(key.session, OfDelivery(key.source, key.external), Inbound(payload, transport))))
  {
  }

  lemma DeliverStep(limits: Limits, sys: Sys, key: DeliveryKey, payload: string, transport: string)
    requires Inv(sys) && Possible(sys, Deliver(key, payload, transport))
    ensures Inv(Apply(limits, sys, Deliver(key, payload, transport)))
  {
    DeliverResult(limits, sys, key, payload, transport);
    if key !in sys.shared.db.deliveries {
      var e := Event(key.session, OfDelivery(key.source, key.external), Inbound(payload, transport));
      var next := WithDb(sys, Delivered(sys.shared.db, key, e));
      DeliverKeepsShared(sys.shared, key, payload, transport);
      forall t: Session ensures Rely(sys.shared, next.shared, t) { DeliverRely(sys.shared, e, key, t); }
      OutsideStep(sys, next);
    }
  }

  // ---- starting a turn ----

  lemma NewRunnerInv(sh: Shared, s: Session, serial: nat)
    requires RowsBelong(sh.db) && SerialsUsed(sh.db, serial)
    ensures RunnerInv(sh, s, NewRunner(TurnId(s, serial)))
  {
  }

  lemma StartStep(limits: Limits, sys: Sys, s: Session, input: Option<string>)
    requires Inv(sys) && s !in sys.runners
    ensures Inv(Apply(limits, sys, StartTurn(s, input)))
  {
    var turn := TurnId(s, sys.serial);
    var started := sys.(runners := sys.runners[s := NewRunner(turn)], serial := sys.serial + 1);
    NewRunnerInv(sys.shared, s, sys.serial);
    assert Inv(started);
    if input.Some? { AppendStep(started, Event(s, OfTurn(turn), Inbound(input.value, ""))); }
  }

  // ---- a runner's move ----

  lemma SerialsMove(limits: Limits, sh: Shared, r: Runner, m: Move, serial: nat)
    requires SerialsUsed(sh.db, serial) && r.turn.serial < serial && Enabled(r, m)
    ensures SerialsUsed(Do(limits, sh, r, m).0.db, serial)
    ensures Do(limits, sh, r, m).1.Some? ==> Do(limits, sh, r, m).1.value.turn == r.turn
  {
  }

  lemma RunnerStepKeeps(limits: Limits, sys: Sys, s: Session, m: Move)
    requires Inv(sys) && Possible(sys, RunnerStep(s, m))
    ensures Inv(Apply(limits, sys, RunnerStep(s, m)))
  {
    var r := sys.runners[s];
    var (shared, runner) := Do(limits, sys.shared, r, m);
    var next := SetRunner(sys, s, shared, runner);
    MoveKeeps(limits, sys.shared, s, r, m);
    SerialsMove(limits, sys.shared, r, m, sys.serial);
    forall t: Session ensures SessionInv(next.shared, t) {
      if t != s {
        assert Rely(sys.shared, shared, t);
        SessionKept(sys.shared, shared, t, None);
      }
    }
    forall t | t in next.runners
      ensures RunnerInv(next.shared, t, next.runners[t]) && next.runners[t].turn.serial < next.serial
    {
      if t != s { RunnerKept(sys.shared, shared, t, sys.runners[t]); }
    }
  }

  // ---- crash and recovery ----

  lemma {:induction false} CloseAllKeepsSession(sh: Shared, order: seq<ActionId>, t: Session)
    requires SessionInv(sh, t)
    requires forall id | id in order :: id in sh.db.actions && sh.db.actions[id].status == Started
    requires forall i, j | 0 <= i < j < |order| :: order[i] != order[j]
    ensures SessionInv(sh.(db := CloseAll(sh.db, order)), t)
    decreases |order|
  {
    if order != [] {
      var n := |order| - 1;
      CloseAllKeepsSession(sh, order[..n], t);
      CloseAllRows(sh.db, order[..n]);
      assert order[n] !in order[..n];
      assert order[n] in order;
      var middle := sh.(db := CloseAll(sh.db, order[..n]));
      CloseUnknownFrame(middle, order[n], t);
      SessionKept(middle, sh.(db := CloseAll(sh.db, order)), t, None);
    }
  }

  predicate OnlyTurnEnds(events: seq<Event>) {
    forall i | 0 <= i < |events| :: events[i].body.TurnEnd?
  }

  lemma {:induction false} EndsAreTurnEnds(db: Db, n: nat)
    requires n <= |db.events|
    ensures OnlyTurnEnds(InterruptedEnds(db, n))
  {
    if n > 0 { EndsAreTurnEnds(db, n - 1); }
  }

  lemma {:induction false} TurnEndsKeep(sh: Shared, ends: seq<Event>)
    requires SharedInv(sh) && OnlyTurnEnds(ends) && forall s: Session :: SessionInv(sh, s)
    ensures SharedInv(sh.(db := sh.db.(events := sh.db.events + ends)))
    ensures forall s: Session :: SessionInv(sh.(db := sh.db.(events := sh.db.events + ends)), s)
    decreases |ends|
  {
    if ends == [] {
      assert sh.db.events + ends == sh.db.events;
    } else {
      var n := |ends| - 1;
      TurnEndsKeep(sh, ends[..n]);
      var middle := sh.(db := sh.db.(events := sh.db.events + ends[..n]));
      var after := sh.(db := sh.db.(events := sh.db.events + ends));
      assert sh.db.events + ends == sh.db.events + ends[..n] + [ends[n]];
      assert after == middle.(db := Append(middle.db, ends[n]));
      AppendKeepsShared(middle, ends[n]);
      forall s: Session ensures SessionInv(after, s) { AppendKeepsSession(middle, ends[n], s); }
    }
  }

  lemma RecoverKeeps(sh: Shared, order: seq<ActionId>)
    requires SharedInv(sh) && Enumerates(order, StartedIds(sh.db)) && forall s: Session :: SessionInv(sh, s)
    ensures SharedInv(sh.(db := Recover(sh.db, order)))
    ensures forall s: Session :: SessionInv(sh.(db := Recover(sh.db, order)), s)
    ensures Recover(sh.db, order).rounds == sh.db.rounds
  {
    var closed := sh.(db := CloseAll(sh.db, order));
    CloseAllKeepsShared(sh, order);
    CloseAllRows(sh.db, order);
    forall s: Session ensures SessionInv(closed, s) { CloseAllKeepsSession(sh, order, s); }
    EndsAreTurnEnds(closed.db, |closed.db.events|);
    TurnEndsKeep(closed, InterruptedEnds(closed.db, |closed.db.events|));
  }

  // ---- all steps, all runs ----

  lemma StepKeeps(limits: Limits, sys: Sys, step: Step)
    requires Inv(sys) && Possible(sys, step)
    ensures Inv(Apply(limits, sys, step))
  {
    match step
    case Deliver(key, payload, transport) => DeliverStep(limits, sys, key, payload, transport);
    case Observe(session, origin, payload) => AppendStep(sys, Event(session, origin, MediaObservation(payload)));
    case Host(event) => AppendStep(sys, event);
    case StartTurn(session, input) => StartStep(limits, sys, session, input);
    case RunnerStep(session, move) => RunnerStepKeeps(limits, sys, session, move);
    case Crash(order) => RecoverKeeps(sys.shared, order);
  }

  lemma {:induction false} RunInv(limits: Limits, steps: seq<Step>)
    requires Run(limits, steps).Some?
    ensures Inv(Run(limits, steps).value)
    decreases |steps|
  {
    if steps == [] {
      InitialInv();
    } else {
      RunInv(limits, steps[..|steps| - 1]);
      StepKeeps(limits, Run(limits, steps[..|steps| - 1]).value, steps[|steps| - 1]);
    }
  }
}
