/** What a drain has shown when it returns for want of work: it looks once, and only afterwards asks whether the
    producers are done or the run is cancelled. */
module MailboxReturns {
  import opened Wrappers
  import opened Protocol
  import opened LedgerModel
  import opened LedgerFacts
  import opened Messages
  import opened Kernel
  import opened KernelInvariant
  import opened KernelTables
  import opened KernelFrames
  import opened KernelMoves
  import opened KernelRounds
  import opened KernelRuns
  import opened KernelTheorems
  import opened UnknownRows
  import opened Mailbox

  // ---- returning ----

  /** What is pending or unshown while the drain has seen nothing was logged after its look. */
  lemma SeenMeans(sys: Sys, s: Session, read: nat, n: nat)
    requires Inv(sys) && SeenUpTo(sys, s, read) && AttentionAt(sys.shared.db.events, s, n)
    ensures n in Projected(sys.shared.db, s) <==> n <= read
    ensures n in Pending(sys.shared.db, s) <==> n > read
    ensures n <= read ==> n in Facts(Projection(sys.shared.db, s))
  {
    assert SessionInv(sys.shared, s);
    PendingListed(sys.shared.db, s, n);
    if n <= read {
      ShownWhenProjected(sys.shared, s, n);
    }
  }

  /** Steps during which a drain that has seen nothing neither looks again nor returns. */
  predicate Idle(e: MailStep) {
    e.Core? || e.ProducersDone?
  }

  predicate AllIdle(more: seq<MailStep>) {
    forall e | e in more :: Idle(e)
  }

  /** A drain that has seen nothing looked at `k`, when the log had length `read`, and idles since. */
  ghost predicate LookedAt(limits: Limits, s: Session, log: seq<MailStep>, k: nat, read: nat) {
    && k < |log| && log[k] == FindNothing && AllIdle(log[k + 1..])
    && Drained(limits, s, log[..k]).Some? && |Drained(limits, s, log[..k]).value.sys.shared.db.events| == read
  }

  lemma StillEmpty(limits: Limits, s: Session, m: Mail, e: MailStep)
    requires MailPossible(s, m, e) && Act(limits, s, m, e).stage.Empty? && e != FindNothing
    ensures Idle(e) && m.stage == Act(limits, s, m, e).stage
  {
  }

  /** The steps after `k`, but for the last one. */
  lemma SinceThen(log: seq<MailStep>, k: nat)
    requires k < |log| - 1
    ensures var n := |log| - 1;
            log[k + 1..] == log[..n][k + 1..] + [log[n]] && log[..n][..k] == log[..k] && log[..n][k] == log[k]
  {
  }

  lemma IdleBefore(all: seq<MailStep>, shorter: seq<MailStep>, last: MailStep)
    requires all == shorter + [last]
    ensures AllIdle(all) <==> AllIdle(shorter) && Idle(last)
    ensures last in all
  {
    assert all[|shorter|] == last;
    assert forall i | 0 <= i < |shorter| :: all[i] == shorter[i] && all[i] in all;
  }

  lemma LookGrows(limits: Limits, s: Session, log: seq<MailStep>, k: nat, read: nat)
    requires log != [] && LookedAt(limits, s, log[..|log| - 1], k, read) && Idle(log[|log| - 1])
    ensures LookedAt(limits, s, log, k, read)
  {
    SinceThen(log, k);
    IdleBefore(log[k + 1..], log[..|log| - 1][k + 1..], log[|log| - 1]);
  }

  lemma {:induction false} LastLook(limits: Limits, s: Session, log: seq<MailStep>) returns (k: nat)
    requires Drained(limits, s, log).Some? && Drained(limits, s, log).value.stage.Empty?
    ensures LookedAt(limits, s, log, k, Drained(limits, s, log).value.stage.read)
    decreases |log|
  {
    var n := |log| - 1;
    var before := Drained(limits, s, log[..n]).value;
    if log[n] == FindNothing {
      k := n;
    } else {
      StillEmpty(limits, s, before, log[n]);
      k := LastLook(limits, s, log[..n]);
      LookGrows(limits, s, log, k, before.stage.read);
    }
  }

  ghost predicate AllShown(sys: Sys, s: Session) {
    forall n: nat | AttentionAt(sys.shared.db.events, s, n) ::
      n in Projected(sys.shared.db, s) && n in Facts(Projection(sys.shared.db, s))
  }

  ghost predicate NothingSince(sys: Sys, s: Session, read: nat) {
    forall n: nat | AttentionAt(sys.shared.db.events, s, n) :: n <= read
  }

  lemma SeenAll(sys: Sys, s: Session, read: nat)
    requires Inv(sys) && SeenUpTo(sys, s, read)
    ensures AllShown(sys, s) <==> NothingSince(sys, s, read)
    ensures Pending(sys.shared.db, s) == [] <==> NothingSince(sys, s, read)
  {
    forall n: nat | AttentionAt(sys.shared.db.events, s, n)
      ensures n in Projected(sys.shared.db, s) <==> n <= read
      ensures n in Pending(sys.shared.db, s) <==> n > read
      ensures n <= read ==> n in Facts(Projection(sys.shared.db, s))
    {
      SeenMeans(sys, s, read, n);
    }
    if Pending(sys.shared.db, s) != [] {
      var n := Pending(sys.shared.db, s)[0];
      assert n in Pending(sys.shared.db, s);
      PendingListed(sys.shared.db, s, n);
    }
  }

  /** When a drain returns for want of work, what it has not shown, and what is still pending, is exactly what
      was logged for the session after its last look at `k`: it has shown everything if and only if nothing was. */
  lemma ShownAtTheReturn(limits: Limits, s: Session, log: seq<MailStep>, cancelled: bool, m: Mail)
    returns (k: nat, read: nat)
    requires log != [] && log[|log| - 1] == Return(cancelled) && Drained(limits, s, log) == Some(m)
    ensures LookedAt(limits, s, log[..|log| - 1], k, read)
    ensures forall n: nat | AttentionAt(m.sys.shared.db.events, s, n) ::
              && (n in Projected(m.sys.shared.db, s) <==> n <= read)
              && (n in Pending(m.sys.shared.db, s) <==> n > read)
    ensures AllShown(m.sys, s) <==> NothingSince(m.sys, s, read)
    ensures Pending(m.sys.shared.db, s) == [] <==> NothingSince(m.sys, s, read)
  {
    var before := Drained(limits, s, log[..|log| - 1]).value;
    DrainedInv(limits, s, log[..|log| - 1]);
    k := LastLook(limits, s, log[..|log| - 1]);
    read := before.stage.read;
    forall n: nat | AttentionAt(m.sys.shared.db.events, s, n)
      ensures n in Projected(m.sys.shared.db, s) <==> n <= read
      ensures n in Pending(m.sys.shared.db, s) <==> n > read
    {
      SeenMeans(before.sys, s, read, n);
    }
    SeenAll(before.sys, s, read);
  }

  // ---- what a caller can do about it ----

  /** A delivery or an observation for the session. */
  predicate Arrival(s: Session, e: MailStep) {
    e.Core? && ((e.step.Deliver? && e.step.key.session == s) || (e.step.Observe? && e.step.session == s))
  }

  ghost predicate NoAttentionAdded(before: seq<Event>, after: seq<Event>) {
    forall i | |before| <= i < |after| :: !IsAttention(after[i])
  }

  lemma JudgeAdds(sh: Shared, r: Runner, allow: bool)
    requires Enabled(r, Judge(allow))
    ensures NoAttentionAdded(sh.db.events, DoJudge(sh, r, allow).0.db.events)
  {
  }

  lemma BeginAdds(sh: Shared, r: Runner)
    requires Enabled(r, BeginAction)
    ensures NoAttentionAdded(sh.db.events, DoBegin(sh, r).0.db.events)
  {
  }

  lemma FinishAdds(sh: Shared, r: Runner)
    requires Enabled(r, FinishAction)
    ensures NoAttentionAdded(sh.db.events, DoFinish(sh, r).0.db.events)
  {
  }

  lemma MoveAdds(limits: Limits, sh: Shared, r: Runner, move: Move)
    requires Enabled(r, move)
    ensures NoAttentionAdded(sh.db.events, Do(limits, sh, r, move).0.db.events)
  {
    match move
    case Judge(allow) => JudgeAdds(sh, r, allow);
    case BeginAction => BeginAdds(sh, r);
    case FinishAction => FinishAdds(sh, r);
    case _ =>
  }

  lemma QuietCore(limits: Limits, s: Session, sys: Sys, step: Step, read: nat)
    requires Inv(sys) && Possible(sys, step) && Elsewhere(s, step) && !Arrival(s, Core(step))
    requires NothingSince(sys, s, read)
    ensures NothingSince(Apply(limits, sys, step), s, read)
  {
    var next := Apply(limits, sys, step);
    LogGrows(limits, sys, step);
    if step.RunnerStep? {
      MoveAdds(limits, sys.shared, sys.runners[step.session], step.move);
    }
    forall n: nat | AttentionAt(next.shared.db.events, s, n) ensures n <= read {
      if n <= |sys.shared.db.events| {
        assert AttentionAt(sys.shared.db.events, s, n);
      }
    }
  }

  lemma QuietIdle(limits: Limits, s: Session, m: Mail, e: MailStep, read: nat)
    requires MailInv(s, m) && MailPossible(s, m, e) && m.stage.Empty? && Act(limits, s, m, e).stage.Empty?
    requires Idle(e) && !Arrival(s, e) && NothingSince(m.sys, s, read)
    ensures NothingSince(Act(limits, s, m, e).sys, s, read)
  {
    if e.Core? {
      SameSys(limits, s, m, e.step);
      QuietCore(limits, s, m.sys, e.step, read);
    }
  }

  lemma LookedNow(limits: Limits, s: Session, log: seq<MailStep>, read: nat)
    requires log != [] && Drained(limits, s, log).Some? && LookedAt(limits, s, log, |log| - 1, read)
    ensures NothingSince(Drained(limits, s, log).value.sys, s, read)
  {
  }

  lemma LookedBefore(limits: Limits, s: Session, log: seq<MailStep>, k: nat, read: nat)
    requires log != [] && k < |log| - 1 && LookedAt(limits, s, log, k, read)
    ensures LookedAt(limits, s, log[..|log| - 1], k, read)
    ensures log[|log| - 1] != FindNothing && log[|log| - 1] in log[k + 1..]
  {
    SinceThen(log, k);
    IdleBefore(log[k + 1..], log[..|log| - 1][k + 1..], log[|log| - 1]);
  }

  lemma QuietNext(limits: Limits, s: Session, log: seq<MailStep>, e: MailStep, read: nat)
    requires Drained(limits, s, log).Some? && MailPossible(s, Drained(limits, s, log).value, e)
    requires Act(limits, s, Drained(limits, s, log).value, e).stage.Empty? && e != FindNothing && !Arrival(s, e)
    requires Drained(limits, s, log).value.stage.Empty? ==> NothingSince(Drained(limits, s, log).value.sys, s, read)
    ensures NothingSince(Act(limits, s, Drained(limits, s, log).value, e).sys, s, read)
  {
    var before := Drained(limits, s, log).value;
    DrainedInv(limits, s, log);
    StillEmpty(limits, s, before, e);
    QuietIdle(limits, s, before, e, read);
  }

  lemma {:induction false} QuietSince(limits: Limits, s: Session, log: seq<MailStep>, k: nat, read: nat)
    requires Drained(limits, s, log).Some? && Drained(limits, s, log).value.stage.Empty?
    requires LookedAt(limits, s, log, k, read)
    requires forall e | e in log[k + 1..] :: !Arrival(s, e)
    ensures NothingSince(Drained(limits, s, log).value.sys, s, read)
    decreases |log|
  {
    var n := |log| - 1;
    if k == n {
      LookedNow(limits, s, log, read);
    } else {
      LookedBefore(limits, s, log, k, read);
      SinceThen(log, k);
      if Drained(limits, s, log[..n]).value.stage.Empty? {
        QuietSince(limits, s, log[..n], k, read);
      }
      QuietNext(limits, s, log[..n], log[n], read);
    }
  }

  /** A drain whose last look came after the last delivery and observation of the session has shown everything. */
  lemma NothingArrivedNothingMissed(limits: Limits, s: Session, log: seq<MailStep>, cancelled: bool, m: Mail) returns (k: nat)
    requires log != [] && log[|log| - 1] == Return(cancelled) && Drained(limits, s, log) == Some(m)
    ensures k < |log| - 1 && log[k] == FindNothing && AllIdle(log[k + 1..|log| - 1])
    ensures (forall e | e in log[k + 1..|log| - 1] :: !Arrival(s, e)) ==> AllShown(m.sys, s) && Pending(m.sys.shared.db, s) == []
  {
    var read: nat;
    k, read := ShownAtTheReturn(limits, s, log, cancelled, m);
    var shorter := log[..|log| - 1];
    assert log[k + 1..|log| - 1] == shorter[k + 1..];
    if forall e | e in log[k + 1..|log| - 1] :: !Arrival(s, e) {
      QuietSince(limits, s, shorter, k, read);
    }
  }

  // ---- an arrival that is missed ----

  lemma DrainedNext(limits: Limits, s: Session, log: seq<MailStep>, e: MailStep)
    requires Drained(limits, s, log).Some? && MailPossible(s, Drained(limits, s, log).value, e)
    ensures Drained(limits, s, log + [e]) == Some(Act(limits, s, Drained(limits, s, log).value, e))
  {
    assert (log + [e])[..|log|] == log && (log + [e])[|log|] == e;
  }

  function Arriving(key: DeliveryKey, payload: string, transport: string): seq<MailStep> {
    [Core(Deliver(key, payload, transport))] + [ProducersDone] + [Return(false)]
  }

  lemma DeliveredLate(limits: Limits, s: Session, m: Mail, key: DeliveryKey, payload: string, transport: string)
    requires MailInv(s, m) && m.stage.Empty? && key.session == s && key !in m.sys.shared.db.deliveries
    ensures var e := Core(Deliver(key, payload, transport)); var n := |m.sys.shared.db.events| + 1;
            && MailPossible(s, m, e)
            && Act(limits, s, m, e).stage == m.stage && Act(limits, s, m, e).outcomes == m.outcomes
            && AttentionAt(Act(limits, s, m, e).sys.shared.db.events, s, n)
  {
    DeliveriesWellFormed(m.sys.shared.db);
    DeliverResult(limits, m.sys, key, payload, transport);
  }

  /** From every moment at which a drain has seen nothing, a message may still arrive, the producers be done, and
      the drain return with good outcomes only: the message is pending and in no projection. */
  lemma ArrivalIsMissed(limits: Limits, s: Session, log: seq<MailStep>, m: Mail,
                        key: DeliveryKey, payload: string, transport: string) returns (end: Mail)
    requires Drained(limits, s, log) == Some(m) && m.stage.Empty?
    requires key.session == s && key !in m.sys.shared.db.deliveries
    ensures Drained(limits, s, log + Arriving(key, payload, transport)) == Some(end)
    ensures end.stage.Off? && end.outcomes == m.outcomes && AllGood(end.outcomes)
    ensures var n := |m.sys.shared.db.events| + 1;
            && AttentionAt(end.sys.shared.db.events, s, n)
            && n in Pending(end.sys.shared.db, s) && n !in Projected(end.sys.shared.db, s)
  {
    var e := Core(Deliver(key, payload, transport));
    DrainedInv(limits, s, log);
    DeliveredLate(limits, s, m, key, payload, transport);
    var arrived := Act(limits, s, m, e);
    DrainedNext(limits, s, log, e);
    DrainedNext(limits, s, log + [e], ProducersDone);
    DrainedNext(limits, s, log + [e] + [ProducersDone], Return(false));
    assert log + [e] + [ProducersDone] + [Return(false)] == log + Arriving(key, payload, transport);
    end := Act(limits, s, Act(limits, s, arrived, ProducersDone), Return(false));
    CoreKeeps(limits, s, m, e.step);
    SeenMeans(arrived.sys, s, m.stage.read, |m.sys.shared.db.events| + 1);
  }

  /** The shortest such run: drain is called on an empty ledger, looks, and misses the only message there is. */
  lemma OnlyMessageMissed(limits: Limits, s: Session, source: string, payload: string, transport: string) returns (end: Mail)
    ensures Drained(limits, s, [Call(false), FindNothing] + Arriving(DeliveryKey(s, source, payload), payload, transport)) == Some(end)
    ensures end.stage.Off? && end.outcomes == [] && 1 in Pending(end.sys.shared.db, s) && 1 !in Projected(end.sys.shared.db, s)
  {
    var called := [Call(false)];
    DrainedNext(limits, s, [], Call(false));
    assert [] + called == called;
    DrainedNext(limits, s, called, FindNothing);
    assert called + [FindNothing] == [Call(false), FindNothing];
    var m := Drained(limits, s, [Call(false), FindNothing]).value;
    end := ArrivalIsMissed(limits, s, [Call(false), FindNothing], m, DeliveryKey(s, source, payload), payload, transport);
  }
}
