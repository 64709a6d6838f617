/** The invariant holds in every state of every run of the prototype. */
module PrototypeRuns {
  import opened Wrappers
  import opened Prototype
  import opened PrototypeInvariant
  import opened PrototypeSteps
  import opened PrototypeTurns
  import opened PrototypeDeliveries
  import opened PrototypeRestart

  /** Changes of the host's own fields. */
  lemma HostStep(c: Conv, next: Conv)
    requires Inv(c) && next.log == c.log && next.deliveries == c.deliveries && next.turns == c.turns
    requires next.nextTurn == c.nextTurn && (next.turn == c.turn || next.turn == None)
    requires next.jobs > 0 || next.pending != [] || next.results != []
             ==> c.turns != map[] || c.jobs > 0 || c.pending != [] || c.results != []
    requires next.closing || (next.closing == c.closing && (next.allow ==> c.allow))
    ensures Inv(next)
  {
    Parts(c);
    assert Shape(next);
    assert Live(next);
    Assembled(next);
  }

  lemma JobStep(c: Conv, t: nat)
    requires Inv(c) && t in c.turns
    ensures Inv(c.(jobs := c.jobs + 1))
  {
    assert c.turns != map[];
    HostStep(c, c.(jobs := c.jobs + 1));
  }

  lemma SubmitLive(s: Conv, m: Mark, pending: seq<nat>)
    requires m.InboundAt? && Shape(s) && Live(s)
    requires s.turn.Some? && s.turn.value in s.turns ==> s.turns[s.turn.value].superseded
    ensures Shape(Log(s, m).(pending := pending, allow := false)) && Live(Log(s, m).(pending := pending, allow := false))
  {
    AppendedGate(s.log, m);
  }

  lemma SubmitStep(c: Conv, input: nat)
    requires Inv(c)
    ensures Inv(Log(Supersede(c), InboundAt(input)).(pending := c.pending + [input], allow := false))
  {
    SupersedeStep(c);
    var s := Supersede(c);
    var m := InboundAt(input);
    Parts(s);
    HistoryGrows(s.log, m);
    CountsKept(s.log, m, s.deliveries);
    AllTurnsAppend(s, m);
    SubmitLive(s, m, c.pending + [input]);
    Assembled(Log(s, m).(pending := c.pending + [input], allow := false));
  }

  lemma SubmittedStep(c: Conv, input: nat)
    requires Inv(c) && c.entering > 0
    ensures Inv(Submitted(c, input))
  {
    SubmitStep(c, input);
    var next := Log(Supersede(c), InboundAt(input)).(pending := c.pending + [input], allow := false);
    HostStep(next, next.(entering := c.entering - 1));
  }

  lemma TakeStep(c: Conv, notify: bool)
    requires Inv(c) && c.pending != []
    ensures Inv(Created(c, notify, None).(pending := []))
  {
    CreatedStep(c, notify, None);
    HostStep(Created(c, notify, None), Created(c, notify, None).(pending := []));
  }

  lemma ResultStep(c: Conv)
    requires Inv(c) && c.results != []
    ensures Inv(ResultTaken(c))
  {
    var next := c.(results := c.results[1..]);
    HostStep(c, next);
    if c.results[0] !in c.delivered {
      CreatedStep(next, false, Some(c.results[0]));
    }
  }

  lemma CloseStep(c: Conv)
    requires Inv(c)
    ensures Inv(Supersede(c).(closing := true, allow := true))
  {
    SupersedeStep(c);
    HostStep(Supersede(c), Supersede(c).(closing := true, allow := true));
  }

  lemma AskedStep(c: Conv, t: nat)
    requires Inv(c) && t in c.turns && c.turns[t].chat.Context?
    ensures Inv(Log(SetChat(c, t, Asking(c.turns[t].waitSent)), Asked(t, c.turns[t].waitSent)))
  {
    AskStep(c, t);
    AskResult(c, t);
  }

  lemma CollectedStep(c: Conv, t: nat)
    requires Inv(c) && Possible(c, Collect(t))
    ensures Inv(Collected(c, t))
  {
    CollectStep(c, t, Sent(c.deliveries, ReplyKey(t, c.turns[t].chat.next)));
    CollectResult(c, t);
  }

  lemma ChatStep(c: Conv, step: Step)
    requires Inv(c) && Possible(c, step) && OfChat(step)
    ensures Inv(ApplyChat(c, step))
  {
    match step
    case Ask(t) => AskedStep(c, t);
    case Answer(t, messages) => AnswerStep(c, t, messages);
    case Again(t) => AgainStep(c, t);
    case Decide(t) => DecideStep(c, t);
    case Collect(t) => CollectedStep(c, t);
    case GiveUp(t) => GiveUpStep(c, t);
    case EndChat(t) => EndChatStep(c, t);
  }

  lemma SpawningStep(c: Conv, step: Step)
    requires Inv(c) && Possible(c, step) && OfSpawning(step)
    ensures Inv(ApplySpawning(c, step))
  {
    match step
    case SpawnSend(t) => SpawnStep(c, t);
    case FireTimer(t) => FireStep(c, t);
    case Fail(t, notify) => FailStep(c, t, notify);
  }

  lemma SettledStep(c: Conv, key: Key)
    requires Inv(c) && key in c.deliveries && c.deliveries[key].Receipted? && key.turn in c.turns
    ensures Inv(Settling(c, key))
  {
    SettleStep(c, key, c.deliveries[key].outcome);
  }

  lemma DeliveryStep(c: Conv, step: Step)
    requires Inv(c) && Possible(c, step) && OfDelivery(step)
    ensures Inv(ApplyDelivery(c, step))
  {
    match step
    case Acquire(key) => AcquireStep(c, key);
    case Check(key) => CheckStep(c, key);
    case Receive(key, outcome) => ReceiveStep(c, key, outcome);
    case Settle(key) => SettledStep(c, key);
  }

  lemma LeavingStepOf(c: Conv, step: Step)
    requires Inv(c) && Possible(c, step) && OfLeaving(step)
    ensures Inv(ApplyLeaving(c, step))
  {
    match step
    case Kill(t) => LeavingStep(c, t, Cleaning, c.turns[t].timer);
    case Leave(t) => LeavingStep(c, t, Gone, c.turns[t].timer);
    case Clean(t) => LeavingStep(c, t, Gone, if c.turns[t].timer == Armed then Stopped else c.turns[t].timer);
    case MarkFinished(t) => FinishedStep(c, t);
    case PassDeadline(t) => LateStep(c, t);
  }

  lemma WorkerOnly(c: Conv, step: Step)
    requires Possible(c, step) && OfWorker(step) && !step.DoWork?
    ensures ApplyWorker(c, step) == c.(work := ApplyWorker(c, step).work)
  {
  }

  lemma WorkChange(c: Conv, work: Option<Work>)
    requires Inv(c)
    ensures Inv(c.(work := work))
  {
    HostStep(c, c.(work := work));
  }

  lemma WorkerStepOf(c: Conv, step: Step)
    requires Inv(c) && Possible(c, step) && OfWorker(step)
    ensures Inv(ApplyWorker(c, step))
  {
    if step.DoWork? {
      WorkedStep(c);
    } else {
      WorkerOnly(c, step);
      WorkChange(c, ApplyWorker(c, step).work);
    }
  }

  lemma HostStepOf(c: Conv, step: Step)
    requires Inv(c) && Possible(c, step) && OfHost(step)
    ensures Inv(ApplyHost(c, step))
  {
    match step
    case Enter => HostStep(c, ApplyHost(c, step));
    case Submit(input) => SubmittedStep(c, input);
    case Take(notify) => TakeStep(c, notify);
    case ResultArrives(_) => HostStep(c, ApplyHost(c, step));
    case TakeResult => ResultStep(c);
    case StartJob(t) => JobStep(c, t);
    case MarkDelivered(t) => ReportedStep(c, t, c.turns[t].report.value, ApplyHost(c, step).delivered);
    case Close => CloseStep(c);
    case Restart(replayed) => RestartStep(c, replayed);
    case ClearTurn(_) => HostStep(c, ApplyHost(c, step));
  }

  lemma StepKeeps(c: Conv, step: Step)
    requires Inv(c) && Possible(c, step)
    ensures Inv(Apply(c, step))
  {
    if OfChat(step) {
      ChatStep(c, step);
    } else if OfSpawning(step) {
      SpawningStep(c, step);
    } else if OfDelivery(step) {
      DeliveryStep(c, step);
    } else if OfLeaving(step) {
      LeavingStepOf(c, step);
    } else if OfWorker(step) {
      WorkerStepOf(c, step);
    } else {
      HostStepOf(c, step);
    }
  }

  lemma StartInv()
    ensures Inv(START)
  {
  }

  lemma {:induction false} RunInv(steps: seq<Step>)
    ensures Run(steps).Some? ==> Inv(Run(steps).value)
  {
    if steps == [] {
      StartInv();
    } else {
      RunInv(steps[..|steps| - 1]);
      if Run(steps).Some? {
        StepKeeps(Run(steps[..|steps| - 1]).value, steps[|steps| - 1]);
      }
    }
  }
}
