/** A worker that was asked to stop, or to take up a change: when its next tool or report may start. */
module PrototypeStops {
  import opened Wrappers
  import opened Prototype
  import opened PrototypeTheorems

  function WorkedCount(log: seq<Mark>): nat {
    if log == [] then 0 else WorkedCount(log[..|log| - 1]) + if log[|log| - 1].Worked? then 1 else 0
  }

  // ---- what the steps of a run mean for the work in progress ----

  datatype Signal = Cancelled | Updated | TookUp | Halted | Broke | Other

  /** A change that does not reach the work (a stale turn, a job no longer active) is no signal. */
  function SignalOf(c: Conv, step: Step): Signal {
    match step
    case ChangeJob(t, stop) => if !Reaches(c, t) then Other else if stop then Cancelled else Updated
    case TakeRestart => TookUp
    case StopWork => Halted
    case LeaveLoop => Broke
    case _ => Other
  }

  /** The steps stay within one work: it does not end and the process is not started again. */
  predicate OneWork(more: seq<Step>) {
    forall step | step in more :: !step.EndWork? && !step.Restart?
  }

  /** One signal for each step of `more`, taken after `steps`. */
  function Signals(steps: seq<Step>, more: seq<Step>): (signals: seq<Signal>)
    requires Run(steps + more).Some?
    ensures |signals| == |more|
    decreases |more|
  {
    if more == [] then []
    else
      var shorter := more[..|more| - 1];
      RunPrefix(steps, more);
      Signals(steps, shorter) + [SignalOf(Run(steps + shorter).value, more[|more| - 1])]
  }

  predicate Stops(s: Signal) { s.Cancelled? || s.Halted? }

  predicate Asks(s: Signal) { Stops(s) || s.Updated? }

  predicate NoStop(signals: seq<Signal>, i: int, k: int)
    requires 0 <= i <= k <= |signals|
  {
    forall j | i <= j < k :: !Stops(signals[j])
  }

  /** An update is the last thing that `signals[..k]` says about stopping; or nothing there asks for a stop
      and there was none to begin with. */
  ghost predicate Unstopped(signals: seq<Signal>, k: nat, stopped: bool)
    requires k <= |signals|
  {
    || (!stopped && NoStop(signals, 0, k))
    || (exists i: nat :: i < k && signals[i].Updated? && NoStop(signals, i, k))
  }

  /** The worker takes up the latest request at `k`, and none follows. */
  predicate TakenUp(signals: seq<Signal>, k: nat) {
    k < |signals| && signals[k].TookUp? && forall j | k < j < |signals| :: !Asks(signals[j])
  }

  /** The worker took up the latest request, and at that moment an update had lifted any stop. */
  ghost predicate Lifted(signals: seq<Signal>, stopped: bool) {
    exists k: nat :: TakenUp(signals, k) && Unstopped(signals, k, stopped)
  }

  // ---- the work's fields follow the signals ----

  predicate Follows(before: Work, s: Signal, after: Work) {
    && after.stop == (if s.Updated? then false else before.stop || Stops(s))
    && after.restart == (if s.TookUp? then false else before.restart || s.Cancelled? || s.Updated?)
    && after.leaving == (before.leaving || s.Broke?)
    && (s.TookUp? ==> !before.stop)
  }

  lemma WorkFollows(c: Conv, step: Step)
    requires Possible(c, step) && c.work.Some? && !step.EndWork? && !step.Restart?
    ensures Apply(c, step).work.Some? && Follows(c.work.value, SignalOf(c, step), Apply(c, step).work.value)
  {
    if OfWorker(step) {
      assert Apply(c, step) == ApplyWorker(c, step);
    } else {
      OtherWork(c, step);
    }
  }

  /** Only the worker's own steps and changes of the job touch the work. */
  lemma OtherWork(c: Conv, step: Step)
    requires Possible(c, step) && !OfWorker(step) && !step.Restart?
    ensures Apply(c, step).work == c.work
  {
    if OfChat(step) {
      ChatWork(c, step);
    } else if OfSpawning(step) {
      SpawningWork(c, step);
    } else if OfDelivery(step) {
      DeliveryWork(c, step);
    } else if OfHost(step) {
      HostWork(c, step);
    }
  }

  lemma ChatWork(c: Conv, step: Step)
    requires Possible(c, step) && OfChat(step)
    ensures ApplyChat(c, step).work == c.work
  {
  }

  lemma SpawningWork(c: Conv, step: Step)
    requires Possible(c, step) && OfSpawning(step)
    ensures ApplySpawning(c, step).work == c.work
  {
  }

  lemma DeliveryWork(c: Conv, step: Step)
    requires Possible(c, step) && OfDelivery(step)
    ensures ApplyDelivery(c, step).work == c.work
  {
  }

  lemma HostWork(c: Conv, step: Step)
    requires Possible(c, step) && OfHost(step) && !step.Restart?
    ensures ApplyHost(c, step).work == c.work
  {
  }

  // ---- one more signal ----

  lemma NoStopNext(signals: seq<Signal>, s: Signal, i: nat)
    requires i <= |signals|
    ensures NoStop(signals + [s], i, |signals| + 1) <==> !Stops(s) && NoStop(signals, i, |signals|)
  {
    var all := signals + [s];
    assert all[|signals|] == s;
    assert forall j: nat | j < |signals| :: all[j] == signals[j];
  }

  lemma StillUnstopped(signals: seq<Signal>, s: Signal, stopped: bool)
    requires s.Updated? || (!Stops(s) && Unstopped(signals, |signals|, stopped))
    ensures Unstopped(signals + [s], |signals| + 1, stopped)
  {
    var all := signals + [s];
    if s.Updated? {
      assert all[|signals|].Updated? && NoStop(all, |signals|, |signals| + 1);
    } else if !stopped && NoStop(signals, 0, |signals|) {
      NoStopNext(signals, s, 0);
    } else {
      var i: nat :| i < |signals| && signals[i].Updated? && NoStop(signals, i, |signals|);
      NoStopNext(signals, s, i);
      assert all[i].Updated?;
    }
  }

  lemma WasUnstopped(signals: seq<Signal>, s: Signal, stopped: bool)
    requires Unstopped(signals + [s], |signals| + 1, stopped) && !s.Updated?
    ensures !Stops(s) && Unstopped(signals, |signals|, stopped)
  {
    var all := signals + [s];
    if !stopped && NoStop(all, 0, |signals| + 1) {
      NoStopNext(signals, s, 0);
    } else {
      var i: nat :| i < |signals| + 1 && all[i].Updated? && NoStop(all, i, |signals| + 1);
      assert all[|signals|] == s;
      NoStopNext(signals, s, i);
      assert signals[i] == all[i];
    }
  }

  lemma UnstoppedNext(signals: seq<Signal>, s: Signal, stopped: bool)
    ensures Unstopped(signals + [s], |signals| + 1, stopped) <==>
              s.Updated? || (!Stops(s) && Unstopped(signals, |signals|, stopped))
  {
    if s.Updated? || (!Stops(s) && Unstopped(signals, |signals|, stopped)) {
      StillUnstopped(signals, s, stopped);
    }
    if Unstopped(signals + [s], |signals| + 1, stopped) && !s.Updated? {
      WasUnstopped(signals, s, stopped);
    }
  }

  lemma UnstoppedBefore(signals: seq<Signal>, s: Signal, k: nat, stopped: bool)
    requires k <= |signals|
    ensures Unstopped(signals + [s], k, stopped) <==> Unstopped(signals, k, stopped)
  {
    var all := signals + [s];
    forall i: nat | i <= k ensures NoStop(all, i, k) <==> NoStop(signals, i, k) {
      assert forall j | i <= j < k :: all[j] == signals[j];
    }
    assert forall i: nat | i < k :: all[i] == signals[i];
  }

  lemma TakenUpNext(signals: seq<Signal>, s: Signal, k: nat)
    requires k < |signals|
    ensures TakenUp(signals + [s], k) <==> TakenUp(signals, k) && !Asks(s)
  {
    var all := signals + [s];
    assert all[|signals|] == s;
    assert forall j: nat | j < |signals| :: all[j] == signals[j];
  }

  lemma LiftedNext(signals: seq<Signal>, s: Signal, stopped: bool)
    ensures Lifted(signals + [s], stopped) <==>
              (s.TookUp? && Unstopped(signals, |signals|, stopped)) || (!Asks(s) && Lifted(signals, stopped))
  {
    var all := signals + [s];
    var n := |signals|;
    forall k: nat | k <= n ensures Unstopped(all, k, stopped) <==> Unstopped(signals, k, stopped) {
      UnstoppedBefore(signals, s, k, stopped);
    }
    forall k: nat | k < n ensures TakenUp(all, k) <==> TakenUp(signals, k) && !Asks(s) {
      TakenUpNext(signals, s, k);
    }
    assert TakenUp(all, n) <==> s.TookUp?;
    if !Asks(s) && Lifted(signals, stopped) {
      var k: nat :| TakenUp(signals, k) && Unstopped(signals, k, stopped);
      assert TakenUp(all, k) && Unstopped(all, k, stopped);
    }
  }

  // ---- whole runs ----

  /** A moment at which the work is asked to stop or to take up a change. */
  predicate Requested(steps: seq<Step>) {
    && Run(steps).Some? && Run(steps).value.work.Some?
    && (Run(steps).value.work.value.stop || Run(steps).value.work.value.restart)
  }

  /** The work's fields after `signals`, read off the signals. */
  ghost predicate Answered(before: Work, signals: seq<Signal>, after: Work) {
    && (after.stop <==> !Unstopped(signals, |signals|, before.stop))
    && (!after.stop && !after.restart <==> Lifted(signals, before.stop))
    && (after.leaving <==> before.leaving || Broke in signals)
  }

  lemma AnsweredNext(before: Work, signals: seq<Signal>, middle: Work, s: Signal, after: Work)
    requires Answered(before, signals, middle) && Follows(middle, s, after)
    ensures Answered(before, signals + [s], after)
  {
    UnstoppedNext(signals, s, before.stop);
    LiftedNext(signals, s, before.stop);
  }

  lemma {:induction false} WorkAnswered(steps: seq<Step>, more: seq<Step>)
    requires Requested(steps) && OneWork(more) && Run(steps + more).Some?
    ensures Run(steps + more).value.work.Some?
    ensures Answered(Run(steps).value.work.value, Signals(steps, more), Run(steps + more).value.work.value)
    decreases |more|
  {
    if more == [] {
      assert steps + more == steps;
    } else {
      var shorter := more[..|more| - 1];
      var step := more[|more| - 1];
      RunPrefix(steps, more);
      assert step in more && forall s | s in shorter :: s in more;
      WorkAnswered(steps, shorter);
      var middle := Run(steps + shorter).value;
      WorkFollows(middle, step);
      AnsweredNext(Run(steps).value.work.value, Signals(steps, shorter), middle.work.value, SignalOf(middle, step),
                   Run(steps + more).value.work.value);
    }
  }

  lemma AnsweredMeans(before: Work, signals: seq<Signal>, after: Work)
    requires Answered(before, signals, after)
    ensures Unasked(after) <==> Lifted(signals, before.stop) && !before.leaving && Broke !in signals
  {
  }

  lemma GateOfWork(c: Conv)
    ensures Possible(c, DoWork) <==> c.work.Some? && Unasked(c.work.value) && MayWork(c)
  {
  }

  /** From a moment with a stop or a restart asked for, and while the same work goes on, its next tool or
      report can start if and only if the gate is open, the worker is still in its loop, and the latest
      request was taken up after an update had lifted any stop. */
  lemma StartsExactlyWhenLifted(steps: seq<Step>, more: seq<Step>)
    requires Requested(steps) && OneWork(more) && Run(steps + more).Some?
    ensures var work := Run(steps).value.work.value;
            var c := Run(steps + more).value;
            Possible(c, DoWork) <==>
              && Lifted(Signals(steps, more), work.stop)
              && !work.leaving && Broke !in Signals(steps, more)
              && MayWork(c)
  {
    WorkAnswered(steps, more);
    GateOfWork(Run(steps + more).value);
    AnsweredMeans(Run(steps).value.work.value, Signals(steps, more), Run(steps + more).value.work.value);
  }

  lemma SignalsPrefix(steps: seq<Step>, more: seq<Step>)
    requires more != [] && Run(steps + more).Some?
    ensures Run(steps + more[..|more| - 1]).Some?
    ensures Signals(steps, more)[..|more| - 1] == Signals(steps, more[..|more| - 1])
  {
    RunPrefix(steps, more);
  }

  predicate NoWork(log: seq<Mark>, later: seq<Mark>) {
    WorkedCount(later) == WorkedCount(log)
  }

  lemma NoWorkStep(c: Conv, step: Step)
    requires Possible(c, step) && !step.Restart? && !step.DoWork?
    ensures NoWork(c.log, Apply(c, step).log)
  {
    var marks := StepLog(c, step);
    if marks == [] {
      assert c.log + marks == c.log;
    } else {
      assert marks == [marks[0]] && (c.log + marks)[..|c.log|] == c.log;
    }
  }

  /** Before the request is taken up so, no tool starts and no report is made, whatever else happens. */
  lemma {:induction false} StopHolds(steps: seq<Step>, more: seq<Step>)
    requires Requested(steps) && OneWork(more) && Run(steps + more).Some?
    requires forall n: nat | n < |more| :: !Lifted(Signals(steps, more)[..n], Run(steps).value.work.value.stop)
    ensures NoWork(Run(steps).value.log, Run(steps + more).value.log)
    decreases |more|
  {
    if more == [] {
      assert steps + more == steps;
    } else {
      var shorter := more[..|more| - 1];
      var step := more[|more| - 1];
      RunPrefix(steps, more);
      SignalsPrefix(steps, more);
      assert step in more && forall s | s in shorter :: s in more;
      forall n: nat | n < |shorter| ensures !Lifted(Signals(steps, shorter)[..n], Run(steps).value.work.value.stop) {
        assert Signals(steps, more)[..n] == Signals(steps, shorter)[..n];
      }
      StopHolds(steps, shorter);
      StartsExactlyWhenLifted(steps, shorter);
      NoWorkStep(Run(steps + shorter).value, step);
    }
  }

  lemma TookUpIsTaking(c: Conv, step: Step)
    ensures SignalOf(c, step).TookUp? <==> step.TakeRestart?
  {
  }

  lemma LastSignal(steps: seq<Step>, more: seq<Step>)
    requires more != [] && Run(steps + more).Some?
    ensures Signals(steps, more)[|more| - 1].TookUp? <==> more[|more| - 1].TakeRestart?
  {
    RunPrefix(steps, more);
    TookUpIsTaking(Run(steps + more[..|more| - 1]).value, more[|more| - 1]);
  }

  lemma {:induction false} SignalAt(steps: seq<Step>, more: seq<Step>, k: nat)
    requires Run(steps + more).Some? && k < |more|
    ensures Signals(steps, more)[k].TookUp? <==> more[k].TakeRestart?
    decreases |more|
  {
    if k == |more| - 1 {
      LastSignal(steps, more);
    } else {
      SignalsPrefix(steps, more);
      SignalAt(steps, more[..|more| - 1], k);
      assert Signals(steps, more)[..|more| - 1][k] == Signals(steps, more)[k];
    }
  }

  lemma LiftedNeeds(signals: seq<Signal>, stopped: bool)
    requires Lifted(signals, stopped)
    ensures TookUp in signals && (stopped ==> Updated in signals)
  {
    var k: nat :| TakenUp(signals, k) && Unstopped(signals, k, stopped);
    assert signals[k] == TookUp;
    if stopped {
      var i: nat :| i < k && signals[i].Updated? && NoStop(signals, i, k);
      assert signals[i] == Updated;
    }
  }

  lemma NothingLifted(signals: seq<Signal>, n: nat, stopped: bool)
    requires n <= |signals| && (TookUp !in signals || (stopped && Updated !in signals))
    ensures !Lifted(signals[..n], stopped)
  {
    assert forall s | s in signals[..n] :: s in signals;
    if Lifted(signals[..n], stopped) {
      LiftedNeeds(signals[..n], stopped);
      assert false;
    }
  }

  /** A request that the worker does not take up, or a stop that no update reaches, prevents every start. */
  lemma RequestHolds(steps: seq<Step>, more: seq<Step>)
    requires Requested(steps) && OneWork(more) && Run(steps + more).Some?
    requires TakeRestart !in more || (Run(steps).value.work.value.stop && Updated !in Signals(steps, more))
    ensures NoWork(Run(steps).value.log, Run(steps + more).value.log)
  {
    var signals := Signals(steps, more);
    if TakeRestart !in more {
      forall k: nat | k < |more| ensures signals[k] != TookUp {
        SignalAt(steps, more, k);
        assert more[k] in more;
      }
    }
    forall n: nat | n < |more| ensures !Lifted(signals[..n], Run(steps).value.work.value.stop) {
      NothingLifted(signals, n, Run(steps).value.work.value.stop);
    }
    StopHolds(steps, more);
  }
}
