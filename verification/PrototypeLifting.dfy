/** A stop that was asked for does not last: from every quiet moment an update of the job that is still
    stopping lifts it, and the worker starts another tool. */
module PrototypeLifting {
  import opened Wrappers
  import opened Paths
  import opened Prototype
  import opened PrototypeTheorems
  import opened PrototypeStops

  function Next(c: Conv, step: Step): Option<Conv> {
    if Possible(c, step) then Some(Apply(c, step)) else None
  }

  /** The steps lead from `c` to `d`. */
  predicate Leads(c: Conv, steps: seq<Step>, d: Conv) {
    Along(Next, c, steps) == Some(d)
  }

  lemma {:induction false} RunIsAlong(steps: seq<Step>)
    ensures Run(steps) == Along(Next, START, steps)
  {
    if steps != [] {
      RunIsAlong(steps[..|steps| - 1]);
    }
  }

  lemma RunsOn(steps: seq<Step>, c: Conv, more: seq<Step>, d: Conv)
    requires Run(steps) == Some(c) && Leads(c, more, d)
    ensures Run(steps + more) == Some(d)
  {
    RunIsAlong(steps);
    RunIsAlong(steps + more);
    AlongBoth(Next, START, steps, c, more, d);
  }

  // ---- one turn that uses a task tool and then keeps silent ----

  /** Nothing waits and no turn is under way. */
  predicate Calm(c: Conv) {
    !c.closing && c.pending == [] && c.turn == None && c.controller == None
  }

  predicate OfTool(op: Step, t: nat) {
    (op.StartJob? || op.ChangeJob?) && op.turn == t
  }

  /** The turn's input arrives, its model call asks for the task tool, and it returns to its context. */
  function Opening(t: nat, input: nat, op: Step): seq<Step> {
    [Enter, Submit(input)] + [Take(false), Ask(t)] + [op, Again(t)]
  }

  function Silence(t: nat): seq<Step> {
    [Ask(t)] + [Answer(t, 0), Decide(t)] + [GiveUp(t), EndChat(t)]
  }

  function Departure(t: nat): seq<Step> {
    [Leave(t), MarkFinished(t)] + [ClearTurn(t)]
  }

  function SilentTurn(t: nat, input: nat, op: Step): seq<Step> {
    Opening(t, input, op) + Silence(t) + Departure(t)
  }

  function NewWork(c: Conv, op: Step): Option<Work> {
    if op.ChangeJob? && c.work.Some? && !c.work.value.settled
    then Some(c.work.value.(stop := op.stop, restart := true)) else c.work
  }

  function NewJobs(c: Conv, op: Step): nat {
    c.jobs + if op.StartJob? then 1 else 0
  }

  /** The state in which the turn goes on, wherever it stands. */
  predicate InTurn(d: Conv, t: nat, chat: Chat) {
    && !d.closing && d.pending == [] && d.turn == Some(t) && d.controller == Some(t) && d.nextTurn == t + 1
    && t in d.turns && d.turns[t] == NewTurn(false, None).(chat := chat)
  }

  predicate SameWork(c: Conv, d: Conv) {
    d.work == c.work && d.jobs == c.jobs && NoWork(c.log, d.log)
  }

  lemma WorkedAppend(log: seq<Mark>, m: Mark)
    ensures WorkedCount(log + [m]) == WorkedCount(log) + if m.Worked? then 1 else 0
  {
    assert (log + [m])[..|log|] == log;
  }

  /** An input waits to be taken up. */
  predicate Called(d: Conv, t: nat) {
    !d.closing && d.pending != [] && d.controller == None && d.nextTurn == t
  }

  lemma Accepted(c: Conv, input: nat)
    requires Calm(c)
    ensures var middle := c.(entering := c.entering + 1);
            && Next(c, Enter) == Some(middle)
            && Next(middle, Submit(input))
               == Some(Log(middle, InboundAt(input)).(entering := c.entering, pending := [input], allow := false))
  {
    assert c.pending + [input] == [input];
  }

  lemma Arrives(c: Conv, input: nat) returns (d: Conv)
    requires Calm(c)
    ensures Leads(c, [Enter, Submit(input)], d) && Called(d, c.nextTurn) && SameWork(c, d)
  {
    var middle := c.(entering := c.entering + 1);
    Accepted(c, input);
    WorkedAppend(c.log, InboundAt(input));
    d := Log(middle, InboundAt(input)).(entering := c.entering, pending := [input], allow := false);
    AlongTwo(Next, c, Enter, middle, Submit(input), d);
  }

  lemma TakenUp(c: Conv, t: nat)
    requires Called(c, t)
    ensures Possible(c, Take(false)) && Apply(c, Take(false)) == Created(c, false, None).(pending := [])
    ensures InTurn(Created(c, false, None).(pending := []), t, Context)
  {
  }

  lemma AskedFirst(c: Conv, t: nat)
    requires InTurn(c, t, Context)
    ensures Possible(c, Ask(t)) && InTurn(Apply(c, Ask(t)), t, Asking(false)) && SameWork(c, Apply(c, Ask(t)))
  {
    WorkedAppend(c.log, Asked(t, false));
  }

  lemma AsksOnce(c: Conv, t: nat) returns (d: Conv)
    requires InTurn(c, t, Context)
    ensures Leads(c, [Ask(t)], d) && InTurn(d, t, Asking(false)) && SameWork(c, d)
  {
    AskedFirst(c, t);
    d := Apply(c, Ask(t));
    AlongOne(Next, c, Ask(t), d);
  }

  lemma Entered(c: Conv, t: nat) returns (d: Conv)
    requires Called(c, t)
    ensures Leads(c, [Take(false), Ask(t)], d) && InTurn(d, t, Asking(false)) && SameWork(c, d)
  {
    var middle := Created(c, false, None).(pending := []);
    TakenUp(c, t);
    AskedFirst(middle, t);
    WorkedAppend(c.log, TurnCreated(t));
    d := Apply(middle, Ask(t));
    AlongTwo(Next, c, Take(false), middle, Ask(t), d);
  }

  lemma UsesTool(c: Conv, t: nat, op: Step) returns (d: Conv)
    requires InTurn(c, t, Asking(false)) && OfTool(op, t)
    ensures Leads(c, [op, Again(t)], d) && InTurn(d, t, Context)
    ensures d.work == NewWork(c, op) && d.jobs == NewJobs(c, op) && NoWork(c.log, d.log)
  {
    var middle := Apply(c, op);
    d := Apply(middle, Again(t));
    AlongTwo(Next, c, op, middle, Again(t), d);
  }

  lemma DecidesSilence(c: Conv, t: nat) returns (d: Conv)
    requires InTurn(c, t, Asking(false))
    ensures Leads(c, [Answer(t, 0), Decide(t)], d) && SameWork(c, d)
    ensures Silent(d, t, Sending(0, 0))
  {
    var middle := Apply(c, Answer(t, 0));
    WorkedAppend(c.log, Decided(t, false, 0));
    d := Apply(middle, Decide(t));
    AlongTwo(Next, c, Answer(t, 0), middle, Decide(t), d);
  }

  /** The turn kept silent and is still the current one. */
  predicate Silent(d: Conv, t: nat, chat: Chat) {
    && !d.closing && d.pending == [] && d.turn == Some(t) && d.controller == Some(t) && d.nextTurn == t + 1
    && t in d.turns && d.turns[t].chat == chat && !d.turns[t].superseded
    && d.turns[t].valid && d.turns[t].silent && !d.turns[t].sendFailed
  }

  lemma EndsSilent(c: Conv, t: nat) returns (d: Conv)
    requires Silent(c, t, Sending(0, 0))
    ensures Leads(c, [GiveUp(t), EndChat(t)], d) && SameWork(c, d)
    ensures Silent(d, t, Cleaning) && d.allow
  {
    var middle := Apply(c, GiveUp(t));
    WorkedAppend(c.log, GoodEnd(t));
    d := Apply(middle, EndChat(t));
    AlongTwo(Next, c, GiveUp(t), middle, EndChat(t), d);
  }

  lemma LeavesSilent(c: Conv, t: nat) returns (d: Conv)
    requires Silent(c, t, Cleaning) && c.allow
    ensures Leads(c, [Leave(t), MarkFinished(t)], d) && SameWork(c, d)
    ensures Silent(d, t, Gone) && d.turns[t].finished && d.allow
  {
    var left := Apply(c, Leave(t));
    d := Apply(left, MarkFinished(t));
    AlongTwo(Next, c, Leave(t), left, MarkFinished(t), d);
  }

  lemma Clears(c: Conv, t: nat) returns (d: Conv)
    requires Silent(c, t, Gone) && c.turns[t].finished && c.allow
    ensures Leads(c, [ClearTurn(t)], d) && SameWork(c, d)
    ensures Calm(d) && d.allow && d.nextTurn == t + 1
  {
    d := Apply(c, ClearTurn(t));
    AlongOne(Next, c, ClearTurn(t), d);
  }

  lemma Departs(c: Conv, t: nat) returns (d: Conv)
    requires Silent(c, t, Cleaning) && c.allow
    ensures Leads(c, Departure(t), d) && SameWork(c, d)
    ensures Calm(d) && d.allow && d.nextTurn == t + 1
  {
    var over := LeavesSilent(c, t);
    d := Clears(over, t);
    AlongBoth(Next, c, [Leave(t), MarkFinished(t)], over, [ClearTurn(t)], d);
  }

  lemma Opens(c: Conv, input: nat, op: Step) returns (d: Conv)
    requires Calm(c) && OfTool(op, c.nextTurn)
    ensures Leads(c, Opening(c.nextTurn, input, op), d) && InTurn(d, c.nextTurn, Context)
    ensures d.work == NewWork(c, op) && d.jobs == NewJobs(c, op) && NoWork(c.log, d.log)
  {
    var t := c.nextTurn;
    var called := Arrives(c, input);
    var asking := Entered(called, t);
    d := UsesTool(asking, t, op);
    AlongThree(Next, c, [Enter, Submit(input)], called, [Take(false), Ask(t)], asking, [op, Again(t)], d);
  }

  lemma KeepsSilent(c: Conv, t: nat) returns (d: Conv)
    requires InTurn(c, t, Context)
    ensures Leads(c, Silence(t), d) && SameWork(c, d) && Silent(d, t, Cleaning) && d.allow
  {
    var asking := AsksOnce(c, t);
    var decided := DecidesSilence(asking, t);
    d := EndsSilent(decided, t);
    AlongThree(Next, c, [Ask(t)], asking, [Answer(t, 0), Decide(t)], decided, [GiveUp(t), EndChat(t)], d);
  }

  /** From a calm state a whole turn that uses the task tool and keeps silent is possible. */
  lemma TurnRuns(c: Conv, input: nat, op: Step) returns (d: Conv)
    requires Calm(c) && OfTool(op, c.nextTurn)
    ensures Leads(c, SilentTurn(c.nextTurn, input, op), d)
    ensures Calm(d) && d.allow && d.nextTurn == c.nextTurn + 1
    ensures d.work == NewWork(c, op) && d.jobs == NewJobs(c, op) && NoWork(c.log, d.log)
  {
    var t := c.nextTurn;
    var underway := Opens(c, input, op);
    var silent := KeepsSilent(underway, t);
    d := Departs(silent, t);
    AlongThree(Next, c, Opening(t, input, op), underway, Silence(t), silent, Departure(t), d);
  }

  // ---- lifting a stop ----

  lemma WorksOnce(c: Conv, first: Step, work: Work) returns (d: Conv)
    requires Calm(c) && c.allow
    requires || (first == BeginWork && c.work == None && c.jobs > 0 && work == Work(false, false, false, false))
             || (first == TakeRestart && c.work == Some(work.(restart := true)) && Unasked(work))
    ensures Leads(c, [first, DoWork], d)
    ensures Calm(d) && d.nextTurn == c.nextTurn && d.work == Some(work)
    ensures WorkedCount(d.log) == WorkedCount(c.log) + 1
  {
    var middle := Apply(c, first);
    WorkedAppend(middle.log, Worked);
    d := Apply(middle, DoWork);
    AlongTwo(Next, c, first, middle, DoWork, d);
  }

  /** An owner's update, then the worker takes it up and starts a tool. */
  function Lifting(t: nat, input: nat): seq<Step> {
    SilentTurn(t, input, ChangeJob(t, false)) + [TakeRestart, DoWork]
  }

  lemma LiftingRuns(c: Conv, input: nat) returns (d: Conv)
    requires Calm(c) && c.work.Some? && !c.work.value.leaving && !c.work.value.settled
    ensures Leads(c, Lifting(c.nextTurn, input), d)
    ensures WorkedCount(d.log) == WorkedCount(c.log) + 1
  {
    var updated := TurnRuns(c, input, ChangeJob(c.nextTurn, false));
    d := WorksOnce(updated, TakeRestart, c.work.value.(stop := false, restart := false));
    AlongBoth(Next, c, SilentTurn(c.nextTurn, input, ChangeJob(c.nextTurn, false)), updated, [TakeRestart, DoWork], d);
  }

  lemma LiftingIsOneWork(t: nat, input: nat)
    ensures OneWork(Lifting(t, input))
  {
  }

  /** Whenever a stopping job is still active, its worker still in its loop and the conversation calm, the
      stop can be lifted within the same work: the requirement of `StopHolds` cannot be dropped. */
  lemma StopIsLifted(steps: seq<Step>, input: nat)
    requires Run(steps).Some? && Calm(Run(steps).value)
    requires var work := Run(steps).value.work; work.Some? && work.value.stop && !work.value.leaving && !work.value.settled
    ensures var more := Lifting(Run(steps).value.nextTurn, input);
            && Requested(steps) && OneWork(more) && Run(steps + more).Some?
            && WorkedCount(Run(steps + more).value.log) == WorkedCount(Run(steps).value.log) + 1
  {
    var c := Run(steps).value;
    var d := LiftingRuns(c, input);
    RunsOn(steps, c, Lifting(c.nextTurn, input), d);
    LiftingIsOneWork(c.nextTurn, input);
  }

  /** A job is started and works. */
  function JobWorked(t: nat, input: nat): seq<Step> {
    SilentTurn(t, input, StartJob(t)) + [BeginWork, DoWork]
  }

  /** It is then cancelled while its tool is still running. */
  function JobCancelled(t: nat, input: nat): seq<Step> {
    JobWorked(t, input) + SilentTurn(t + 1, input, ChangeJob(t + 1, true))
  }

  lemma StartedRun(c: Conv, input: nat) returns (d: Conv)
    requires Calm(c) && c.work == None
    ensures Leads(c, SilentTurn(c.nextTurn, input, StartJob(c.nextTurn)), d)
    ensures Calm(d) && d.allow && d.nextTurn == c.nextTurn + 1
    ensures d.work == None && d.jobs > 0 && NoWork(c.log, d.log)
  {
    d := TurnRuns(c, input, StartJob(c.nextTurn));
  }

  lemma WorkingRun(c: Conv) returns (d: Conv)
    requires Calm(c) && c.allow && c.work == None && c.jobs > 0
    ensures Leads(c, [BeginWork, DoWork], d) && Calm(d) && d.nextTurn == c.nextTurn
    ensures d.work == Some(Work(false, false, false, false)) && WorkedCount(d.log) == WorkedCount(c.log) + 1
  {
    d := WorksOnce(c, BeginWork, Work(false, false, false, false));
  }

  lemma StoppingRun(c: Conv, t: nat, input: nat) returns (d: Conv)
    requires Calm(c) && c.nextTurn == t && c.work == Some(Work(false, false, false, false))
    ensures Leads(c, SilentTurn(t, input, ChangeJob(t, true)), d) && Calm(d)
    ensures d.nextTurn == t + 1 && d.work == Some(Work(true, true, false, false)) && NoWork(c.log, d.log)
  {
    d := TurnRuns(c, input, ChangeJob(t, true));
  }

  lemma WorkedRun(c: Conv, input: nat) returns (d: Conv)
    requires Calm(c) && c.work == None
    ensures Leads(c, JobWorked(c.nextTurn, input), d) && Calm(d) && d.nextTurn == c.nextTurn + 1
    ensures d.work == Some(Work(false, false, false, false)) && WorkedCount(d.log) == WorkedCount(c.log) + 1
  {
    var started := StartedRun(c, input);
    d := WorkingRun(started);
    AlongBoth(Next, c, SilentTurn(c.nextTurn, input, StartJob(c.nextTurn)), started, [BeginWork, DoWork], d);
  }

  lemma CancelledLeads(c: Conv, t: nat, input: nat, working: Conv, d: Conv)
    requires Leads(c, JobWorked(t, input), working)
    requires Leads(working, SilentTurn(t + 1, input, ChangeJob(t + 1, true)), d)
    ensures Leads(c, JobCancelled(t, input), d)
  {
    AlongBoth(Next, c, JobWorked(t, input), working, SilentTurn(t + 1, input, ChangeJob(t + 1, true)), d);
  }

  lemma CancelledRun(c: Conv, t: nat, input: nat) returns (d: Conv)
    requires Calm(c) && c.nextTurn == t && c.work == None
    ensures Leads(c, JobCancelled(t, input), d) && Calm(d) && d.nextTurn == t + 2
    ensures d.work == Some(Work(true, true, false, false)) && WorkedCount(d.log) == WorkedCount(c.log) + 1
  {
    var working := WorkedRun(c, input);
    d := StoppingRun(working, t + 1, input);
    CancelledLeads(c, t, input, working, d);
  }

  lemma CancelledFromStart(input: nat) returns (c: Conv)
    ensures Run(JobCancelled(0, input)) == Some(c) && Calm(c) && c.nextTurn == 2
    ensures c.work == Some(Work(true, true, false, false)) && WorkedCount(c.log) == 1
  {
    c := CancelledRun(START, 0, input);
    RunIsAlong(JobCancelled(0, input));
  }

  /** The concrete run: started, cancelled, then updated while it is stopping; a second tool starts. */
  lemma CancelThenUpdate(input: nat)
    ensures var steps := JobCancelled(0, input);
            var more := Lifting(2, input);
            && Requested(steps) && Run(steps).value.work.value.stop && OneWork(more) && Run(steps + more).Some?
            && WorkedCount(Run(steps).value.log) == 1 && WorkedCount(Run(steps + more).value.log) == 2
  {
    var c := CancelledFromStart(input);
    StopIsLifted(JobCancelled(0, input), input);
  }
}
