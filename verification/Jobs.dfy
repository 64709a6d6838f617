/** Durable background jobs of the prototype: creation keyed by inputs, the per-conversation worker's claim,
    late updates, and what a restart does to running jobs and to inputs a job already took. */
module Jobs {
  import opened Wrappers

  datatype Status = Queued | Running | Completed | Failed | Cancelled | Unknown

  /** The unique column: a digest of conversation and inputs, or the job's own id when there are none. */
  datatype RequestKey = ByInputs(conv: nat, inputs: seq<nat>) | ById(id: nat)

  datatype Job = Job(conv: nat, key: RequestKey, inputs: seq<nat>, status: Status, delivered: bool)

  datatype InputStatus = Received | Dropped | Ended

  /** Job ids are positions.  `working` maps a conversation to the job its worker holds; `claims` is
      auxiliary: ids in the order workers took them. */
  datatype Desk = Desk(jobs: seq<Job>, working: map<nat, nat>, inputs: seq<InputStatus>, pending: seq<nat>, claims: seq<nat>)

  const EMPTY := Desk([], map[], [], [], [])

  predicate Active(job: Job) { job.status == Queued || job.status == Running }

  function KeyFor(conv: nat, inputs: seq<nat>, id: nat): RequestKey {
    if inputs == [] then ById(id) else ByInputs(conv, inputs)
  }

  predicate Holds(jobs: seq<Job>, key: RequestKey) {
    exists i :: 0 <= i < |jobs| && jobs[i].key == key
  }

  /** Insert unless the key is taken. */
  function Inserted(jobs: seq<Job>, conv: nat, inputs: seq<nat>): seq<Job> {
    var key := KeyFor(conv, inputs, |jobs|);
    if Holds(jobs, key) then jobs else jobs + [Job(conv, key, inputs, Queued, false)]
  }

  /** `known` followed by what `more` adds, each once. */
  function Merged(known: seq<nat>, more: seq<nat>): (r: seq<nat>)
    ensures forall x :: x in r <==> x in known || x in more
    decreases |more|
  {
    if more == [] then known
    else Merged(if more[0] in known then known else known + [more[0]], more[1..])
  }

  /** The first queued job of the conversation at or after `from`. */
  function NextQueued(jobs: seq<Job>, conv: nat, from: nat): (r: Option<nat>)
    ensures r.Some? ==> from <= r.value < |jobs| && jobs[r.value].conv == conv && jobs[r.value].status == Queued
    ensures forall i | from <= i < (if r.Some? then r.value else |jobs|) :: !(jobs[i].conv == conv && jobs[i].status == Queued)
    decreases |jobs| - from
  {
    if from >= |jobs| then None
    else if jobs[from].conv == conv && jobs[from].status == Queued then Some(from)
    else NextQueued(jobs, conv, from + 1)
  }

  function WithStatus(jobs: seq<Job>, id: nat, status: Status): seq<Job>
    requires id < |jobs|
  {
    jobs[id := jobs[id].(status := status)]
  }

  function RecoveredJob(job: Job): Job {
    if job.status == Running then job.(status := Unknown) else job
  }

  function Recovered(jobs: seq<Job>): seq<Job> {
    seq(|jobs|, i requires 0 <= i < |jobs| => RecoveredJob(jobs[i]))
  }

  /** Inputs some job refers to. */
  ghost predicate Accepted(jobs: seq<Job>, input: nat) {
    exists i :: 0 <= i < |jobs| && input in jobs[i].inputs
  }

  function AcceptedInputs(jobs: seq<Job>): (r: set<nat>)
    ensures forall input :: input in r <==> Accepted(jobs, input)
  {
    set i, input | 0 <= i < |jobs| && input in jobs[i].inputs :: input
  }

  /** Received inputs a job already took are dropped; the rest wait again, in order. */
  function Sorted(inputs: seq<InputStatus>, taken: set<nat>): seq<InputStatus> {
    seq(|inputs|, i requires 0 <= i < |inputs| => Kept(inputs[i], i, taken))
  }

  function Kept(status: InputStatus, input: nat, taken: set<nat>): InputStatus {
    if status == Received && input in taken then Dropped else status
  }

  function Waiting(inputs: seq<InputStatus>, taken: set<nat>, n: nat): (r: seq<nat>)
    requires n <= |inputs|
    ensures forall i: nat :: i in r <==> i < n && inputs[i] == Received && i !in taken
    ensures forall i, j | 0 <= i < j < |r| :: r[i] < r[j]
  {
    if n == 0 then []
    else
      var earlier := Waiting(inputs, taken, n - 1);
      assert forall i | 0 <= i < |earlier| :: earlier[i] in earlier;
      earlier + if inputs[n - 1] == Received && n - 1 !in taken then [n - 1] else []
  }

  // ---- steps ----

  datatype Step =
    | Receive
    | Take
    | EndInput(input: nat, ending: InputStatus)
    | Create(conv: nat, inputs: seq<nat>)
    | Extend(id: nat, inputs: seq<nat>)
    | CancelJob(id: nat)
    | Claim(conv: nat)
    | Report(conv: nat, status: Status)
    | LateUnknown(id: nat)
    | Release(conv: nat)
    | Deliver(id: nat)
    | Restart

  predicate Terminal(status: Status) { status != Queued && status != Running }

  predicate Possible(d: Desk, step: Step) {
    match step
    case Receive => true
    case Take => true
    case EndInput(input, _) => input < |d.inputs|
    case Create(_, _) => true
    case Extend(id, _) => id < |d.jobs| && Active(d.jobs[id])
    case CancelJob(id) => id < |d.jobs| && Active(d.jobs[id]) && (d.jobs[id].conv in d.working ==> d.working[d.jobs[id].conv] != id)
    case Claim(conv) => conv !in d.working && NextQueued(d.jobs, conv, 0).Some?
    case Report(conv, status) => conv in d.working && d.working[conv] < |d.jobs| && Terminal(status)
    case LateUnknown(id) => id < |d.jobs| && id in d.claims
    case Release(conv) => conv in d.working && d.working[conv] < |d.jobs| && d.jobs[d.working[conv]].status != Running
    case Deliver(id) => id < |d.jobs|
    case Restart => true
  }

  function Apply(d: Desk, step: Step): Desk
    requires Possible(d, step)
  {
    match step
    case Receive => d.(inputs := d.inputs + [Received], pending := d.pending + [|d.inputs|])
    case Take => d.(pending := [])
    case EndInput(input, ending) => d.(inputs := d.inputs[input := ending])
    case Create(conv, inputs) => d.(jobs := Inserted(d.jobs, conv, inputs))
    case Extend(id, inputs) => d.(jobs := d.jobs[id := d.jobs[id].(inputs := Merged(d.jobs[id].inputs, inputs))])
    case CancelJob(id) => d.(jobs := WithStatus(d.jobs, id, Cancelled))
    case Claim(conv) =>
      var id := NextQueued(d.jobs, conv, 0).value;
      d.(jobs := WithStatus(d.jobs, id, Running), working := d.working[conv := id], claims := d.claims + [id])
    case Report(conv, status) => d.(jobs := WithStatus(d.jobs, d.working[conv], status))
    case LateUnknown(id) => d.(jobs := WithStatus(d.jobs, id, Unknown))
    case Release(conv) => d.(working := d.working - {conv})
    case Deliver(id) => d.(jobs := d.jobs[id := d.jobs[id].(delivered := true)])
    case Restart =>
      var taken := AcceptedInputs(d.jobs);
      Desk(Recovered(d.jobs), map[], Sorted(d.inputs, taken), Waiting(d.inputs, taken, |d.inputs|), d.claims)
  }

  function Run(steps: seq<Step>): Option<Desk> {
    if steps == [] then Some(EMPTY)
    else
      var before := Run(steps[..|steps| - 1]);
      var step := steps[|steps| - 1];
      if before.Some? && Possible(before.value, step) then Some(Apply(before.value, step)) else None
  }

  // ---- the invariant ----

  predicate KeyFits(jobs: seq<Job>, i: nat)
    requires i < |jobs|
  {
    match jobs[i].key
    case ByInputs(conv, inputs) => conv == jobs[i].conv && inputs != [] && (forall x | x in inputs :: x in jobs[i].inputs)
    case ById(id) => id == i
  }

  predicate KeysUnique(jobs: seq<Job>) {
    && (forall i: nat | i < |jobs| :: KeyFits(jobs, i))
    && (forall i, j | 0 <= i < j < |jobs| :: jobs[i].key != jobs[j].key)
  }

  predicate ClaimsFit(d: Desk) {
    && (forall i | 0 <= i < |d.claims| :: d.claims[i] < |d.jobs| && d.jobs[d.claims[i]].status != Queued)
    && (forall i, j | 0 <= i < j < |d.claims| :: d.claims[i] != d.claims[j])
  }

  predicate WorkersFit(d: Desk) {
    && (forall conv | conv in d.working :: d.working[conv] < |d.jobs| && d.jobs[d.working[conv]].conv == conv
                                           && d.working[conv] in d.claims)
    && (forall i: nat | i < |d.jobs| && d.jobs[i].status == Running ::
          d.jobs[i].conv in d.working && d.working[d.jobs[i].conv] == i)
  }

  predicate Inv(d: Desk) { KeysUnique(d.jobs) && ClaimsFit(d) && WorkersFit(d) }

  /** A change of one job's status that leaves its identity alone. */
  predicate SameRows(before: seq<Job>, after: seq<Job>) {
    && |before| <= |after|
    && (forall i | 0 <= i < |before| :: before[i].conv == after[i].conv && before[i].key == after[i].key
                                        && (forall x | x in before[i].inputs :: x in after[i].inputs)
                                        && (before[i].status != Queued ==> after[i].status != Queued))
  }

  lemma StepRows(d: Desk, step: Step)
    requires Possible(d, step) && Inv(d)
    ensures SameRows(d.jobs, Apply(d, step).jobs)
  {
  }

  lemma CreateKeeps(d: Desk, conv: nat, inputs: seq<nat>)
    requires Inv(d)
    ensures Inv(d.(jobs := Inserted(d.jobs, conv, inputs)))
  {
    var key := KeyFor(conv, inputs, |d.jobs|);
    var next := Inserted(d.jobs, conv, inputs);
    if !Holds(d.jobs, key) {
      assert forall i: nat | i < |d.jobs| :: KeyFits(d.jobs, i) && next[i] == d.jobs[i];
      assert KeyFits(next, |d.jobs|);
    }
  }

  lemma ClaimKeeps(d: Desk, conv: nat)
    requires Inv(d) && Possible(d, Claim(conv))
    ensures Inv(Apply(d, Claim(conv)))
  {
    var id := NextQueued(d.jobs, conv, 0).value;
    var next := Apply(d, Claim(conv));
    assert forall i: nat | i < |d.jobs| :: KeyFits(d.jobs, i) ==> KeyFits(next.jobs, i);
    assert id !in d.claims;
  }

  lemma StepKeeps(d: Desk, step: Step)
    requires Inv(d) && Possible(d, step)
    ensures Inv(Apply(d, step))
  {
    var next := Apply(d, step);
    if step.Create? {
      CreateKeeps(d, step.conv, step.inputs);
    } else if step.Claim? {
      ClaimKeeps(d, step.conv);
    } else {
      StepRows(d, step);
      assert |next.jobs| == |d.jobs|;
      forall i: nat | i < |next.jobs| ensures KeyFits(next.jobs, i) {
        assert KeyFits(d.jobs, i);
      }
    }
  }

  lemma {:induction false} RunInv(steps: seq<Step>)
    ensures Run(steps).Some? ==> Inv(Run(steps).value)
  {
    if steps != [] {
      RunInv(steps[..|steps| - 1]);
      if Run(steps).Some? {
        StepKeeps(Run(steps[..|steps| - 1]).value, steps[|steps| - 1]);
      }
    }
  }

  // ---- theorems ----

  ghost predicate Reached(steps: seq<Step>, d: Desk) { Run(steps) == Some(d) }

  /** Two jobs never come from the same inputs of one conversation, and asking again creates nothing. */
  lemma OneJobPerInputs(steps: seq<Step>, d: Desk, i: nat, j: nat, conv: nat, inputs: seq<nat>)
    requires Reached(steps, d) && i < |d.jobs| && j < |d.jobs| && inputs != []
    requires d.jobs[i].key == ByInputs(conv, inputs) && d.jobs[j].key == ByInputs(conv, inputs)
    ensures i == j && Apply(d, Create(conv, inputs)) == d
  {
    RunInv(steps);
  }

  /** A job is claimed at most once, and one that was claimed is not queued. */
  lemma ClaimedOnce(steps: seq<Step>, d: Desk, a: nat, b: nat)
    requires Reached(steps, d) && a < |d.claims| && b < |d.claims| && d.claims[a] == d.claims[b]
    ensures a == b && d.claims[a] < |d.jobs| && d.jobs[d.claims[a]].status != Queued
  {
    RunInv(steps);
  }

  lemma OneRunsPerConversation(steps: seq<Step>, d: Desk, i: nat, j: nat)
    requires Reached(steps, d) && i < |d.jobs| && j < |d.jobs|
    requires d.jobs[i].status == Running && d.jobs[j].status == Running && d.jobs[i].conv == d.jobs[j].conv
    ensures i == j && i in d.claims
  {
    RunInv(steps);
  }

  lemma {:induction false} RowsKept(steps: seq<Step>, more: seq<Step>, d: Desk, e: Desk)
    requires Reached(steps, d) && Reached(steps + more, e)
    ensures SameRows(d.jobs, e.jobs)
  {
    if more == [] {
      assert steps + more == steps;
    } else {
      var n := |more| - 1;
      assert (steps + more)[..|steps + more| - 1] == steps + more[..n];
      var before := Run(steps + more[..n]).value;
      RowsKept(steps, more[..n], d, before);
      RunInv(steps + more[..n]);
      StepRows(before, more[n]);
    }
  }

  /** However long the service goes on and however often it restarts, a job that left the queue never
      returns to it. */
  lemma NeverQueuedAgain(steps: seq<Step>, more: seq<Step>, d: Desk, e: Desk, i: nat)
    requires Reached(steps, d) && Reached(steps + more, e) && i < |d.jobs| && d.jobs[i].status != Queued
    ensures i < |e.jobs| && e.jobs[i].status != Queued && e.jobs[i].key == d.jobs[i].key
  {
    RowsKept(steps, more, d, e);
  }

  /** An input once committed to a job is never handed out again by a restart, however much later. */
  lemma CommittedNeverReplayed(steps: seq<Step>, more: seq<Step>, d: Desk, e: Desk, input: nat)
    requires Reached(steps, d) && Accepted(d.jobs, input) && Reached(steps + more, e)
    ensures input !in Apply(e, Restart).pending
    ensures input < |e.inputs| && e.inputs[input] == Received ==> Apply(e, Restart).inputs[input] == Dropped
  {
    RowsKept(steps, more, d, e);
    var i :| 0 <= i < |d.jobs| && input in d.jobs[i].inputs;
    assert input in e.jobs[i].inputs;
    assert Accepted(e.jobs, input);
  }

  /** A restart waits again for exactly the received inputs that no job took, oldest first. */
  lemma RestartReplays(d: Desk, input: nat)
    ensures var next := Apply(d, Restart);
            && (input in next.pending <==> input < |d.inputs| && d.inputs[input] == Received && !Accepted(d.jobs, input))
            && (forall i, j | 0 <= i < j < |next.pending| :: next.pending[i] < next.pending[j])
            && (forall i: nat | i < |next.jobs| :: next.jobs[i].status != Running)
  {
  }
}
