/** The job table and its callers as objects: inserts that respect the unique key, the scan for the next
    queued job, and the start-up pass over jobs and recorded inputs. */
module JobStore {
  import opened Wrappers
  import opened Jobs

  class Store {
    var jobs: seq<Job>

    constructor ()
      ensures jobs == []
    {
      jobs := [];
    }

    method Find(key: RequestKey) returns (found: bool, at: nat)
      ensures found == Holds(jobs, key)
      ensures found ==> at < |jobs| && jobs[at].key == key && forall i | 0 <= i < at :: jobs[i].key != key
    {
      at := 0;
      found := false;
      while at < |jobs|
        invariant 0 <= at <= |jobs|
        invariant forall i | 0 <= i < at :: jobs[i].key != key
      {
        if jobs[at].key == key {
          found := true;
          return;
        }
        at := at + 1;
      }
    }

    /** The row now holding the key: the new one, or the one that already had it. */
    method CreateJob(conv: nat, inputs: seq<nat>) returns (id: nat)
      modifies this
      ensures jobs == Inserted(old(jobs), conv, inputs)
      ensures id < |jobs| && jobs[id].key == KeyFor(conv, inputs, |old(jobs)|)
      ensures id < |old(jobs)| <==> Holds(old(jobs), KeyFor(conv, inputs, |old(jobs)|))
    {
      var key := KeyFor(conv, inputs, |jobs|);
      var found, at := Find(key);
      if found {
        id := at;
      } else {
        id := |jobs|;
        jobs := jobs + [Job(conv, key, inputs, Queued, false)];
      }
    }

    /** The worker's scan and claim, under the conversation's lock. */
    method ClaimNext(conv: nat) returns (claimed: Option<nat>)
      modifies this
      ensures claimed == NextQueued(old(jobs), conv, 0)
      ensures jobs == if claimed.Some? then WithStatus(old(jobs), claimed.value, Running) else old(jobs)
    {
      claimed := None;
      var i := 0;
      while i < |jobs|
        invariant 0 <= i <= |jobs| && jobs == old(jobs) && claimed == None
        invariant NextQueued(jobs, conv, 0) == NextQueued(jobs, conv, i)
      {
        if jobs[i].conv == conv && jobs[i].status == Queued {
          claimed := Some(i);
          jobs := jobs[i := jobs[i].(status := Running)];
          return;
        }
        i := i + 1;
      }
    }

    method RecoverJobs()
      modifies this
      ensures jobs == Recovered(old(jobs))
    {
      var i := 0;
      while i < |jobs|
        invariant 0 <= i <= |jobs| == |old(jobs)|
        invariant forall k | 0 <= k < i :: jobs[k] == RecoveredJob(old(jobs)[k])
        invariant forall k | i <= k < |jobs| :: jobs[k] == old(jobs)[k]
      {
        if jobs[i].status == Running {
          jobs := jobs[i := jobs[i].(status := Unknown)];
        }
        i := i + 1;
      }
    }

    method ListAccepted() returns (accepted: set<nat>)
      ensures accepted == AcceptedInputs(jobs)
    {
      accepted := {};
      var i := 0;
      while i < |jobs|
        invariant 0 <= i <= |jobs|
        invariant forall x :: x in accepted <==> exists k :: 0 <= k < i && x in jobs[k].inputs
      {
        accepted := accepted + set x | x in jobs[i].inputs;
        i := i + 1;
      }
    }
  }

  /** Recovery changes no references. */
  lemma AcceptedSurvives(jobs: seq<Job>)
    ensures AcceptedInputs(Recovered(jobs)) == AcceptedInputs(jobs)
  {
    forall x ensures Accepted(Recovered(jobs), x) <==> Accepted(jobs, x) {
      assert forall i | 0 <= i < |jobs| :: Recovered(jobs)[i].inputs == jobs[i].inputs;
    }
  }

  /** The inputs after the first `n` have been looked at. */
  function SortedUpTo(was: seq<InputStatus>, taken: set<nat>, n: nat): (r: seq<InputStatus>)
    requires n <= |was|
    ensures |r| == |was|
  {
    if n == 0 then was else SortedUpTo(was, taken, n - 1)[n - 1 := Kept(was[n - 1], n - 1, taken)]
  }

  lemma {:induction false} SortedOneByOne(was: seq<InputStatus>, taken: set<nat>, n: nat)
    requires n <= |was|
    ensures forall k | 0 <= k < n :: SortedUpTo(was, taken, n)[k] == Kept(was[k], k, taken)
    ensures forall k | n <= k < |was| :: SortedUpTo(was, taken, n)[k] == was[k]
    ensures n == |was| ==> SortedUpTo(was, taken, n) == Sorted(was, taken)
  {
    if n > 0 {
      SortedOneByOne(was, taken, n - 1);
    }
  }

  /** The recorded inputs as `start` walks them. */
  class Inbox {
    var inputs: seq<InputStatus>
    var pending: seq<nat>

    constructor ()
      ensures inputs == [] && pending == []
    {
      inputs, pending := [], [];
    }

    /** One recorded input: dropped when a job took it, queued when it is still only received. */
    method ReplayOne(i: nat, accepted: set<nat>)
      requires i < |inputs|
      modifies this
      ensures inputs == old(inputs)[i := Kept(old(inputs)[i], i, accepted)]
      ensures pending == old(pending) + if old(inputs)[i] == Received && i !in accepted then [i] else []
    {
      if inputs[i] == Received {
        if i in accepted {
          inputs := inputs[i := Dropped];
        } else {
          pending := pending + [i];
        }
      }
    }

    /** Drop received inputs that a job took; queue the others. */
    method Replay(accepted: set<nat>)
      modifies this
      ensures inputs == Sorted(old(inputs), accepted)
      ensures pending == Waiting(old(inputs), accepted, |old(inputs)|)
    {
      ghost var was := inputs;
      pending := [];
      var i := 0;
      while i < |inputs|
        invariant 0 <= i <= |inputs| == |was|
        invariant inputs == SortedUpTo(was, accepted, i)
        invariant pending == Waiting(was, accepted, i)
      {
        SortedOneByOne(was, accepted, i);
        ReplayOne(i, accepted);
        i := i + 1;
      }
      SortedOneByOne(was, accepted, |was|);
    }

    method Start(store: Store)
      modifies this, store
      ensures store.jobs == Recovered(old(store.jobs))
      ensures inputs == Sorted(old(inputs), AcceptedInputs(old(store.jobs)))
      ensures pending == Waiting(old(inputs), AcceptedInputs(old(store.jobs)), |old(inputs)|)
    {
      store.RecoverJobs();
      var accepted := store.ListAccepted();
      AcceptedSurvives(old(store.jobs));
      Replay(accepted);
    }
  }
}
