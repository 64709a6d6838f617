/** When a dropped observer leads to a second result, and the weak lock table as the object that keeps it. */
module VisionCache {
  import opened Wrappers
  import opened Vision

  /** Where a list of steps leads from a state. */
  function Follow(s: State, more: seq<Step>): Option<State>
    decreases |more|
  {
    if more == [] then Some(s)
    else if Possible(s, more[0]) then Follow(Apply(s, more[0]), more[1..])
    else None
  }

  lemma RunSnoc(steps: seq<Step>, s: State, step: Step)
    requires Reached(steps, s) && Possible(s, step)
    ensures Reached(steps + [step], Apply(s, step))
  {
    assert (steps + [step])[..|steps|] == steps;
  }

  lemma {:induction false} FollowRun(steps: seq<Step>, s: State, more: seq<Step>)
    requires Reached(steps, s) && Follow(s, more).Some?
    ensures Reached(steps + more, Follow(s, more).value)
    decreases |more|
  {
    if more == [] {
      assert steps + more == steps;
    } else {
      var next := Apply(s, more[0]);
      FollowOne(s, more);
      RunSnoc(steps, s, more[0]);
      FollowRun(steps + [more[0]], next, more[1..]);
      assert steps + [more[0]] + more[1..] == steps + more;
    }
  }

  /** The lock and the slot are free again once the holder is gone. */
  lemma LeaveFrees(s: State, o: nat, key: nat)
    requires Inv(s) && UnwrittenBy(s, o, key)
    ensures var next := Left(s, o);
            s.locks[key] !in next.owner && |next.slots| < SLOTS && next.computed == s.computed && next.cache == s.cache
            && next.locks == s.locks
  {
    var next := Left(s, o);
    assert o in s.slots;
    assert next.slots == s.slots - {o};
  }

  lemma ArriveFinds(s: State, n: nat, key: nat)
    requires Inv(s) && n !in s.observers && (key in s.locks ==> s.locks[key] !in s.owner)
    ensures var next := Arrived(s, n, key);
            n in next.observers && next.observers[n].key == key && next.observers[n].lock !in next.owner
  {
    var next := Arrived(s, n, key);
    forall lock | lock in s.owner ensures lock < s.nextLock {
      assert HolderAt(s, lock);
    }
  }

  /** A newcomer on its way to a result, with nothing cached and `made` so far. */
  predicate OnItsWay(s: State, n: nat, key: nat, phase: Phase, made: seq<Description>) {
    && InPhase(s, n, phase) && s.observers[n].key == key && key !in s.cache && ResultsFor(s.computed, key) == made
    && (phase.Calling? || phase.Slotted? || |s.slots| < SLOTS)
  }

  lemma NewcomerLocks(s: State, n: nat, key: nat, made: seq<Description>)
    requires OnItsWay(s, n, key, Waiting, made) && s.observers[n].lock !in s.owner
    ensures Possible(s, Lock(n)) && OnItsWay(Apply(s, Lock(n)), n, key, Locked, made)
  {
  }

  lemma NewcomerReads(s: State, n: nat, key: nat, made: seq<Description>)
    requires OnItsWay(s, n, key, Locked, made)
    ensures Possible(s, Read(n)) && OnItsWay(Apply(s, Read(n)), n, key, Missed, made)
  {
  }

  lemma NewcomerSlots(s: State, n: nat, key: nat, made: seq<Description>)
    requires OnItsWay(s, n, key, Missed, made)
    ensures Possible(s, TakeSlot(n)) && OnItsWay(Apply(s, TakeSlot(n)), n, key, Slotted, made)
  {
  }

  lemma NewcomerCalls(s: State, n: nat, key: nat, made: seq<Description>)
    requires OnItsWay(s, n, key, Slotted, made)
    ensures Possible(s, Call(n)) && OnItsWay(Apply(s, Call(n)), n, key, Calling, made)
  {
  }

  lemma NewcomerAnswers(s: State, n: nat, key: nat, made: seq<Description>, value: Description)
    requires OnItsWay(s, n, key, Calling, made) && Fits(value)
    ensures Possible(s, Answer(n, value)) && ResultsFor(Apply(s, Answer(n, value)).computed, key) == made + [value]
  {
    OneMore(s.computed, Entry(key, value), key);
  }

  function Tail(n: nat, value: Description): seq<Step> {
    [Lock(n), Read(n), TakeSlot(n), Call(n), Answer(n, value)]
  }

  lemma NewcomerComputes(s: State, n: nat, key: nat, made: seq<Description>, value: Description)
    requires OnItsWay(s, n, key, Waiting, made) && s.observers[n].lock !in s.owner && Fits(value)
    ensures Follow(s, Tail(n, value)).Some?
    ensures ResultsFor(Follow(s, Tail(n, value)).value.computed, key) == made + [value]
  {
    var tail := Tail(n, value);
    NewcomerLocks(s, n, key, made);
    var a := Apply(s, Lock(n));
    NewcomerReads(a, n, key, made);
    var b := Apply(a, Read(n));
    NewcomerSlots(b, n, key, made);
    var c := Apply(b, TakeSlot(n));
    NewcomerCalls(c, n, key, made);
    var d := Apply(c, Call(n));
    NewcomerAnswers(d, n, key, made, value);
    FollowFive(s, a, b, c, d, tail);
  }

  lemma FollowFive(s: State, a: State, b: State, c: State, d: State, tail: seq<Step>)
    requires |tail| == 5
    requires Possible(s, tail[0]) && a == Apply(s, tail[0])
    requires Possible(a, tail[1]) && b == Apply(a, tail[1])
    requires Possible(b, tail[2]) && c == Apply(b, tail[2])
    requires Possible(c, tail[3]) && d == Apply(c, tail[3])
    requires Possible(d, tail[4])
    ensures Follow(s, tail) == Some(Apply(d, tail[4]))
  {
    FollowOne(s, tail);
    FollowOne(a, tail[1..]);
    FollowOne(b, tail[2..]);
    FollowOne(c, tail[3..]);
    FollowOne(d, tail[4..]);
    assert tail[1..][1..] == tail[2..] && tail[2..][1..] == tail[3..] && tail[3..][1..] == tail[4..] && tail[4..][1..] == [];
  }

  lemma FollowOne(s: State, more: seq<Step>)
    requires more != [] && Possible(s, more[0])
    ensures Follow(s, more) == Follow(Apply(s, more[0]), more[1..])
    ensures more[1..] == [] ==> Follow(s, more) == Some(Apply(s, more[0]))
  {
  }

  lemma NewcomerArrives(s: State, o: nat, n: nat, key: nat)
    requires Inv(s) && Single(s, key) && UnwrittenBy(s, o, key) && n !in s.observers && Inv(Left(s, o))
    ensures var there := Arrived(Left(s, o), n, key);
            && OnItsWay(there, n, key, Waiting, [s.observers[o].phase.value])
            && there.observers[n].lock !in there.owner
  {
    LeaveFrees(s, o, key);
    ArriveFinds(Left(s, o), n, key);
  }

  function Again(o: nat, n: nat, key: nat, value: Description): seq<Step> {
    [Leave(o), Arrive(n, key)] + Tail(n, value)
  }

  lemma LeaveThenArrive(steps: seq<Step>, s: State, o: nat, n: nat, key: nat)
    requires Reached(steps, s) && o in s.observers && n !in s.observers
    ensures Reached(steps + [Leave(o)], Left(s, o))
    ensures Reached(steps + [Leave(o)] + [Arrive(n, key)], Arrived(Left(s, o), n, key))
  {
    RunSnoc(steps, s, Leave(o));
    RunSnoc(steps + [Leave(o)], Left(s, o), Arrive(n, key));
  }

  lemma SecondResult(s: State, o: nat, n: nat, key: nat)
    requires Inv(s) && Single(s, key) && UnwrittenBy(s, o, key) && n !in s.observers && Inv(Left(s, o))
    ensures var value := s.observers[o].phase.value; var end := Follow(Arrived(Left(s, o), n, key), Tail(n, value));
            end.Some? && ResultsFor(end.value.computed, key) == [value, value]
  {
    var value := s.observers[o].phase.value;
    NewcomerArrives(s, o, n, key);
    NewcomerComputes(Arrived(Left(s, o), n, key), n, key, [value], value);
  }

  lemma Facts(steps: seq<Step>, s: State)
    requires Reached(steps, s)
    ensures Inv(s)
  {
    RunInv(steps);
  }

  lemma SingleFacts(steps: seq<Step>, s: State, key: nat)
    requires Reached(steps, s) && Lossless(steps, key)
    ensures Single(s, key)
  {
    LosslessSingle(steps, key);
  }

  lemma Regrouped(steps: seq<Step>, a: Step, b: Step, tail: seq<Step>)
    ensures steps + [a] + [b] + tail == steps + ([a, b] + tail)
  {
  }

  /** The bound on results fails exactly there: wherever a lossless run stands with a result not yet written,
      dropping its observer lets the next one compute the key again. */
  lemma LossAllowsSecond(steps: seq<Step>, s: State, o: nat, n: nat, key: nat) returns (end: State)
    requires Reached(steps, s) && Lossless(steps, key) && UnwrittenBy(s, o, key) && n !in s.observers
    ensures Reached(steps + Again(o, n, key, s.observers[o].phase.value), end)
    ensures |ResultsFor(end.computed, key)| == 2
  {
    var value := s.observers[o].phase.value;
    var there := Arrived(Left(s, o), n, key);
    LeaveThenArrive(steps, s, o, n, key);
    Facts(steps, s);
    Facts(steps + [Leave(o)], Left(s, o));
    SingleFacts(steps, s, key);
    SecondResult(s, o, n, key);
    end := Follow(there, Tail(n, value)).value;
    FollowRun(steps + [Leave(o)] + [Arrive(n, key)], there, Tail(n, value));
    Regrouped(steps, Leave(o), Arrive(n, key), Tail(n, value));
  }

  /** The lock table of one cache; strong references are the observers'. */
  class LockTable {
    var locks: map<nat, nat>
    var nextLock: nat

    constructor ()
      ensures locks == map[] && nextLock == 0
    {
      locks, nextLock := map[], 0;
    }

    method Retain(alive: set<nat>)
      modifies this`locks
      ensures locks == map key | key in old(locks) && old(locks)[key] in alive :: old(locks)[key]
    {
      var left, kept := locks.Keys, map[];
      while left != {}
        invariant left <= locks.Keys && locks == old(locks)
        invariant forall key :: key in kept <==> key in locks && key !in left && locks[key] in alive
        invariant forall key | key in kept :: kept[key] == locks[key]
        decreases left
      {
        var key :| key in left;
        if locks[key] in alive {
          kept := kept[key := locks[key]];
        }
        left := left - {key};
      }
      locks := kept;
    }

    /** Upgrade the key's lock if someone still holds it, or make one. */
    method LockFor(key: nat, alive: set<nat>) returns (lock: nat)
      modifies this
      ensures var kept := map k | k in old(locks) && old(locks)[k] in alive :: old(locks)[k];
              && lock == (if key in kept then kept[key] else old(nextLock))
              && locks == kept[key := lock]
              && nextLock == old(nextLock) + if key in kept then 0 else 1
    {
      Retain(alive);
      if key in locks {
        lock := locks[key];
        assert locks[key := lock] == locks;
      } else {
        lock := nextLock;
        locks, nextLock := locks[key := lock], nextLock + 1;
      }
    }
  }

  /** The method's effect is the arrival step's. */
  lemma ArriveIsLockFor(s: State, o: nat, key: nat)
    requires o !in s.observers
    ensures var alive := set a | a in s.observers :: s.observers[a].lock; var next := Arrived(s, o, key);
            var kept := map k | k in s.locks && s.locks[k] in alive :: s.locks[k];
            && next.observers[o].lock == (if key in kept then kept[key] else s.nextLock)
            && next.locks == kept[key := next.observers[o].lock]
            && next.nextLock == s.nextLock + if key in kept then 0 else 1
  {
    var alive := set a | a in s.observers :: s.observers[a].lock;
    var kept := map k | k in s.locks && s.locks[k] in alive :: s.locks[k];
    assert kept == Retained(s.locks, s.observers);
    var next := Arrived(s, o, key);
    assert key in kept ==> kept[key := kept[key]] == kept;
  }
}
