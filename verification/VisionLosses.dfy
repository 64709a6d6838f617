/** Exactly when an image key is computed again: the answering observer found nothing cached although a result of
    the key had been lost before it looked. */
module VisionLosses {
  import opened Wrappers
  import opened Vision

  ghost predicate Made(s: State, key: nat) {
    ResultsFor(s.computed, key) != []
  }

  // ---- a loss presupposes a result ----

  ghost predicate HeldIsMade(s: State, key: nat) {
    forall o | UnwrittenBy(s, o, key) :: Made(s, key)
  }

  lemma ComputedGrows(s: State, step: Step)
    requires Possible(s, step)
    ensures Apply(s, step).computed == s.computed
            + if step.Answer? then [Entry(s.observers[step.o].key, step.value)] else []
  {
    assert s.computed + [] == s.computed;
  }

  lemma MadeStays(s: State, step: Step, key: nat)
    requires Possible(s, step) && Made(s, key)
    ensures Made(Apply(s, step), key)
  {
    ComputedGrows(s, step);
    if step.Answer? {
      OneMore(s.computed, Entry(s.observers[step.o].key, step.value), key);
    }
  }

  /** A result comes into an observer's hand only by its own answer. */
  lemma UnwrittenBefore(s: State, step: Step, o: nat, key: nat)
    requires Possible(s, step) && UnwrittenBy(Apply(s, step), o, key)
    ensures UnwrittenBy(s, o, key) || (step.Answer? && step.o == o && s.observers[o].key == key)
  {
    match step
    case Arrive(a, at) =>
    case Lock(a) =>
    case Read(a) =>
    case TakeSlot(a) =>
    case Call(a) =>
    case Answer(a, value) =>
    case Put(a) =>
    case Write(a) =>
    case Resume(a) =>
    case Leave(a) =>
    case Land(n, kept) => 
  }

  lemma HeldKept(s: State, step: Step, key: nat)
    requires Possible(s, step) && HeldIsMade(s, key)
    ensures HeldIsMade(Apply(s, step), key)
  {
    forall o | UnwrittenBy(Apply(s, step), o, key) ensures Made(Apply(s, step), key) {
      UnwrittenBefore(s, step, o, key);
      if UnwrittenBy(s, o, key) {
        MadeStays(s, step, key);
      } else {
        ComputedGrows(s, step);
        OneMore(s.computed, Entry(key, step.value), key);
      }
    }
  }

  lemma {:induction false} HeldInRuns(steps: seq<Step>, key: nat)
    ensures Run(steps).Some? ==> HeldIsMade(Run(steps).value, key)
  {
    if steps != [] {
      HeldInRuns(steps[..|steps| - 1], key);
      if Run(steps).Some? {
        HeldKept(Run(steps[..|steps| - 1]).value, steps[|steps| - 1], key);
      }
    }
  }

  lemma {:induction false} LossMeansMade(steps: seq<Step>, key: nat)
    requires Run(steps).Some? && !Lossless(steps, key)
    ensures Made(Run(steps).value, key)
  {
    var shorter := steps[..|steps| - 1];
    var before := Run(shorter).value;
    var step := steps[|steps| - 1];
    if Loses(before, step, key) {
      HeldInRuns(shorter, key);
      assert UnwrittenBy(before, step.o, key);
    } else {
      LossMeansMade(shorter, key);
    }
    MadeStays(before, step, key);
  }

  // ---- the answering observer's read ----

  /** Steps that begin or end an observer, or let it read. */
  predicate Resets(step: Step, o: nat) {
    (step.Arrive? || step.Read? || step.Leave?) && step.o == o
  }

  /** The observer was already on its way to a result. */
  predicate WasSeeking(s: State, next: State, o: nat) {
    o in next.observers && Seeking(next.observers[o].phase) ==>
      o in s.observers && Seeking(s.observers[o].phase) && next.observers[o].key == s.observers[o].key
  }

  lemma ArrivedSeeking(s: State, a: nat, key: nat, o: nat)
    requires a !in s.observers
    ensures WasSeeking(s, Arrived(s, a, key), o)
    ensures o == a ==> Arrived(s, a, key).observers[o].phase.Waiting?
  {
  }

  lemma MovedSeeking(s: State, a: nat, phase: Phase, o: nat)
    requires a in s.observers && (Seeking(phase) ==> Seeking(s.observers[a].phase) || o != a)
    ensures WasSeeking(s, Move(s, a, phase), o)
  {
  }

  lemma SeekingBefore(s: State, step: Step, o: nat)
    requires Possible(s, step) && step != Read(o)
    requires o in Apply(s, step).observers && Seeking(Apply(s, step).observers[o].phase)
    ensures WasSeeking(s, Apply(s, step), o) && !Resets(step, o)
  {
    match step
    case Arrive(a, at) => ArrivedSeeking(s, a, at, o);
    case Leave(a) =>
    case Land(n, kept) =>
    case _ => MovedSeeking(s, step.o, Apply(s, step).observers[step.o].phase, o);
  }

  /** While an observer of the key is past the lock nobody else computes it. */
  lemma NobodyElse(s: State, step: Step, o: nat, key: nat)
    requires Inv(s) && Possible(s, step) && o in s.observers && s.observers[o].key == key && Seeking(s.observers[o].phase)
    requires o in Apply(s, step).observers && Seeking(Apply(s, step).observers[o].phase)
    ensures ResultsFor(Apply(s, step).computed, key) == ResultsFor(s.computed, key)
  {
    ComputedGrows(s, step);
    if step.Answer? {
      OneMore(s.computed, Entry(s.observers[step.o].key, step.value), key);
      if s.observers[step.o].key == key {
        Exclusive(s, step.o, o);
      }
    } else {
      assert s.computed + [] == s.computed;
    }
  }

  /** At `k` the observer read the cache, found nothing under the key, and did not start over since. */
  ghost predicate MissedAt(steps: seq<Step>, k: nat, o: nat, key: nat) {
    && k < |steps| && steps[k] == Read(o) && (forall j | k < j < |steps| :: !Resets(steps[j], o))
    && Run(steps[..k]).Some?
    && InPhase(Run(steps[..k]).value, o, Locked) && Run(steps[..k]).value.observers[o].key == key
    && key !in Run(steps[..k]).value.cache
  }

  lemma MissedLonger(steps: seq<Step>, k: nat, o: nat, key: nat)
    requires steps != [] && MissedAt(steps[..|steps| - 1], k, o, key) && !Resets(steps[|steps| - 1], o)
    ensures MissedAt(steps, k, o, key) && steps[..|steps| - 1][..k] == steps[..k]
  {
    assert steps[..|steps| - 1][..k] == steps[..k];
  }

  lemma ReadNow(s: State, o: nat)
    requires Possible(s, Read(o)) && Seeking(Apply(s, Read(o)).observers[o].phase)
    ensures s.observers[o].key !in s.cache && Apply(s, Read(o)).observers[o].key == s.observers[o].key
    ensures Apply(s, Read(o)).computed == s.computed
  {
  }

  lemma {:induction false} LastRead(steps: seq<Step>, s: State, o: nat) returns (k: nat)
    requires Reached(steps, s) && o in s.observers && Seeking(s.observers[o].phase)
    ensures MissedAt(steps, k, o, s.observers[o].key)
    ensures ResultsFor(Run(steps[..k]).value.computed, s.observers[o].key) == ResultsFor(s.computed, s.observers[o].key)
    decreases |steps|
  {
    var n := |steps| - 1;
    var before := Run(steps[..n]).value;
    if steps[n] == Read(o) {
      ReadNow(before, o);
      k := n;
    } else {
      SeekingBefore(before, steps[n], o);
      k := LastRead(steps[..n], before, o);
      RunInv(steps[..n]);
      NobodyElse(before, steps[n], o, s.observers[o].key);
      MissedLonger(steps, k, o, s.observers[o].key);
    }
  }

  /** An observer that holds the lock and finds nothing: a result was made before exactly when one was lost. */
  lemma MadeExactlyWhenLost(steps: seq<Step>, s: State, o: nat, key: nat)
    requires Reached(steps, s) && InPhase(s, o, Locked) && s.observers[o].key == key && key !in s.cache
    ensures Made(s, key) <==> !Lossless(steps, key)
  {
    RunInv(steps);
    if Lossless(steps, key) {
      LosslessSingle(steps, key);
      Alone(s, o);
      assert forall a :: !UnwrittenBy(s, a, key);
    } else {
      LossMeansMade(steps, key);
    }
  }

  /** A computed result is a second one if and only if a result of the key had been lost when its observer read
      the cache and found nothing. */
  lemma SecondExactlyAfterLoss(steps: seq<Step>, s: State, o: nat, value: Description) returns (k: nat)
    requires Reached(steps, s) && Possible(s, Answer(o, value))
    ensures MissedAt(steps, k, o, s.observers[o].key)
    ensures |ResultsFor(Apply(s, Answer(o, value)).computed, s.observers[o].key)| >= 2 <==>
              !Lossless(steps[..k], s.observers[o].key)
  {
    var key := s.observers[o].key;
    k := LastRead(steps, s, o);
    MadeExactlyWhenLost(steps[..k], Run(steps[..k]).value, o, key);
    OneMore(s.computed, Entry(key, value), key);
  }

  // ---- whole runs ----

  /** At `p` an observer answers that had missed at `k`, after a loss. */
  ghost predicate AnswersAfterLoss(steps: seq<Step>, p: nat, key: nat) {
    && p < |steps| && steps[p].Answer? && Run(steps[..p]).Some? && steps[p].o in Run(steps[..p]).value.observers
    && exists k: nat :: MissedAt(steps[..p], k, steps[p].o, key) && !Lossless(steps[..p][..k], key)
  }

  ghost predicate SomeAnswerAfterLoss(steps: seq<Step>, key: nat) {
    exists p: nat :: AnswersAfterLoss(steps, p, key)
  }

  lemma AnswersLonger(steps: seq<Step>, p: nat, key: nat)
    requires steps != [] && p < |steps| - 1
    ensures AnswersAfterLoss(steps, p, key) <==> AnswersAfterLoss(steps[..|steps| - 1], p, key)
  {
    assert steps[..|steps| - 1][..p] == steps[..p];
  }

  /** The position of an observer's last read is the only one. */
  lemma OneLastRead(steps: seq<Step>, a: nat, b: nat, o: nat, x: nat, y: nat)
    requires MissedAt(steps, a, o, x) && MissedAt(steps, b, o, y)
    ensures a == b && x == y
  {
    if a < b {
      assert Resets(steps[b], o);
    } else if b < a {
      assert Resets(steps[a], o);
    }
  }

  lemma AnswerCounts(steps: seq<Step>, s: State, o: nat, value: Description, key: nat)
    requires Reached(steps, s) && Possible(s, Answer(o, value))
    ensures (s.observers[o].key == key && Made(s, key)) <==>
              exists k: nat :: MissedAt(steps, k, o, key) && !Lossless(steps[..k], key)
  {
    var k := LastRead(steps, s, o);
    var own := s.observers[o].key;
    MadeExactlyWhenLost(steps[..k], Run(steps[..k]).value, o, own);
    forall j: nat | MissedAt(steps, j, o, key) ensures j == k && own == key {
      OneLastRead(steps, j, k, o, key, own);
    }
  }

  lemma SomeLonger(steps: seq<Step>, key: nat)
    requires steps != []
    ensures SomeAnswerAfterLoss(steps, key) <==>
              SomeAnswerAfterLoss(steps[..|steps| - 1], key) || AnswersAfterLoss(steps, |steps| - 1, key)
  {
    var n := |steps| - 1;
    forall p: nat | p < n ensures AnswersAfterLoss(steps, p, key) <==> AnswersAfterLoss(steps[..n], p, key) {
      AnswersLonger(steps, p, key);
    }
    if SomeAnswerAfterLoss(steps[..n], key) {
      var p: nat :| AnswersAfterLoss(steps[..n], p, key);
      AnswersLonger(steps, p, key);
    }
  }

  lemma LastAnswer(steps: seq<Step>, before: State, key: nat)
    requires steps != [] && Reached(steps[..|steps| - 1], before) && Possible(before, steps[|steps| - 1])
    ensures AnswersAfterLoss(steps, |steps| - 1, key) <==>
              steps[|steps| - 1].Answer? && before.observers[steps[|steps| - 1].o].key == key && Made(before, key)
  {
    var step := steps[|steps| - 1];
    if step.Answer? {
      AnswerCounts(steps[..|steps| - 1], before, step.o, step.value, key);
    }
  }

  lemma CountAfter(s: State, step: Step, key: nat)
    requires Possible(s, step)
    ensures |ResultsFor(Apply(s, step).computed, key)| >= 2 <==>
              || |ResultsFor(s.computed, key)| >= 2
              || (step.Answer? && s.observers[step.o].key == key && Made(s, key))
  {
    ComputedGrows(s, step);
    if step.Answer? {
      OneMore(s.computed, Entry(s.observers[step.o].key, step.value), key);
    } else {
      assert s.computed + [] == s.computed;
    }
  }

  /** A run computes a key twice if and only if some observer that answered had looked, and found nothing cached,
      after a result of the key was lost before its write. */
  lemma {:induction false} TwoResultsExactlyAfterLoss(steps: seq<Step>, s: State, key: nat)
    requires Reached(steps, s)
    ensures |ResultsFor(s.computed, key)| >= 2 <==> SomeAnswerAfterLoss(steps, key)
    decreases |steps|
  {
    if steps != [] {
      var before := Run(steps[..|steps| - 1]).value;
      TwoResultsExactlyAfterLoss(steps[..|steps| - 1], before, key);
      CountAfter(before, steps[|steps| - 1], key);
      LastAnswer(steps, before, key);
      SomeLonger(steps, key);
    }
  }
}
