/** Image observations: one lock per content key held only weakly by the table, a cache read under it, three
    slots for model calls, and a cache write that outlives a dropped observer. */
module Vision {
  import opened Text
  import opened Wrappers

  datatype Description = Description(
    description: string, shortLabel: string, visibleText: string, memeMeaning: string, uncertainty: string)

  predicate Fits(d: Description) {
    && Trim(d.description) != "" && Trim(d.shortLabel) != ""
    && Utf8Length(d.description) <= 1400 && Utf8Length(d.shortLabel) <= 180 && Utf8Length(d.visibleText) <= 1600
    && Utf8Length(d.memeMeaning) <= 1200 && Utf8Length(d.uncertainty) <= 500
  }

  const SLOTS := 3

  /** How far one call of `observe` has come.  The slot is held from `Slotted` to `Wrote`, the key's lock from
      `Locked` on; `Putting` means the write was handed to a thread that nothing can stop. */
  datatype Phase =
    | Waiting
    | Locked
    | Missed
    | Slotted
    | Calling
    | Validated(value: Description)
    | Putting(value: Description)
    | Wrote(value: Description)
    | Found(value: Description)

  datatype Observer = Observer(key: nat, lock: nat, phase: Phase)

  datatype Entry = Entry(key: nat, value: Description)

  /** `locks` is the weak table; `computed` and `stored` are auxiliary: validated results and cache writes in
      order. */
  datatype State = State(
    locks: map<nat, nat>, nextLock: nat, owner: map<nat, nat>, observers: map<nat, Observer>, slots: set<nat>,
    cache: map<nat, Description>, detached: seq<Entry>, computed: seq<Entry>, stored: seq<Entry>)

  const IDLE := State(map[], 0, map[], map[], {}, map[], [], [], [])

  /** Some observer holds the lock strongly. */
  predicate Alive(observers: map<nat, Observer>, lock: nat) {
    exists o :: o in observers && observers[o].lock == lock
  }

  function Retained(locks: map<nat, nat>, observers: map<nat, Observer>): map<nat, nat> {
    map key | key in locks && Alive(observers, locks[key]) :: locks[key]
  }

  predicate InPhase(s: State, o: nat, phase: Phase) {
    o in s.observers && s.observers[o].phase == phase
  }

  predicate HasSlot(phase: Phase) {
    phase.Slotted? || phase.Calling? || phase.Validated? || phase.Putting? || phase.Wrote?
  }

  /** A result exists that no cache entry holds yet. */
  predicate Unwritten(phase: Phase) { phase.Validated? || phase.Putting? }

  datatype Step =
    | Arrive(o: nat, key: nat)
    | Lock(o: nat)
    | Read(o: nat)
    | TakeSlot(o: nat)
    | Call(o: nat)
    | Answer(o: nat, value: Description)
    | Put(o: nat)
    | Write(o: nat)
    | Resume(o: nat)
    | Leave(o: nat)
    | Land(n: nat, kept: bool)

  predicate Possible(s: State, step: Step) {
    match step
    case Arrive(o, _) => o !in s.observers
    case Lock(o) => InPhase(s, o, Waiting) && s.observers[o].lock !in s.owner
    case Read(o) => InPhase(s, o, Locked)
    case TakeSlot(o) => InPhase(s, o, Missed) && |s.slots| < SLOTS
    case Call(o) => InPhase(s, o, Slotted)
    case Answer(o, value) => InPhase(s, o, Calling) && Fits(value)
    case Put(o) => o in s.observers && s.observers[o].phase.Validated?
    case Write(o) => o in s.observers && s.observers[o].phase.Putting?
    case Resume(o) => o in s.observers && s.observers[o].phase.Wrote?
    case Leave(o) => o in s.observers
    case Land(n, _) => n < |s.detached|
  }

  function Move(s: State, o: nat, phase: Phase): State
    requires o in s.observers
  {
    s.(observers := s.observers[o := s.observers[o].(phase := phase)])
  }

  function Arrived(s: State, o: nat, key: nat): State {
    var kept := Retained(s.locks, s.observers);
    if key in kept then s.(locks := kept, observers := s.observers[o := Observer(key, kept[key], Waiting)])
    else
      s.(locks := kept[key := s.nextLock], nextLock := s.nextLock + 1,
         observers := s.observers[o := Observer(key, s.nextLock, Waiting)])
  }

  /** The call returns, fails, or is dropped: lock, slot and strong reference go; a write in progress stays. */
  function Left(s: State, o: nat): State
    requires o in s.observers
  {
    var gone := s.observers[o];
    s.(observers := s.observers - {o}, slots := s.slots - {o},
       owner := map lock | lock in s.owner && s.owner[lock] != o :: s.owner[lock],
       detached := s.detached + if gone.phase.Putting? then [Entry(gone.key, gone.phase.value)] else [])
  }

  function Stored(s: State, e: Entry): State {
    s.(cache := s.cache[e.key := e.value], stored := s.stored + [e])
  }

  function Apply(s: State, step: Step): State
    requires Possible(s, step)
  {
    match step
    case Arrive(o, key) => Arrived(s, o, key)
    case Lock(o) => Move(s, o, Locked).(owner := s.owner[s.observers[o].lock := o])
    case Read(o) =>
      var key := s.observers[o].key;
      Move(s, o, if key in s.cache then Found(s.cache[key]) else Missed)
    case TakeSlot(o) => Move(s, o, Slotted).(slots := s.slots + {o})
    case Call(o) => Move(s, o, Calling)
    case Answer(o, value) => Move(s, o, Validated(value)).(computed := s.computed + [Entry(s.observers[o].key, value)])
    case Put(o) => Move(s, o, Putting(s.observers[o].phase.value))
    case Write(o) =>
      var value := s.observers[o].phase.value;
      Stored(Move(s, o, Wrote(value)), Entry(s.observers[o].key, value))
    case Resume(o) => Move(s, o, Found(s.observers[o].phase.value)).(slots := s.slots - {o})
    case Leave(o) => Left(s, o)
    case Land(n, kept) =>
      var rest := s.(detached := s.detached[..n] + s.detached[n + 1..]);
      if kept then Stored(rest, s.detached[n]) else rest
  }

  function Run(steps: seq<Step>): Option<State> {
    if steps == [] then Some(IDLE)
    else
      var before := Run(steps[..|steps| - 1]);
      var step := steps[|steps| - 1];
      if before.Some? && Possible(before.value, step) then Some(Apply(before.value, step)) else None
  }

  // ---- locks and slots ----

  predicate LocksInv(s: State) {
    && (forall o | o in s.observers :: s.observers[o].key in s.locks && s.locks[s.observers[o].key] == s.observers[o].lock)
    && (forall k | k in s.locks :: s.locks[k] < s.nextLock)
    && (forall a, b | a in s.locks && b in s.locks && s.locks[a] == s.locks[b] :: a == b)
  }

  predicate HolderAt(s: State, lock: nat)
    requires lock in s.owner
  {
    var o := s.owner[lock];
    o in s.observers && s.observers[o].lock == lock && !s.observers[o].phase.Waiting?
  }

  predicate OwnersInv(s: State) {
    && (forall lock | lock in s.owner :: HolderAt(s, lock))
    && (forall o | o in s.observers && !s.observers[o].phase.Waiting? ::
          s.observers[o].lock in s.owner && s.owner[s.observers[o].lock] == o)
  }

  predicate SlotsInv(s: State) {
    && |s.slots| <= SLOTS
    && (forall o | o in s.slots :: o in s.observers && HasSlot(s.observers[o].phase))
    && (forall o | o in s.observers && HasSlot(s.observers[o].phase) :: o in s.slots)
  }

  predicate ValuesInv(s: State) {
    && (forall k | k in s.cache :: Fits(s.cache[k]))
    && (forall o | o in s.observers && Carries(s.observers[o].phase) :: Fits(s.observers[o].phase.value))
    && (forall e | e in s.detached :: Fits(e.value))
  }

  predicate Inv(s: State) { LocksInv(s) && OwnersInv(s) && SlotsInv(s) && ValuesInv(s) }

  lemma RetainedInv(s: State)
    requires LocksInv(s)
    ensures LocksInv(s.(locks := Retained(s.locks, s.observers)))
  {
    forall o | o in s.observers ensures Alive(s.observers, s.observers[o].lock) {
    }
  }

  lemma LocksArrive(s: State, o: nat, key: nat)
    requires LocksInv(s) && o !in s.observers
    ensures LocksInv(Arrived(s, o, key))
  {
    RetainedInv(s);
    NewObserver(s.(locks := Retained(s.locks, s.observers)), o, key);
  }

  /** Once dead entries are gone, joining the key's lock or making one keeps the table. */
  lemma NewObserver(s: State, o: nat, key: nat)
    requires LocksInv(s) && o !in s.observers
    ensures key in s.locks ==> LocksInv(s.(observers := s.observers[o := Observer(key, s.locks[key], Waiting)]))
    ensures key !in s.locks ==>
              LocksInv(s.(locks := s.locks[key := s.nextLock], nextLock := s.nextLock + 1,
                          observers := s.observers[o := Observer(key, s.nextLock, Waiting)]))
  {
  }

  /** A step of one observer keeps its key and lock. */
  ghost predicate LocksSame(s: State, next: State) {
    && next.locks == s.locks && next.nextLock == s.nextLock
    && forall o | o in next.observers :: o in s.observers && next.observers[o].key == s.observers[o].key
                                        && next.observers[o].lock == s.observers[o].lock
  }

  lemma MoveLocks(s: State, o: nat, phase: Phase)
    requires o in s.observers
    ensures LocksSame(s, Move(s, o, phase))
  {
  }

  lemma SameLocks(s: State, step: Step)
    requires Possible(s, step) && !step.Arrive?
    ensures LocksSame(s, Apply(s, step))
  {
    match step
    case Lock(o) => MoveLocks(s, o, Locked);
    case Read(o) =>
      var key := s.observers[o].key;
      MoveLocks(s, o, if key in s.cache then Found(s.cache[key]) else Missed);
    case TakeSlot(o) => MoveLocks(s, o, Slotted);
    case Call(o) => MoveLocks(s, o, Calling);
    case Answer(o, value) => MoveLocks(s, o, Validated(value));
    case Put(o) => MoveLocks(s, o, Putting(s.observers[o].phase.value));
    case Write(o) => MoveLocks(s, o, Wrote(s.observers[o].phase.value));
    case Resume(o) => MoveLocks(s, o, Found(s.observers[o].phase.value));
    case Leave(o) =>
    case Land(n, kept) =>
  }

  lemma LocksKept(s: State, step: Step)
    requires LocksInv(s) && Possible(s, step)
    ensures LocksInv(Apply(s, step))
  {
    if step.Arrive? {
      LocksArrive(s, step.o, step.key);
    } else {
      SameLocks(s, step);
    }
  }

  lemma LeaveOwners(s: State, o: nat)
    requires OwnersInv(s) && o in s.observers
    ensures OwnersInv(Left(s, o))
  {
    var next := Left(s, o);
    forall lock | lock in next.owner ensures HolderAt(next, lock) {
      assert HolderAt(s, lock);
    }
  }

  lemma MoveOwners(s: State, o: nat, phase: Phase)
    requires OwnersInv(s) && o in s.observers && !s.observers[o].phase.Waiting? && !phase.Waiting?
    ensures OwnersInv(Move(s, o, phase))
  {
    forall lock | lock in s.owner ensures HolderAt(Move(s, o, phase), lock) {
      assert HolderAt(s, lock);
    }
  }

  lemma LockOwners(s: State, o: nat)
    requires OwnersInv(s) && Possible(s, Lock(o))
    ensures OwnersInv(Apply(s, Lock(o)))
  {
    var next := Apply(s, Lock(o));
    forall lock | lock in next.owner ensures HolderAt(next, lock) {
      assert lock in s.owner ==> HolderAt(s, lock);
    }
  }

  lemma ArriveOwners(s: State, o: nat, key: nat)
    requires OwnersInv(s) && o !in s.observers
    ensures OwnersInv(Arrived(s, o, key))
  {
    var next := Arrived(s, o, key);
    forall lock | lock in next.owner ensures HolderAt(next, lock) {
      assert HolderAt(s, lock);
    }
  }

  lemma SameOwners(s: State, next: State)
    requires OwnersInv(s) && next.owner == s.owner && next.observers == s.observers
    ensures OwnersInv(next)
  {
    forall lock | lock in next.owner ensures HolderAt(next, lock) {
      assert HolderAt(s, lock);
    }
  }

  lemma OwnersKept(s: State, step: Step)
    requires OwnersInv(s) && Possible(s, step)
    ensures OwnersInv(Apply(s, step))
  {
    match step
    case Arrive(o, key) => ArriveOwners(s, o, key);
    case Lock(o) => LockOwners(s, o);
    case Leave(o) => LeaveOwners(s, o);
    case Land(n, kept) => SameOwners(s, Apply(s, step));
    case _ =>
      MoveOwners(s, step.o, Apply(s, step).observers[step.o].phase);
      SameOwners(Move(s, step.o, Apply(s, step).observers[step.o].phase), Apply(s, step));
  }

  lemma SlotsKept(s: State, step: Step)
    requires SlotsInv(s) && Possible(s, step)
    ensures SlotsInv(Apply(s, step))
  {
    if step.TakeSlot? {
      SlotTaken(s, step.o);
    } else if step.Leave? {
      SlotFreed(s, step.o);
    } else if step.Resume? {
      SlotResumed(s, step.o);
    }
  }

  lemma SlotTaken(s: State, o: nat)
    requires SlotsInv(s) && Possible(s, TakeSlot(o))
    ensures SlotsInv(Apply(s, TakeSlot(o)))
  {
    assert |s.slots + {o}| <= |s.slots| + 1;
  }

  lemma SlotFreed(s: State, o: nat)
    requires SlotsInv(s) && o in s.observers
    ensures SlotsInv(Left(s, o))
  {
    SubsetSize(s.slots - {o}, s.slots);
  }

  lemma SlotResumed(s: State, o: nat)
    requires SlotsInv(s) && Possible(s, Resume(o))
    ensures SlotsInv(Apply(s, Resume(o)))
  {
    SubsetSize(s.slots - {o}, s.slots);
  }

  lemma SubsetSize(a: set<nat>, b: set<nat>)
    requires a <= b
    ensures |a| <= |b|
  {
    assert b == a + (b - a);
  }

  predicate Carries(phase: Phase) { Unwritten(phase) || phase.Wrote? || phase.Found? }

  lemma MoveValues(s: State, o: nat, phase: Phase)
    requires ValuesInv(s) && o in s.observers && (Carries(phase) ==> Fits(phase.value))
    ensures ValuesInv(Move(s, o, phase))
  {
  }

  lemma WriteValues(s: State, e: Entry)
    requires ValuesInv(s) && Fits(e.value)
    ensures ValuesInv(Stored(s, e))
  {
  }

  lemma LandValues(s: State, n: nat)
    requires ValuesInv(s) && n < |s.detached|
    ensures ValuesInv(s.(detached := s.detached[..n] + s.detached[n + 1..])) && Fits(s.detached[n].value)
  {
    assert s.detached[n] in s.detached;
  }

  lemma LeaveValues(s: State, o: nat)
    requires ValuesInv(s) && o in s.observers
    ensures ValuesInv(Left(s, o))
  {
  }

  lemma ArriveValues(s: State, o: nat, key: nat)
    requires ValuesInv(s) && o !in s.observers
    ensures ValuesInv(Arrived(s, o, key))
  {
    var next := Arrived(s, o, key);
    assert next.observers[o].phase == Waiting;
  }

  lemma ValuesKept(s: State, step: Step)
    requires ValuesInv(s) && Possible(s, step)
    ensures ValuesInv(Apply(s, step))
  {
    match step
    case Arrive(o, key) => ArriveValues(s, o, key);
    case Write(o) =>
      var value := s.observers[o].phase.value;
      MoveValues(s, o, Wrote(value));
      WriteValues(Move(s, o, Wrote(value)), Entry(s.observers[o].key, value));
    case Leave(o) => LeaveValues(s, o);
    case Land(n, kept) =>
      LandValues(s, n);
      WriteValues(s.(detached := s.detached[..n] + s.detached[n + 1..]), s.detached[n]);
    case Lock(o) => MoveValues(s, o, Locked);
    case Read(o) =>
      var key := s.observers[o].key;
      MoveValues(s, o, if key in s.cache then Found(s.cache[key]) else Missed);
    case TakeSlot(o) => MoveValues(s, o, Slotted);
    case Call(o) => MoveValues(s, o, Calling);
    case Answer(o, value) => MoveValues(s, o, Validated(value));
    case Put(o) => MoveValues(s, o, Putting(s.observers[o].phase.value));
    case Resume(o) => MoveValues(s, o, Found(s.observers[o].phase.value));
  }

  lemma {:induction false} RunInv(steps: seq<Step>)
    ensures Run(steps).Some? ==> Inv(Run(steps).value)
  {
    if steps != [] {
      RunInv(steps[..|steps| - 1]);
      if Run(steps).Some? {
        var before := Run(steps[..|steps| - 1]).value;
        LocksKept(before, steps[|steps| - 1]);
        OwnersKept(before, steps[|steps| - 1]);
        SlotsKept(before, steps[|steps| - 1]);
        ValuesKept(before, steps[|steps| - 1]);
      }
    }
  }

  ghost predicate Reached(steps: seq<Step>, s: State) { Run(steps) == Some(s) }

  /** All observers of a key share one lock, observers of different keys never do, and at most one of a key's
      observers is past the lock, so at most one model call is in flight for it. */
  lemma OneLockPerKey(steps: seq<Step>, s: State, a: nat, b: nat)
    requires Reached(steps, s) && a in s.observers && b in s.observers
    ensures s.observers[a].key == s.observers[b].key <==> s.observers[a].lock == s.observers[b].lock
    ensures s.observers[a].key == s.observers[b].key && !s.observers[a].phase.Waiting? && !s.observers[b].phase.Waiting?
            ==> a == b
  {
    RunInv(steps);
  }

  function CallsInFlight(s: State): set<nat> {
    set o | o in s.observers && s.observers[o].phase.Calling?
  }

  lemma AtMostThreeCalls(steps: seq<Step>, s: State)
    requires Reached(steps, s)
    ensures |CallsInFlight(s)| <= SLOTS
  {
    RunInv(steps);
    SubsetSize(CallsInFlight(s), s.slots);
  }

  /** Only descriptions within their budgets are ever cached. */
  lemma CachedFits(steps: seq<Step>, s: State, key: nat)
    requires Reached(steps, s) && key in s.cache
    ensures Fits(s.cache[key])
  {
    RunInv(steps);
  }

  // ---- at most one result per key ----

  /** The step loses a validated result of `key` before its write. */
  predicate Loses(s: State, step: Step, key: nat) {
    step.Leave? && step.o in s.observers && s.observers[step.o].key == key && Unwritten(s.observers[step.o].phase)
  }

  /** A run during which no observer of `key` was dropped, or failed, between its result and the write. */
  ghost predicate Lossless(steps: seq<Step>, key: nat) {
    steps != [] ==>
      var before := Run(steps[..|steps| - 1]);
      Lossless(steps[..|steps| - 1], key) && (before.Some? ==> !Loses(before.value, steps[|steps| - 1], key))
  }

  function ResultsFor(entries: seq<Entry>, key: nat): seq<Description> {
    if entries == [] then []
    else
      var last := entries[|entries| - 1];
      ResultsFor(entries[..|entries| - 1], key) + if last.key == key then [last.value] else []
  }

  lemma OneMore(entries: seq<Entry>, e: Entry, key: nat)
    ensures ResultsFor(entries + [e], key) == ResultsFor(entries, key) + if e.key == key then [e.value] else []
  {
    assert (entries + [e])[..|entries|] == entries;
  }

  ghost predicate UnwrittenBy(s: State, o: nat, key: nat) {
    o in s.observers && s.observers[o].key == key && Unwritten(s.observers[o].phase)
  }

  /** Before the result: none exists and the cache is empty.  With a result in hand: it is the only one and not
      yet written.  After the write: it is the only one, written once, and what the cache holds. */
  ghost predicate Single(s: State, key: nat) {
    var made := ResultsFor(s.computed, key);
    && (forall e | e in s.detached :: e.key != key)
    && ResultsFor(s.stored, key) == (if key in s.cache then [s.cache[key]] else [])
    && (key in s.cache ==> made == [s.cache[key]])
    && (key !in s.cache && (forall o :: !UnwrittenBy(s, o, key)) ==> made == [])
    && (forall o | UnwrittenBy(s, o, key) :: key !in s.cache && made == [s.observers[o].phase.value])
    && (forall o | o in s.observers && s.observers[o].key == key && Seeking(s.observers[o].phase) ::
          key !in s.cache && made == [])
  }

  predicate Seeking(phase: Phase) { phase.Missed? || phase.Slotted? || phase.Calling? }

  lemma Exclusive(s: State, a: nat, b: nat)
    requires LocksInv(s) && OwnersInv(s) && a in s.observers && b in s.observers
    requires s.observers[a].key == s.observers[b].key
    requires !s.observers[a].phase.Waiting? && !s.observers[b].phase.Waiting?
    ensures a == b
  {
  }

  /** An observer of the key past the lock is the only one, so no other holds an unwritten result. */
  lemma Alone(s: State, o: nat)
    requires LocksInv(s) && OwnersInv(s) && o in s.observers && !s.observers[o].phase.Waiting?
    ensures forall a | a in s.observers && s.observers[a].key == s.observers[o].key && !s.observers[a].phase.Waiting? :: a == o
  {
    forall a | a in s.observers && s.observers[a].key == s.observers[o].key && !s.observers[a].phase.Waiting?
      ensures a == o {
      Exclusive(s, a, o);
    }
  }

  /** What `Single` reads of an observer. */
  predicate PastLock(s: State, o: nat, key: nat) {
    o in s.observers && s.observers[o].key == key && !s.observers[o].phase.Waiting?
  }

  ghost predicate SameFor(s: State, next: State, key: nat) {
    && ResultsFor(next.computed, key) == ResultsFor(s.computed, key)
    && ResultsFor(next.stored, key) == ResultsFor(s.stored, key)
    && (key in next.cache <==> key in s.cache) && (key in s.cache ==> next.cache[key] == s.cache[key])
    && (forall e | e in next.detached :: e in s.detached)
    && (forall o :: PastLock(next, o, key) <==> PastLock(s, o, key))
    && (forall o | PastLock(s, o, key) :: next.observers[o].phase == s.observers[o].phase)
  }

  lemma SingleFrame(s: State, next: State, key: nat)
    requires Single(s, key) && SameFor(s, next, key)
    ensures Single(next, key)
  {
    forall o ensures UnwrittenBy(next, o, key) <==> UnwrittenBy(s, o, key) {
      assert PastLock(next, o, key) <==> PastLock(s, o, key);
    }
    forall o | o in next.observers && next.observers[o].key == key && Seeking(next.observers[o].phase)
      ensures key !in next.cache && ResultsFor(next.computed, key) == [] {
      assert PastLock(next, o, key);
    }
  }

  lemma OwnAnswer(s: State, o: nat, value: Description, key: nat)
    requires Inv(s) && Single(s, key) && Possible(s, Answer(o, value)) && s.observers[o].key == key
    ensures Single(Apply(s, Answer(o, value)), key)
  {
    var next := Apply(s, Answer(o, value));
    OneMore(s.computed, Entry(key, value), key);
    Alone(s, o);
    assert ResultsFor(next.computed, key) == [value] && key !in s.cache;
    forall a ensures UnwrittenBy(next, a, key) <==> a == o {
    }
    assert UnwrittenBy(next, o, key);
  }

  /** An observer of another key moves. */
  lemma OtherMoves(s: State, o: nat, phase: Phase, key: nat)
    requires o in s.observers && s.observers[o].key != key
    ensures SameFor(s, Move(s, o, phase), key)
  {
  }

  /** One observer moves on without recording or writing a result. */
  predicate Ordinary(s: State, o: nat, phase: Phase) {
    && o in s.observers && !phase.Waiting?
    && (Seeking(phase) && !phase.Missed? ==> Seeking(s.observers[o].phase))
    && (phase.Missed? ==> s.observers[o].phase.Locked? && s.observers[o].key !in s.cache)
    && (Unwritten(phase) <==> Unwritten(s.observers[o].phase))
    && (Unwritten(phase) ==> phase.value == s.observers[o].phase.value)
  }

  lemma OwnMove(s: State, o: nat, phase: Phase, key: nat)
    requires LocksInv(s) && OwnersInv(s) && Single(s, key) && Ordinary(s, o, phase) && s.observers[o].key == key
    ensures Single(Move(s, o, phase), key)
  {
    var next := Move(s, o, phase);
    forall a ensures UnwrittenBy(next, a, key) <==> UnwrittenBy(s, a, key) {
    }
    if phase.Missed? {
      Alone(s, o);
      assert forall a :: !UnwrittenBy(s, a, key);
    }
  }

  lemma SingleMove(s: State, o: nat, phase: Phase, key: nat)
    requires Inv(s) && Single(s, key) && Ordinary(s, o, phase)
    ensures Single(Move(s, o, phase), key)
  {
    if s.observers[o].key == key {
      OwnMove(s, o, phase, key);
    } else {
      OtherMoves(s, o, phase, key);
      SingleFrame(s, Move(s, o, phase), key);
    }
  }

  lemma SingleAnswer(s: State, o: nat, value: Description, key: nat)
    requires Inv(s) && Single(s, key) && Possible(s, Answer(o, value))
    ensures Single(Apply(s, Answer(o, value)), key)
  {
    if s.observers[o].key == key {
      OwnAnswer(s, o, value, key);
    } else {
      OtherMoves(s, o, Validated(value), key);
      OneMore(s.computed, Entry(s.observers[o].key, value), key);
      assert SameFor(s, Apply(s, Answer(o, value)), key);
      SingleFrame(s, Apply(s, Answer(o, value)), key);
    }
  }

  lemma OwnWrite(s: State, o: nat, key: nat)
    requires Inv(s) && Single(s, key) && Possible(s, Write(o)) && s.observers[o].key == key
    ensures Single(Apply(s, Write(o)), key)
  {
    var next := Apply(s, Write(o));
    var value := s.observers[o].phase.value;
    OneMore(s.stored, Entry(key, value), key);
    Alone(s, o);
    assert UnwrittenBy(s, o, key);
    assert next.cache[key] == value && ResultsFor(next.stored, key) == [value];
    forall a ensures !UnwrittenBy(next, a, key) {
    }
  }

  lemma SingleWrite(s: State, o: nat, key: nat)
    requires Inv(s) && Single(s, key) && Possible(s, Write(o))
    ensures Single(Apply(s, Write(o)), key)
  {
    if s.observers[o].key == key {
      OwnWrite(s, o, key);
    } else {
      var value := s.observers[o].phase.value;
      OtherMoves(s, o, Wrote(value), key);
      OneMore(s.stored, Entry(s.observers[o].key, value), key);
      assert SameFor(s, Apply(s, Write(o)), key);
      SingleFrame(s, Apply(s, Write(o)), key);
    }
  }

  lemma SingleLeave(s: State, o: nat, key: nat)
    requires Inv(s) && Single(s, key) && o in s.observers && !Loses(s, Leave(o), key)
    ensures Single(Left(s, o), key)
  {
    var next := Left(s, o);
    forall a ensures UnwrittenBy(next, a, key) <==> UnwrittenBy(s, a, key) {
    }
  }

  lemma WaitingAdded(s: State, next: State, o: nat, added: Observer, key: nat)
    requires o !in s.observers && added.phase.Waiting?
    requires next == s.(observers := s.observers[o := added], locks := next.locks, nextLock := next.nextLock)
    ensures SameFor(s, next, key)
  {
  }

  lemma SingleArrive(s: State, o: nat, at: nat, key: nat)
    requires Single(s, key) && o !in s.observers
    ensures Single(Arrived(s, o, at), key)
  {
    var next := Arrived(s, o, at);
    WaitingAdded(s, next, o, next.observers[o], key);
    SingleFrame(s, next, key);
  }

  lemma SingleLock(s: State, o: nat, key: nat)
    requires Inv(s) && Single(s, key) && Possible(s, Lock(o))
    ensures Single(Apply(s, Lock(o)), key)
  {
    SingleMove(s, o, Locked, key);
    assert SameFor(Move(s, o, Locked), Apply(s, Lock(o)), key);
    SingleFrame(Move(s, o, Locked), Apply(s, Lock(o)), key);
  }

  lemma SingleSlot(s: State, o: nat, key: nat)
    requires Inv(s) && Single(s, key) && Possible(s, TakeSlot(o))
    ensures Single(Apply(s, TakeSlot(o)), key)
  {
    SingleMove(s, o, Slotted, key);
    assert SameFor(Move(s, o, Slotted), Apply(s, TakeSlot(o)), key);
    SingleFrame(Move(s, o, Slotted), Apply(s, TakeSlot(o)), key);
  }

  lemma SingleResume(s: State, o: nat, key: nat)
    requires Inv(s) && Single(s, key) && Possible(s, Resume(o))
    ensures Single(Apply(s, Resume(o)), key)
  {
    var found := Found(s.observers[o].phase.value);
    SingleMove(s, o, found, key);
    assert SameFor(Move(s, o, found), Apply(s, Resume(o)), key);
    SingleFrame(Move(s, o, found), Apply(s, Resume(o)), key);
  }

  lemma SingleRead(s: State, o: nat, key: nat)
    requires Inv(s) && Single(s, key) && Possible(s, Read(o))
    ensures Single(Apply(s, Read(o)), key)
  {
    var at := s.observers[o].key;
    SingleMove(s, o, if at in s.cache then Found(s.cache[at]) else Missed, key);
  }

  lemma SingleLand(s: State, n: nat, kept: bool, key: nat)
    requires Single(s, key) && n < |s.detached|
    ensures Single(Apply(s, Land(n, kept)), key)
  {
    var next := Apply(s, Land(n, kept));
    assert s.detached[n] in s.detached;
    OneMore(s.stored, s.detached[n], key);
    forall a ensures UnwrittenBy(next, a, key) <==> UnwrittenBy(s, a, key) {
    }
  }

  lemma SingleKept(s: State, step: Step, key: nat)
    requires Inv(s) && Single(s, key) && Possible(s, step) && !Loses(s, step, key)
    ensures Single(Apply(s, step), key)
  {
    match step
    case Arrive(o, at) => SingleArrive(s, o, at, key);
    case Lock(o) => SingleLock(s, o, key);
    case Read(o) => SingleRead(s, o, key);
    case TakeSlot(o) => SingleSlot(s, o, key);
    case Call(o) => SingleMove(s, o, Calling, key);
    case Answer(o, value) => SingleAnswer(s, o, value, key);
    case Put(o) => SingleMove(s, o, Putting(s.observers[o].phase.value), key);
    case Write(o) => SingleWrite(s, o, key);
    case Resume(o) => SingleResume(s, o, key);
    case Leave(o) => SingleLeave(s, o, key);
    case Land(n, kept) => SingleLand(s, n, kept, key);
  }

  lemma {:induction false} LosslessSingle(steps: seq<Step>, key: nat)
    requires Lossless(steps, key)
    ensures Run(steps).Some? ==> Single(Run(steps).value, key)
  {
    if steps != [] {
      var shorter := steps[..|steps| - 1];
      LosslessSingle(shorter, key);
      RunInv(shorter);
      if Run(steps).Some? {
        SingleKept(Run(shorter).value, steps[|steps| - 1], key);
      }
    }
  }

  /** While no result of the key is lost before its write, at most one is ever computed, it is written at most
      once, and the cache holds it. */
  lemma OneResultPerKey(steps: seq<Step>, s: State, key: nat)
    requires Reached(steps, s) && Lossless(steps, key)
    ensures |ResultsFor(s.computed, key)| <= 1 && |ResultsFor(s.stored, key)| <= 1
    ensures ResultsFor(s.stored, key) != [] ==> ResultsFor(s.stored, key) == ResultsFor(s.computed, key)
    ensures key in s.cache <==> ResultsFor(s.stored, key) != []
    ensures key in s.cache ==> ResultsFor(s.computed, key) == [s.cache[key]]
  {
    LosslessSingle(steps, key);
    if key !in s.cache && ResultsFor(s.computed, key) != [] {
      var o :| UnwrittenBy(s, o, key);
    }
  }
}
