/** The prototype's conversation as the object its tasks share: each method is one section under the locks,
    and is proved to take the machine's step. */
module PrototypeScheduler {
  import opened Wrappers
  import opened Prototype

  lemma {:induction false} ResultSeen(log: seq<Mark>, key: Key)
    ensures ResultsOf(log, key) != [] <==> exists i :: 0 <= i < |log| && log[i].SendResult? && log[i].key == key
  {
    if log != [] {
      var n := |log| - 1;
      ResultSeen(log[..n], key);
      if exists i :: 0 <= i < |log| && log[i].SendResult? && log[i].key == key {
        var i :| 0 <= i < |log| && log[i].SendResult? && log[i].key == key;
        assert i < n ==> log[..n][i].SendResult? && log[..n][i].key == key;
      }
      if ResultsOf(log[..n], key) != [] {
        var i :| 0 <= i < n && log[..n][i].SendResult? && log[..n][i].key == key;
        assert log[i].SendResult? && log[i].key == key;
      }
    }
  }

  lemma NextOrphan(log: seq<Mark>, i: nat)
    requires i < |log|
    ensures OrphanResults(log, i + 1)
            == OrphanResults(log, i)
               + if log[i].SendStarted? && ResultsOf(log, log[i].key) == [] then [SendResult(log[i].key, Unknown)] else []
  {
  }

  class Conversation {
    var closing: bool
    var entering: nat
    var log: seq<Mark>
    var pending: seq<nat>
    var jobs: nat
    var results: seq<nat>
    var delivered: set<nat>
    var turn: Option<nat>
    var turns: map<nat, Turn>
    var nextTurn: nat
    var controller: Option<nat>
    var allowTools: bool
    var sendLock: Option<Key>
    var deliveries: map<Key, Delivery>
    var work: Option<Work>

    function View(): Conv
      reads this
    {
      Conv(closing, entering, log, pending, jobs, results, delivered, turn, turns, nextTurn, controller, allowTools, sendLock,
           deliveries, work)
    }

    constructor ()
      ensures View() == START
    {
      closing, entering, log, pending, jobs, results := false, 0, [], [], 0, [];
      delivered, turn, turns := {}, None, map[];
      nextTurn, controller, allowTools, sendLock, deliveries, work := 0, None, true, None, map[], None;
    }

    method SupersedeTurn()
      modifies this`turns
      ensures View() == Supersede(old(View()))
    {
      if turn.Some? && turn.value in turns {
        turns := turns[turn.value := turns[turn.value].(superseded := true)];
      }
    }

    /** A submission is accepted while the scheduler is open, and then waits for the lock. */
    method Accept() returns (accepted: bool)
      modifies this
      ensures accepted == Possible(old(View()), Enter)
      ensures View() == if accepted then Apply(old(View()), Enter) else old(View())
    {
      accepted := !closing;
      if accepted {
        entering := entering + 1;
      }
    }

    /** What an accepted submission does under the lock, whether or not the scheduler is closing by then. */
    method Submit(input: nat)
      requires entering > 0
      modifies this
      ensures View() == Submitted(old(View()), input)
    {
      entering := entering - 1;
      log := log + [InboundAt(input)];
      pending := pending + [input];
      allowTools := false;
      SupersedeTurn();
    }

    /** One round of `_chat_loop` under the lock: a turn for the waiting inputs, or else for the first waiting
        result, which is dropped without a turn when its job was delivered meanwhile. */
    method NextTurn(notify: bool) returns (started: bool)
      requires controller == None && !closing
      modifies this
      ensures started == (old(pending) != [] || (old(results) != [] && old(results)[0] !in delivered))
      ensures View() == if old(pending) != [] then Apply(old(View()), Take(notify))
                        else if old(results) != [] then Apply(old(View()), TakeResult) else old(View())
    {
      started := false;
      if pending != [] {
        pending := [];
        Begin(notify, None);
        started := true;
      } else if results != [] {
        var job := results[0];
        results := results[1..];
        if job !in delivered {
          Begin(false, Some(job));
          started := true;
        }
      }
    }

    method Begin(notify: bool, report: Option<nat>)
      modifies this
      ensures View() == Created(old(View()), notify, report)
    {
      log := log + [TurnCreated(nextTurn)];
      turns := turns[nextTurn := Prototype.NewTurn(notify, report)];
      turn, controller := Some(nextTurn), Some(nextTurn);
      nextTurn := nextTurn + 1;
    }

    /** The end of a reply that is out in full: the job it was about counts as delivered. */
    method FinishReport(t: nat)
      requires t in turns && MayReport(turns[t])
      modifies this
      ensures View() == Apply(old(View()), MarkDelivered(t))
    {
      var job := turns[t].report.value;
      delivered := delivered + {job};
      log := log + [Reported(t, job)];
    }

    /** The tests of `_deliver` under the lock. */
    method MayDeliver(key: Key) returns (goes: bool)
      requires key.turn in turns
      ensures goes == Deliverable(View(), key)
    {
      var t := turns[key.turn];
      goes := !closing && !t.superseded && turn == Some(key.turn) && pending == [];
      if key.kind != ErrorNotice && (t.expired || t.finished || t.late) {
        goes := false;
      }
      if key.kind == Waiting && (t.outputStarted || t.silent || t.waitClaimed || t.finished) {
        goes := false;
      }
    }

    /** Those tests, and the recorded start; a refused notice counts as done. */
    method CheckDelivery(key: Key) returns (goes: bool)
      requires InPhase(View(), key, Holding) && key.turn in turns
      modifies this
      ensures goes == Deliverable(old(View()), key)
      ensures View() == Checked(old(View()), key)
    {
      goes := MayDeliver(key);
      if goes {
        if key.kind == Waiting {
          turns := turns[key.turn := turns[key.turn].(waitClaimed := true)];
        }
        deliveries := deliveries[key := InFlight];
        log := log + [SendStarted(key)];
      } else {
        if key.kind == Waiting {
          turns := turns[key.turn := turns[key.turn].(waitDone := true)];
        }
        deliveries := deliveries[key := Refused];
        sendLock := None;
      }
    }

    method SettleDelivery(key: Key) returns (succeeded: bool)
      requires key in deliveries && deliveries[key].Receipted? && key.turn in turns
      modifies this
      ensures succeeded == (old(deliveries)[key] == Receipted(Succeeded))
      ensures View() == Settling(old(View()), key)
    {
      var t := turns[key.turn];
      var outcome := deliveries[key].outcome;
      succeeded := outcome == Succeeded;
      if succeeded && key.kind == Reply {
        t := t.(sentCount := t.sentCount + 1);
      }
      if key.kind == Waiting {
        t := t.(waitSent := succeeded, waitDone := true);
      }
      assert t == turns[key.turn] ==> turns[key.turn := t] == turns;
      turns := turns[key.turn := t];
      deliveries := deliveries[key := Settled(outcome)];
      sendLock := None;
    }

    /** `_publish_reply` under the lock; `waits` is the round that goes back to wait for the notice. */
    method Publish(t: nat) returns (waits: bool)
      requires t in turns && turns[t].chat.Publishing?
      modifies this
      ensures View() == Decision(old(View()), t)
      ensures waits ==> View() == old(View())
    {
      var reply := turns[t].chat;
      waits := false;
      if turns[t].superseded || pending != [] || turn != Some(t) {
        turns := turns[t := turns[t].(chat := Published)];
      } else if turns[t].waitClaimed && !turns[t].waitDone {
        waits := true;
      } else if turns[t].waitSent && !reply.sawWait {
        turns := turns[t := turns[t].(chat := Context)];
      } else {
        var decision := Decided(t, reply.sawWait, reply.messages);
        turns := turns[t := turns[t].(outputStarted := reply.messages > 0, silent := reply.messages == 0, valid := true,
                                      decision := decision, chat := Sending(reply.messages, 0))];
        log := log + [decision];
      }
    }

    /** The end of `_chat_turn`, which may let workers act again. */
    method EndTurn(t: nat)
      requires t in turns
      modifies this
      ensures View() == Ended(old(View()), t)
    {
      var ended := turns[t];
      turns := turns[t := ended.(chat := Cleaning)];
      if ended.valid && !ended.sendFailed && (ended.sentCount > 0 || ended.silent) {
        if turn == Some(t) && !ended.superseded && pending == [] {
          allowTools := true;
          log := log + [GoodEnd(t)];
        }
      }
    }

    /** The gate a worker passes before a tool or its report. */
    method TryWork() returns (goes: bool)
      requires work.Some?
      modifies this
      ensures goes == Possible(old(View()), DoWork)
      ensures View() == if goes then Apply(old(View()), DoWork) else old(View())
    {
      goes := !closing && pending == [] && allowTools && !work.value.leaving && !work.value.stop && !work.value.restart;
      if goes {
        log := log + [Worked];
      }
    }

    /** An update or a cancellation of the active job under the lock: both ask the worker to take it up, and
        the latest one decides whether it has to stop. */
    method Change(t: nat, cancel: bool) returns (reached: bool)
      requires t in turns
      modifies this
      ensures reached == Reaches(old(View()), t)
      ensures View() == Apply(old(View()), ChangeJob(t, cancel))
    {
      reached := false;
      if !turns[t].superseded && pending == [] && turn == Some(t) {
        if work.Some? && !work.value.settled {
          work := Some(work.value.(stop := cancel, restart := true));
          reached := true;
        }
      }
    }

    /** The top of the worker's loop: it leaves when asked to stop, and otherwise takes up a request. */
    method NextRound() returns (goes: bool)
      requires work.Some? && !work.value.leaving
      modifies this
      ensures goes == !old(work).value.stop
      ensures View() == if old(work).value.stop then Apply(old(View()), LeaveLoop)
                        else if old(work).value.restart then Apply(old(View()), TakeRestart) else old(View())
    {
      goes := !work.value.stop;
      if work.value.stop {
        work := Some(work.value.(leaving := true));
      } else if work.value.restart {
        work := Some(work.value.(restart := false));
      }
    }

    method Close()
      modifies this
      ensures View() == Apply(old(View()), Step.Close)
    {
      closing := true;
      allowTools := true;
      SupersedeTurn();
    }

    /** Keys that already have a result when the process starts. */
    method Receipts() returns (receipts: set<Key>)
      ensures forall key :: key in receipts <==> ResultsOf(log, key) != []
    {
      receipts := {};
      var i := 0;
      while i < |log|
        invariant 0 <= i <= |log|
        invariant forall key :: key in receipts <==> exists j :: 0 <= j < i && log[j].SendResult? && log[j].key == key
      {
        if log[i].SendResult? {
          receipts := receipts + {log[i].key};
        }
        i := i + 1;
      }
      forall key ensures key in receipts <==> ResultsOf(log, key) != [] {
        ResultSeen(log, key);
      }
    }

    /** Whether any recorded event tells who the conversation is with. */
    method HasOrigin() returns (known: bool)
      ensures known == HasInbound(log)
    {
      known := false;
      var i := 0;
      while i < |log|
        invariant 0 <= i <= |log|
        invariant known <==> exists j :: 0 <= j < i && log[j].InboundAt?
      {
        known := known || log[i].InboundAt?;
        i := i + 1;
      }
    }

    /** One `unknown` result for each recorded start that has none. */
    static method Missing(events: seq<Mark>, receipts: set<Key>) returns (added: seq<Mark>)
      requires forall key :: key in receipts <==> ResultsOf(events, key) != []
      ensures added == OrphanResults(events, |events|)
    {
      added := [];
      var i := 0;
      while i < |events|
        invariant 0 <= i <= |events| && added == OrphanResults(events, i)
      {
        NextOrphan(events, i);
        if events[i].SendStarted? && events[i].key !in receipts {
          added := added + [SendResult(events[i].key, Unknown)];
        }
        i := i + 1;
      }
    }

    method Repair()
      modifies this`log
      ensures log == old(log) + if HasInbound(old(log)) then OrphanResults(old(log), |old(log)|) else []
    {
      var receipts := Receipts();
      var known := HasOrigin();
      if known {
        var added := Missing(log, receipts);
        log := log + added;
      }
    }

    /** Every task of the old process is gone; its turns and deliveries stay on record. */
    method StopTasks(before: Conv)
      requires forall t | t in turns :: t in before.turns
      modifies this`turns, this`deliveries
      ensures turns == map t | t in old(turns) :: StoppedTurn(before, t)
      ensures deliveries == map key | key in old(deliveries) :: StoppedDelivery(old(deliveries)[key])
    {
      turns := map t | t in turns :: StoppedTurn(before, t);
      deliveries := map key | key in deliveries :: StoppedDelivery(deliveries[key]);
    }

    method Reset(unfinished: seq<nat>)
      modifies this`closing, this`entering, this`pending, this`results, this`turn, this`controller
      modifies this`allowTools, this`sendLock, this`work
      ensures View() == Conv(false, 0, log, unfinished, jobs, [], delivered, None, turns, nextTurn, None, unfinished == [], None,
                             deliveries, None)
    {
      closing, entering, pending, results, turn, controller := false, 0, unfinished, [], None, None;
      allowTools, sendLock, work := unfinished == [], None, None;
    }

    /** `start` in a new process: recorded sends without a result gain one, and unfinished inputs wait again. */
    method Start(unfinished: seq<nat>)
      modifies this
      ensures View() == Restarting(old(View()), unfinished)
    {
      var before := View();
      Repair();
      log := log + [Restarted(unfinished == [])];
      StopTasks(before);
      Reset(unfinished);
    }
  }
}
