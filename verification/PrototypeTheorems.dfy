/** What every run of the prototype keeps, read off positions of its log. */
module PrototypeTheorems {
  import opened Wrappers
  import opened Prototype
  import opened PrototypeInvariant
  import opened PrototypeSteps
  import opened PrototypeTurns
  import opened PrototypeRestart
  import opened PrototypeRuns

  // ---- from counts to positions ----

  lemma {:induction false} StartAt(log: seq<Mark>, key: Key, q: nat)
    requires q < |log| && log[q] == SendStarted(key)
    ensures StartsOf(log, key) >= 1
  {
    if q < |log| - 1 {
      StartAt(log[..|log| - 1], key, q);
    }
  }

  lemma {:induction false} ResultAt(log: seq<Mark>, key: Key, q: nat)
    requires q < |log| && log[q].SendResult? && log[q].key == key
    ensures log[q].outcome in ResultsOf(log, key)
  {
    if q < |log| - 1 {
      ResultAt(log[..|log| - 1], key, q);
    }
  }

  lemma {:induction false} ResultPlace(log: seq<Mark>, key: Key, o: Outcome) returns (q: nat)
    requires o in ResultsOf(log, key)
    ensures q < |log| && log[q] == SendResult(key, o)
  {
    var last := log[|log| - 1];
    if last == SendResult(key, o) {
      q := |log| - 1;
    } else {
      q := ResultPlace(log[..|log| - 1], key, o);
    }
  }

  lemma {:induction false} ResultsGrow(log: seq<Mark>, p: nat, key: Key)
    requires p <= |log|
    ensures ResultsOf(log[..p], key) <= ResultsOf(log, key)
  {
    if p < |log| {
      assert log[..|log| - 1][..p] == log[..p];
      ResultsGrow(log[..|log| - 1], p, key);
    } else {
      assert log[..p] == log;
    }
  }

  lemma {:induction false} DecisionAt(log: seq<Mark>, t: nat, q: nat)
    requires q < |log| && log[q].Decided? && log[q].turn == t
    ensures log[q] in DecisionsOf(log, t)
  {
    if q < |log| - 1 {
      DecisionAt(log[..|log| - 1], t, q);
    }
  }

  lemma {:induction false} DecisionPlace(log: seq<Mark>, t: nat, m: Mark) returns (d: nat)
    requires m in DecisionsOf(log, t)
    ensures d < |log| && log[d] == m && m.Decided? && m.turn == t
  {
    var last := log[|log| - 1];
    if last == m && last.Decided? && last.turn == t {
      d := |log| - 1;
    } else {
      d := DecisionPlace(log[..|log| - 1], t, m);
    }
  }

  lemma {:induction false} AskPlace(log: seq<Mark>, t: nat, saw: bool) returns (a: nat)
    requires LastAsk(log, t) == Some(saw)
    ensures a < |log| && log[a] == Asked(t, saw)
    ensures forall q | a < q < |log| :: !(log[q].Asked? && log[q].turn == t)
  {
    var last := log[|log| - 1];
    if last.Asked? && last.turn == t {
      a := |log| - 1;
    } else {
      a := AskPlace(log[..|log| - 1], t, saw);
    }
  }

  ghost predicate QuietBetween(log: seq<Mark>, i: int, p: int)
    requires 0 <= i <= p <= |log|
  {
    forall j | i < j < p :: !log[j].InboundAt?
  }

  lemma {:induction false} CreationPlace(log: seq<Mark>, t: nat) returns (i: nat)
    requires Undisturbed(log, t)
    ensures i < |log| && log[i] == TurnCreated(t) && QuietBetween(log, i, |log|)
  {
    if log[|log| - 1] == TurnCreated(t) {
      i := |log| - 1;
    } else {
      i := CreationPlace(log[..|log| - 1], t);
    }
  }

  /** What opened the gate after the inbound event at `i`. */
  lemma {:induction false} OpeningPlace(log: seq<Mark>, i: nat) returns (g: nat)
    requires GateOpen(log) && i < |log| && log[i].InboundAt?
    ensures i < g < |log| && (log[g].GoodEnd? || log[g] == Restarted(true)) && QuietBetween(log, g, |log|)
  {
    var last := log[|log| - 1];
    if last.GoodEnd? || last.Restarted? {
      g := |log| - 1;
    } else {
      g := OpeningPlace(log[..|log| - 1], i);
    }
  }

  // ---- every run ----

  ghost predicate Logged(steps: seq<Step>, log: seq<Mark>) {
    Run(steps).Some? && Run(steps).value.log == log
  }

  lemma GroundsAt(steps: seq<Step>, log: seq<Mark>, p: nat)
    requires Logged(steps, log) && p < |log|
    ensures Grounds(log[..p], log[p])
  {
    RunInv(steps);
    assert Grounded(log, p);
  }

  /** All that the theorems below use of a run. */
  ghost predicate Sound(log: seq<Mark>) {
    History(log) && forall key :: |ResultsOf(log, key)| <= StartsOf(log, key) <= 1
  }

  lemma RunsAreSound(steps: seq<Step>, log: seq<Mark>)
    requires Logged(steps, log)
    ensures Sound(log)
  {
    RunInv(steps);
    forall key ensures |ResultsOf(log, key)| <= StartsOf(log, key) <= 1 {
      OneAttemptOneResult(steps, log, key);
    }
  }

  /** Each delivery is attempted at most once and receives at most one result, after it was started. */
  lemma OneAttemptOneResult(steps: seq<Step>, log: seq<Mark>, key: Key)
    requires Logged(steps, log)
    ensures |ResultsOf(log, key)| <= StartsOf(log, key) <= 1
  {
    RunInv(steps);
    var c := Run(steps).value;
    assert StartsOf(log, key) == ExpectedStarts(c.deliveries, key);
    assert ResultsOf(log, key) == ExpectedReceipts(c.deliveries, key);
  }

  /** A turn starts at most one waiting notice, and none once its reply or silence is decided. */
  lemma OneNoticeBeforeTheReply(steps: seq<Step>, log: seq<Mark>, p: nat, q: nat)
    requires Logged(steps, log) && q < p < |log|
    requires log[p].SendStarted? && log[p].key.kind.Waiting?
    ensures !(log[q].SendStarted? && log[q].key.kind.Waiting? && log[q].key.turn == log[p].key.turn)
    ensures !(log[q].Decided? && log[q].turn == log[p].key.turn)
  {
    var t := log[p].key.turn;
    GroundsAt(steps, log, p);
    if log[q].Decided? && log[q].turn == t {
      DecisionAt(log[..p], t, q);
      assert false;
    }
    if log[q].SendStarted? && log[q].key.kind.Waiting? && log[q].key.turn == t {
      GroundsAt(steps, log, q);
      StartAt(log[..p], WaitKey(t), q);
      assert false;
    }
  }

  ghost predicate DecidedAt(log: seq<Mark>, d: nat, t: nat, index: nat) {
    d < |log| && log[d].Decided? && log[d].turn == t && index < log[d].messages
  }

  /** The model call behind the decision at `d` carried the notice flag, and the notice had been delivered
      before that call. */
  ghost predicate KnewOfNotice(log: seq<Mark>, d: nat, t: nat, a: nat, r: nat) {
    && r < a < d < |log|
    && log[r] == SendResult(WaitKey(t), Succeeded)
    && log[a] == Asked(t, true)
    && (forall q | a < q < d :: !(log[q].Asked? && log[q].turn == t))
  }

  ghost predicate Informed(log: seq<Mark>, d: nat, t: nat) {
    exists a: nat, r: nat :: KnewOfNotice(log, d, t, a, r)
  }

  /** A reply message belongs to its turn's decision; no notice is under way when it starts; and if a notice
      was delivered before it, the call that produced the reply knew. */
  lemma ReplyKnowsOfNotice(steps: seq<Step>, log: seq<Mark>, p: nat) returns (d: nat)
    requires Logged(steps, log) && p < |log| && log[p].SendStarted? && log[p].key.kind.Reply?
    ensures d < p && DecidedAt(log, d, log[p].key.turn, log[p].key.index)
    ensures SendStarted(WaitKey(log[p].key.turn)) in log[..p] ==> exists o :: SendResult(WaitKey(log[p].key.turn), o) in log[..p]
    ensures SendResult(WaitKey(log[p].key.turn), Succeeded) in log[..p] ==> Informed(log, d, log[p].key.turn)
  {
    RunsAreSound(steps, log);
    d := DecisionBehind(log, p);
  }

  lemma DecisionBehind(log: seq<Mark>, p: nat) returns (d: nat)
    requires Sound(log) && p < |log| && log[p].SendStarted? && log[p].key.kind.Reply?
    ensures d < p && DecidedAt(log, d, log[p].key.turn, log[p].key.index)
    ensures SendStarted(WaitKey(log[p].key.turn)) in log[..p] ==> exists o :: SendResult(WaitKey(log[p].key.turn), o) in log[..p]
    ensures SendResult(WaitKey(log[p].key.turn), Succeeded) in log[..p] ==> Informed(log, d, log[p].key.turn)
  {
    var t := log[p].key.turn;
    assert Grounded(log, p);
    assert ReplyGrounds(log[..p], log[p].key);
    d := DecisionPlace(log[..p], t, DecisionsOf(log[..p], t)[0]);
    if SendStarted(WaitKey(t)) in log[..p] {
      NoticeAnswered(log[..p], t);
    }
    if SendResult(WaitKey(t), Succeeded) in log[..p] {
      DeliveredNotice(log, p, t);
      NoticeKnown(log, d, t);
    }
  }

  lemma NoticeKnown(log: seq<Mark>, d: nat, t: nat)
    requires Sound(log) && d < |log| && log[d].Decided? && log[d].turn == t && log[d].sawWait
    ensures Informed(log, d, t)
  {
    assert Grounded(log, d);
    var a := AskPlace(log[..d], t, true);
    assert Grounded(log, a);
    var r := ResultPlace(log[..a], WaitKey(t), Succeeded);
    assert KnewOfNotice(log, d, t, a, r);
  }

  lemma NoticeAnswered(log: seq<Mark>, t: nat)
    requires SendStarted(WaitKey(t)) in log && StartsOf(log, WaitKey(t)) == |ResultsOf(log, WaitKey(t))|
    ensures exists o :: SendResult(WaitKey(t), o) in log
  {
    var q :| 0 <= q < |log| && log[q] == SendStarted(WaitKey(t));
    StartAt(log, WaitKey(t), q);
    var o := ResultsOf(log, WaitKey(t))[0];
    var r := ResultPlace(log, WaitKey(t), o);
    assert SendResult(WaitKey(t), o) in log;
  }

  lemma DeliveredNotice(log: seq<Mark>, p: nat, t: nat)
    requires Sound(log) && p < |log|
    requires SendResult(WaitKey(t), Succeeded) in log[..p]
    ensures ResultsOf(log[..p], WaitKey(t)) == [Succeeded]
  {
    var q :| 0 <= q < p && log[..p][q] == SendResult(WaitKey(t), Succeeded);
    ResultAt(log[..p], WaitKey(t), q);
    ResultsGrow(log, p, WaitKey(t));
    assert |ResultsOf(log, WaitKey(t))| <= 1;
  }

  lemma CreatedOnce(log: seq<Mark>, i: nat, j: nat)
    requires History(log) && i < j < |log| && log[j].TurnCreated?
    ensures log[i] != log[j]
  {
    assert Grounded(log, j);
    assert log[..j][i] == log[i];
  }

  lemma OnlyCreation(log: seq<Mark>, i: nat)
    requires History(log) && i < |log| && log[i].TurnCreated?
    ensures forall j: nat | j < |log| && j != i :: log[j] != log[i]
  {
    forall j: nat | j < |log| && j != i ensures log[j] != log[i] {
      if log[j].TurnCreated? {
        CreatedOnce(log, if i < j then i else j, if i < j then j else i);
      }
    }
  }

  lemma CreationBehind(log: seq<Mark>, p: nat) returns (i: nat)
    requires History(log) && p < |log| && log[p].SendStarted?
    ensures i < p && log[i] == TurnCreated(log[p].key.turn) && QuietBetween(log, i, p)
    ensures forall j: nat | j < |log| && j != i :: log[j] != log[i]
  {
    assert Grounded(log, p);
    i := CreationPlace(log[..p], log[p].key.turn);
    OnlyCreation(log, i);
  }

  /** No inbound event of the conversation lies between a turn's only creation and any of its sends. */
  lemma Supersession(steps: seq<Step>, log: seq<Mark>, p: nat) returns (i: nat)
    requires Logged(steps, log) && p < |log| && log[p].SendStarted?
    ensures i < p && log[i] == TurnCreated(log[p].key.turn) && QuietBetween(log, i, p)
    ensures forall j: nat | j < |log| && j != i :: log[j] != log[i]
  {
    RunsAreSound(steps, log);
    i := CreationBehind(log, p);
  }

  /** Reply messages go out in order: each one starts only after every earlier one was confirmed sent. */
  lemma RepliesInOrder(steps: seq<Step>, log: seq<Mark>, p: nat, j: nat) returns (q: nat)
    requires Logged(steps, log) && p < |log| && log[p].SendStarted? && log[p].key.kind.Reply? && j < log[p].key.index
    ensures q < p && log[q] == SendResult(ReplyKey(log[p].key.turn, j), Succeeded)
  {
    GroundsAt(steps, log, p);
    q := ResultPlace(log[..p], ReplyKey(log[p].key.turn, j), Succeeded);
  }

  /** A message that was not confirmed sent is the last of its turn: no later one starts, before or after. */
  lemma FirstFailureStops(steps: seq<Step>, log: seq<Mark>, t: nat, j: nat, q: nat, p: nat)
    requires Logged(steps, log) && q < |log| && p < |log|
    requires log[q].SendResult? && log[q].key == ReplyKey(t, j) && log[q].outcome != Succeeded
    ensures log[p].SendStarted? && log[p].key.kind.Reply? && log[p].key.turn == t ==> log[p].key.index <= j
  {
    RunsAreSound(steps, log);
    if log[p].SendStarted? && log[p].key.kind.Reply? && log[p].key.turn == t && log[p].key.index > j {
      FailureIsLast(log, t, j, q, p);
    }
  }

  lemma FailureIsLast(log: seq<Mark>, t: nat, j: nat, q: nat, p: nat)
    requires Sound(log) && q < |log| && p < |log|
    requires log[q].SendResult? && log[q].key == ReplyKey(t, j)
    requires log[p].SendStarted? && log[p].key.kind.Reply? && log[p].key.turn == t && log[p].key.index > j
    ensures log[q].outcome == Succeeded
  {
    assert Grounded(log, p);
    ResultAt(log, ReplyKey(t, j), q);
    ResultsGrow(log, p, ReplyKey(t, j));
    assert |ResultsOf(log, ReplyKey(t, j))| <= 1;
  }

  ghost predicate AllConfirmed(log: seq<Mark>, t: nat, messages: nat) {
    forall j: nat | j < messages :: SendResult(ReplyKey(t, j), Succeeded) in log
  }

  lemma GroundsOfGoodEnd(log: seq<Mark>, t: nat)
    requires Grounds(log, GoodEnd(t))
    ensures Undisturbed(log, t) && |DecisionsOf(log, t)| == 1 && DecisionsOf(log, t)[0].Decided?
    ensures AllConfirmed(log, t, DecisionsOf(log, t)[0].messages)
  {
    forall j: nat | j < DecisionsOf(log, t)[0].messages ensures SendResult(ReplyKey(t, j), Succeeded) in log {
      assert Succeeded in ResultsOf(log, ReplyKey(t, j));
      var q := ResultPlace(log, ReplyKey(t, j), Succeeded);
    }
  }

  /** A turn counts as ended well only if its decision was made and every message of it was confirmed sent,
      with no inbound event since the turn was created. */
  lemma GoodEndsAreComplete(steps: seq<Step>, log: seq<Mark>, g: nat) returns (i: nat, d: nat)
    requires Logged(steps, log) && g < |log| && log[g].GoodEnd?
    ensures i < g && log[i] == TurnCreated(log[g].turn) && QuietBetween(log, i, g)
    ensures d < g && log[d].Decided? && log[d].turn == log[g].turn
    ensures AllConfirmed(log[..g], log[g].turn, log[d].messages)
  {
    RunsAreSound(steps, log);
    i, d := BehindGoodEnd(log, g);
  }

  lemma BehindGoodEnd(log: seq<Mark>, g: nat) returns (i: nat, d: nat)
    requires History(log) && g < |log| && log[g].GoodEnd?
    ensures i < g && log[i] == TurnCreated(log[g].turn) && QuietBetween(log, i, g)
    ensures d < g && log[d].Decided? && log[d].turn == log[g].turn
    ensures AllConfirmed(log[..g], log[g].turn, log[d].messages)
  {
    var t := log[g].turn;
    assert Grounded(log, g);
    GroundsOfGoodEnd(log[..g], t);
    i := CreationPlace(log[..g], t);
    d := DecisionPlace(log[..g], t, DecisionsOf(log[..g], t)[0]);
  }

  lemma RestartCounts(c: Conv, replayed: seq<nat>, key: Key)
    requires Inv(c)
    ensures var after := Restarting(c, replayed).log;
            && StartsOf(after, key) == StartsOf(c.log, key) == |ResultsOf(after, key)|
            && ResultsOf(after, key)
               == if StartsOf(c.log, key) == 1 && ResultsOf(c.log, key) == [] then [Unknown] else ResultsOf(c.log, key)
  {
    RestartTables(c, replayed);
    RestartParts(c, replayed);
    CountsStopped(c.log, c.deliveries, Restarting(c, replayed).log, key);
  }

  lemma StoppedReceipts(deliveries: map<Key, Delivery>, key: Key)
    ensures ExpectedStarts(StoppedDeliveries(deliveries), key) == ExpectedStarts(deliveries, key)
            == |ExpectedReceipts(StoppedDeliveries(deliveries), key)|
    ensures ExpectedReceipts(StoppedDeliveries(deliveries), key)
            == if ExpectedStarts(deliveries, key) == 1 && ExpectedReceipts(deliveries, key) == [] then [Unknown]
               else ExpectedReceipts(deliveries, key)
  {
  }

  lemma CountsStopped(log: seq<Mark>, deliveries: map<Key, Delivery>, after: seq<Mark>, key: Key)
    requires Counts(log, deliveries) && Counts(after, StoppedDeliveries(deliveries))
    ensures StartsOf(after, key) == StartsOf(log, key) == |ResultsOf(after, key)|
    ensures ResultsOf(after, key)
            == if StartsOf(log, key) == 1 && ResultsOf(log, key) == [] then [Unknown] else ResultsOf(log, key)
  {
    StoppedReceipts(deliveries, key);
    assert StartsOf(log, key) == ExpectedStarts(deliveries, key);
    assert StartsOf(after, key) == ExpectedStarts(StoppedDeliveries(deliveries), key);
    assert ResultsOf(log, key) == ExpectedReceipts(deliveries, key);
    assert ResultsOf(after, key) == ExpectedReceipts(StoppedDeliveries(deliveries), key);
  }

  lemma RestartRun(steps: seq<Step>, replayed: seq<nat>)
    requires Run(steps + [Restart(replayed)]).Some?
    ensures Run(steps).Some? && Run(steps + [Restart(replayed)]).value == Restarting(Run(steps).value, replayed)
  {
    var all := steps + [Restart(replayed)];
    assert all[..|all| - 1] == steps && all[|all| - 1] == Restart(replayed);
  }

  /** After a restart every started send has exactly one result; those that had none gained `unknown`. */
  lemma ReceiptsAfterRestart(steps: seq<Step>, replayed: seq<nat>, before: seq<Mark>, log: seq<Mark>, key: Key)
    requires Logged(steps, before) && Logged(steps + [Restart(replayed)], log)
    ensures StartsOf(log, key) == StartsOf(before, key) == |ResultsOf(log, key)|
    ensures ResultsOf(log, key)
            == if StartsOf(before, key) == 1 && ResultsOf(before, key) == [] then [Unknown] else ResultsOf(before, key)
  {
    RunInv(steps);
    RestartRun(steps, replayed);
    RestartCounts(Run(steps).value, replayed, key);
  }

  ghost predicate CleanTurn(log: seq<Mark>, i: nat, g: nat)
    requires g < |log| && log[g].GoodEnd?
  {
    exists k: nat :: i < k < g && log[k] == TurnCreated(log[g].turn) && QuietBetween(log, k, g)
  }

  /** After an inbound event no worker tool starts and no report is made until a turn created later ends well,
      undisturbed, or the process restarts with nothing pending; and none while a newer event waits. */
  lemma WorkersWait(steps: seq<Step>, log: seq<Mark>, i: nat, p: nat) returns (g: nat)
    requires Logged(steps, log) && i < p < |log| && log[i].InboundAt? && log[p] == Worked
    ensures i < g < p && QuietBetween(log, g, p)
    ensures log[g] == Restarted(true) || (log[g].GoodEnd? && CleanTurn(log, i, g))
  {
    RunsAreSound(steps, log);
    g := OpeningBefore(log, i, p);
  }

  lemma OpeningBefore(log: seq<Mark>, i: nat, p: nat) returns (g: nat)
    requires History(log) && i < p < |log| && log[i].InboundAt? && log[p] == Worked
    ensures i < g < p && QuietBetween(log, g, p)
    ensures log[g] == Restarted(true) || (log[g].GoodEnd? && CleanTurn(log, i, g))
  {
    assert Grounded(log, p);
    g := OpeningPlace(log[..p], i);
    if log[g].GoodEnd? {
      var k, d := BehindGoodEnd(log, g);
      assert i <= k;
    }
  }

  /** What a log gains: at most one mark, and `Worked` or a start only from the step that writes it. */
  predicate Gains(log: seq<Mark>, next: seq<Mark>, worked: bool, started: bool) {
    || next == log
    || (|next| == |log| + 1 && log <= next
        && (next[|log|] == Worked ==> worked) && (next[|log|].SendStarted? ==> started))
  }

  /** A step within a process adds at most one mark, and only a worker's own step adds `Worked`. */
  lemma StepLog(c: Conv, step: Step) returns (marks: seq<Mark>)
    requires Possible(c, step) && !step.Restart?
    ensures Apply(c, step).log == c.log + marks && |marks| <= 1
    ensures marks == [Worked] ==> step.DoWork?
    ensures marks != [] && marks[0].SendStarted? ==> step.Check?
  {
    StepGains(c, step);
    marks := Apply(c, step).log[|c.log|..];
  }

  lemma StepGains(c: Conv, step: Step)
    requires Possible(c, step) && !step.Restart?
    ensures Gains(c.log, Apply(c, step).log, step.DoWork?, step.Check?)
  {
    if OfChat(step) {
      ChatGains(c, step);
    } else if OfSpawning(step) {
      SpawningGains(c, step);
    } else if OfDelivery(step) {
      DeliveryGains(c, step);
    } else if OfLeaving(step) {
      LeavingGains(c, step);
    } else if OfHost(step) {
      HostGains(c, step);
    }
  }

  lemma ChatGains(c: Conv, step: Step)
    requires Possible(c, step) && OfChat(step)
    ensures Gains(c.log, ApplyChat(c, step).log, false, false)
  {
  }

  lemma SpawningGains(c: Conv, step: Step)
    requires Possible(c, step) && OfSpawning(step)
    ensures ApplySpawning(c, step).log == c.log
  {
  }

  lemma DeliveryGains(c: Conv, step: Step)
    requires Possible(c, step) && OfDelivery(step)
    ensures Gains(c.log, ApplyDelivery(c, step).log, false, step.Check?)
  {
  }

  lemma LeavingGains(c: Conv, step: Step)
    requires Possible(c, step) && OfLeaving(step)
    ensures ApplyLeaving(c, step).log == c.log
  {
  }

  lemma HostGains(c: Conv, step: Step)
    requires Possible(c, step) && OfHost(step) && !step.Restart?
    ensures Gains(c.log, ApplyHost(c, step).log, false, false)
  {
  }

  // ---- after a deadline ----

  /** The turn's deadline has passed, or it failed, or it is over. */
  predicate Spent(c: Conv, t: nat) {
    t in c.turns && (c.turns[t].late || c.turns[t].expired || c.turns[t].finished)
  }

  /** What a step adds, but for the error notice, is not a send of the turn. */
  predicate NotItsSend(marks: seq<Mark>, t: nat) {
    forall m | m in marks :: m.SendStarted? && m.key.turn == t ==> m.key.kind == ErrorNotice
  }

  /** What a turn's record never loses. */
  predicate TurnKept(a: Turn, b: Turn) {
    && b.report == a.report
    && (a.late ==> b.late) && (a.expired ==> b.expired) && (a.finished ==> b.finished)
  }

  predicate Kept(c: Conv, next: Conv, t: nat) {
    t in c.turns ==> t in next.turns && TurnKept(c.turns[t], next.turns[t])
  }

  lemma StepKept(c: Conv, step: Step, t: nat)
    requires (t in c.turns ==> t < c.nextTurn) && Possible(c, step)
    ensures Kept(c, Apply(c, step), t)
  {
    if OfHost(step) {
      HostKept(c, step, t);
      assert Apply(c, step) == ApplyHost(c, step);
    } else if OfWorker(step) {
      WorkerTurns(c, step);
      assert Apply(c, step) == ApplyWorker(c, step);
    } else {
      TaskKept(c, step, t);
    }
  }

  lemma WorkerTurns(c: Conv, step: Step)
    requires Possible(c, step) && OfWorker(step)
    ensures ApplyWorker(c, step).turns == c.turns
  {
  }

  lemma TaskKept(c: Conv, step: Step, t: nat)
    requires Possible(c, step) && !OfHost(step) && !OfWorker(step)
    ensures Kept(c, Apply(c, step), t)
  {
    if OfChat(step) {
      ChatKept(c, step, t);
    } else if OfSpawning(step) {
      SpawningKept(c, step, t);
    } else if OfDelivery(step) {
      DeliveryKept(c, step, t);
    } else {
      LeavingKept(c, step, t);
    }
  }

  lemma ChatKept(c: Conv, step: Step, t: nat)
    requires Possible(c, step) && OfChat(step)
    ensures Kept(c, ApplyChat(c, step), t)
  {
    match step
    case Ask(u) =>
    case Answer(u, _) =>
    case Again(u) =>
    case GiveUp(u) =>
    case Decide(u) => DecisionKept(c, u, t);
    case Collect(u) => CollectedKept(c, u, t);
    case EndChat(u) => EndedKept(c, u, t);
  }

  lemma DecisionKept(c: Conv, u: nat, t: nat)
    requires u in c.turns && c.turns[u].chat.Publishing?
    ensures Kept(c, Decision(c, u), t)
  {
    if MayDecide(c, u) {
      DecideResult(c, u);
      assert Decision(c, u).turns == SetTurn(c, u, DecidedTurn(u, c.turns[u])).turns;
      SetKept(c, u, DecidedTurn(u, c.turns[u]), t);
    } else {
      UndecidedKept(c, u, t);
    }
  }

  lemma UndecidedKept(c: Conv, u: nat, t: nat)
    requires u in c.turns && c.turns[u].chat.Publishing? && !MayDecide(c, u)
    ensures Kept(c, Decision(c, u), t)
  {
    if !Current(c, u) {
      assert Decision(c, u) == SetChat(c, u, Published);
    } else if c.turns[u].waitClaimed && !c.turns[u].waitDone {
      assert Decision(c, u) == c;
    } else {
      assert Decision(c, u) == SetChat(c, u, Context);
    }
  }

  lemma SetKept(c: Conv, u: nat, turn: Turn, t: nat)
    requires u in c.turns && TurnKept(c.turns[u], turn)
    ensures Kept(c, SetTurn(c, u, turn), t)
  {
  }

  lemma CollectedKept(c: Conv, u: nat, t: nat)
    requires Possible(c, Collect(u))
    ensures Kept(c, Collected(c, u), t)
  {
  }

  lemma EndedKept(c: Conv, u: nat, t: nat)
    requires u in c.turns
    ensures Kept(c, Ended(c, u), t)
  {
  }

  lemma SpawningKept(c: Conv, step: Step, t: nat)
    requires Possible(c, step) && OfSpawning(step)
    ensures Kept(c, ApplySpawning(c, step), t)
  {
    match step
    case SpawnSend(u) =>
    case FireTimer(u) =>
    case Fail(u, notify) => FailingKept(c, u, notify, t);
  }

  lemma DeliveryKept(c: Conv, step: Step, t: nat)
    requires Possible(c, step) && OfDelivery(step)
    ensures Kept(c, ApplyDelivery(c, step), t)
  {
    match step
    case Acquire(key) =>
    case Check(key) => CheckedKept(c, key, t);
    case Receive(key, outcome) =>
    case Settle(key) => SettlingKept(c, key, t);
  }

  lemma FailingKept(c: Conv, u: nat, notify: bool, t: nat)
    requires u in c.turns
    ensures Kept(c, Failing(c, u, notify), t)
  {
  }

  lemma CheckedKept(c: Conv, key: Key, t: nat)
    requires key.turn in c.turns
    ensures Kept(c, Checked(c, key), t)
  {
  }

  lemma SettlingKept(c: Conv, key: Key, t: nat)
    requires key in c.deliveries && c.deliveries[key].Receipted? && key.turn in c.turns
    ensures Kept(c, Settling(c, key), t)
  {
  }

  lemma LeavingKept(c: Conv, step: Step, t: nat)
    requires Possible(c, step) && OfLeaving(step)
    ensures Kept(c, ApplyLeaving(c, step), t)
  {
  }

  lemma HostKept(c: Conv, step: Step, t: nat)
    requires (t in c.turns ==> t < c.nextTurn) && Possible(c, step) && OfHost(step)
    ensures Kept(c, ApplyHost(c, step), t)
  {
    match step
    case Submit(_) => SupersedeKept(c, t);
    case Close => SupersedeKept(c, t);
    case Take(notify) => CreatedKept(c, notify, None, t);
    case TakeResult => CreatedKept(c.(results := c.results[1..]), false, Some(c.results[0]), t);
    case Restart(replayed) => RestartKept(c, replayed, t);
    case _ => SameTurns(c, step);
  }

  lemma SameTurns(c: Conv, step: Step)
    requires Possible(c, step) && (step.Enter? || step.ResultArrives? || step.StartJob? || step.MarkDelivered? || step.ClearTurn?)
    ensures ApplyHost(c, step).turns == c.turns
  {
  }

  lemma SupersedeKept(c: Conv, t: nat)
    ensures Kept(c, Supersede(c), t)
  {
  }

  lemma CreatedKept(c: Conv, notify: bool, report: Option<nat>, t: nat)
    requires t in c.turns ==> t < c.nextTurn
    ensures Kept(c, Created(c, notify, report), t)
  {
  }

  lemma RestartKept(c: Conv, replayed: seq<nat>, t: nat)
    ensures Kept(c, Restarting(c, replayed), t)
  {
  }

  lemma SpentAdds(c: Conv, step: Step, t: nat) returns (marks: seq<Mark>)
    requires Possible(c, step) && Spent(c, t)
    ensures Apply(c, step).log == c.log + marks && NotItsSend(marks, t)
  {
    if step.Restart? {
      marks := RestartMarks(c, step.replayed);
      OrphansOnlyResults(c.log, |c.log|);
    } else {
      marks := StepLog(c, step);
      if step.Check? {
        CheckMarks(c, step.key, marks);
      } else {
        assert marks == [] || marks == [marks[0]];
      }
    }
  }

  lemma CheckMarks(c: Conv, key: Key, marks: seq<Mark>)
    requires Possible(c, Check(key)) && Apply(c, Check(key)).log == c.log + marks
    ensures marks == if Deliverable(c, key) then [SendStarted(key)] else []
  {
    var log := Apply(c, Check(key)).log;
    assert marks == log[|c.log|..];
  }

  function RestartMarks(c: Conv, replayed: seq<nat>): seq<Mark> {
    (if HasInbound(c.log) then OrphanResults(c.log, |c.log|) else []) + [Restarted(replayed == [])]
  }

  lemma {:induction false} OrphansOnlyResults(log: seq<Mark>, n: nat)
    requires n <= |log|
    ensures forall m | m in OrphanResults(log, n) :: m.SendResult?
  {
    if n > 0 {
      OrphansOnlyResults(log, n - 1);
    }
  }

  lemma RunPrefix(steps: seq<Step>, more: seq<Step>)
    requires more != [] && Run(steps + more).Some?
    ensures var before := Run(steps + more[..|more| - 1]); var step := more[|more| - 1];
            before.Some? && Possible(before.value, step) && Run(steps + more).value == Apply(before.value, step)
  {
    assert (steps + more)[..|steps + more| - 1] == steps + more[..|more| - 1];
    assert (steps + more)[|steps + more| - 1] == more[|more| - 1];
  }

  predicate SilentSince(log: seq<Mark>, later: seq<Mark>, t: nat) {
    log <= later && NotItsSend(later[|log|..], t)
  }

  lemma SilentOn(a: seq<Mark>, b: seq<Mark>, c: seq<Mark>, t: nat)
    requires SilentSince(a, b, t) && SilentSince(b, c, t)
    ensures SilentSince(a, c, t)
  {
    assert c[|a|..] == b[|a|..] + c[|b|..];
  }

  lemma SilentStep(c: Conv, step: Step, t: nat)
    requires Inv(c) && Possible(c, step) && Spent(c, t)
    ensures Spent(Apply(c, step), t) && SilentSince(c.log, Apply(c, step).log, t)
  {
    StepKept(c, step, t);
    var added := SpentAdds(c, step, t);
    assert (c.log + added)[|c.log|..] == added;
  }

  lemma SilentRun(steps: seq<Step>, step: Step, t: nat)
    requires Run(steps).Some? && Possible(Run(steps).value, step) && Spent(Run(steps).value, t)
    ensures Spent(Apply(Run(steps).value, step), t)
    ensures SilentSince(Run(steps).value.log, Apply(Run(steps).value, step).log, t)
  {
    RunInv(steps);
    SilentStep(Run(steps).value, step, t);
  }

  /** A turn past its deadline, failed or over sends nothing more but an error notice, whatever happens. */
  lemma {:induction false} SpentTurnsFallSilent(steps: seq<Step>, more: seq<Step>, t: nat)
    requires Run(steps).Some? && Spent(Run(steps).value, t) && Run(steps + more).Some?
    ensures Spent(Run(steps + more).value, t)
    ensures SilentSince(Run(steps).value.log, Run(steps + more).value.log, t)
    decreases |more|
  {
    if more == [] {
      assert steps + more == steps;
    } else {
      var shorter := more[..|more| - 1];
      RunPrefix(steps, more);
      SpentTurnsFallSilent(steps, shorter, t);
      SilentRun(steps + shorter, more[|more| - 1], t);
      SilentOn(Run(steps).value.log, Run(steps + shorter).value.log, Run(steps + more).value.log, t);
    }
  }

  // ---- reporting a finished job ----

  /** A job's result counts as delivered only after one turn's reply to it: at least one message, and every
      message confirmed sent. */
  lemma ReportedWhenConfirmed(steps: seq<Step>, log: seq<Mark>, p: nat) returns (d: nat)
    requires Logged(steps, log) && p < |log| && log[p].Reported?
    ensures d < p && DecidedAt(log, d, log[p].turn, 0)
    ensures AllConfirmed(log[..p], log[p].turn, log[d].messages)
  {
    var t := log[p].turn;
    GroundsAt(steps, log, p);
    d := DecisionPlace(log[..p], t, DecisionsOf(log[..p], t)[0]);
    forall j: nat | j < log[d].messages ensures SendResult(ReplyKey(t, j), Succeeded) in log[..p] {
      var q := ResultPlace(log[..p], ReplyKey(t, j), Succeeded);
    }
  }

  /** A turn that a step creates is not about a job already delivered. */
  predicate NewTurnsFresh(c: Conv, next: Conv) {
    && c.delivered <= next.delivered
    && forall t | t in next.turns && t !in c.turns ::
         next.turns[t].report.Some? ==> next.turns[t].report.value !in c.delivered
  }

  lemma StepFresh(c: Conv, step: Step)
    requires Possible(c, step)
    ensures NewTurnsFresh(c, Apply(c, step))
  {
    if OfChat(step) {
      ChatFresh(c, step);
      assert Apply(c, step) == ApplyChat(c, step);
    } else if OfSpawning(step) {
      SpawningFresh(c, step);
      assert Apply(c, step) == ApplySpawning(c, step);
    } else if OfDelivery(step) {
      DeliveryFresh(c, step);
      assert Apply(c, step) == ApplyDelivery(c, step);
    } else if OfHost(step) {
      HostFresh(c, step);
      assert Apply(c, step) == ApplyHost(c, step);
    }
  }

  lemma HostFresh(c: Conv, step: Step)
    requires Possible(c, step) && OfHost(step)
    ensures NewTurnsFresh(c, ApplyHost(c, step))
  {
  }

  lemma ChatFresh(c: Conv, step: Step)
    requires Possible(c, step) && OfChat(step)
    ensures ApplyChat(c, step).turns.Keys == c.turns.Keys && ApplyChat(c, step).delivered == c.delivered
  {
    match step
    case Ask(u) =>
    case Answer(u, _) =>
    case Again(u) =>
    case GiveUp(u) =>
    case Decide(u) =>
    case Collect(u) =>
    case EndChat(u) =>
  }

  lemma SpawningFresh(c: Conv, step: Step)
    requires Possible(c, step) && OfSpawning(step)
    ensures ApplySpawning(c, step).turns.Keys == c.turns.Keys && ApplySpawning(c, step).delivered == c.delivered
  {
    match step
    case SpawnSend(u) =>
    case FireTimer(u) =>
    case Fail(u, notify) =>
  }

  lemma DeliveryFresh(c: Conv, step: Step)
    requires Possible(c, step) && OfDelivery(step)
    ensures ApplyDelivery(c, step).turns.Keys == c.turns.Keys && ApplyDelivery(c, step).delivered == c.delivered
  {
    match step
    case Acquire(key) =>
    case Check(key) =>
    case Receive(key, outcome) =>
    case Settle(key) =>
  }

  predicate NotAgain(c: Conv, later: Conv, job: nat) {
    && job in later.delivered
    && (forall t | t in c.turns :: t in later.turns)
    && (forall t | t in later.turns && t !in c.turns :: later.turns[t].report != Some(job))
  }

  lemma NotAgainStep(c: Conv, middle: Conv, step: Step, job: nat)
    requires Inv(middle) && Possible(middle, step) && NotAgain(c, middle, job)
    ensures NotAgain(c, Apply(middle, step), job)
  {
    StepFresh(middle, step);
    forall t | t in middle.turns ensures Kept(middle, Apply(middle, step), t) {
      StepKept(middle, step, t);
    }
    StillNotAgain(c, middle, Apply(middle, step), job);
  }

  lemma StillNotAgain(c: Conv, middle: Conv, later: Conv, job: nat)
    requires NotAgain(c, middle, job) && NewTurnsFresh(middle, later)
    requires forall t | t in middle.turns :: Kept(middle, later, t)
    ensures NotAgain(c, later, job)
  {
    assert forall t | t in middle.turns :: Kept(middle, later, t);
  }

  /** Once a job's result was delivered no turn is ever created for it again, over any steps and restarts. */
  lemma {:induction false} DeliveredOnce(steps: seq<Step>, more: seq<Step>, job: nat)
    requires Run(steps).Some? && job in Run(steps).value.delivered && Run(steps + more).Some?
    ensures NotAgain(Run(steps).value, Run(steps + more).value, job)
    decreases |more|
  {
    if more == [] {
      assert steps + more == steps;
    } else {
      var shorter := more[..|more| - 1];
      RunPrefix(steps, more);
      DeliveredOnce(steps, shorter, job);
      RunInv(steps + shorter);
      NotAgainStep(Run(steps).value, Run(steps + shorter).value, more[|more| - 1], job);
    }
  }
}
