/** The two loops that play a round's sends and tool calls, and the messages they push as they go. */
module RoundLoop {
  import opened Wrappers
  import opened Protocol
  import opened LedgerModel
  import opened Kernel

  /** Statuses a round's actions end with, given what the executor would answer for each: nothing is tried
      after an unknown effect, and arguments that are not JSON are refused untried. */
  function Statuses(round: AssistantRound, envelope: Envelope, answers: seq<Status>, n: nat): seq<Status>
    requires n <= ActionCount(round, envelope) == |answers|
  {
    if n == 0 then []
    else
      var before := Statuses(round, envelope, answers, n - 1);
      before + [if Unknown in before then Cancelled
                else if ActionAt(round, envelope, n - 1).None? then Rejected
                else answers[n - 1]]
  }

  lemma {:induction false} StatusesLength(round: AssistantRound, envelope: Envelope, answers: seq<Status>, n: nat)
    requires n <= ActionCount(round, envelope) == |answers|
    ensures |Statuses(round, envelope, answers, n)| == n
  {
    if n > 0 {
      StatusesLength(round, envelope, answers, n - 1);
    }
  }

  /** After the first unknown effect everything is cancelled; before it, each action got its own answer. */
  lemma {:induction false} NothingAfterUnknown(round: AssistantRound, envelope: Envelope, answers: seq<Status>, n: nat, j: nat, k: nat)
    requires j < k < n <= ActionCount(round, envelope) == |answers|
    ensures |Statuses(round, envelope, answers, n)| == n
    ensures Statuses(round, envelope, answers, n)[j] == Unknown ==> Statuses(round, envelope, answers, n)[k] == Cancelled
    ensures Statuses(round, envelope, answers, n)[k] == Unknown ==> answers[k] == Unknown
  {
    StatusesLength(round, envelope, answers, n);
    StatusesLength(round, envelope, answers, n - 1);
    if k < n - 1 {
      NothingAfterUnknown(round, envelope, answers, n - 1, j, k);
    } else {
      var before := Statuses(round, envelope, answers, n - 1);
      assert Statuses(round, envelope, answers, n)[j] == before[j];
    }
  }

  function CountOf(statuses: seq<Status>, status: Status): nat {
    multiset(statuses)[status]
  }

  lemma OneMoreOf(statuses: seq<Status>, last: Status, status: Status)
    ensures CountOf(statuses + [last], status) == CountOf(statuses, status) + if last == status then 1 else 0
  {
  }

  lemma {:induction false} SentPrefix(messages: seq<OutgoingMessage>, all: seq<Status>, m: nat)
    requires |messages| <= m <= |all|
    ensures SentMessages(messages, all[..m]) == SentMessages(messages, all)
  {
    if messages != [] {
      SentPrefix(messages[..|messages| - 1], all, m);
    }
  }

  lemma {:induction false} SentStable(messages: seq<OutgoingMessage>, statuses: seq<Status>, last: Status)
    requires |messages| <= |statuses|
    ensures SentMessages(messages, statuses + [last]) == SentMessages(messages, statuses)
  {
    if messages != [] {
      SentStable(messages[..|messages| - 1], statuses, last);
    }
  }

  /** `statuses` are those of the first `n` sends, and `sent` what was confirmed. */
  predicate SendsPlayed(round: AssistantRound, envelope: Envelope, answers: seq<Status>, statuses: seq<Status>,
                        sent: seq<OutgoingMessage>, n: nat)
    requires n <= |envelope.messages| && |answers| == ActionCount(round, envelope)
  {
    && |statuses| == n && statuses == Statuses(round, envelope, answers, n)
    && sent == SentMessages(envelope.messages[..n], statuses)
  }

  lemma SendPlayed(round: AssistantRound, envelope: Envelope, answers: seq<Status>, statuses: seq<Status>,
                   sent: seq<OutgoingMessage>, n: nat, status: Status)
    requires n < |envelope.messages| && |answers| == ActionCount(round, envelope)
    requires SendsPlayed(round, envelope, answers, statuses, sent, n)
    requires status == if Unknown in statuses then Cancelled else answers[n]
    ensures SendsPlayed(round, envelope, answers, statuses + [status],
                        sent + if status == Succeeded then [envelope.messages[n]] else [], n + 1)
    ensures CountOf(statuses + [status], Rejected) == CountOf(statuses, Rejected) + if status == Rejected then 1 else 0
  {
    assert envelope.messages[..n + 1][..n] == envelope.messages[..n];
    SentStable(envelope.messages[..n], statuses, status);
    OneMoreOf(statuses, status, Rejected);
  }

  lemma NextCall(round: AssistantRound, envelope: Envelope, answers: seq<Status>, i: nat, statuses: seq<Status>, status: Status)
    requires i < |round.calls| && |answers| == ActionCount(round, envelope)
    requires statuses == Statuses(round, envelope, answers, |envelope.messages| + i)
    requires status == if Unknown in statuses then Cancelled
                       else if round.calls[i].arguments.NotJson? then Rejected
                       else answers[|envelope.messages| + i]
    ensures statuses + [status] == Statuses(round, envelope, answers, |envelope.messages| + i + 1)
  {
  }

  lemma AllSent(round: AssistantRound, envelope: Envelope, answers: seq<Status>, done: seq<Status>, sent: seq<OutgoingMessage>)
    requires |answers| == ActionCount(round, envelope)
    requires SendsPlayed(round, envelope, answers, done, sent, |envelope.messages|)
    ensures |done| == |envelope.messages| && sent == SentMessages(envelope.messages, done)
    ensures CallsPlayed(round, envelope, answers, done, [], 0)
  {
    assert envelope.messages[..|envelope.messages|] == envelope.messages;
    assert done + [] == done;
  }

  /** `called` are the statuses of the first `n` calls, after the sends'. */
  predicate CallsPlayed(round: AssistantRound, envelope: Envelope, answers: seq<Status>, done: seq<Status>,
                        called: seq<Status>, n: nat)
    requires n <= |round.calls| && |answers| == ActionCount(round, envelope)
  {
    |called| == n && done + called == Statuses(round, envelope, answers, |envelope.messages| + n)
  }

  lemma CallPlayed(round: AssistantRound, envelope: Envelope, answers: seq<Status>, done: seq<Status>, called: seq<Status>,
                   n: nat, status: Status)
    requires n < |round.calls| && |answers| == ActionCount(round, envelope)
    requires CallsPlayed(round, envelope, answers, done, called, n)
    requires status == if Unknown in done + called then Cancelled
                       else if round.calls[n].arguments.NotJson? then Rejected
                       else answers[|envelope.messages| + n]
    ensures CallsPlayed(round, envelope, answers, done, called + [status], n + 1)
    ensures Unknown in done + (called + [status]) <==> Unknown in done + called || status == Unknown
    ensures CountOf(called + [status], Succeeded) == CountOf(called, Succeeded) + if status == Succeeded then 1 else 0
    ensures CountOf(called + [status], Rejected) == CountOf(called, Rejected) + if status == Rejected then 1 else 0
  {
    NextCall(round, envelope, answers, n, done + called, status);
    assert done + (called + [status]) == done + called + [status];
    OneMoreOf(called, status, Succeeded);
    OneMoreOf(called, status, Rejected);
  }

  lemma PushedReply(before: seq<Msg>, calls: seq<ToolCall>, statuses: seq<Status>, n: nat, status: Status)
    requires n < |calls| && |statuses| == n
    ensures before + Replies(calls[..n], statuses) + [ToolReply(calls[n].id, status)]
            == before + Replies(calls[..n + 1], statuses + [status])
  {
    assert Replies(calls[..n + 1], statuses + [status]) == Replies(calls[..n], statuses) + [ToolReply(calls[n].id, status)];
  }

  class RoundState {
    var history: seq<Msg>
    var live: seq<Msg>
    var sentCount: nat
    var toolCount: nat
    var rejectedCount: nat

    constructor (history: seq<Msg>, live: seq<Msg>)
      ensures this.history == history && this.live == live && sentCount == 0 && toolCount == 0 && rejectedCount == 0
    {
      this.history, this.live := history, live;
      sentCount, toolCount, rejectedCount := 0, 0, 0;
    }

    /** What one send's status adds. */
    method NoteSend(message: OutgoingMessage, status: Status, sent: seq<OutgoingMessage>, unknown: bool, rejected: bool)
      returns (sent': seq<OutgoingMessage>, unknown': bool, rejected': bool)
      modifies this`sentCount, this`rejectedCount
      ensures sent' == sent + (if status == Succeeded then [message] else [])
      ensures unknown' == (unknown || status == Unknown) && rejected' == (rejected || status == Rejected)
      ensures sentCount == old(sentCount) + if status == Succeeded then 1 else 0
      ensures rejectedCount == old(rejectedCount) + if status == Rejected then 1 else 0
    {
      sent', unknown', rejected' := sent, unknown, rejected;
      if status == Succeeded {
        sentCount := sentCount + 1;
        sent' := sent + [message];
      } else if status == Unknown {
        unknown' := true;
      } else if status == Rejected {
        rejectedCount := rejectedCount + 1;
        rejected' := true;
      }
    }

    /** The sends, one after the other, with what was sent. */
    method PlaySends(round: AssistantRound, envelope: Envelope, answers: seq<Status>)
      returns (statuses: seq<Status>, sent: seq<OutgoingMessage>, unknown: bool, rejected: bool)
      requires |answers| == ActionCount(round, envelope)
      modifies this`sentCount, this`rejectedCount
      ensures SendsPlayed(round, envelope, answers, statuses, sent, |envelope.messages|)
      ensures unknown == (Unknown in statuses) && rejected == (Rejected in statuses)
      ensures sentCount == old(sentCount) + |sent| && rejectedCount == old(rejectedCount) + CountOf(statuses, Rejected)
    {
      statuses, sent, unknown, rejected := [], [], false, false;
      var i := 0;
      while i < |envelope.messages|
        invariant 0 <= i <= |envelope.messages| && SendsPlayed(round, envelope, answers, statuses, sent, i)
        invariant unknown == (Unknown in statuses) && rejected == (Rejected in statuses)
        invariant sentCount == old(sentCount) + |sent|
        invariant rejectedCount == old(rejectedCount) + CountOf(statuses, Rejected)
      {
        var status := if unknown then Cancelled else answers[i];
        SendPlayed(round, envelope, answers, statuses, sent, i, status);
        sent, unknown, rejected := NoteSend(envelope.messages[i], status, sent, unknown, rejected);
        statuses := statuses + [status];
        i := i + 1;
      }
    }

    /** What one call's status adds. */
    method NoteCall(call: ToolCall, status: Status)
      modifies this`history, this`live, this`toolCount, this`rejectedCount
      ensures history == old(history) + [ToolReply(call.id, status)] && live == old(live) + [ToolReply(call.id, status)]
      ensures toolCount == old(toolCount) + if status == Succeeded then 1 else 0
      ensures rejectedCount == old(rejectedCount) + if status == Rejected then 1 else 0
    {
      if status == Succeeded {
        toolCount := toolCount + 1;
      }
      if status == Rejected {
        rejectedCount := rejectedCount + 1;
      }
      live, history := live + [ToolReply(call.id, status)], history + [ToolReply(call.id, status)];
    }

    /** The tool calls, each with its reply pushed to both message lists. */
    method PlayCalls(round: AssistantRound, envelope: Envelope, answers: seq<Status>, done: seq<Status>)
      returns (called: seq<Status>)
      requires |answers| == ActionCount(round, envelope)
      requires CallsPlayed(round, envelope, answers, done, [], 0) && |done| == |envelope.messages|
      modifies this`history, this`live, this`toolCount, this`rejectedCount
      ensures CallsPlayed(round, envelope, answers, done, called, |round.calls|)
      ensures history == old(history) + Replies(round.calls, called)
      ensures live == old(live) + Replies(round.calls, called)
      ensures toolCount == old(toolCount) + CountOf(called, Succeeded)
      ensures rejectedCount == old(rejectedCount) + CountOf(called, Rejected)
    {
      called := [];
      var unknown := Unknown in done;
      var i := 0;
      ghost var h, l := history, live;
      while i < |round.calls|
        invariant 0 <= i <= |round.calls| && CallsPlayed(round, envelope, answers, done, called, i)
        invariant unknown == (Unknown in done + called)
        invariant history == h + Replies(round.calls[..i], called)
        invariant live == l + Replies(round.calls[..i], called)
        invariant toolCount == old(toolCount) + CountOf(called, Succeeded)
        invariant rejectedCount == old(rejectedCount) + CountOf(called, Rejected)
      {
        var status := if unknown then Cancelled
                      else if round.calls[i].arguments.NotJson? then Rejected
                      else answers[|done| + i];
        CallPlayed(round, envelope, answers, done, called, i, status);
        PushedReply(h, round.calls, called, i, status);
        PushedReply(l, round.calls, called, i, status);
        NoteCall(round.calls[i], status);
        unknown := unknown || status == Unknown;
        called := called + [status];
        i := i + 1;
      }
      assert round.calls[..i] == round.calls;
    }

    /** The assistant message kept of the round, once its sends are known. */
    method KeepAssistant(id: RoundId, round: AssistantRound, sent: seq<OutgoingMessage>)
      modifies this`history
      ensures history == old(history) + KeptAssistant(id, round, sent)
    {
      if round.calls != [] {
        history := history + [Assistant(id, NoContent, round.calls, None)];
      } else if sent != [] {
        history := history + [Assistant(id, Serialized(Envelope("", sent)), [], None)];
      }
    }

    method Report(envelope: Envelope)
      modifies this`history, this`live
      ensures history == old(history) + SendFeedback(envelope) && live == old(live) + SendFeedback(envelope)
    {
      if envelope.messages != [] {
        live, history := live + [Observation("send_results")], history + [Observation("send_results")];
      }
    }

    /** Sends, then calls, then the report on the sends. */
    method Play(id: RoundId, round: AssistantRound, envelope: Envelope, answers: seq<Status>)
      returns (done: seq<Status>, called: seq<Status>)
      requires |answers| == ActionCount(round, envelope)
      modifies this
      ensures |done| == |envelope.messages| && CallsPlayed(round, envelope, answers, done, called, |round.calls|)
      ensures history == old(history) + KeptAssistant(id, round, SentMessages(envelope.messages, done))
                         + Replies(round.calls, called) + SendFeedback(envelope)
      ensures live == old(live) + [Assistant(id, Verbatim(round.content), round.calls, round.reasoning)]
                      + Replies(round.calls, called) + SendFeedback(envelope)
      ensures sentCount == old(sentCount) + |SentMessages(envelope.messages, done)|
      ensures toolCount == old(toolCount) + CountOf(called, Succeeded)
      ensures rejectedCount == old(rejectedCount) + CountOf(done, Rejected) + CountOf(called, Rejected)
    {
      live := live + [Assistant(id, Verbatim(round.content), round.calls, round.reasoning)];
      var sent, unknown, rejected;
      done, sent, unknown, rejected := PlaySends(round, envelope, answers);
      AllSent(round, envelope, answers, done, sent);
      KeepAssistant(id, round, sent);
      called := PlayCalls(round, envelope, answers, done);
      Report(envelope);
    }

    /** A whole round: the records it leaves are the kernel's, and the flags and counts say how it went. */
    method PlayRound(id: RoundId, round: AssistantRound, envelope: Envelope, answers: seq<Status>)
      returns (statuses: seq<Status>, unknown: bool, rejected: bool)
      requires |answers| == ActionCount(round, envelope)
      modifies this
      ensures |statuses| == |answers| && statuses == Statuses(round, envelope, answers, |answers|)
      ensures history == old(history) + RoundHistory(id, round, envelope, statuses)
      ensures live == old(live) + RoundLive(id, round, envelope, statuses)
      ensures unknown == (Unknown in statuses) && rejected == (Rejected in statuses[..|envelope.messages|])
      ensures sentCount == old(sentCount) + |SentMessages(envelope.messages, statuses)|
      ensures toolCount == old(toolCount) + CountOf(statuses[|envelope.messages|..], Succeeded)
      ensures rejectedCount == old(rejectedCount) + CountOf(statuses, Rejected)
    {
      var done, called := Play(id, round, envelope, answers);
      statuses := done + called;
      WholeRound(round, envelope, answers, done, called);
      RoundParts(id, round, envelope, done, called, old(history), old(live));
      unknown, rejected := Unknown in statuses, Rejected in statuses[..|envelope.messages|];
    }
  }

  function KeptAssistant(id: RoundId, round: AssistantRound, sent: seq<OutgoingMessage>): seq<Msg> {
    if round.calls != [] then [Assistant(id, NoContent, round.calls, None)]
    else if sent != [] then [Assistant(id, Serialized(Envelope("", sent)), [], None)]
    else []
  }

  /** The kernel's records of a round, in the order the loops push them. */
  lemma RoundParts(id: RoundId, round: AssistantRound, envelope: Envelope, done: seq<Status>, called: seq<Status>,
                   h: seq<Msg>, l: seq<Msg>)
    requires |done| == |envelope.messages| && |called| == |round.calls|
    ensures var all := done + called; var sent := SentMessages(envelope.messages, done);
            && SentMessages(envelope.messages, all) == sent
            && h + KeptAssistant(id, round, sent) + Replies(round.calls, called) + SendFeedback(envelope)
               == h + RoundHistory(id, round, envelope, all)
            && l + [Assistant(id, Verbatim(round.content), round.calls, round.reasoning)]
               + Replies(round.calls, called) + SendFeedback(envelope)
               == l + RoundLive(id, round, envelope, all)
  {
    var all := done + called;
    assert all[|done|..] == called;
    assert all[..|done|] == done;
    SentPrefix(envelope.messages, all, |done|);
    Regroup(h, KeptAssistant(id, round, SentMessages(envelope.messages, done)), Replies(round.calls, called), SendFeedback(envelope));
    Regroup(l, [Assistant(id, Verbatim(round.content), round.calls, round.reasoning)], Replies(round.calls, called),
            SendFeedback(envelope));
  }

  lemma WholeRound(round: AssistantRound, envelope: Envelope, answers: seq<Status>, done: seq<Status>, called: seq<Status>)
    requires |answers| == ActionCount(round, envelope)
    requires |done| == |envelope.messages| && CallsPlayed(round, envelope, answers, done, called, |round.calls|)
    ensures |done + called| == |answers| && done + called == Statuses(round, envelope, answers, |answers|)
    ensures (done + called)[|envelope.messages|..] == called
    ensures CountOf(done + called, Rejected) == CountOf(done, Rejected) + CountOf(called, Rejected)
  {
  }

  lemma Regroup(a: seq<Msg>, b: seq<Msg>, c: seq<Msg>, d: seq<Msg>)
    ensures a + b + c + d == a + (b + c + d)
  {
  }
}
