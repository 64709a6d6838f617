/** Shape of provider message lists: which facts they show, and native call/result pairing. */
module Messages {
  import opened Wrappers
  import opened Protocol
  import opened LedgerModel

  /** Sequence numbers of the fact messages, in message order. */
  function Facts(messages: seq<Msg>): seq<nat> {
    if messages == [] then []
    else
      var last := messages[|messages| - 1];
      Facts(messages[..|messages| - 1]) + if last.Fact? then [last.at] else []
  }

  lemma {:induction false} FactsConcat(a: seq<Msg>, b: seq<Msg>)
    ensures Facts(a + b) == Facts(a) + Facts(b)
  {
    if b == [] {
      assert a + b == a;
    } else {
      assert (a + b)[..|a + b| - 1] == a + b[..|b| - 1];
      FactsConcat(a, b[..|b| - 1]);
    }
  }

  /** A list without fact messages shows no facts. */
  lemma {:induction false} NoFacts(messages: seq<Msg>)
    requires forall i | 0 <= i < |messages| :: !messages[i].Fact?
    ensures Facts(messages) == []
  {
    if messages != [] { NoFacts(messages[..|messages| - 1]); }
  }

  predicate Answers(calls: seq<ToolCall>, replies: seq<Msg>) {
    |replies| == |calls|
    && forall i | 0 <= i < |calls| :: replies[i].ToolReply? && replies[i].call == calls[i].id
  }

  /** Every assistant message is followed at once by one reply per call in call order,
      and tool replies occur nowhere else. */
  predicate Paired(messages: seq<Msg>) {
    if messages == [] then true
    else
      match messages[0]
      case ToolReply(_, _) => false
      case Assistant(_, _, calls, _) =>
        && |calls| < |messages|
        && Answers(calls, messages[1..|calls| + 1])
        && Paired(messages[|calls| + 1..])
      case _ => Paired(messages[1..])
  }

  lemma {:induction false} PairedConcat(a: seq<Msg>, b: seq<Msg>)
    requires Paired(a) && Paired(b)
    ensures Paired(a + b)
    decreases |a|
  {
    if a == [] {
      assert a + b == b;
    } else {
      var k := if a[0].Assistant? then |a[0].calls| else 0;
      assert (a + b)[1..k + 1] == a[1..k + 1];
      assert (a + b)[k + 1..] == a[k + 1..] + b;
      PairedConcat(a[k + 1..], b);
    }
  }

  /** One assistant message with its replies. */
  lemma PairedBlock(assistant: Msg, replies: seq<Msg>)
    requires assistant.Assistant? && Answers(assistant.calls, replies)
    ensures Paired([assistant] + replies)
  {
    var m := [assistant] + replies;
    assert m[1..|replies| + 1] == replies;
    assert m[|replies| + 1..] == [];
  }

  lemma PairedOne(m: Msg)
    requires !m.ToolReply? && (m.Assistant? ==> m.calls == [])
    ensures Paired([m])
  {
    if m.Assistant? {
      PairedBlock(m, []);
      assert [m] + [] == [m];
    }
  }

  lemma PairedReplyAt(messages: seq<Msg>, i: nat)
    requires Paired(messages) && messages != [] && messages[0].Assistant? && 1 <= i <= |messages[0].calls|
    ensures i < |messages| && messages[i].ToolReply? && messages[i].call == messages[0].calls[i - 1].id
  {
    assert messages[1..|messages[0].calls| + 1][i - 1] == messages[i];
  }

  /** Reading of `Paired` by position: the replies to the calls at `i` are the next messages. */
  lemma {:induction false} PairedCalls(messages: seq<Msg>, i: nat, j: nat)
    requires Paired(messages) && i < |messages| && messages[i].Assistant? && j < |messages[i].calls|
    ensures i + 1 + j < |messages|
    ensures messages[i + 1 + j].ToolReply? && messages[i + 1 + j].call == messages[i].calls[j].id
    decreases |messages|
  {
    var k := if messages[0].Assistant? then |messages[0].calls| else 0;
    if i == 0 {
      PairedReplyAt(messages, j + 1);
    } else if i <= k {
      PairedReplyAt(messages, i);
    } else {
      PairedCalls(messages[k + 1..], i - (k + 1), j);
    }
  }

  /** Reading of `Paired` by position: every tool reply answers a call of the nearest assistant message before it. */
  lemma {:induction false} PairedReplies(messages: seq<Msg>, p: nat) returns (i: nat)
    requires Paired(messages) && p < |messages| && messages[p].ToolReply?
    ensures i < p && messages[i].Assistant? && p - i - 1 < |messages[i].calls|
    ensures messages[p].call == messages[i].calls[p - i - 1].id
    decreases |messages|
  {
    var k := if messages[0].Assistant? then |messages[0].calls| else 0;
    if p <= k {
      i := 0;
      PairedReplyAt(messages, p);
    } else {
      var rest := PairedReplies(messages[k + 1..], p - (k + 1));
      i := rest + k + 1;
    }
  }
}
