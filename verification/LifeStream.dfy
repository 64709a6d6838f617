/** Regrouping recorded events into provider messages: tool events of one turn become a contiguous native
    round at the position of the first of them; inbound and outbound events stay where they are. */
module LifeStream {
  import opened Wrappers

  datatype Kind = Inbound | Outbound | ToolCall | ToolResult | Other

  datatype Status = Received | Done | Cancelled | Failed

  /** The payload fields that the projection reads; `result` is absent when the payload has none. */
  datatype Event = Event(
    id: string, kind: Kind, status: Status, turn: string, content: string,
    callId: string, tool: string, arguments: string, assistantContent: string, result: Option<string>)

  datatype Call = Call(id: string, tool: string, arguments: string)

  /** `User` and `Said` carry the position of the event they render. */
  datatype Message =
    | User(at: nat)
    | Said(at: nat)
    | Calls(content: string, calls: seq<Call>)
    | Reply(callId: string, content: string)

  const MISSING := "[Error: tool result missing]"

  predicate Eligible(e: Event, excluded: set<string>) {
    e.id !in excluded && e.status != Cancelled && e.status != Failed
  }

  predicate OfTool(e: Event) { e.kind == ToolCall || e.kind == ToolResult }

  // ---- one tool round ----

  function CallsOf(round: seq<Event>): seq<Event> {
    if round == [] then []
    else
      var n := |round| - 1;
      CallsOf(round[..n]) + if round[n].kind == ToolCall then [round[n]] else []
  }

  function NativeCall(e: Event): Call { Call(e.callId, e.tool, e.arguments) }

  function NativeCalls(calls: seq<Event>): seq<Call> {
    seq(|calls|, i requires 0 <= i < |calls| => NativeCall(calls[i]))
  }

  function ResultText(e: Event): string {
    if e.result.Some? then e.result.value else e.content
  }

  /** The text of the last result recorded for the call. */
  function LastResult(round: seq<Event>, callId: string): Option<string> {
    if round == [] then None
    else
      var last := round[|round| - 1];
      if last.kind == ToolResult && last.callId == callId then Some(ResultText(last))
      else LastResult(round[..|round| - 1], callId)
  }

  function ReplyTo(round: seq<Event>, call: Event): Message {
    var found := LastResult(round, call.callId);
    Reply(call.callId, if found.Some? then found.value else MISSING)
  }

  function Replies(round: seq<Event>, calls: seq<Event>): seq<Message> {
    seq(|calls|, i requires 0 <= i < |calls| => ReplyTo(round, calls[i]))
  }

  function Round(round: seq<Event>): seq<Message> {
    var calls := CallsOf(round);
    if calls == [] then []
    else [Calls(calls[0].assistantContent, NativeCalls(calls))] + Replies(round, calls)
  }

  // ---- the whole stream, position by position ----

  predicate InRound(e: Event, excluded: set<string>, turn: string) {
    Eligible(e, excluded) && OfTool(e) && e.turn == turn
  }

  function RoundEvents(events: seq<Event>, excluded: set<string>, turn: string, n: nat): seq<Event>
    requires n <= |events|
  {
    if n == 0 then []
    else RoundEvents(events, excluded, turn, n - 1) + if InRound(events[n - 1], excluded, turn) then [events[n - 1]] else []
  }

  /** The event opens its turn's round. */
  predicate Opens(events: seq<Event>, excluded: set<string>, p: nat)
    requires p < |events|
  {
    && Eligible(events[p], excluded) && OfTool(events[p]) && events[p].turn != ""
    && RoundEvents(events, excluded, events[p].turn, p) == []
  }

  /** What stands at position `p`. */
  function Emit(events: seq<Event>, excluded: set<string>, p: nat): seq<Message>
    requires p < |events|
  {
    var e := events[p];
    if !Eligible(e, excluded) then []
    else if e.kind == Inbound then [User(p)]
    else if e.kind == Outbound then [Said(p)]
    else if Opens(events, excluded, p) then Round(RoundEvents(events, excluded, e.turn, |events|))
    else []
  }

  function Joined(parts: seq<seq<Message>>): seq<Message> {
    if parts == [] then [] else Joined(parts[..|parts| - 1]) + parts[|parts| - 1]
  }

  function Parts(events: seq<Event>, excluded: set<string>): (r: seq<seq<Message>>)
    ensures |r| == |events|
  {
    seq(|events|, p requires 0 <= p < |events| => Emit(events, excluded, p))
  }

  function Stream(events: seq<Event>, excluded: set<string>): seq<Message> { Joined(Parts(events, excluded)) }

  // ---- what the stream promises ----

  lemma SliceOfFirst(a: seq<Message>, b: seq<Message>, lo: nat, hi: nat)
    requires lo <= hi <= |a|
    ensures (a + b)[lo..hi] == a[lo..hi]
  {
  }

  lemma SliceOfSecond(a: seq<Message>, b: seq<Message>)
    ensures (a + b)[|a|..|a| + |b|] == b
  {
  }

  lemma {:induction false} PartPlace(parts: seq<seq<Message>>, p: nat)
    requires p < |parts|
    ensures var before := |Joined(parts[..p])|; var size := |parts[p]|;
            before + size <= |Joined(parts)| && Joined(parts)[before..before + size] == parts[p]
    decreases |parts|
  {
    var n := |parts| - 1;
    var before := |Joined(parts[..p])|;
    if p < n {
      assert parts[..n][..p] == parts[..p];
      PartPlace(parts[..n], p);
      SliceOfFirst(Joined(parts[..n]), parts[n], before, before + |parts[p]|);
    } else {
      SliceOfSecond(Joined(parts[..n]), parts[n]);
    }
  }

  /** What stands at a position is one contiguous piece of the stream, after all earlier positions. */
  lemma Contiguous(events: seq<Event>, excluded: set<string>, p: nat)
    requires p < |events|
    ensures var before := |Joined(Parts(events, excluded)[..p])|; var part := Emit(events, excluded, p);
            && before + |part| <= |Stream(events, excluded)|
            && Stream(events, excluded)[before..before + |part|] == part
  {
    PartPlace(Parts(events, excluded), p);
  }

  predicate Renders(m: Message, p: nat) { m == User(p) || m == Said(p) }

  function CountRendered(messages: seq<Message>, p: nat): nat {
    if messages == [] then 0
    else CountRendered(messages[..|messages| - 1], p) + if Renders(messages[|messages| - 1], p) then 1 else 0
  }

  lemma {:induction false} CountConcat(a: seq<Message>, b: seq<Message>, p: nat)
    ensures CountRendered(a + b, p) == CountRendered(a, p) + CountRendered(b, p)
  {
    if b == [] {
      assert a + b == a;
    } else {
      var n := |b| - 1;
      assert (a + b)[..|a + b| - 1] == a + b[..n];
      CountConcat(a, b[..n], p);
    }
  }

  lemma {:induction false} CountNone(messages: seq<Message>, p: nat)
    requires forall i | 0 <= i < |messages| :: !Renders(messages[i], p)
    ensures CountRendered(messages, p) == 0
  {
    if messages != [] {
      CountNone(messages[..|messages| - 1], p);
    }
  }

  predicate Conversational(e: Event, excluded: set<string>) {
    Eligible(e, excluded) && (e.kind == Inbound || e.kind == Outbound)
  }

  lemma EmitRenders(events: seq<Event>, excluded: set<string>, q: nat, p: nat)
    requires q < |events|
    ensures CountRendered(Emit(events, excluded, q), p) == if q == p && Conversational(events[p], excluded) then 1 else 0
  {
    var e := events[q];
    if Conversational(e, excluded) {
      assert Emit(events, excluded, q)[..0] == [];
    } else {
      CountNone(Emit(events, excluded, q), p);
    }
  }

  lemma {:induction false} CountJoined(parts: seq<seq<Message>>, p: nat)
    requires forall q | 0 <= q < |parts| && q != p :: CountRendered(parts[q], p) == 0
    ensures CountRendered(Joined(parts), p) == if p < |parts| then CountRendered(parts[p], p) else 0
  {
    if parts != [] {
      var n := |parts| - 1;
      CountJoined(parts[..n], p);
      CountConcat(Joined(parts[..n]), parts[n], p);
    }
  }

  /** Each eligible inbound or outbound event appears exactly once, and no other event is rendered so. */
  lemma RenderedOnce(events: seq<Event>, excluded: set<string>, p: nat)
    ensures CountRendered(Stream(events, excluded), p)
            == if p < |events| && Conversational(events[p], excluded) then 1 else 0
  {
    forall q: nat | q < |events| ensures CountRendered(Parts(events, excluded)[q], p)
                                         == if q == p && Conversational(events[p], excluded) then 1 else 0 {
      EmitRenders(events, excluded, q, p);
    }
    CountJoined(Parts(events, excluded), p);
  }

  lemma {:induction false} CallsFromRound(round: seq<Event>)
    ensures forall i | 0 <= i < |CallsOf(round)| :: CallsOf(round)[i] in round && CallsOf(round)[i].kind == ToolCall
    ensures forall e | e in round && e.kind == ToolCall :: e in CallsOf(round)
  {
    if round != [] {
      CallsFromRound(round[..|round| - 1]);
    }
  }

  /** A call's reply carries the last result recorded for it anywhere in the round, or says it is missing. */
  lemma {:induction false} LastResultIs(round: seq<Event>, callId: string)
    ensures var r := LastResult(round, callId);
            match r
            case None => forall i | 0 <= i < |round| :: !(round[i].kind == ToolResult && round[i].callId == callId)
            case Some(text) =>
              exists i :: 0 <= i < |round| && ResultAt(round, i, callId) && ResultText(round[i]) == text
                          && forall j | i < j < |round| :: !ResultAt(round, j, callId)
  {
    if round != [] {
      var n := |round| - 1;
      LastResultIs(round[..n], callId);
      if ResultAt(round, n, callId) {
        assert ResultText(round[n]) == LastResult(round, callId).value;
      } else if LastResult(round, callId).Some? {
        var i :| 0 <= i < n && ResultAt(round[..n], i, callId) && ResultText(round[..n][i]) == LastResult(round, callId).value
                 && forall j | i < j < n :: !ResultAt(round[..n], j, callId);
        assert ResultAt(round, i, callId);
        forall j | i < j < |round| ensures !ResultAt(round, j, callId) {
          if j < n {
            assert !ResultAt(round[..n], j, callId);
          }
        }
      }
    }
  }

  predicate ResultAt(round: seq<Event>, i: int, callId: string)
    requires 0 <= i < |round|
  {
    round[i].kind == ToolResult && round[i].callId == callId
  }

  /** Every message with calls is followed at once by one reply per call, in call order. */
  ghost predicate Native(messages: seq<Message>) {
    && (forall i | 0 <= i < |messages| && messages[i].Calls? :: Answered(messages, i))
    && (forall i | 0 <= i < |messages| && messages[i].Reply? :: Asked(messages, i))
  }

  ghost predicate Answered(messages: seq<Message>, i: nat)
    requires i < |messages| && messages[i].Calls?
  {
    var calls := messages[i].calls;
    && calls != [] && i + |calls| < |messages|
    && (forall k | 0 <= k < |calls| :: ReplyFor(messages, i + 1 + k, calls[k].id))
    && (i + |calls| + 1 < |messages| ==> !messages[i + |calls| + 1].Reply?)
  }

  predicate ReplyFor(messages: seq<Message>, i: int, callId: string) {
    0 <= i < |messages| && messages[i].Reply? && messages[i].callId == callId
  }

  ghost predicate Asked(messages: seq<Message>, i: nat)
    requires i < |messages|
  {
    exists j: nat :: j < i && messages[j].Calls? && i <= j + |messages[j].calls|
  }

  lemma NativeConcat(a: seq<Message>, b: seq<Message>)
    requires Native(a) && Native(b) && (b != [] ==> !b[0].Reply?)
    ensures Native(a + b)
  {
    var c := a + b;
    forall i | 0 <= i < |c| && c[i].Calls? ensures Answered(c, i) {
      if i < |a| {
        assert Answered(a, i);
        forall k | 0 <= k < |c[i].calls| ensures ReplyFor(c, i + 1 + k, c[i].calls[k].id) {
          assert ReplyFor(a, i + 1 + k, a[i].calls[k].id);
        }
      } else {
        assert Answered(b, i - |a|);
        forall k | 0 <= k < |c[i].calls| ensures ReplyFor(c, i + 1 + k, c[i].calls[k].id) {
          assert ReplyFor(b, i - |a| + 1 + k, b[i - |a|].calls[k].id);
        }
      }
    }
    forall i | 0 <= i < |c| && c[i].Reply? ensures Asked(c, i) {
      if i < |a| {
        assert Asked(a, i);
        var j: nat :| j < i && a[j].Calls? && i <= j + |a[j].calls|;
        assert c[j] == a[j];
      } else {
        assert Asked(b, i - |a|);
        var j: nat :| j < i - |a| && b[j].Calls? && i - |a| <= j + |b[j].calls|;
        assert c[|a| + j] == b[j];
      }
    }
  }

  lemma RoundNative(round: seq<Event>)
    ensures Native(Round(round)) && (Round(round) != [] ==> !Round(round)[0].Reply?)
  {
    var calls := CallsOf(round);
    if calls != [] {
      var messages := Round(round);
      forall k | 0 <= k < |calls| ensures ReplyFor(messages, 1 + k, messages[0].calls[k].id) {
        assert messages[1 + k] == ReplyTo(round, calls[k]);
      }
      assert Answered(messages, 0);
      forall i | 0 <= i < |messages| && messages[i].Reply? ensures Asked(messages, i) {
        assert messages[0].Calls?;
      }
    }
  }

  lemma EmitNative(events: seq<Event>, excluded: set<string>, p: nat)
    requires p < |events|
    ensures var messages := Emit(events, excluded, p); Native(messages) && (messages != [] ==> !messages[0].Reply?)
  {
    RoundNative(RoundEvents(events, excluded, events[p].turn, |events|));
  }

  lemma {:induction false} JoinedNative(parts: seq<seq<Message>>)
    requires forall q | 0 <= q < |parts| :: Native(parts[q]) && (parts[q] != [] ==> !parts[q][0].Reply?)
    ensures Native(Joined(parts))
  {
    if parts != [] {
      var n := |parts| - 1;
      JoinedNative(parts[..n]);
      assert Native(parts[n]);
      NativeConcat(Joined(parts[..n]), parts[n]);
    }
  }

  lemma StreamNative(events: seq<Event>, excluded: set<string>)
    ensures Native(Stream(events, excluded))
  {
    var parts := Parts(events, excluded);
    forall q | 0 <= q < |parts| ensures Native(parts[q]) && (parts[q] != [] ==> !parts[q][0].Reply?) {
      EmitNative(events, excluded, q);
    }
    JoinedNative(parts);
  }
}
