/** The projection as it is computed: dictionaries of pending rounds and first positions, a list of placed
    entries, a flush per turn and a sort; proved to be the stream position by position. */
module LifeStreamBuilder {
  import opened Wrappers
  import opened LifeStream

  datatype Entry = Entry(at: nat, messages: seq<Message>)

  // ---- one round ----

  /** The round's calls in order, and its results by call id, later ones over earlier ones. */
  method IndexRound(round: seq<Event>) returns (calls: seq<Event>, results: map<string, Event>)
    ensures calls == CallsOf(round)
    ensures forall id :: id in results <==> LastResult(round, id).Some?
    ensures forall id | id in results :: LastResult(round, id) == Some(ResultText(results[id]))
  {
    calls, results := [], map[];
    var i := 0;
    while i < |round|
      invariant 0 <= i <= |round|
      invariant calls == CallsOf(round[..i])
      invariant forall id :: id in results <==> LastResult(round[..i], id).Some?
      invariant forall id | id in results :: LastResult(round[..i], id) == Some(ResultText(results[id]))
    {
      assert round[..i + 1][..i] == round[..i];
      if round[i].kind == ToolCall {
        calls := calls + [round[i]];
      }
      if round[i].kind == ToolResult {
        results := results[round[i].callId := round[i]];
      }
      i := i + 1;
    }
    assert round[..i] == round;
  }

  method WriteCalls(calls: seq<Event>) returns (native: seq<Call>)
    ensures native == NativeCalls(calls)
  {
    native := [];
    var i := 0;
    while i < |calls|
      invariant 0 <= i <= |calls| && |native| == i
      invariant forall k | 0 <= k < i :: native[k] == NativeCall(calls[k])
    {
      native := native + [Call(calls[i].callId, calls[i].tool, calls[i].arguments)];
      i := i + 1;
    }
  }

  method WriteReplies(round: seq<Event>, calls: seq<Event>, results: map<string, Event>) returns (replies: seq<Message>)
    requires forall id :: id in results <==> LastResult(round, id).Some?
    requires forall id | id in results :: LastResult(round, id) == Some(ResultText(results[id]))
    ensures replies == Replies(round, calls)
  {
    replies := [];
    var i := 0;
    while i < |calls|
      invariant 0 <= i <= |calls| && |replies| == i
      invariant forall k | 0 <= k < i :: replies[k] == ReplyTo(round, calls[k])
    {
      var id := calls[i].callId;
      replies := replies + [Reply(id, if id in results then ResultText(results[id]) else MISSING)];
      i := i + 1;
    }
  }

  method FlushRound(round: seq<Event>) returns (messages: seq<Message>)
    ensures messages == Round(round)
  {
    var calls, results := IndexRound(round);
    if calls == [] {
      return [];
    }
    var native := WriteCalls(calls);
    var replies := WriteReplies(round, calls, results);
    messages := [Calls(calls[0].assistantContent, native)] + replies;
  }

  // ---- the pass over the events ----

  predicate OpensTurn(events: seq<Event>, excluded: set<string>, turn: string, p: nat) {
    && p < |events| && InRound(events[p], excluded, turn)
    && RoundEvents(events, excluded, turn, p) == []
  }

  /** Turns in order of first appearance, each once. */
  ghost predicate OrderOk(order: seq<string>, turns: set<string>) {
    && (forall t :: t in order <==> t in turns)
    && (forall i, j | 0 <= i < j < |order| :: order[i] != order[j])
  }

  ghost predicate RoundsOk(events: seq<Event>, excluded: set<string>, n: nat, rounds: map<string, seq<Event>>)
    requires n <= |events|
  {
    && (forall t :: t in rounds <==> t != "" && RoundEvents(events, excluded, t, n) != [])
    && (forall t | t in rounds :: rounds[t] == RoundEvents(events, excluded, t, n))
  }

  predicate PositionsOk(events: seq<Event>, excluded: set<string>, positions: map<string, nat>) {
    forall t | t in positions :: t != "" && OpensTurn(events, excluded, t, positions[t])
  }

  ghost predicate PendingOk(events: seq<Event>, excluded: set<string>, n: nat, order: seq<string>,
                            rounds: map<string, seq<Event>>, positions: map<string, nat>)
    requires n <= |events|
  {
    && rounds.Keys == positions.Keys && OrderOk(order, rounds.Keys)
    && RoundsOk(events, excluded, n, rounds) && PositionsOk(events, excluded, positions)
  }

  predicate Placed(entries: seq<Entry>, p: nat) {
    exists k :: 0 <= k < |entries| && entries[k].at == p
  }

  /** Entries hold what stands at their positions, each position once. */
  predicate EntriesOk(parts: seq<seq<Message>>, entries: seq<Entry>) {
    && (forall k | 0 <= k < |entries| :: entries[k].at < |parts| && entries[k].messages == parts[entries[k].at])
    && (forall i, j | 0 <= i < j < |entries| :: entries[i].at != entries[j].at)
  }

  predicate ChatOk(events: seq<Event>, excluded: set<string>, parts: seq<seq<Message>>, n: nat, entries: seq<Entry>)
    requires n <= |events| == |parts|
  {
    && EntriesOk(parts, entries)
    && (forall k | 0 <= k < |entries| :: entries[k].at < n && Conversational(events[entries[k].at], excluded))
    && (forall p: nat | p < n && Conversational(events[p], excluded) :: Placed(entries, p))
  }

  lemma PlacedMore(entries: seq<Entry>, e: Entry, p: nat)
    ensures Placed(entries + [e], p) <==> Placed(entries, p) || e.at == p
  {
    if Placed(entries, p) {
      var k :| 0 <= k < |entries| && entries[k].at == p;
      assert (entries + [e])[k].at == p;
    }
    if e.at == p {
      assert (entries + [e])[|entries|].at == p;
    }
  }

  lemma ChatPart(events: seq<Event>, excluded: set<string>, n: nat)
    requires n < |events| && Conversational(events[n], excluded)
    ensures Parts(events, excluded)[n] == [if events[n].kind == Inbound then User(n) else Said(n)]
  {
  }

  lemma ChatPlaced(events: seq<Event>, excluded: set<string>, parts: seq<seq<Message>>, n: nat, entries: seq<Entry>, e: Entry)
    requires n < |events| == |parts| && ChatOk(events, excluded, parts, n, entries) && Conversational(events[n], excluded)
    requires e == Entry(n, parts[n])
    ensures ChatOk(events, excluded, parts, n + 1, entries + [e])
  {
    forall p: nat | p < n + 1 && Conversational(events[p], excluded) ensures Placed(entries + [e], p) {
      PlacedMore(entries, e, p);
    }
  }

  lemma ChatSkip(events: seq<Event>, excluded: set<string>, parts: seq<seq<Message>>, n: nat, entries: seq<Entry>)
    requires n < |events| == |parts| && ChatOk(events, excluded, parts, n, entries)
    requires !Conversational(events[n], excluded)
    ensures ChatOk(events, excluded, parts, n + 1, entries)
  {
  }

  /** A chat event placed as it comes. */
  method PlaceChat(events: seq<Event>, excluded: set<string>, ghost parts: seq<seq<Message>>, n: nat, entries: seq<Entry>)
    returns (r: seq<Entry>)
    requires n < |events| && parts == Parts(events, excluded)
    requires ChatOk(events, excluded, parts, n, entries) && Eligible(events[n], excluded)
    ensures ChatOk(events, excluded, parts, n + 1, r)
  {
    r := entries;
    if events[n].kind == Inbound || events[n].kind == Outbound {
      ChatPart(events, excluded, n);
      var message := if events[n].kind == Inbound then User(n) else Said(n);
      ChatPlaced(events, excluded, parts, n, entries, Entry(n, [message]));
      r := entries + [Entry(n, [message])];
    } else {
      ChatSkip(events, excluded, parts, n, entries);
    }
  }

  lemma PendingSkip(events: seq<Event>, excluded: set<string>, n: nat, order: seq<string>,
                    rounds: map<string, seq<Event>>, positions: map<string, nat>)
    requires n < |events| && PendingOk(events, excluded, n, order, rounds, positions)
    requires !(Eligible(events[n], excluded) && OfTool(events[n]) && events[n].turn != "")
    ensures PendingOk(events, excluded, n + 1, order, rounds, positions)
  {
    forall t | t != "" ensures RoundEvents(events, excluded, t, n + 1) == RoundEvents(events, excluded, t, n) {
    }
  }

  /** One tool event added to its turn's round, new or not. */
  lemma RoundsGrow(events: seq<Event>, excluded: set<string>, n: nat, rounds: map<string, seq<Event>>)
    requires n < |events| && RoundsOk(events, excluded, n, rounds)
    requires Eligible(events[n], excluded) && OfTool(events[n]) && events[n].turn != ""
    ensures var t := events[n].turn;
            RoundsOk(events, excluded, n + 1, rounds[t := (if t in rounds then rounds[t] else []) + [events[n]]])
    ensures events[n].turn !in rounds ==> OpensTurn(events, excluded, events[n].turn, n)
  {
    var t := events[n].turn;
    var next := rounds[t := (if t in rounds then rounds[t] else []) + [events[n]]];
    forall u ensures (u in next <==> u != "" && RoundEvents(events, excluded, u, n + 1) != [])
                     && (u in next ==> next[u] == RoundEvents(events, excluded, u, n + 1)) {
      assert RoundEvents(events, excluded, u, n + 1)
             == RoundEvents(events, excluded, u, n) + if u == t then [events[n]] else [];
    }
  }

  lemma OrderGrows(order: seq<string>, turns: set<string>, t: string)
    requires OrderOk(order, turns) && t !in turns
    ensures OrderOk(order + [t], turns + {t})
  {
  }

  lemma NotedOpen(events: seq<Event>, excluded: set<string>, n: nat, order: seq<string>,
                  rounds: map<string, seq<Event>>, positions: map<string, nat>, t: string)
    requires n < |events| && PendingOk(events, excluded, n, order, rounds, positions)
    requires t != "" && t !in rounds && OpensTurn(events, excluded, t, n)
    requires RoundsOk(events, excluded, n + 1, rounds[t := [events[n]]])
    ensures PendingOk(events, excluded, n + 1, order + [t], rounds[t := [events[n]]], positions[t := n])
  {
    OrderGrows(order, rounds.Keys, t);
    PositionsGrow(events, excluded, positions, t, n);
    assert rounds[t := [events[n]]].Keys == rounds.Keys + {t};
    assert positions[t := n].Keys == positions.Keys + {t};
  }

  lemma PositionsGrow(events: seq<Event>, excluded: set<string>, positions: map<string, nat>, t: string, n: nat)
    requires PositionsOk(events, excluded, positions) && t != "" && OpensTurn(events, excluded, t, n)
    ensures PositionsOk(events, excluded, positions[t := n])
  {
  }

  lemma NotedAgain(events: seq<Event>, excluded: set<string>, n: nat, order: seq<string>,
                   rounds: map<string, seq<Event>>, positions: map<string, nat>, t: string, round: seq<Event>)
    requires n < |events| && PendingOk(events, excluded, n, order, rounds, positions)
    requires t in rounds && RoundsOk(events, excluded, n + 1, rounds[t := round])
    ensures PendingOk(events, excluded, n + 1, order, rounds[t := round], positions)
  {
    assert rounds[t := round].Keys == rounds.Keys;
  }

  /** One tool event in the dictionaries. */
  method Note(events: seq<Event>, excluded: set<string>, n: nat, order: seq<string>,
              rounds: map<string, seq<Event>>, positions: map<string, nat>)
    returns (order': seq<string>, rounds': map<string, seq<Event>>, positions': map<string, nat>)
    requires n < |events| && PendingOk(events, excluded, n, order, rounds, positions)
    requires Eligible(events[n], excluded) && OfTool(events[n])
    ensures PendingOk(events, excluded, n + 1, order', rounds', positions')
  {
    var t := events[n].turn;
    order', rounds', positions' := order, rounds, positions;
    if t == "" {
      PendingSkip(events, excluded, n, order, rounds, positions);
      return;
    }
    RoundsGrow(events, excluded, n, rounds);
    if t in rounds {
      NotedAgain(events, excluded, n, order, rounds, positions, t, rounds[t] + [events[n]]);
      rounds' := rounds[t := rounds[t] + [events[n]]];
    } else {
      assert [] + [events[n]] == [events[n]];
      NotedOpen(events, excluded, n, order, rounds, positions, t);
      order', positions', rounds' := order + [t], positions[t := n], rounds[t := [events[n]]];
    }
  }

  /** One event of the pass. */
  method Visit(events: seq<Event>, excluded: set<string>, ghost parts: seq<seq<Message>>, n: nat, order: seq<string>,
               rounds: map<string, seq<Event>>, positions: map<string, nat>, entries: seq<Entry>)
    returns (order': seq<string>, rounds': map<string, seq<Event>>, positions': map<string, nat>, entries': seq<Entry>)
    requires n < |events| && parts == Parts(events, excluded)
    requires PendingOk(events, excluded, n, order, rounds, positions) && ChatOk(events, excluded, parts, n, entries)
    ensures PendingOk(events, excluded, n + 1, order', rounds', positions')
    ensures ChatOk(events, excluded, parts, n + 1, entries')
  {
    order', rounds', positions', entries' := order, rounds, positions, entries;
    if Eligible(events[n], excluded) && OfTool(events[n]) {
      order', rounds', positions' := Note(events, excluded, n, order, rounds, positions);
      ChatSkip(events, excluded, parts, n, entries);
    } else {
      PendingSkip(events, excluded, n, order, rounds, positions);
      if Eligible(events[n], excluded) {
        entries' := PlaceChat(events, excluded, parts, n, entries);
      } else {
        ChatSkip(events, excluded, parts, n, entries);
      }
    }
  }

  method Collect(events: seq<Event>, excluded: set<string>, ghost parts: seq<seq<Message>>)
    returns (order: seq<string>, rounds: map<string, seq<Event>>, positions: map<string, nat>, entries: seq<Entry>)
    requires parts == Parts(events, excluded)
    ensures PendingOk(events, excluded, |events|, order, rounds, positions)
    ensures ChatOk(events, excluded, parts, |events|, entries)
  {
    order, rounds, positions, entries := [], map[], map[], [];
    for i := 0 to |events|
      invariant PendingOk(events, excluded, i, order, rounds, positions)
      invariant ChatOk(events, excluded, parts, i, entries)
    {
      order, rounds, positions, entries := Visit(events, excluded, parts, i, order, rounds, positions, entries);
    }
  }

  // ---- placing the rounds ----

  lemma {:induction false} EarlierInRound(events: seq<Event>, excluded: set<string>, turn: string, q: nat, n: nat)
    requires q < n <= |events| && InRound(events[q], excluded, turn)
    ensures RoundEvents(events, excluded, turn, n) != []
    decreases n
  {
    if q < n - 1 {
      EarlierInRound(events, excluded, turn, q, n - 1);
    }
  }

  lemma OpenedOnce(events: seq<Event>, excluded: set<string>, turn: string, p: nat, q: nat)
    requires OpensTurn(events, excluded, turn, p) && OpensTurn(events, excluded, turn, q)
    ensures p == q
  {
    if p < q {
      EarlierInRound(events, excluded, turn, p, q);
    } else if q < p {
      EarlierInRound(events, excluded, turn, q, p);
    }
  }

  lemma RoundPart(events: seq<Event>, excluded: set<string>, turn: string, p: nat)
    requires OpensTurn(events, excluded, turn, p) && turn != ""
    ensures Parts(events, excluded)[p] == Round(RoundEvents(events, excluded, turn, |events|))
    ensures !Conversational(events[p], excluded)
  {
  }

  predicate FlushedAt(order: seq<string>, positions: map<string, nat>, n: nat, p: nat)
    requires n <= |order| && forall t | t in order :: t in positions
  {
    exists j :: 0 <= j < n && positions[order[j]] == p
  }

  /** Every conversational position, and the position of every round already flushed. */
  ghost predicate FlushedOk(events: seq<Event>, excluded: set<string>, parts: seq<seq<Message>>, order: seq<string>,
                            positions: map<string, nat>, n: nat, entries: seq<Entry>)
    requires n <= |order| && |events| == |parts|
    requires forall t | t in order :: t in positions && positions[t] < |parts|
  {
    && EntriesOk(parts, entries)
    && (forall p: nat | p < |events| && Conversational(events[p], excluded) :: Placed(entries, p))
    && (forall k | 0 <= k < |entries| :: Conversational(events[entries[k].at], excluded)
                                         || FlushedAt(order, positions, n, entries[k].at))
    && (forall j | 0 <= j < n && parts[positions[order[j]]] != [] :: Placed(entries, positions[order[j]]))
  }

  /** Distinct turns, with the position where each one opens. */
  ghost predicate OrderPlaced(events: seq<Event>, excluded: set<string>, order: seq<string>, positions: map<string, nat>) {
    && (forall t | t in order :: t in positions && t != "" && OpensTurn(events, excluded, t, positions[t]))
    && (forall i, j | 0 <= i < j < |order| :: order[i] != order[j])
  }

  lemma FreshPosition(events: seq<Event>, excluded: set<string>, parts: seq<seq<Message>>, order: seq<string>,
                      positions: map<string, nat>, n: nat, entries: seq<Entry>)
    requires n < |order| && |events| == |parts| && OrderPlaced(events, excluded, order, positions)
    requires FlushedOk(events, excluded, parts, order, positions, n, entries)
    ensures !Placed(entries, positions[order[n]])
  {
    var p := positions[order[n]];
    RoundPart(events, excluded, order[n], p);
    forall j | 0 <= j < n ensures positions[order[j]] != p {
      assert order[j] in order && order[n] in order;
    }
    assert !FlushedAt(order, positions, n, p);
  }

  lemma EntriesGrow(parts: seq<seq<Message>>, entries: seq<Entry>, e: Entry)
    requires EntriesOk(parts, entries) && !Placed(entries, e.at) && e.at < |parts| && e.messages == parts[e.at]
    ensures EntriesOk(parts, entries + [e])
  {
    forall k | 0 <= k < |entries| ensures entries[k].at != e.at {
      assert !Placed(entries, e.at);
    }
  }

  lemma FlushPlaced(events: seq<Event>, excluded: set<string>, parts: seq<seq<Message>>, order: seq<string>,
                    positions: map<string, nat>, n: nat, entries: seq<Entry>)
    requires n < |order| && |events| == |parts| && OrderPlaced(events, excluded, order, positions)
    requires FlushedOk(events, excluded, parts, order, positions, n, entries)
    ensures var p := positions[order[n]];
            FlushedOk(events, excluded, parts, order, positions, n + 1, entries + [Entry(p, parts[p])])
  {
    var p := positions[order[n]];
    var e := Entry(p, parts[p]);
    FreshPosition(events, excluded, parts, order, positions, n, entries);
    forall q: nat ensures Placed(entries + [e], q) <==> Placed(entries, q) || e.at == q {
      PlacedMore(entries, e, q);
    }
    EntriesGrow(parts, entries, e);
    forall q: nat | FlushedAt(order, positions, n, q) || q == p ensures FlushedAt(order, positions, n + 1, q) {
      assert positions[order[n]] == p;
    }
  }

  lemma FlushEmpty(events: seq<Event>, excluded: set<string>, parts: seq<seq<Message>>, order: seq<string>,
                   positions: map<string, nat>, n: nat, entries: seq<Entry>)
    requires n < |order| && |events| == |parts| && OrderPlaced(events, excluded, order, positions)
    requires FlushedOk(events, excluded, parts, order, positions, n, entries) && parts[positions[order[n]]] == []
    ensures FlushedOk(events, excluded, parts, order, positions, n + 1, entries)
  {
    forall q: nat | FlushedAt(order, positions, n, q) ensures FlushedAt(order, positions, n + 1, q) {
    }
  }

  predicate Covers(parts: seq<seq<Message>>, entries: seq<Entry>) {
    && EntriesOk(parts, entries)
    && (forall p: nat | p < |parts| && parts[p] != [] :: Placed(entries, p))
  }

  lemma OpeningKnown(events: seq<Event>, excluded: set<string>, order: seq<string>, rounds: map<string, seq<Event>>,
                     positions: map<string, nat>, p: nat) returns (j: nat)
    requires PendingOk(events, excluded, |events|, order, rounds, positions)
    requires p < |events| && Parts(events, excluded)[p] != [] && !Conversational(events[p], excluded)
    ensures j < |order| && order[j] in positions && positions[order[j]] == p
  {
    var t := events[p].turn;
    assert OpensTurn(events, excluded, t, p) && t != "";
    EarlierInRound(events, excluded, t, p, |events|);
    assert t in order;
    j :| 0 <= j < |order| && order[j] == t;
    OpenedOnce(events, excluded, t, p, positions[t]);
  }

  lemma FlushEnd(events: seq<Event>, excluded: set<string>, parts: seq<seq<Message>>, order: seq<string>,
                 rounds: map<string, seq<Event>>, positions: map<string, nat>, entries: seq<Entry>)
    requires parts == Parts(events, excluded) && OrderPlaced(events, excluded, order, positions)
    requires PendingOk(events, excluded, |events|, order, rounds, positions)
    requires FlushedOk(events, excluded, parts, order, positions, |order|, entries)
    ensures Covers(parts, entries)
  {
    forall p: nat | p < |parts| && parts[p] != [] ensures Placed(entries, p) {
      if !Conversational(events[p], excluded) {
        var j := OpeningKnown(events, excluded, order, rounds, positions, p);
      }
    }
  }

  // ---- sorting and joining ----

  predicate Increasing(entries: seq<Entry>) {
    forall i, j | 0 <= i < j < |entries| :: entries[i].at < entries[j].at
  }

  lemma Inserted(sorted: seq<Entry>, k: nat, e: Entry)
    requires Increasing(sorted) && k <= |sorted|
    requires forall j | 0 <= j < k :: sorted[j].at < e.at
    requires forall j | k <= j < |sorted| :: e.at < sorted[j].at
    ensures Increasing(sorted[..k] + [e] + sorted[k..])
    ensures forall x :: x in sorted[..k] + [e] + sorted[k..] <==> x in sorted || x == e
  {
    assert sorted == sorted[..k] + sorted[k..];
  }

  method InsertEntry(sorted: seq<Entry>, e: Entry) returns (r: seq<Entry>)
    requires Increasing(sorted) && forall k | 0 <= k < |sorted| :: sorted[k].at != e.at
    ensures Increasing(r) && forall x :: x in r <==> x in sorted || x == e
  {
    var k := |sorted|;
    while k > 0 && sorted[k - 1].at > e.at
      invariant 0 <= k <= |sorted|
      invariant forall j | k <= j < |sorted| :: sorted[j].at > e.at
    {
      k := k - 1;
    }
    Inserted(sorted, k, e);
    r := sorted[..k] + [e] + sorted[k..];
  }

  method SortEntries(entries: seq<Entry>) returns (sorted: seq<Entry>)
    requires forall i, j | 0 <= i < j < |entries| :: entries[i].at != entries[j].at
    ensures Increasing(sorted) && forall x :: x in sorted <==> x in entries
  {
    sorted := [];
    var i := 0;
    while i < |entries|
      invariant 0 <= i <= |entries| && Increasing(sorted)
      invariant forall x :: x in sorted <==> x in entries[..i]
    {
      forall k | 0 <= k < |sorted| ensures sorted[k].at != entries[i].at {
        assert sorted[k] in sorted;
      }
      sorted := InsertEntry(sorted, entries[i]);
      assert entries[..i + 1] == entries[..i] + [entries[i]];
      i := i + 1;
    }
    assert entries[..i] == entries;
  }

  function JoinEntries(entries: seq<Entry>): seq<Message> {
    if entries == [] then [] else JoinEntries(entries[..|entries| - 1]) + entries[|entries| - 1].messages
  }

  /** Placed in order, with nothing missing below `n` but empty parts. */
  predicate Fills(entries: seq<Entry>, parts: seq<seq<Message>>) {
    && Increasing(entries)
    && (forall k | 0 <= k < |entries| :: entries[k].at < |parts| && entries[k].messages == parts[entries[k].at])
    && (forall p: nat | p < |parts| && parts[p] != [] :: Placed(entries, p))
  }

  /** The entries below the last part. */
  function Kept(entries: seq<Entry>, n: nat): seq<Entry> {
    if entries != [] && entries[|entries| - 1].at == n then entries[..|entries| - 1] else entries
  }

  lemma KeptPlaced(entries: seq<Entry>, n: nat, p: nat)
    requires p < n && Placed(entries, p)
    ensures Placed(Kept(entries, n), p)
  {
    var k :| 0 <= k < |entries| && entries[k].at == p;
    assert Kept(entries, n)[k].at == p;
  }

  lemma LastPlaced(entries: seq<Entry>, n: nat)
    requires Increasing(entries) && Placed(entries, n) && forall k | 0 <= k < |entries| :: entries[k].at <= n
    ensures entries != [] && entries[|entries| - 1].at == n
  {
    var k :| 0 <= k < |entries| && entries[k].at == n;
    assert entries[k].at <= entries[|entries| - 1].at;
  }

  lemma KeptFills(entries: seq<Entry>, parts: seq<seq<Message>>)
    requires parts != [] && Fills(entries, parts)
    ensures Fills(Kept(entries, |parts| - 1), parts[..|parts| - 1])
    ensures Kept(entries, |parts| - 1) == entries ==> parts[|parts| - 1] == []
  {
    var n := |parts| - 1;
    forall p: nat | p < n && parts[p] != [] ensures Placed(Kept(entries, n), p) {
      KeptPlaced(entries, n, p);
    }
    if parts[n] != [] {
      LastPlaced(entries, n);
    }
  }

  lemma {:induction false} JoinFills(entries: seq<Entry>, parts: seq<seq<Message>>)
    requires Fills(entries, parts)
    ensures JoinEntries(entries) == Joined(parts)
    decreases |parts|
  {
    if parts != [] {
      KeptFills(entries, parts);
      JoinFills(Kept(entries, |parts| - 1), parts[..|parts| - 1]);
    }
  }

  lemma SortedFills(parts: seq<seq<Message>>, entries: seq<Entry>, sorted: seq<Entry>)
    requires Covers(parts, entries) && Increasing(sorted)
    requires forall x :: x in sorted <==> x in entries
    ensures Fills(sorted, parts)
  {
    forall k | 0 <= k < |sorted| ensures sorted[k].at < |parts| && sorted[k].messages == parts[sorted[k].at] {
      assert sorted[k] in entries;
    }
    forall p: nat | p < |parts| && parts[p] != [] ensures Placed(sorted, p) {
      var k :| 0 <= k < |entries| && entries[k].at == p;
      assert entries[k] in sorted;
    }
  }

  method Extend(sorted: seq<Entry>) returns (projected: seq<Message>)
    ensures projected == JoinEntries(sorted)
  {
    projected := [];
    var i := 0;
    while i < |sorted|
      invariant 0 <= i <= |sorted|
      invariant projected == JoinEntries(sorted[..i])
    {
      assert sorted[..i + 1][..i] == sorted[..i];
      projected := projected + sorted[i].messages;
      i := i + 1;
    }
    assert sorted[..i] == sorted;
  }

  /** Flush every pending round to the place where its turn opened. */
  method FlushAll(events: seq<Event>, excluded: set<string>, ghost parts: seq<seq<Message>>, order: seq<string>,
                  rounds: map<string, seq<Event>>, positions: map<string, nat>, chat: seq<Entry>)
    returns (entries: seq<Entry>)
    requires parts == Parts(events, excluded) && OrderPlaced(events, excluded, order, positions)
    requires PendingOk(events, excluded, |events|, order, rounds, positions)
    requires ChatOk(events, excluded, parts, |events|, chat)
    ensures Covers(parts, entries)
  {
    entries := chat;
    var i := 0;
    while i < |order|
      invariant 0 <= i <= |order|
      invariant FlushedOk(events, excluded, parts, order, positions, i, entries)
    {
      var t := order[i];
      var messages := FlushRound(rounds[t]);
      RoundPart(events, excluded, t, positions[t]);
      if messages == [] {
        FlushEmpty(events, excluded, parts, order, positions, i, entries);
      } else {
        FlushPlaced(events, excluded, parts, order, positions, i, entries);
        entries := entries + [Entry(positions[t], messages)];
      }
      i := i + 1;
    }
    FlushEnd(events, excluded, parts, order, rounds, positions, entries);
  }

  method Build(events: seq<Event>, excluded: set<string>) returns (projected: seq<Message>)
    ensures projected == Stream(events, excluded)
  {
    ghost var parts := Parts(events, excluded);
    var order, rounds, positions, chat := Collect(events, excluded, parts);
    var entries := FlushAll(events, excluded, parts, order, rounds, positions, chat);
    var sorted := SortEntries(entries);
    SortedFills(parts, entries, sorted);
    JoinFills(sorted, parts);
    projected := Extend(sorted);
  }
}
