/** Recording a reply, saving what the round did, and ending the turn. */
module KernelRounds {
  import opened Wrappers
  import opened Protocol
  import opened LedgerModel
  import opened LedgerFacts
  import opened Messages
  import opened Kernel
  import opened KernelInvariant
  import opened KernelTables
  import opened KernelFrames
  import opened KernelHistory
  import opened KernelMoves

  // ---- recording a reply ----

  function RecordedState(sh: Shared, r: RoundId, round: AssistantRound): Shared
    requires r !in sh.db.rounds
  {
    sh.(db := InsertRound(sh.db, r, r.turn.session, round).value.0)
  }

  lemma RecordFrame(sh: Shared, r: RoundId, round: AssistantRound, t: Session)
    requires r !in sh.db.rounds
    ensures SessionFrame(sh, RecordedState(sh, r, round), t, None)
  {
  }

  lemma RecordRely(sh: Shared, r: RoundId, round: AssistantRound, t: Session)
    requires r !in sh.db.rounds && r.turn.session != t
    ensures Rely(sh, RecordedState(sh, r, round), t)
  {
    RecordFrame(sh, r, round, t);
  }

  lemma RecordedHistory(sh: Shared, s: Session, r: Runner, r2: Runner)
    requires SessionInv(sh, s) && RunnerInv(sh, s, r) && r.phase.Recording? && Current(r) !in sh.db.rounds
    requires r2 == Recorded(r, |sh.db.events| + 1)
    ensures HistoryInv(RecordedState(sh, Current(r), r.phase.round), s, r2)
  {
    var b := RecordedState(sh, Current(r), r.phase.round);
    RecordFrame(sh, Current(r), r.phase.round, s);
    HistoryKept(sh, b, s, r, r2, None);
  }

  lemma RecordedActing(sh: Shared, r: Runner, r2: Runner)
    requires RowsBelong(sh.db) && r.phase.Recording? && Current(r) !in sh.db.rounds
    requires r2 == Recorded(r, |sh.db.events| + 1) && r2.phase.Acting?
    ensures ActingInv(RecordedState(sh, Current(r), r.phase.round), r2)
  {
    assert forall i: nat :: SendSucceeded(sh.db, SendId(Current(r), i)) ==> SendId(Current(r), i) in sh.db.actions;
  }

  lemma RecordedRunner(sh: Shared, s: Session, r: Runner, r2: Runner)
    requires RowsBelong(sh.db) && SessionInv(sh, s) && RunnerInv(sh, s, r) && r.phase.Recording?
    requires Current(r) !in sh.db.rounds && r2 == Recorded(r, |sh.db.events| + 1)
    ensures RunnerInv(RecordedState(sh, Current(r), r.phase.round), s, r2)
  {
    RecordedHistory(sh, s, r, r2);
    if r2.phase.Acting? { RecordedActing(sh, r, r2); }
  }

  lemma RecordMove(sh: Shared, s: Session, r: Runner)
    requires SharedInv(sh) && SessionInv(sh, s) && RunnerInv(sh, s, r) && r.phase.Recording?
    ensures Keeps(sh, s, DoRecord(sh, r))
  {
    if Current(r) in sh.db.rounds {
      LocalKeeps(sh, s, None);
    } else {
      var b := RecordedState(sh, Current(r), r.phase.round);
      InsertRoundKeepsShared(sh, Current(r), r.phase.round);
      RecordFrame(sh, Current(r), r.phase.round, s);
      SessionKept(sh, b, s, None);
      RecordedRunner(sh, s, r, Recorded(r, |sh.db.events| + 1));
      forall t: Session | t != s ensures Rely(sh, b, t) { RecordRely(sh, Current(r), r.phase.round, t); }
      KeepsIntro(sh, s, b, Some(Recorded(r, |sh.db.events| + 1)));
    }
  }

  // ---- the messages of a finished round ----

  lemma RepliesShape(calls: seq<ToolCall>, statuses: seq<Status>)
    requires |calls| == |statuses|
    ensures Answers(calls, Replies(calls, statuses)) && Facts(Replies(calls, statuses)) == []
  {
    NoFacts(Replies(calls, statuses));
  }

  /** An assistant message, its replies and a closing note: paired, and free of facts. */
  lemma BlockShape(assistant: Msg, statuses: seq<Status>, tail: seq<Msg>)
    requires assistant.Assistant? && |statuses| == |assistant.calls|
    requires tail == [] || (|tail| == 1 && tail[0].Observation?)
    ensures Paired([assistant] + Replies(assistant.calls, statuses) + tail)
    ensures Facts([assistant] + Replies(assistant.calls, statuses) + tail) == []
  {
    var replies := Replies(assistant.calls, statuses);
    RepliesShape(assistant.calls, statuses);
    PairedBlock(assistant, replies);
    if tail == [] {
      assert [assistant] + replies + tail == [assistant] + replies;
    } else {
      PairedOne(tail[0]);
      assert tail == [tail[0]];
      PairedConcat([assistant] + replies, tail);
    }
    NoFacts([assistant] + replies + tail);
  }

  lemma TailShape(tail: seq<Msg>)
    requires tail == [] || (|tail| == 1 && tail[0].Observation?)
    ensures Paired(tail) && Facts(tail) == []
  {
    if tail != [] { PairedOne(tail[0]); assert tail == [tail[0]]; }
    NoFacts(tail);
  }

  lemma RoundHistoryShape(id: RoundId, round: AssistantRound, envelope: Envelope, results: seq<Status>)
    requires |results| == ActionCount(round, envelope)
    ensures Paired(RoundHistory(id, round, envelope, results)) && Facts(RoundHistory(id, round, envelope, results)) == []
  {
    var statuses := results[|envelope.messages|..];
    var tail := SendFeedback(envelope);
    var sent := SentMessages(envelope.messages, results);
    if round.calls != [] {
      BlockShape(Assistant(id, NoContent, round.calls, None), statuses, tail);
    } else if sent != [] {
      BlockShape(Assistant(id, Serialized(Envelope("", sent)), [], None), statuses, tail);
    } else {
      TailShape(tail);
      assert [] + Replies(round.calls, statuses) + tail == tail;
    }
  }

  lemma RoundLiveShape(id: RoundId, round: AssistantRound, envelope: Envelope, results: seq<Status>)
    requires |results| == ActionCount(round, envelope)
    ensures Paired(RoundLive(id, round, envelope, results)) && Facts(RoundLive(id, round, envelope, results)) == []
  {
    BlockShape(Assistant(id, Verbatim(round.content), round.calls, round.reasoning),
               results[|envelope.messages|..], SendFeedback(envelope));
  }

  lemma CorrectionShape(id: RoundId, round: AssistantRound)
    ensures Paired(CorrectionHistory(id, round)) && Facts(CorrectionHistory(id, round)) == []
    ensures Paired(CorrectionLive(id, round)) && Facts(CorrectionLive(id, round)) == []
  {
    var tail := [Observation("content_error")];
    BlockShape(Assistant(id, Verbatim(round.content), round.calls, round.reasoning), AllRejected(round.calls), tail);
    if round.calls != [] {
      BlockShape(Assistant(id, NoContent, round.calls, None), AllRejected(round.calls), tail);
    } else {
      TailShape(tail);
      assert [] + tail == tail;
    }
  }

  /** What the loop collected as sent is what the action table says was sent. */
  lemma {:induction false} SentIsDelivered(db: Db, id: RoundId, messages: seq<OutgoingMessage>, results: seq<Status>)
    requires |messages| <= |results|
    requires forall i: nat | i < |messages| :: SendSucceeded(db, SendId(id, i)) <==> results[i] == Succeeded
    ensures SentMessages(messages, results) == DeliveredMessages(db, id, messages)
  {
    if messages != [] { SentIsDelivered(db, id, messages[..|messages| - 1], results); }
  }

  lemma RoundHonest(sh: Shared, s: Session, r: Runner)
    requires RunnerInv(sh, s, r) && RoundDone(r)
    ensures AllHonest(sh.db, s, RoundHistory(Current(r), r.phase.round, r.phase.envelope, r.phase.results))
  {
    var p := r.phase;
    forall i: nat | i < |p.envelope.messages|
      ensures SendSucceeded(sh.db, SendId(Current(r), i)) <==> p.results[i] == Succeeded
    {
      assert SendSucceeded(sh.db, SendId(Current(r), i)) <==> i < |p.results| && p.results[i] == Succeeded;
    }
    SentIsDelivered(sh.db, Current(r), p.envelope.messages, p.results);
  }

  // ---- saving a round ----

  /** A history extended by messages of the current round can be stored. */
  lemma ExtendedStorable(sh: Shared, s: Session, r: Runner, r1: Runner, more: seq<Msg>)
    requires RunnerInv(sh, s, r) && InRound(r.phase)
    requires Paired(more) && Facts(more) == [] && AllHonest(sh.db, s, more)
    requires r1.turn == r.turn && r1.cut == r.cut
    requires r1.history == r.history.(messages := r.history.messages + more)
    ensures Storable(sh, s, r1)
  {
    PairedConcat(r.history.messages, more);
    FactsConcat(r.history.messages, more);
  }

  lemma LiveExtended(r: Runner, r1: Runner, more: seq<Msg>, kept: seq<Msg>)
    requires LiveInv(r) && Paired(more) && Facts(more) == [] && Facts(kept) == []
    requires r1.live == r.live + more && r1.history.messages == r.history.messages + kept
    ensures LiveInv(r1)
  {
    PairedConcat(r.live, more);
    FactsConcat(r.live, more);
    FactsConcat(r.history.messages, kept);
  }

  /** Messages of the current round count as older once the round index has moved on. */
  lemma ExtendedOlder(r: Runner, r2: Runner, more: seq<Msg>)
    requires OnlyOlder(r.history.messages, r)
    requires forall i | 0 <= i < |more| :: more[i].Assistant? ==> more[i].round == Current(r)
    requires r2.turn == r.turn && r2.index == r.index + 1
    requires r2.history.messages == r.history.messages + more
    ensures OnlyOlder(r2.history.messages, r2)
  {
  }

  lemma RoundsOlderNext(sh: Shared, s: Session, r: Runner, finished: Option<RoundId>, r1: Runner, r2: Runner)
    requires RoundsOlder(sh.db, s, r) && r2.turn == r.turn && r2.index == r.index + 1
    ensures RoundsOlder(Store(sh, r1, finished).db, s, r2)
  {
    StoreRounds(sh, r1, finished, s);
  }

  /** Storing the current round's messages and moving on to `r2`. */
  lemma SavedMove(sh: Shared, s: Session, r: Runner, r1: Runner, r2: Runner, more: seq<Msg>)
    requires SharedInv(sh) && SessionInv(sh, s) && RunnerInv(sh, s, r) && InRound(r.phase)
    requires Paired(more) && Facts(more) == [] && AllHonest(sh.db, s, more)
    requires forall i | 0 <= i < |more| :: more[i].Assistant? ==> more[i].round == Current(r)
    requires r1.turn == r.turn && r1.cut == r.cut
    requires r1.history == r.history.(messages := r.history.messages + more)
    requires r2.turn == r.turn && r2.index == r.index + 1 && r2.cut == r.cut
    requires r2.history == r1.history && LiveInv(r2)
    requires r2.phase.Boundary? || r2.phase.Ending?
    requires Halted(r.phase) ==> Halted(r2.phase)
    ensures Keeps(sh, s, (Store(sh, r1, Some(Current(r))), Some(r2)))
  {
    var done := Some(Current(r));
    var b := Store(sh, r1, done);
    ExtendedStorable(sh, s, r, r1, more);
    StoreKeepsSession(sh, s, r1, done);
    ExtendedOlder(r, r2, more);
    StoreSyncs(sh, s, r1, done, r2);
    RoundsOlderNext(sh, s, r, done, r1, r2);
    SavedUnknown(sh, r, r1, done, r2);
    StoreShared(sh, r1, done);
    forall t: Session | t != s ensures Rely(sh, b, t) { StoreRely(sh, r1, done, t); }
    KeepsIntro(sh, s, b, Some(r2));
  }

  lemma SavedUnknown(sh: Shared, r: Runner, r1: Runner, finished: Option<RoundId>, r2: Runner)
    requires UnknownHalts(sh.db, r) && r2.turn == r.turn && (Halted(r.phase) ==> Halted(r2.phase))
    ensures UnknownHalts(Store(sh, r1, finished).db, r2)
  {
    StoreProjected(sh, r1, finished);
  }

  lemma StoreShared(sh: Shared, r: Runner, finished: Option<RoundId>)
    requires SharedInv(sh)
    ensures SharedInv(Store(sh, r, finished))
  {
    SameTablesKeepShared(sh, Store(sh, r, finished));
  }

  lemma NextPhaseShape(limits: Limits, r: Runner, cancelled: bool)
    requires RoundDone(r)
    ensures var r1 := WithRoundMessages(r);
            var r2 := NextPhase(limits, r1, cancelled);
            && r2.turn == r.turn && r2.index == r.index + 1 && r2.cut == r.cut
            && r2.history == r1.history && r2.live == r1.live
            && (r2.phase.Boundary? || r2.phase.Ending?)
            && (Halted(r.phase) ==> Halted(r2.phase))
  {
  }

  lemma RoundMessagesOwn(r: Runner)
    requires RoundDone(r)
    ensures var more := RoundHistory(Current(r), r.phase.round, r.phase.envelope, r.phase.results);
            forall i | 0 <= i < |more| :: more[i].Assistant? ==> more[i].round == Current(r)
  {
  }

  lemma SaveRoundMove(limits: Limits, sh: Shared, s: Session, r: Runner, cancelled: bool)
    requires SharedInv(sh) && SessionInv(sh, s) && RunnerInv(sh, s, r) && RoundDone(r)
    ensures Keeps(sh, s, (Store(sh, WithRoundMessages(r), Some(Current(r))),
                          Some(NextPhase(limits, WithRoundMessages(r), cancelled))))
  {
    var p := r.phase;
    var more := RoundHistory(Current(r), p.round, p.envelope, p.results);
    var r1 := WithRoundMessages(r);
    var r2 := NextPhase(limits, r1, cancelled);
    NextPhaseShape(limits, r, cancelled);
    RoundMessagesOwn(r);
    RoundHistoryShape(Current(r), p.round, p.envelope, p.results);
    RoundLiveShape(Current(r), p.round, p.envelope, p.results);
    RoundHonest(sh, s, r);
    LiveExtended(r, r2, RoundLive(Current(r), p.round, p.envelope, p.results), more);
    SavedMove(sh, s, r, r1, r2, more);
  }

  lemma CorrectionHonest(sh: Shared, s: Session, r: Runner)
    requires RunnerInv(sh, s, r) && r.phase.Correcting?
    ensures var more := CorrectionHistory(Current(r), r.phase.round);
            && AllHonest(sh.db, s, more)
            && forall i | 0 <= i < |more| :: more[i].Assistant? ==> more[i].round == Current(r)
  {
  }

  lemma AfterCorrectionShape(limits: Limits, r: Runner)
    requires r.phase.Correcting?
    ensures var r1 := WithCorrection(r);
            var r2 := AfterCorrection(limits, r1);
            && r1.history == r.history.(messages := r.history.messages + CorrectionHistory(Current(r), r.phase.round))
            && r2.turn == r.turn && r2.index == r.index + 1 && r2.cut == r.cut
            && r2.history == r1.history && r2.live == r.live + CorrectionLive(Current(r), r.phase.round)
            && (r2.phase.Boundary? || r2.phase.Ending?) && !Halted(r.phase)
  {
  }

  lemma SaveCorrectionMove(limits: Limits, sh: Shared, s: Session, r: Runner)
    requires SharedInv(sh) && SessionInv(sh, s) && RunnerInv(sh, s, r) && r.phase.Correcting?
    ensures Keeps(sh, s, (Store(sh, WithCorrection(r), Some(Current(r))), Some(AfterCorrection(limits, WithCorrection(r)))))
  {
    var more := CorrectionHistory(Current(r), r.phase.round);
    var r1 := WithCorrection(r);
    var r2 := AfterCorrection(limits, r1);
    AfterCorrectionShape(limits, r);
    CorrectionShape(Current(r), r.phase.round);
    CorrectionHonest(sh, s, r);
    LiveExtended(r, r2, CorrectionLive(Current(r), r.phase.round), more);
    SavedMove(sh, s, r, r1, r2, more);
  }

  lemma StoreMove(sh: Shared, s: Session, r: Runner)
    requires SharedInv(sh) && SessionInv(sh, s) && RunnerInv(sh, s, r) && r.phase.Storing?
    ensures Keeps(sh, s, (Store(sh, r, None), Some(r.(live := r.history.messages, phase := Routing))))
  {
    var b := Store(sh, r, None);
    var r2 := r.(live := r.history.messages, phase := Routing);
    StoreKeepsSession(sh, s, r, None);
    StoreSyncs(sh, s, r, None, r2);
    StoreRounds(sh, r, None, s);
    StoreKeepsUnknown(sh, r, None, r2);
    StoreShared(sh, r, None);
    forall t: Session | t != s ensures Rely(sh, b, t) { StoreRely(sh, r, None, t); }
    KeepsIntro(sh, s, b, Some(r2));
  }

  // ---- ending ----

  lemma EndMove(sh: Shared, s: Session, r: Runner)
    requires SharedInv(sh) && SessionInv(sh, s) && RunnerInv(sh, s, r) && r.phase.Ending?
    ensures Keeps(sh, s, (sh.(db := Append(sh.db, AuditEvent(r, TurnEnd))),
                          Some(r.(phase := Finished(r.phase.outcome)))))
  {
    var e := AuditEvent(r, TurnEnd);
    var b := sh.(db := Append(sh.db, e));
    var r2 := r.(phase := Finished(r.phase.outcome));
    AppendKeepsShared(sh, e);
    AppendKeepsSession(sh, e, s);
    RelyAppend(sh, e, s);
    RunnerKept(sh, b, s, r);
    HistoryAgain(b, s, r, r2);
    forall t: Session | t != s ensures Rely(sh, b, t) { RelyAppend(sh, e, t); }
    KeepsIntro(sh, s, b, Some(r2));
  }

  lemma ThroughMove(sh: Shared, s: Session, r: Runner)
    requires SessionInv(sh, s) && RunnerInv(sh, s, r) && r.phase.Finished? && Good(r.phase.outcome)
    ensures RunnerInv(sh, s, r.(phase := Marking(ProjectedThrough(sh.db, s, |sh.db.events|))))
  {
    var r2 := r.(phase := Marking(ProjectedThrough(sh.db, s, |sh.db.events|)));
    ThroughProjected(sh.db, s, |sh.db.events|);
    HistoryAgain(sh, s, r, r2);
  }

  lemma CursorMove(sh: Shared, s: Session, r: Runner)
    requires SharedInv(sh) && SessionInv(sh, s) && RunnerInv(sh, s, r) && r.phase.Marking?
    ensures Keeps(sh, s, (sh.(db := Checkpoint(sh.db, s, r.phase.through)), None))
  {
    var b := sh.(db := Checkpoint(sh.db, s, r.phase.through));
    SameTablesKeepShared(sh, b);
    AllHonestKept(sh.db, b.db, s, None, Projection(sh.db, s));
    forall t: Session | t != s ensures Rely(sh, b, t) { RelyStill(sh, b, t); }
  }

  // ---- all moves ----

  predicate OfRead(m: Move) {
    || m.FetchHistory? || m.ChooseRoute? || m.Refresh? || m.Ask? || m.Inspect? || m.ReadThrough?
    || m.SkipAction? || m.RefuseArguments? || m.Abandon?
  }

  predicate OfWork(m: Move) { m.Judge? || m.BeginAction? || m.Perform? || m.FinishAction? }

  /** Moves that leave the shared state alone. */
  lemma ReadMove(limits: Limits, sh: Shared, s: Session, r: Runner, m: Move)
    requires SharedInv(sh) && SessionInv(sh, s) && RunnerInv(sh, s, r) && Enabled(r, m) && OfRead(m)
    ensures Keeps(sh, s, Do(limits, sh, r, m))
  {
    match m
    case FetchHistory => FetchMove(sh, s, r);
    case ChooseRoute(route) => RouteMove(sh, s, r, route);
    case Refresh(cancelled, oversized) => RefreshMove(limits, sh, s, r, cancelled, oversized);
    case Ask(reply) => AskMove(sh, s, r, reply);
    case SkipAction => ResultMove(sh, s, r, Cancelled);
    case RefuseArguments => ResultMove(sh, s, r, Rejected);
    case Abandon => ResultMove(sh, s, r, Cancelled);
    case Inspect(directory) => InspectMove(sh, s, r, directory);
    case ReadThrough => ThroughMove(sh, s, r);
    LocalKeeps(sh, s, Do(limits, sh, r, m).1);
  }

  lemma MoveKeeps(limits: Limits, sh: Shared, s: Session, r: Runner, m: Move)
    requires SharedInv(sh) && SessionInv(sh, s) && RunnerInv(sh, s, r) && Enabled(r, m)
    ensures Keeps(sh, s, Do(limits, sh, r, m))
  {
    if OfRead(m) {
      ReadMove(limits, sh, s, r, m);
    } else if OfWork(m) {
      WorkMove(limits, sh, s, r, m);
    } else {
      SaveMove(limits, sh, s, r, m);
    }
  }

  lemma SaveMove(limits: Limits, sh: Shared, s: Session, r: Runner, m: Move)
    requires SharedInv(sh) && SessionInv(sh, s) && RunnerInv(sh, s, r) && Enabled(r, m) && !OfRead(m) && !OfWork(m)
    ensures Keeps(sh, s, Do(limits, sh, r, m))
  {
    match m
    case StoreHistory => StoreMove(sh, s, r);
    case RecordRound => RecordMove(sh, s, r);
    case RefuseAction => RefuseMove(sh, s, r);
    case SaveRound(cancelled) => SaveRoundMove(limits, sh, s, r, cancelled);
    case SaveCorrection => SaveCorrectionMove(limits, sh, s, r);
    case EndTurn => EndMove(sh, s, r);
    case MoveCursor => CursorMove(sh, s, r);
    case Leave => LocalKeeps(sh, s, None);
    case Abort => LocalKeeps(sh, s, None);
  }

  lemma WorkMove(limits: Limits, sh: Shared, s: Session, r: Runner, m: Move)
    requires SharedInv(sh) && SessionInv(sh, s) && RunnerInv(sh, s, r) && Enabled(r, m)
    requires OfWork(m)
    ensures Keeps(sh, s, Do(limits, sh, r, m))
  {
    match m
    case Judge(allow) => A.JudgeMove(sh, s, r, allow);
    case BeginAction => A.BeginMove(sh, s, r);
    case Perform(adapter, touched) => A.PerformMove(sh, s, r, adapter, touched);
    case FinishAction => A.FinishMove(sh, s, r);
  }

  import A = KernelActions
}
