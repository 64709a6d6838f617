/** The scheduler's `step` and `drain` as loops over a ledger; what a turn and what a wait leave behind comes
    from outside. */
module MailboxScheduler {
  import opened Wrappers
  import opened Protocol
  import opened LedgerModel
  import opened LedgerStore
  import opened Kernel
  import opened Mailbox

  /** What a turn returned, and the tables it left. */
  datatype Returned = Returned(tables: Db, outcome: Outcome)

  /** What one round of the loop meets: when nothing was pending, the tables by the time it goes on, and whether
      the producers are done or the drain is cancelled by then; the turn it runs when something was. */
  datatype Round = Round(meanwhile: Db, quits: bool, turn: Returned)

  /** The tables after one step. */
  function Stepped(s: Session, turn: Returned): Db {
    if Good(turn.outcome)
    then Checkpoint(turn.tables, s, ProjectedThrough(turn.tables, s, |turn.tables.events|))
    else turn.tables
  }

  /** `looked` is the tables as the loop last looked for something pending. */
  datatype Drain = Drain(tables: Db, looked: Db, outcomes: seq<Outcome>, returned: bool)

  /** One round: a look, and then either the end of it or a wait when nothing is pending, or a turn. */
  function RoundFrom(tables: Db, s: Session, round: Round): Drain {
    if Pending(tables, s) == [] then Drain(round.meanwhile, tables, [], round.quits)
    else Drain(Stepped(s, round.turn), tables, [round.turn.outcome], !Good(round.turn.outcome))
  }

  /** Draining from `tables` on; `returned` tells that the loop has ended. */
  function DrainFrom(tables: Db, s: Session, rounds: seq<Round>): Drain
    decreases |rounds|
  {
    if rounds == [] then Drain(tables, tables, [], false)
    else
      var first := RoundFrom(tables, s, rounds[0]);
      if first.returned then first
      else
        var rest := DrainFrom(first.tables, s, rounds[1..]);
        rest.(outcomes := first.outcomes + rest.outcomes)
  }

  /** The machine's two moves after a good end, with nothing in between, leave the tables `step` leaves. */
  lemma StepIsMarking(limits: Limits, sys: Sys, s: Session)
    requires Possible(sys, RunnerStep(s, ReadThrough))
    ensures var marking := Apply(limits, sys, RunnerStep(s, ReadThrough));
            && Possible(marking, RunnerStep(s, MoveCursor))
            && Apply(limits, marking, RunnerStep(s, MoveCursor)).shared.db
               == Stepped(s, Returned(sys.shared.db, sys.runners[s].phase.outcome))
  {
    var marking := Apply(limits, sys, RunnerStep(s, ReadThrough));
    CursorMoved(limits, marking, s);
  }

  /** A drain that returned did so at its first bad outcome, or after a look that saw nothing pending. */
  lemma {:induction false} DrainReturns(tables: Db, s: Session, rounds: seq<Round>)
    ensures var d := DrainFrom(tables, s, rounds);
            && GoodButLast(d.outcomes)
            && (AllGood(d.outcomes) && d.returned ==> Pending(d.looked, s) == [])
            && (!d.returned ==> AllGood(d.outcomes))
    decreases |rounds|
  {
    if rounds != [] {
      var first := RoundFrom(tables, s, rounds[0]);
      if !first.returned {
        var rest := DrainFrom(first.tables, s, rounds[1..]);
        DrainReturns(first.tables, s, rounds[1..]);
        GoodFirst(first.outcomes, rest.outcomes);
      } else if first.outcomes != [] {
        assert !Good(first.outcomes[0]);
      }
    }
  }

  /** The others only append, and leave the session's cursor alone. */
  predicate Grew(looked: Db, tables: Db, s: Session) {
    looked.events <= tables.events && Cursor(tables, s) == Cursor(looked, s) <= |looked.events|
  }

  ghost predicate NothingLater(tables: Db, s: Session, read: nat) {
    forall n: nat | AttentionAt(tables.events, s, n) :: n <= read
  }

  /** After a look that saw nothing, what is pending is exactly what was logged for the session since. */
  lemma PendingSince(looked: Db, tables: Db, s: Session)
    requires Pending(looked, s) == [] && Grew(looked, tables, s)
    ensures forall n: nat :: n in Pending(tables, s) <==> AttentionAt(tables.events, s, n) && n > |looked.events|
    ensures Pending(tables, s) == [] <==> NothingLater(tables, s, |looked.events|)
  {
    forall n: nat ensures n in Pending(tables, s) <==> AttentionAt(tables.events, s, n) && n > |looked.events| {
      PendingListed(tables, s, n);
      PendingListed(looked, s, n);
      assert n <= |looked.events| ==> (AttentionAt(tables.events, s, n) <==> AttentionAt(looked.events, s, n));
    }
    if Pending(tables, s) != [] {
      assert Pending(tables, s)[0] in Pending(tables, s);
    }
  }

  lemma GoodFirst(first: seq<Outcome>, rest: seq<Outcome>)
    requires AllGood(first) && GoodButLast(rest)
    ensures GoodButLast(first + rest) && (AllGood(first + rest) <==> AllGood(rest))
  {
    if rest != [] {
      assert (first + rest)[..|first + rest| - 1] == first + rest[..|rest| - 1];
    } else {
      assert first + rest == first;
    }
    assert forall i | 0 <= i < |rest| :: (first + rest)[|first| + i] == rest[i];
  }

  /** Where a drain stands that has collected `outcomes` and still has the rounds from `i` on. */
  function Continued(tables: Db, s: Session, rounds: seq<Round>, i: nat, outcomes: seq<Outcome>): Drain
    requires i <= |rounds|
  {
    var rest := DrainFrom(tables, s, rounds[i..]);
    rest.(outcomes := outcomes + rest.outcomes)
  }

  lemma NextRound(tables: Db, s: Session, rounds: seq<Round>, i: nat, outcomes: seq<Outcome>)
    requires i < |rounds|
    ensures var first := RoundFrom(tables, s, rounds[i]);
            Continued(tables, s, rounds, i, outcomes)
            == if first.returned then first.(outcomes := outcomes + first.outcomes)
               else Continued(first.tables, s, rounds, i + 1, outcomes + first.outcomes)
  {
    var first := RoundFrom(tables, s, rounds[i]);
    assert rounds[i..][0] == rounds[i] && rounds[i..][1..] == rounds[i + 1..];
    var rest := DrainFrom(first.tables, s, rounds[i + 1..]);
    assert outcomes + (first.outcomes + rest.outcomes) == outcomes + first.outcomes + rest.outcomes;
  }

  lemma NoRounds(tables: Db, s: Session, rounds: seq<Round>, outcomes: seq<Outcome>)
    ensures Continued(tables, s, rounds, |rounds|, outcomes) == Drain(tables, tables, outcomes, false)
    ensures Continued(tables, s, rounds, 0, []) == DrainFrom(tables, s, rounds)
  {
    assert rounds[|rounds|..] == [] && rounds[0..] == rounds;
    assert outcomes + [] == outcomes;
    assert [] + DrainFrom(tables, s, rounds).outcomes == DrainFrom(tables, s, rounds).outcomes;
  }

  class Scheduler {
    const ledger: Ledger
    const session: Session

    constructor (store: Ledger, s: Session)
      ensures ledger == store && session == s
    {
      ledger := store;
      session := s;
    }

    /** Others, or the turn itself, have brought the ledger to `tables`. */
    method Meanwhile(tables: Db)
      modifies ledger
      ensures ledger.Tables() == tables
    {
      ledger.events, ledger.reviews, ledger.actions, ledger.rounds := tables.events, tables.reviews, tables.actions, tables.rounds;
      ledger.projections, ledger.projected := tables.projections, tables.projected;
      ledger.deliveries, ledger.cursors := tables.deliveries, tables.cursors;
    }

    /** One turn, and after a good end the cursor moves over everything it has shown. */
    method Step(turn: Returned) returns (outcome: Outcome)
      modifies ledger
      ensures outcome == turn.outcome && ledger.Tables() == Stepped(session, turn)
    {
      Meanwhile(turn.tables);
      outcome := turn.outcome;
      if outcome == Completed || outcome == Silent {
        var through := ledger.ReadProjectedThrough(session);
        ledger.MoveCursor(session, through);
      }
    }

    method OneRound(round: Round) returns (outcomes: seq<Outcome>, returned: bool)
      modifies ledger
      ensures Drain(ledger.Tables(), old(ledger.Tables()), outcomes, returned)
              == RoundFrom(old(ledger.Tables()), session, round)
    {
      outcomes, returned := [], false;
      var waiting := ledger.ReadPending(session);
      if waiting == [] {
        Meanwhile(round.meanwhile);
        returned := round.quits;
      } else {
        var outcome := Step(round.turn);
        outcomes, returned := [outcome], !Good(outcome);
      }
    }

    /** Step while something is pending, wait while nothing is, and return at the first turn that did not end
        well, or when the producers are done after a look that saw nothing; what is pending then is exactly what
        was logged after that look. */
    method DrainAll(rounds: seq<Round>) returns (outcomes: seq<Outcome>, returned: bool, ghost looked: Db)
      modifies ledger
      ensures Drain(ledger.Tables(), looked, outcomes, returned) == DrainFrom(old(ledger.Tables()), session, rounds)
      ensures GoodButLast(outcomes)
      ensures AllGood(outcomes) && returned ==> Pending(looked, session) == []
      ensures AllGood(outcomes) && returned && Grew(looked, ledger.Tables(), session) ==>
                (Pending(ledger.Tables(), session) == [] <==> NothingLater(ledger.Tables(), session, |looked.events|))
    {
      ghost var all := DrainFrom(ledger.Tables(), session, rounds);
      DrainReturns(ledger.Tables(), session, rounds);
      NoRounds(ledger.Tables(), session, rounds, []);
      outcomes, returned, looked := [], false, ledger.Tables();
      var i := 0;
      while i < |rounds| && !returned
        invariant 0 <= i <= |rounds|
        invariant all == if returned then Drain(ledger.Tables(), looked, outcomes, true)
                         else Continued(ledger.Tables(), session, rounds, i, outcomes)
        decreases |rounds| - i
      {
        NextRound(ledger.Tables(), session, rounds, i, outcomes);
        looked := ledger.Tables();
        var more, over := OneRound(rounds[i]);
        outcomes, returned := outcomes + more, over;
        i := i + 1;
      }
      if !returned {
        NoRounds(ledger.Tables(), session, rounds, outcomes);
        looked := ledger.Tables();
      } else if AllGood(outcomes) && Grew(looked, ledger.Tables(), session) {
        PendingSince(looked, ledger.Tables(), session);
      }
    }
  }
}
