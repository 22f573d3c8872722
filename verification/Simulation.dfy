/** The one path a simulated order takes: reserved against the shadow, sent, settled or lost, its
    row completed, and the portfolio read back once that can help. */
module Simulation {
  import opened Options
  import opened Portfolio
  import opened ShadowLedger
  import opened AttemptsStore

  /** The order an answer names. */
  datatype PlacedOrder = PlacedOrder(id: int, execution: Execution)

  function ExecutionOf(placed: Option<PlacedOrder>): Option<Execution> {
    if placed.Some? then Some(placed.value.execution) else None
  }

  /** What an answer does to the shadow: an order lost is not an order refused. */
  function Answering(sh: Shadow, r: Reservation, status: int, placed: Option<PlacedOrder>): Shadow {
    if status == 0 then Lose(sh, r) else Settle(sh, r, ExecutionOf(placed))
  }

  /** An idle user the engine does not trust is being read back, unless no read of it has come back
      with a portfolio since it was last asked for. */
  ghost predicate Healing(sh: Shadow, reseeding: set<int>, unread: set<int>) {
    forall u :: NeedsReadBack(sh, u) ==> u in reseeding || u in unread
  }

  /** Only the answered order's own user can come to need a read-back. */
  lemma AnswerTouchesOne(sh: Shadow, r: Reservation, status: int, placed: Option<PlacedOrder>, u: int)
    requires u != r.order.userId && NeedsReadBack(Answering(sh, r, status, placed), u)
    ensures NeedsReadBack(sh, u)
  {
  }

  /** A portfolio of the current generation leaves a user untrusted only while orders are out. */
  lemma SeedHeals(sh: Shadow, generation: int, user: int, portfolio: Portfolio, u: int)
    requires NeedsReadBack(Seeded(sh, generation, user, portfolio), u)
    ensures NeedsReadBack(sh, u) && (u != user || !Seeds(sh, generation, user))
  {
  }

  function Annotation(r: Reservation, placed: Option<PlacedOrder>): Details {
    Details(Some(r.expectation), if placed.Some? then Some(placed.value.execution.status) else None,
            if placed.Some? then Some(placed.value.id) else None, None)
  }

  class SimulationService {
    const ledger: ShadowLedger
    const attempts: AttemptsStore
    var reseeding: set<int>            // users whose portfolio is being read back
    var sent: nat
    var filled: nat
    var rejected: nat
    var failed: nat
    ghost var unread: set<int>         // users whose last read has not come back, or not with a portfolio to adopt

    constructor (ledger: ShadowLedger, attempts: AttemptsStore)
      requires ledger.users == map[]
      ensures this.ledger == ledger && this.attempts == attempts && reseeding == {} && Counted() && Heals()
    {
      this.ledger, this.attempts := ledger, attempts;
      reseeding, sent, filled, rejected, failed, unread := {}, 0, 0, 0, 0, {};
    }

    predicate Counted()
      reads this
    {
      filled + rejected + failed <= sent
    }

    ghost predicate Heals()
      reads this`reseeding, this`unread, ledger
    {
      Healing(ledger.State(), reseeding, unread)
    }

    /** A new shadow: every user is about to be read for the first time. */
    method Prepare(userIds: seq<int>) returns (generation: int)
      modifies this`unread, ledger
      ensures Heals() && ledger.State() == Reseeded(old(ledger.State()), userIds)
      ensures unread == set u | u in userIds
      ensures generation == ledger.current
    {
      ledger.Reseed(userIds);
      unread := set u | u in userIds;
      generation := ledger.current;
    }

    /** The first half of a placement. */
    method Reserving(order: SimOrder) returns (r: Reservation)
      requires Heals() && (order.userId in ledger.users ==> ledger.users[order.userId].outstanding >= 0)
      modifies ledger
      ensures Heals() && r == ReservationFor(old(ledger.State()), order)
      ensures ledger.State() == Reserve(old(ledger.State()), order)
    {
      r := ledger.ReserveOrder(order);
    }

    /** The answer to an order sent: the other half of its placement, any number of other
        placements having run in between. The last answer of an untrusted user starts a read-back. */
    method Answered(r: Reservation, attemptId: nat, status: int, placed: Option<PlacedOrder>)
      requires attempts.Valid() && Heals() && (status == 0 ==> placed.None?)
      modifies this`reseeding, this`unread, ledger, attempts
      ensures attempts.Valid() && Heals()
      ensures ledger.State() == if status == 0 then Lose(old(ledger.State()), r)
                                else Settle(old(ledger.State()), r,
                                            if placed.Some? then Some(placed.value.execution) else None)
      ensures !old(attempts.Retained(attemptId)) ==> attempts.log == old(attempts.log)
      ensures old(attempts.Retained(attemptId)) ==>
                attempts.log == old(attempts.log)[attemptId - 1 := Annotated(old(attempts.log)[attemptId - 1],
                                                                             Annotation(r, placed))]
      ensures old(attempts.Retained(attemptId)) ==>
                var row := attempts.log[attemptId - 1];
                && row.expected == Some(r.expectation)
                && (placed.Some? ==>
                      row.orderId == Some(placed.value.id) && row.actual == Some(placed.value.execution.status))
      ensures var asked := if NeedsReadBack(ledger.State(), r.order.userId) then {r.order.userId} else {};
              reseeding == old(reseeding) + asked && unread == old(unread) - asked
    {
      ghost var sh := ledger.State();
      if status == 0 {
        ledger.LoseReservation(r);
      } else {
        ledger.SettleReservation(r, ExecutionOf(placed));
      }
      attempts.Annotate(attemptId, Annotation(r, placed));
      if ledger.NeedsReseed(r.order.userId) {
        reseeding, unread := reseeding + {r.order.userId}, unread - {r.order.userId};
      }
      forall u | u != r.order.userId && NeedsReadBack(ledger.State(), u) ensures NeedsReadBack(sh, u) {
        AnswerTouchesOne(sh, r, status, placed, u);
      }
    }

    /** A read that has come back, with a portfolio or without: the first of a generation, or a
        read-back. */
    method ReadDone(generation: int, userId: int, portfolio: Option<Portfolio>, readBack: bool) returns (ok: bool)
      requires Heals()
      modifies this`reseeding, this`unread, ledger
      ensures Heals() && ok == (portfolio.Some? && Seeds(old(ledger.State()), generation, userId))
      ensures ledger.State() == if portfolio.Some? then Seeded(old(ledger.State()), generation, userId, portfolio.value)
                                else old(ledger.State())
      ensures reseeding == if readBack then old(reseeding) - {userId} else old(reseeding)
      ensures unread == if ok then old(unread) - {userId} else old(unread) + {userId}
    {
      ghost var sh := ledger.State();
      ok := false;
      if portfolio.Some? {
        ok := ledger.Seed(generation, userId, portfolio.value);
        forall u | NeedsReadBack(ledger.State(), u) ensures NeedsReadBack(sh, u) && (u != userId || !ok) {
          SeedHeals(sh, generation, userId, portfolio.value, u);
        }
      }
      if readBack {
        reseeding := reseeding - {userId};
      }
      unread := if ok then unread - {userId} else unread + {userId};
    }

    /** With no read under way and none that failed, every user with nothing outstanding is seeded and
        trusted. */
    lemma AllHealed(user: int)
      requires Heals() && reseeding == {} && unread == {}
      requires user in ledger.users && ledger.users[user].outstanding == 0
      ensures ledger.users[user].seeded && !ledger.users[user].uncertain
    {
      assert !NeedsReadBack(ledger.State(), user);
    }

    /** The loop's own tally of its answers. */
    method Count(placed: Option<PlacedOrder>)
      requires Counted()
      modifies this`sent, this`filled, this`rejected, this`failed
      ensures Counted() && sent == old(sent) + 1
      ensures failed == old(failed) + if placed.None? then 1 else 0
      ensures filled == old(filled) + if placed.Some? && placed.value.execution.status.Filled? then 1 else 0
      ensures rejected == old(rejected) + if placed.Some? && placed.value.execution.status.Rejected? then 1 else 0
    {
      sent := sent + 1;
      if placed.None? {
        failed := failed + 1;
      } else if placed.value.execution.status.Filled? {
        filled := filled + 1;
      } else if placed.value.execution.status.Rejected? {
        rejected := rejected + 1;
      }
    }
  }

  /** A user the engine stopped trusting is trusted again after one read-back, unless an order went
      out in the meantime; and then the last answer to those asks for another. */
  lemma ReadBackHeals(sh: Shadow, user: int, portfolio: Portfolio, r: Reservation, status: int,
                      placed: Option<PlacedOrder>)
    requires Seeds(sh, sh.current, user) && sh.users[user].outstanding >= 0
    ensures var after := Seeded(sh, sh.current, user, portfolio);
            && after.users[user].seeded
            && (after.users[user].uncertain <==> sh.users[user].outstanding != 0)
            && (r.order.userId == user && Current(sh, r) && sh.users[user].outstanding == 1 ==>
                  NeedsReadBack(Answering(after, r, status, placed), user))
  {
  }
}
