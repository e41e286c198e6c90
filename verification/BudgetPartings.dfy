/**
 * Two-call and three-call runs from empty ledgers after which the in-memory and the database ledger decide differently.
 */
module BudgetPartings {
  import opened Results
  import opened BudgetLedger
  import opened BudgetSql

  /** A first reservation that both empty ledgers accept. */
  predicate Opens(p: Limits, o: Order) {
    p.perTask > 0 && p.daily > 0 && Affordable(EMPTY, p, o)
  }

  lemma RunOnce(c: Call)
    ensures Run([c]) == Step(EMPTY, c).0 && SqlRun([c]) == SqlStep(EMPTY, c).0
  {
    assert [c][..0] == [];
  }

  lemma RunTwice(c: Call, d: Call)
    ensures Run([c, d]) == Step(Run([c]), d).0 && SqlRun([c, d]) == SqlStep(SqlRun([c]), d).0
  {
    assert [c, d][..1] == [c];
  }

  lemma EmptyRelated()
    ensures Related(EMPTY, EMPTY)
  {
    EmptyInv();
  }

  /** After it both ledgers hold exactly that reservation. */
  lemma FirstIsHeld(p: Limits, o: Order)
    requires Opens(p, o)
    ensures var m, s := Run([ReserveCall(p, o)]), SqlRun([ReserveCall(p, o)]);
      && Related(m, s)
      && m.reservations == s.reservations == map[o.idempotencyKey := NewReservation(EMPTY, p, o)]
  {
    var c := ReserveCall(p, o);
    RunOnce(c);
    EmptyRelated();
    ReservesAffordable(EMPTY, p, o);
    assert PaymentUnused(EMPTY, o.paymentId);
    StepSimulates(EMPTY, EMPTY, c);
    ReserveRecords(EMPTY, p, o);
    FreshIsCharged(EMPTY, p, o);
  }

  lemma FreshIsCharged(b: Budget, p: Limits, o: Order)
    requires o.idempotencyKey !in b.reservations && Reserve(b, p, o).1.Success?
    ensures IsCharge(Reserve(b, p, o).1)
  {
  }

  /** The same payment asked for again after its payment limit dropped: a repeat in memory, refused by the database. */
  lemma LoweredLimitParts(p: Limits, o: Order, lower: int)
    requires Opens(p, o) && lower < o.amount
    ensures var m, s, c := Run([ReserveCall(p, o)]), SqlRun([ReserveCall(p, o)]),
        ReserveCall(p.(perPayment := lower), o);
      && Diverges(m, c)
      && Step(m, c).1 == Success((NewReservation(EMPTY, p, o), true))
      && SqlStep(s, c).1 == Failure(OverPaymentLimit)
  {
    FirstIsHeld(p, o);
  }

  /**
   * The payment identifier again under another key, both within the limits: reserved twice in memory, refused by the
   * database.
   */
  lemma ReusedPaymentParts(p: Limits, o: Order, key: string)
    requires Opens(p, o) && key != o.idempotencyKey && Affordable(Run([ReserveCall(p, o)]), p, o)
    ensures var m, s, c := Run([ReserveCall(p, o)]), SqlRun([ReserveCall(p, o)]),
        ReserveCall(p, o.(idempotencyKey := key));
      && Diverges(m, c)
      && Step(m, c).1.Success? && SqlStep(s, c).1.Failure?
  {
    FirstIsHeld(p, o);
    var m, s, d := Run([ReserveCall(p, o)]), SqlRun([ReserveCall(p, o)]), o.(idempotencyKey := key);
    assert m.reservations[o.idempotencyKey].paymentId == d.paymentId;
    assert Affordable(m, p, d);
    ReservesAffordable(m, p, d);
    StepSimulates(m, s, ReserveCall(p, d));
  }

  /** Twice the amount within the limits is enough for that. */
  lemma TwiceIsAffordable(p: Limits, o: Order)
    requires Opens(p, o) && 2 * o.amount <= p.perTask && 2 * o.amount <= p.daily
    ensures Affordable(Run([ReserveCall(p, o)]), p, o)
  {
    RunOnce(ReserveCall(p, o));
  }

  /** Releasing what was cancelled, or cancelling what was released: a repeat in memory, refused by the database. */
  lemma SettledOtherwiseParts(p: Limits, o: Order, cancelled: bool)
    requires Opens(p, o)
    ensures var calls := [ReserveCall(p, o), ReleaseCall(o.idempotencyKey, cancelled)];
      var m, s, c := Run(calls), SqlRun(calls), ReleaseCall(o.idempotencyKey, !cancelled);
      && Diverges(m, c)
      && Step(m, c).1.Success? && SqlStep(s, c).1 == Failure(NotReserved(if cancelled then Cancelled else Released))
  {
    FirstIsHeld(p, o);
    RunTwice(ReserveCall(p, o), ReleaseCall(o.idempotencyKey, cancelled));
    SettledOtherwise(Run([ReserveCall(p, o)]), SqlRun([ReserveCall(p, o)]), o.idempotencyKey, cancelled);
  }

  lemma SettledOtherwise(m: Budget, s: Budget, key: string, cancelled: bool)
    requires Related(m, s) && key in m.reservations && m.reservations[key].status.Reserved?
    ensures var t, u, c := Step(m, ReleaseCall(key, cancelled)).0, SqlStep(s, ReleaseCall(key, cancelled)).0,
        ReleaseCall(key, !cancelled);
      && Diverges(t, c)
      && Step(t, c).1.Success? && SqlStep(u, c).1 == Failure(NotReserved(if cancelled then Cancelled else Released))
  {
    MoveSimulates(m, s, key, if cancelled then Cancelled else Released);
  }
}
