/** Where a session's money comes from and how it ends. */
module SessionFunding {
  import opened Results
  import opened PaymentSessions

  /** Open, and not past its expiry at this instant. */
  predicate Live(g: Terms, s: Session, now: int) {
    s.status == Open && now < g.expiresAt
  }

  /** The answer shows the session's own figures. */
  predicate Shows(g: Terms, s: Session, o: Outcome) {
    && o.Success?
    && o.value.ceiling == g.ceiling && o.value.funded == s.funded && o.value.spent == s.spent
    && o.value.status == s.status && o.value.revokedReason == s.revokedReason
  }

  /**
   * A top-up adds exactly its amount, and succeeds exactly when that is positive, the session live and the ceiling
   * kept.
   */
  lemma TopsUpExactly(g: Terms, s: Session, amount: int, clock: Clock)
    ensures var (t, o) := TopUp(g, s, amount, clock);
      var accepted := amount > 0 && Live(g, s, clock.checked) && s.funded + amount <= g.ceiling;
      && (o.Success? <==> accepted)
      && t.funded == (if accepted then s.funded + amount else s.funded)
      && t.spent == s.spent && t.settled == s.settled && t.revokedReason == s.revokedReason
      && (accepted ==> Shows(g, t, o) && t.status == if clock.answered < g.expiresAt then Open else ExpiredSession)
  {
  }

  /** Closing ends a live session, and revoking an open one however late it is; neither moves money. */
  lemma EndsExactly(g: Terms, s: Session, reason: string, blank: bool, clock: Clock)
    ensures var (closed, c) := Close(g, s, clock);
      && (c.Success? <==> Live(g, s, clock.checked))
      && (c.Success? ==> closed == s.(status := Closed) && Shows(g, closed, c))
      && (c.Failure? ==> closed == if s.status == Open then s.(status := ExpiredSession) else s)
    ensures var (revoked, r) := Revoke(g, s, reason, blank, clock);
      && (r.Success? <==> !blank && s.status == Open)
      && revoked == (if r.Success? then s.(status := Revoked, revokedReason := Some(reason)) else s)
      && (r.Success? ==> Shows(g, revoked, r))
  {
  }

  /** A settlement takes its amount from the balance once, and answers with the figures afterwards. */
  lemma SettlesExactly(g: Terms, s: Session, v: Voucher, clock: Clock)
    requires Inv(g, s) && v.amount > 0
    ensures var (t, o) := Settle(g, s, v, clock);
      var repeated := v.id in s.settled;
      && (o.Success? <==>
            && Live(g, s, clock.checked) && v.scope == g.scope
            && (if repeated then s.settled[v.id] == v.amount else v.amount <= s.funded - s.spent))
      && (o.Success? ==> Shows(g, t, o))
      && t.spent == (if o.Success? && !repeated then s.spent + v.amount else s.spent)
      && t.settled == (if o.Success? then s.settled[v.id := v.amount] else s.settled)
      && t.funded == s.funded && t.revokedReason == s.revokedReason
  {
  }

  /** The sum of the top-ups that were accepted. */
  function Paid(g: Terms, calls: seq<Call>): int
    requires forall n :: 0 <= n < |calls| ==> Possible(calls[n])
  {
    if calls == [] then 0
    else
      var before, last := calls[..|calls| - 1], calls[|calls| - 1];
      Paid(g, before)
      + if last.TopUpCall? && TopUp(g, RunFrom(g, FRESH, before), last.amount, last.clock).1.Success? then last.amount
        else 0
  }

  lemma StepFunds(g: Terms, s: Session, c: Call)
    requires Possible(c)
    ensures var (t, o) := Step(g, s, c);
      t.funded == s.funded + if c.TopUpCall? && o.Success? then c.amount else 0
  {
  }

  /** After any run the session holds exactly what was topped up. */
  lemma {:induction false} EveryRunFunded(g: Terms, calls: seq<Call>)
    requires forall n :: 0 <= n < |calls| ==> Possible(calls[n])
    ensures RunFrom(g, FRESH, calls).funded == Paid(g, calls)
    decreases |calls|
  {
    if calls != [] {
      EveryRunFunded(g, calls[..|calls| - 1]);
      StepFunds(g, RunFrom(g, FRESH, calls[..|calls| - 1]), calls[|calls| - 1]);
    }
  }
}
