/** What notifications, refunds and the page a shopper sees mean for one order
    that keeps its laws: exactly when each does what the rules promise. */
module OrderOutcomes {
  import opened Base
  import opened OrderModel
  import opened OrderLaws

  // ------------------------------------------------------------ notifications

  /** The report confirms, in full, what the order costs. */
  predicate PaysInFull(o: Order, p: Attempt, r: Report) {
    IsSettled(r) && SameAmount(r.gross, p.gross) && p.gross == o.total
  }

  /** An attempt is paid only by a settlement of the right amount, and stays
      paid; any other settlement flags it; a dead one fails it only while it is
      pending; and no other attempt is touched. The order moves exactly when
      this report pays it. */
  lemma ReportDecides(o: Order, i: nat, r: Report, now: int, queued: bool)
    requires i < |o.attempts|
    ensures var p := o.attempts[i];
            var (o', moved) := Apply(o, i, r, now, queued);
            var p' := o'.attempts[i];
            && (p'.status.Settled? <==> p.status.Settled? || PaysInFull(o, p, r))
            && (p'.status.Mismatch? <==>
                  !p.status.Settled? && !PaysInFull(o, p, r) && (p.status.Mismatch? || IsSettled(r)))
            && (p'.status.Failed? <==> !IsSettled(r) && (p.status.Failed? || (p.status.Waiting? && IsDead(r))))
            && (forall k :: 0 <= k < |o.attempts| && k != i ==> o'.attempts[k] == o.attempts[k])
            && (moved <==> o.status.Pending? && !p.status.Settled? && PaysInFull(o, p, r))
            && (o'.status != o.status <==> moved) && (moved ==> o'.status.Paid? && o'.paidAt == Some(now))
  {
  }

  /** Delivered again, at any later time, the same report changes nothing. */
  lemma ReportTwice(o: Order, i: nat, r: Report, now: int, queued: bool, later: int, queuedAgain: bool)
    requires i < |o.attempts| && Frozen(o)
    ensures var once := Apply(o, i, r, now, queued).0;
            Apply(once, i, r, later, queuedAgain) == (once, false)
  {
    var once := Apply(o, i, r, now, queued).0;
    var p := once.attempts[i];
    assert once.attempts[i := p] == once.attempts;
    assert NextAttempt(once, p, r, later) == p;
  }

  /** A report applied once and delivered again to a later state of the order: it
      leaves all but the status last reported, unless it settles in full now what
      it did not when it first came. */
  lemma ReportLater(o: Order, o': Order, i: nat, r: Report, now: int, queued: bool, later: int, again: bool)
    requires i < |o.attempts| && Evolves(Apply(o, i, r, now, queued).0, o')
    ensures i < |o'.attempts|
    ensures var p := o'.attempts[i];
            if p.status.Settled? || !PaysInFull(o', p, r) then
              Apply(o', i, r, later, again) == (o'.(attempts := o'.attempts[i := p.(reported := Some(r.transaction))]), false)
            else Apply(o', i, r, later, again).0.attempts[i].status.Settled?
  {
    ReportDecides(o, i, r, now, queued);
    var once := Apply(o, i, r, now, queued).0;
    assert AttemptEvolves(once.attempts[i], o'.attempts[i]);
    assert IsDead(r) ==> !once.attempts[i].status.Waiting?;
    assert IsSettled(r) ==> once.attempts[i].status.Settled? || once.attempts[i].status.Mismatch?;
    hide Stamped;
  }

  // ------------------------------------------------------------- live links

  /** Of all an order's links at most one can be paid, and it is the newest
      attempt's, for what the order costs now. */
  lemma OneLiveLink(o: Order, now: int, i: nat)
    requires Good(o) && i < |o.attempts| && Live(o.attempts[i], o, now)
    ensures i == |o.attempts| - 1
    ensures forall k :: 0 <= k < |o.attempts| && k != i ==> !Live(o.attempts[k], o, now)
  {
  }

  // ----------------------------------------------------------- what is shown

  /** Shown paid once, shown paid ever after. */
  lemma ShownPaidStays(o: Order, o': Order)
    requires Good(o) && Good(o') && Evolves(o, o') && PaymentStatus(o) == Some(ShownPaid)
    ensures PaymentStatus(o') == Some(ShownPaid)
  {
    LatestIsLast(o);
    LatestIsLast(o');
    if o.paidAt.None? {
      var last := |o.attempts| - 1;
      assert o.attempts[last].status.Settled?;
      assert AttemptEvolves(o.attempts[last], o'.attempts[last]);
    }
  }

  /** Whether the shopper whose money a report confirms is then shown "paid":
      always, save when the order was cancelled unpaid and the link paid was
      not the newest one. */
  lemma PayerIsShownPaid(o: Order, i: nat, r: Report, now: int, queued: bool)
    requires Good(o) && i < |o.attempts| && !o.attempts[i].status.Settled? && PaysInFull(o, o.attempts[i], r)
    ensures var o' := Apply(o, i, r, now, queued).0;
            PaymentStatus(o') == Some(ShownPaid) <==>
            !o.status.Cancelled? || o.paidAt.Some? || i == |o.attempts| - 1 || o.attempts[|o.attempts| - 1].status.Settled?
  {
    LatestStays(o, i, r, now, queued);
    if !o.status.Pending? && !o.status.Cancelled? {
      PaidIsVisited(o.audit);
    }
    hide Latest, Good;
  }

  /** Applying a report moves no row, so the newest attempt stays the last. */
  lemma LatestStays(o: Order, i: nat, r: Report, now: int, queued: bool)
    requires Good(o) && i < |o.attempts|
    ensures Latest(Apply(o, i, r, now, queued).0.attempts) == Some(|o.attempts| - 1)
    ensures o.payBy.Midtrans?
  {
    ApplyKeeps(o, i, r, now, queued);
    LatestIsLast(Apply(o, i, r, now, queued).0);
    hide Good, Latest;
  }

  // ----------------------------------------------------------------- refunds

  /** A refund is recorded exactly on an order that was paid, is cancelled, and
      has none recorded: the audit log says all three. */
  lemma RefundExactly(o: Order, now: int)
    requires Good(o)
    ensures Refund(o, now).Ok? <==>
            Current(o.audit) == Cancelled && Paid in Trail(o.audit) && Refunded !in o.audit
  {
  }

  /** Money that settles after an unpaid order was cancelled is on record as
      owed, and yet no refund can be recorded for it: one can be exactly when
      the order had been paid before it was cancelled. */
  lemma LateMoney(o: Order, i: nat, now: int)
    requires Good(o) && i < |o.attempts| && o.attempts[i].status.Settled?
    requires o.status.Cancelled? && o.refundedAt.None?
    ensures Refund(o, now).Ok? <==> Paid in Trail(o.audit)
    ensures Refund(o, now).Err? ==>
              Refund(o, now).error == NotRefundable && PaidAfterCancel(o.attempts[i].providerId) in o.audit
  {
  }

  /** The debt is recorded once for each attempt paid after cancelling, however
      often Midtrans repeats itself. */
  function Debts(audit: seq<Audit>, id: string): nat {
    if audit == [] then 0
    else Debts(audit[..|audit| - 1], id) + if audit[|audit| - 1] == PaidAfterCancel(id) then 1 else 0
  }

  lemma DebtsAppend(audit: seq<Audit>, row: Audit, id: string)
    ensures Debts(audit + [row], id) == Debts(audit, id) + if row == PaidAfterCancel(id) then 1 else 0
  {
    assert (audit + [row])[..|audit|] == audit;
  }

  lemma ReportAudits(o: Order, i: nat, r: Report, now: int, queued: bool)
    requires i < |o.attempts|
    ensures var p := o.attempts[i];
            var pays := !p.status.Settled? && PaysInFull(o, p, r);
            Apply(o, i, r, now, queued).0.audit ==
              if pays && o.status.Pending? then o.audit + [Moved(Pending, Paid)]
              else if pays && o.status.Cancelled? then o.audit + [PaidAfterCancel(p.providerId)]
              else o.audit
  {
  }

  /** Money that arrives leaves no row in the audit log exactly when the order is
      past pending and not cancelled; by then the order has been paid, by other
      money or by an admin's word. It is recorded as owed exactly when the order is
      cancelled. */
  lemma LeavesNoRow(o: Order, i: nat, r: Report, now: int, queued: bool)
    requires Good(o) && i < |o.attempts| && !o.attempts[i].status.Settled? && PaysInFull(o, o.attempts[i], r)
    ensures var o' := Apply(o, i, r, now, queued).0;
            && o'.attempts[i].status.Settled? && o'.attempts[i].providerId == o.attempts[i].providerId
            && (o'.audit == o.audit <==> !o.status.Pending? && !o.status.Cancelled?)
            && (o'.audit == o.audit ==> Paid in Trail(o.audit))
            && (PaidAfterCancel(o.attempts[i].providerId) in o'.audit <==> o.status.Cancelled?)
  {
    ReportAudits(o, i, r, now, queued);
    ReportDecides(o, i, r, now, queued);
    ApplyKeeps(o, i, r, now, queued);
    if !o.status.Pending? && !o.status.Cancelled? {
      PaidIsVisited(o.audit);
    }
    var o' := Apply(o, i, r, now, queued).0;
    assert AttemptEvolves(o.attempts[i], o'.attempts[i]);
    assert forall id :: PaidAfterCancel(id) in o'.audit ==> o'.status.Cancelled?;
    hide Apply, Good, Trail;
  }

  lemma DebtRecordedOnce(o: Order, i: nat, r: Report, now: int, queued: bool)
    requires i < |o.attempts|
    ensures var id := o.attempts[i].providerId;
            Debts(Apply(o, i, r, now, queued).0.audit, id) == Debts(o.audit, id) +
              if o.status.Cancelled? && !o.attempts[i].status.Settled? && PaysInFull(o, o.attempts[i], r) then 1 else 0
  {
    var id := o.attempts[i].providerId;
    ReportAudits(o, i, r, now, queued);
    hide Apply;
    DebtsAppend(o.audit, PaidAfterCancel(id), id);
    DebtsAppend(o.audit, Moved(Pending, Paid), id);
  }
}
