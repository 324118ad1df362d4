/** What every transaction on one order keeps (Good) and what it can never take
    back (Evolves). The shop-wide theorems rest on these two. */
module OrderLaws {
  import opened Base
  import opened OrderIds
  import opened OrderModel

  // ------------------------------------------------------------- audit trail

  /** The statuses the order.transition rows walk through, from pending. */
  function Trail(audit: seq<Audit>): (t: seq<Status>)
    ensures |t| > 0
  {
    if audit == [] then [Pending]
    else
      var last := audit[|audit| - 1];
      var before := Trail(audit[..|audit| - 1]);
      if last.Moved? then before + [last.to] else before
  }

  function Current(audit: seq<Audit>): Status {
    Trail(audit)[|Trail(audit)| - 1]
  }

  /** Each row's before is the previous row's after, and each move is allowed. */
  ghost predicate Chained(audit: seq<Audit>) {
    audit == [] ||
    (Chained(audit[..|audit| - 1]) &&
     var last := audit[|audit| - 1];
     (last.Moved? ==> last.from == Current(audit[..|audit| - 1]) && last.to in Allowed(last.from)))
  }

  function Rank(s: Status): nat {
    match s
    case Pending => 0
    case Paid => 1
    case Processing => 2
    case Shipped => 3
    case Completed => 4
    case Cancelled => 5
  }

  ghost predicate Climbs(t: seq<Status>) {
    forall i, j :: 0 <= i < j < |t| ==> Rank(t[i]) < Rank(t[j])
  }

  /** No status is ever entered twice: every allowed move goes up. */
  lemma {:induction false} TrailClimbs(audit: seq<Audit>)
    requires Chained(audit)
    ensures Climbs(Trail(audit)) && NoDuplicates(Trail(audit))
  {
    if audit != [] {
      TrailClimbs(audit[..|audit| - 1]);
    }
  }

  lemma TrailAppend(audit: seq<Audit>, row: Audit)
    ensures Trail(audit + [row]) == if row.Moved? then Trail(audit) + [row.to] else Trail(audit)
    ensures Chained(audit + [row]) <==>
            Chained(audit) && (row.Moved? ==> row.from == Current(audit) && row.to in Allowed(row.from))
  {
    assert (audit + [row])[..|audit|] == audit;
  }

  // -------------------------------------------------------------- invariant

  /** The money columns agree: the tables' CHECK on total_amount, with subtotal
      and discount the sums over the lines. */
  ghost predicate Totals(o: Order) {
    && o.subtotal == Subtotal(o.lines)
    && o.discount == Discounts(o.lines)
    && o.total == o.subtotal + o.shipping - o.discount
  }

  /** Attempts are numbered 1..k under the order's own ids; only the newest can
      be pending. */
  ghost predicate Numbered(o: Order) {
    && (forall i :: 0 <= i < |o.attempts| ==>
          o.attempts[i].number == i + 1 && o.attempts[i].providerId == ProviderId(o.number, i + 1))
    && (forall i :: 0 <= i < |o.attempts| - 1 ==> !o.attempts[i].status.Waiting?)
    && (o.attempts != [] ==> o.payBy.Midtrans?)
  }

  /** A paid attempt freezes the order: it is past pending, and what was paid
      is what the order still costs. */
  ghost predicate Frozen(o: Order) {
    forall i :: 0 <= i < |o.attempts| ==>
      (o.attempts[i].status.Settled? ==> !o.status.Pending? && o.attempts[i].gross == o.total) &&
      (o.attempts[i].status.Settled? <==> o.attempts[i].paidAt.Some?) &&
      o.attempts[i].gross % 100 == 0
  }

  /** The audit log tells the order's whole life. */
  ghost predicate Audited(o: Order) {
    && Chained(o.audit)
    && o.status == Current(o.audit)
    && (o.paidAt.Some? <==> Paid in Trail(o.audit))
    && (o.shippedAt.Some? <==> Shipped in Trail(o.audit))
    && (o.completedAt.Some? <==> Completed in Trail(o.audit))
    && (o.cancelledAt.Some? <==> Cancelled in Trail(o.audit))
    && (o.refundedAt.Some? <==> Refunded in o.audit)
  }

  /** The tables' CHECKs on a shipped order and on a refund. */
  ghost predicate Checked(o: Order) {
    && (o.status.Shipped? || o.status.Completed? ==> o.courier.Some? && o.tracking.Some?)
    && (o.refundedAt.Some? ==> o.status.Cancelled? && o.paidAt.Some?)
  }

  /** Each kind of email is queued at most once, and only for what happened. */
  ghost predicate Mailed(o: Order) {
    && NoDuplicates(o.mails)
    && (PaymentReceived in o.mails ==> Paid in Trail(o.audit))
    && (OrderShipped in o.mails ==> Shipped in Trail(o.audit))
  }

  /** Once an attempt is paid, the order has been paid at some time, not always by
      this money, or the money is on record as owed back; and nothing is on record
      as owed that did not arrive. */
  ghost predicate Accounted(o: Order) {
    && (forall i :: 0 <= i < |o.attempts| && o.attempts[i].status.Settled? ==>
          Paid in Trail(o.audit) || PaidAfterCancel(o.attempts[i].providerId) in o.audit)
    && (forall id :: PaidAfterCancel(id) in o.audit ==> o.status.Cancelled? && SettledUnder(o, id))
  }

  ghost predicate SettledUnder(o: Order, id: string) {
    exists i :: 0 <= i < |o.attempts| && o.attempts[i].providerId == id && o.attempts[i].status.Settled?
  }

  ghost predicate Good(o: Order) {
    && ValidPrefix(o.prefix) && o.number == OrderNumber(o.prefix, o.seqNo)
    && Totals(o) && Numbered(o) && Frozen(o) && Audited(o) && Checked(o) && Mailed(o) && Accounted(o)
  }

  // -------------------------------------------------------------- evolution

  ghost predicate AttemptEvolves(p: Attempt, q: Attempt) {
    && q.number == p.number && q.providerId == p.providerId && q.gross == p.gross && q.expiresAt == p.expiresAt
    && (p.status.Settled? ==> q.status.Settled? && q.paidAt == p.paidAt)
    && (!p.status.Waiting? ==> !q.status.Waiting?)
    && (p.status.Mismatch? ==> q.status.Mismatch? || q.status.Settled?)
  }

  /** Whether money that has arrived is on record as owed was settled when it came. */
  ghost predicate DebtsStand(o: Order, o': Order) {
    forall i :: 0 <= i < |o.attempts| && o.attempts[i].status.Settled? ==>
      (PaidAfterCancel(o.attempts[i].providerId) in o'.audit <==> PaidAfterCancel(o.attempts[i].providerId) in o.audit)
  }

  /** What no transaction undoes. */
  ghost predicate Evolves(o: Order, o': Order) {
    && o'.prefix == o.prefix && o'.seqNo == o.seqNo && o'.number == o.number
    && o'.payBy == o.payBy && o'.cart == o.cart && o'.lines == o.lines
    && Rank(o.status) <= Rank(o'.status)
    && o.audit <= o'.audit && o.mails <= o'.mails
    && (o.paidAt.Some? ==> o'.paidAt == o.paidAt)
    && (o.refundedAt.Some? ==> o'.refundedAt == o.refundedAt)
    && |o.attempts| <= |o'.attempts|
    && (forall i :: 0 <= i < |o.attempts| ==> AttemptEvolves(o.attempts[i], o'.attempts[i]))
    && (!o.status.Pending? ==> o'.total == o.total && |o'.attempts| == |o.attempts|)
    && DebtsStand(o, o')
  }

  lemma EvolvesReflexive(o: Order)
    ensures Evolves(o, o)
  {
  }

  lemma EvolvesTransitive(a: Order, b: Order, c: Order)
    requires Evolves(a, b) && Evolves(b, c)
    ensures Evolves(a, c)
  {
    assert forall i :: 0 <= i < |a.attempts| ==> AttemptEvolves(a.attempts[i], b.attempts[i]);
    assert forall i :: 0 <= i < |a.attempts| ==> AttemptEvolves(b.attempts[i], c.attempts[i]);
  }

  // ------------------------------------------------------ every transaction

  lemma {:induction false} LatestIsLast(o: Order)
    requires Numbered(o)
    ensures Latest(o.attempts) == if o.attempts == [] then None else Some(|o.attempts| - 1)
  {
    LatestOfNumbered(o.attempts);
  }

  lemma {:induction false} LatestOfNumbered(attempts: seq<Attempt>)
    requires forall i :: 0 <= i < |attempts| ==> attempts[i].number == i + 1
    ensures Latest(attempts) == if attempts == [] then None else Some(|attempts| - 1)
  {
    if attempts != [] {
      LatestOfNumbered(attempts[..|attempts| - 1]);
    }
  }

  lemma NewOrderGood(prefix: string, seqNo: nat, payBy: Method, cart: Option<CartId>, lines: seq<Line>,
                     shipping: int, shippingCourier: Option<string>, queued: bool)
    requires ValidPrefix(prefix)
    ensures Good(WithMail(NewOrder(prefix, seqNo, payBy, cart, lines, shipping, shippingCourier), OrderPlaced, queued))
  {
    var o := NewOrder(prefix, seqNo, payBy, cart, lines, shipping, shippingCourier);
    assert o.audit == [] + [Created(o.total)];
    TrailAppend([], Created(o.total));
  }

  lemma StampedAudit(o: Order, to: Status, ship: Option<(string, string)>, now: int)
    requires Audited(o) && Checked(o) && Mailed(o)
    requires to in Allowed(o.status) && (to.Shipped? ==> ship.Some?)
    ensures var o' := Stamped(o, to, ship, now);
            Audited(o') && Checked(o') && Mailed(o') && to !in Trail(o.audit) && Rank(o.status) < Rank(to)
  {
    var row := Moved(o.status, to);
    TrailAppend(o.audit, row);
    TrailClimbs(o.audit + [row]);
    var t := Trail(o.audit + [row]);
    assert t[|t| - 1] == to;
    assert forall i :: 0 <= i < |t| - 1 ==> t[i] == Trail(o.audit)[i] != to;
    assert o.refundedAt.None?;
  }

  /** Only paid leads on, and only through paid. */
  lemma {:induction false} PaidIsVisited(audit: seq<Audit>)
    requires Chained(audit) && Current(audit) in {Paid, Processing, Shipped, Completed}
    ensures Paid in Trail(audit)
  {
    var before := audit[..|audit| - 1];
    var last := audit[|audit| - 1];
    assert audit == before + [last];
    TrailAppend(before, last);
    if !last.Moved? || !last.to.Paid? {
      PaidIsVisited(before);
    } else {
      assert Trail(audit)[|Trail(audit)| - 1] == Paid;
    }
  }

  lemma StampedKeeps(o: Order, to: Status, ship: Option<(string, string)>, now: int)
    requires Good(o) && to in Allowed(o.status) && (to.Shipped? ==> ship.Some?)
    ensures Good(Stamped(o, to, ship, now)) && Evolves(o, Stamped(o, to, ship, now))
    ensures MailFor(to).Some? ==> MailFor(to).value !in o.mails
  {
    var o' := Stamped(o, to, ship, now);
    StampedAudit(o, to, ship, now);
    assert Totals(o') && Numbered(o') && Frozen(o');
    TrailAppend(o.audit, Moved(o.status, to));
    assert o.status != Cancelled;
    assert forall id :: PaidAfterCancel(id) !in o'.audit;
  }

  lemma MailKeeps(o: Order, kind: Mail, queued: bool)
    requires Good(o) && kind !in o.mails
    requires kind.PaymentReceived? ==> Paid in Trail(o.audit)
    requires kind.OrderShipped? ==> Shipped in Trail(o.audit)
    ensures Good(WithMail(o, kind, queued)) && Evolves(o, WithMail(o, kind, queued))
  {
    NoDuplicatesAppend(o.mails, kind);
  }

  lemma StampedVisits(o: Order, to: Status, ship: Option<(string, string)>, now: int)
    ensures to in Trail(Stamped(o, to, ship, now).audit)
  {
    TrailAppend(o.audit, Moved(o.status, to));
    var t := Trail(Stamped(o, to, ship, now).audit);
    assert t[|t| - 1] == to;
  }

  lemma TransitionKeeps(o: Order, to: Status, input: ShipInput, now: int, queued: bool)
    requires Good(o) && Move(o, to, input, now, queued).Ok?
    ensures var o' := Move(o, to, input, now, queued).value.0;
            Good(o') && Evolves(o, o')
  {
    if o.status == to {
      EvolvesReflexive(o);
    } else {
      var ship := if to.Shipped? then Some(ShipWith(o, input).value) else None;
      StampedKeeps(o, to, ship, now);
      StampedVisits(o, to, ship, now);
      var stamped := Stamped(o, to, ship, now);
      if MailFor(to).Some? {
        MailKeeps(stamped, MailFor(to).value, queued);
        EvolvesTransitive(o, stamped, WithMail(stamped, MailFor(to).value, queued));
      }
    }
  }

  /** A row that is neither a move nor a debt leaves the books and the trail alone. */
  lemma PlainRow(o: Order, o': Order, row: Audit)
    requires Accounted(o) && !row.Moved? && !row.PaidAfterCancel?
    requires o'.audit == o.audit + [row] && o'.attempts == o.attempts && o'.status == o.status
    ensures Accounted(o') && DebtsStand(o, o')
    ensures Trail(o'.audit) == Trail(o.audit) && Current(o'.audit) == Current(o.audit)
    ensures Chained(o'.audit) <==> Chained(o.audit)
  {
    TrailAppend(o.audit, row);
    hide Trail, Chained;
    forall id ensures PaidAfterCancel(id) in o'.audit <==> PaidAfterCancel(id) in o.audit {
    }
    forall id | SettledUnder(o, id) ensures SettledUnder(o', id) {
      var k :| 0 <= k < |o.attempts| && o.attempts[k].providerId == id && o.attempts[k].status.Settled?;
      assert o'.attempts[k].providerId == id;
    }
  }

  lemma EditKeeps(o: Order, version: nat, shipping: Option<int>)
    requires Good(o) && Edit(o, version, shipping).Ok?
    ensures var o' := Edit(o, version, shipping).value; Good(o') && Evolves(o, o')
  {
    hide Accounted, DebtsStand, OrderNumber, ValidPrefix, Rank, Trail, Current, Chained, NoDuplicates;
    PlainRow(o, Edit(o, version, shipping).value, Edited(if shipping.Some? then Some(o.shipping) else None, shipping));
  }

  lemma RefundKeeps(o: Order, now: int)
    requires Good(o) && Refund(o, now).Ok?
    ensures var o' := Refund(o, now).value; Good(o') && Evolves(o, o')
  {
    hide Accounted, DebtsStand, OrderNumber, ValidPrefix, ProviderId, Rank, Trail, Current, Chained, NoDuplicates;
    PlainRow(o, Refund(o, now).value, Refunded);
  }

  /** The indexes behind the payments table never refuse pay-again: whatever it
      finds, the next number is free and nothing pending is left. */
  lemma PayAgainNeverCollides(o: Order, taken: bool, now: int)
    requires Good(o)
    ensures ChoosePayment(o, taken, now) != CannotPay(UniqueViolation)
    ensures ChoosePayment(o, taken, now).Open? ==>
              ChoosePayment(o, taken, now).number == |o.attempts| + 1
  {
    LatestIsLast(o);
  }

  /** Replacing one attempt by a later state of it, with rows added to the log
      that move nothing. */
  lemma ReplaceRest(o: Order, i: nat, p: Attempt)
    requires Good(o) && i < |o.attempts| && AttemptEvolves(o.attempts[i], p)
    requires p.status.Settled? <==> p.paidAt.Some?
    requires p.status.Settled? ==> !o.status.Pending? && p.gross == o.total
    ensures var o' := o.(attempts := o.attempts[i := p]);
            Totals(o') && Numbered(o') && Frozen(o') && Audited(o') && Checked(o') && Mailed(o') && Evolves(o, o')
  {
    var o' := o.(attempts := o.attempts[i := p]);
    forall k | 0 <= k < |o.attempts| ensures AttemptEvolves(o.attempts[k], o'.attempts[k]) {
    }
  }

  lemma StillSettledUnder(o: Order, i: nat, p: Attempt, id: string)
    requires i < |o.attempts| && AttemptEvolves(o.attempts[i], p) && SettledUnder(o, id)
    ensures SettledUnder(o.(attempts := o.attempts[i := p]), id)
  {
    var k :| 0 <= k < |o.attempts| && o.attempts[k].providerId == id && o.attempts[k].status.Settled?;
    assert o.attempts[i := p][k].providerId == id && o.attempts[i := p][k].status.Settled?;
  }

  lemma ReplaceKeeps(o: Order, i: nat, p: Attempt)
    requires Good(o) && i < |o.attempts| && AttemptEvolves(o.attempts[i], p)
    requires p.status.Settled? <==> p.paidAt.Some?
    requires p.status.Settled? ==> !o.status.Pending? && p.gross == o.total
    requires p.status.Settled? ==> o.attempts[i].status.Settled? || Paid in Trail(o.audit)
    ensures var o' := o.(attempts := o.attempts[i := p]); Good(o') && Evolves(o, o')
  {
    var o' := o.(attempts := o.attempts[i := p]);
    ReplaceRest(o, i, p);
    forall id | PaidAfterCancel(id) in o.audit ensures SettledUnder(o', id) {
      StillSettledUnder(o, i, p, id);
    }
  }

  lemma SetLinkKeeps(o: Order, i: nat, link: Link)
    requires Good(o) && i < |o.attempts|
    ensures Good(SetLink(o, i, link)) && Evolves(o, SetLink(o, i, link))
  {
    ReplaceKeeps(o, i, o.attempts[i].(link := Some(link)));
  }

  lemma OtherIds(o: Order, i: nat)
    requires Good(o) && i < |o.attempts|
    ensures forall k :: 0 <= k < |o.attempts| && k != i ==> o.attempts[k].providerId != o.attempts[i].providerId
  {
    hide OrderNumber, ValidPrefix, ProviderId, Totals, Frozen, Audited, Checked, Mailed, Accounted;
    forall k | 0 <= k < |o.attempts| && k != i ensures o.attempts[k].providerId != o.attempts[i].providerId {
      if o.attempts[k].providerId == o.attempts[i].providerId {
        ProviderIdInjective(o.prefix, o.seqNo, k + 1, o.prefix, o.seqNo, i + 1);
      }
    }
  }

  /** Money for a cancelled order: the attempt is paid, the order stays, and
      the log says what is owed. */
  lemma LatePayKeeps(o: Order, i: nat, p: Attempt)
    requires Good(o) && o.status.Cancelled? && i < |o.attempts| && AttemptEvolves(o.attempts[i], p)
    requires !o.attempts[i].status.Settled? && p.status.Settled? && p.paidAt.Some? && p.gross == o.total
    ensures var o' := o.(attempts := o.attempts[i := p], audit := o.audit + [PaidAfterCancel(p.providerId)]);
            Good(o') && Evolves(o, o')
  {
    hide OrderNumber, ValidPrefix;
    var replaced := o.(attempts := o.attempts[i := p]);
    var o' := replaced.(audit := o.audit + [PaidAfterCancel(p.providerId)]);
    ReplaceRest(o, i, p);
    TrailAppend(o.audit, PaidAfterCancel(p.providerId));
    assert Totals(o') && Numbered(o') && Frozen(o');
    OtherIds(o, i);
    forall id | PaidAfterCancel(id) in o'.audit ensures SettledUnder(o', id) {
      if id == p.providerId {
        assert o'.attempts[i].providerId == id;
      } else {
        assert PaidAfterCancel(id) in o.audit;
        StillSettledUnder(o, i, p, id);
      }
    }
  }

  lemma AppendKeeps(o: Order, now: int)
    requires Good(o) && o.status.Pending? && o.payBy.Midtrans? && WholeRupiah(o.total)
    requires forall i :: 0 <= i < |o.attempts| ==> !o.attempts[i].status.Waiting?
    ensures var o' := o.(attempts := o.attempts + [NewAttempt(o, |o.attempts| + 1, now)]);
            Good(o') && Evolves(o, o')
  {
    var o' := o.(attempts := o.attempts + [NewAttempt(o, |o.attempts| + 1, now)]);
    assert Totals(o') && Audited(o') && Checked(o') && Mailed(o');
    assert Numbered(o');
    assert Frozen(o');
    assert Accounted(o');
    forall k | 0 <= k < |o.attempts| ensures AttemptEvolves(o.attempts[k], o'.attempts[k]) {
    }
  }

  /** The attempts of an order once a stale newest one has made way. */
  function Cleared(o: Order): seq<Attempt> {
    if o.attempts == [] then [] else FailStale(o.attempts, |o.attempts| - 1)
  }

  lemma ClearedKeeps(o: Order)
    requires Good(o)
    ensures var o' := o.(attempts := Cleared(o)); Good(o') && Evolves(o, o')
    ensures |Cleared(o)| == |o.attempts| && forall i :: 0 <= i < |o.attempts| ==> !Cleared(o)[i].status.Waiting?
  {
    if o.attempts != [] && o.attempts[|o.attempts| - 1].status.Waiting? {
      ReplaceKeeps(o, |o.attempts| - 1, o.attempts[|o.attempts| - 1].(status := Failed));
    } else {
      assert o.(attempts := Cleared(o)) == o;
      EvolvesReflexive(o);
    }
  }

  lemma OpenIsAppend(o: Order, taken: bool, now: int)
    requires Good(o) && ChoosePayment(o, taken, now).Open?
    ensures o.status.Pending? && o.payBy.Midtrans? && WholeRupiah(o.total)
    ensures var c := ChoosePayment(o, taken, now);
            c.number == |o.attempts| + 1 &&
            c.order == o.(attempts := Cleared(o) + [NewAttempt(o, |o.attempts| + 1, now)])
  {
    LatestIsLast(o);
  }

  lemma PayAgainKeeps(o: Order, taken: bool, now: int)
    requires Good(o) && ChoosePayment(o, taken, now).Open?
    ensures var o' := ChoosePayment(o, taken, now).order;
            Good(o') && Evolves(o, o') && |o'.attempts| == |o.attempts| + 1 &&
            o'.attempts[|o.attempts|] == NewAttempt(o, |o.attempts| + 1, now)
  {
    OpenIsAppend(o, taken, now);
    ClearedKeeps(o);
    var cleared := o.(attempts := Cleared(o));
    AppendKeeps(cleared, now);
    EvolvesTransitive(o, cleared, ChoosePayment(o, taken, now).order);
  }

  lemma ApplyKeeps(o: Order, i: nat, r: Report, now: int, queued: bool)
    requires Good(o) && i < |o.attempts|
    ensures Good(Apply(o, i, r, now, queued).0) && Evolves(o, Apply(o, i, r, now, queued).0)
  {
    var p := o.attempts[i];
    var p' := NextAttempt(o, p, r, now);
    assert AttemptEvolves(p, p') && (p'.status.Settled? <==> p'.paidAt.Some?);
    if !p'.status.Settled? || p.status.Settled? {
      ReplaceKeeps(o, i, p');
    } else if o.status.Pending? {
      PayKeeps(o, i, p', now, queued);
    } else if o.status.Cancelled? {
      LatePayKeeps(o, i, p');
    } else {
      PaidIsVisited(o.audit);
      ReplaceKeeps(o, i, p');
    }
  }

  /** Attempt and order are paid together by a settlement, in one transaction. */
  lemma PayKeeps(o: Order, i: nat, p: Attempt, now: int, queued: bool)
    requires Good(o) && o.status.Pending? && i < |o.attempts| && AttemptEvolves(o.attempts[i], p)
    requires p.status.Settled? && p.paidAt.Some? && p.gross == o.total
    ensures var paid := Stamped(o.(attempts := o.attempts[i := p]), Paid, None, now);
            Good(WithMail(paid, PaymentReceived, queued)) && Evolves(o, WithMail(paid, PaymentReceived, queued))
  {
    // The same rows, written in the other order.
    var moved := Stamped(o, Paid, None, now);
    StampedKeeps(o, Paid, None, now);
    StampedVisits(o, Paid, None, now);
    ReplaceKeeps(moved, i, p);
    var paid := moved.(attempts := o.attempts[i := p]);
    assert paid == Stamped(o.(attempts := o.attempts[i := p]), Paid, None, now);
    MailKeeps(paid, PaymentReceived, queued);
    EvolvesTransitive(o, moved, paid);
    EvolvesTransitive(o, paid, WithMail(paid, PaymentReceived, queued));
  }
}
