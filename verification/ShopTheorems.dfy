/** What holds of a shop after any run of steps: carts edited and checked out
    any number of times at once, links stored late, attempts retried, orders
    moved, edited, cancelled and refunded, and notifications repeated,
    reordered or late. */
module ShopTheorems {
  import opened Base
  import opened OrderIds
  import opened OrderModel
  import opened OrderLaws
  import opened OrderOutcomes
  import opened ShopModel
  import opened ShopLaws
  import opened ShopSteps

  /** A shop reached from its opening by some run. */
  ghost predicate Reachable(s: Shop) {
    exists prefix, bank, midtrans, steps :: ValidPrefix(prefix) && s == Run(Opened(prefix, bank, midtrans), steps)
  }

  lemma ReachableInv(s: Shop)
    requires Reachable(s)
    ensures ShopInv(s)
  {
    hide ShopInv, Kept;
    var prefix, bank, midtrans, steps :| ValidPrefix(prefix) && s == Run(Opened(prefix, bank, midtrans), steps);
    OpenedInv(prefix, bank, midtrans);
    RunKeeps(Opened(prefix, bank, midtrans), steps);
    KeptInv(Opened(prefix, bank, midtrans), s);
  }

  // --------------------------------------------------- a paid attempt freezes

  /** In every reachable shop, an order with a paid attempt is past pending and
      costs what was paid for it, and so it stays through any further run. */
  lemma PaidAttemptFreezesOrder(s: Shop, more: seq<Step>, r: Ref)
    requires Reachable(s)
    requires HasAttempt(s, r) && AttemptAt(s, r).status.Settled?
    ensures !s.orders[r.order].status.Pending? && AttemptAt(s, r).gross == s.orders[r.order].total
    ensures var s' := Run(s, more);
            && HasAttempt(s', r) && AttemptAt(s', r).status.Settled?
            && AttemptAt(s', r).paidAt == AttemptAt(s, r).paidAt
            && AttemptAt(s', r).gross == s'.orders[r.order].total == s.orders[r.order].total
            && |s'.orders[r.order].attempts| == |s.orders[r.order].attempts|
  {
    hide ShopInv, Reachable, Run, Kept;
    ReachableInv(s);
    GoodOrder(s, r.order);
    var o := s.orders[r.order];
    assert o.attempts[r.number - 1].gross == o.total;
    OrderLater(s, more, r.order);
    var o' := Run(s, more).orders[r.order];
    hide Good;
    assert AttemptEvolves(o.attempts[r.number - 1], o'.attempts[r.number - 1]);
  }

  /** An order after any further run is a later state of itself. */
  lemma OrderLater(s: Shop, more: seq<Step>, id: OrderId)
    requires ShopInv(s) && id in s.orders
    ensures id in Run(s, more).orders && Good(Run(s, more).orders[id]) && Evolves(s.orders[id], Run(s, more).orders[id])
  {
    hide ShopInv, Good, Evolves;
    RunKeeps(s, more);
    KeptInv(s, Run(s, more));
    GoodOrder(Run(s, more), id);
  }

  // ---------------------------------------------------------------- attempts

  /** The attempts of an order are numbered 1..k, only the newest can be
      pending, and so at most one link can be paid at any moment. */
  lemma AttemptsNumberedAndAlone(s: Shop, id: OrderId, i: nat, now: int)
    requires Reachable(s) && id in s.orders && i < |s.orders[id].attempts|
    ensures var o := s.orders[id];
            && o.attempts[i].number == i + 1
            && (o.attempts[i].status.Waiting? ==> i == |o.attempts| - 1)
            && (Live(o.attempts[i], o, now) ==> forall k :: 0 <= k < |o.attempts| && k != i ==> !Live(o.attempts[k], o, now))
  {
    ReachableInv(s);
    GoodOrder(s, id);
    hide ShopInv;
    if Live(s.orders[id].attempts[i], s.orders[id], now) {
      OneLiveLink(s.orders[id], now, i);
    }
  }

  /** No two attempts of the shop share an id at Midtrans. */
  lemma ProviderIdsUnique(s: Shop, a: Ref, b: Ref)
    requires Reachable(s) && HasAttempt(s, a) && HasAttempt(s, b)
    requires AttemptAt(s, a).providerId == AttemptAt(s, b).providerId
    ensures a == b
  {
    ReachableInv(s);
  }

  /** Midtrans is asked once for each row at most: every request beyond the rows
      asked for is one whose transaction was lost, and without lost ones no id
      is sent twice and every id sent has its row. */
  lemma RequestsAccountedFor(s: Shop)
    requires Reachable(s)
    ensures |s.sent| == |s.byProvider| - |s.asking| + s.lost
    ensures s.lost == 0 ==> NoDuplicates(Ids(s.sent)) && forall id :: id in Ids(s.sent) ==> id in s.byProvider
  {
    ReachableInv(s);
  }

  ghost predicate NoneLost(steps: seq<Step>) {
    forall i :: 0 <= i < |steps| ==> !steps[i].RetryLost?
  }

  lemma StepLosesNothing(s: Shop, step: Step)
    requires !step.RetryLost?
    ensures Next(s, step).0.lost == s.lost
  {
    hide ChoosePayment, Apply, Move, Edit, Refund, NewOrder, ManualLines;
  }

  lemma {:induction false} NothingLost(s: Shop, steps: seq<Step>)
    requires NoneLost(steps)
    ensures Run(s, steps).lost == s.lost
  {
    hide Next;
    if steps != [] {
      NothingLost(s, steps[..|steps| - 1]);
      StepLosesNothing(Run(s, steps[..|steps| - 1]), steps[|steps| - 1]);
    }
  }

  /** When every pay-again commits, each attempt id is sent at most once. */
  lemma SentAtMostOnce(prefix: string, bank: bool, midtrans: bool, steps: seq<Step>)
    requires ValidPrefix(prefix) && NoneLost(steps)
    ensures NoDuplicates(Ids(Run(Opened(prefix, bank, midtrans), steps).sent))
  {
    var s := Run(Opened(prefix, bank, midtrans), steps);
    hide Run;
    NothingLost(Opened(prefix, bank, midtrans), steps);
    RequestsAccountedFor(s);
  }

  // ------------------------------------------------------------ notifications

  /** A notification delivered again right away, under any clock and whatever
      the email queue did, leaves the shop as the first delivery left it. */
  lemma NotificationTwice(s: Shop, providerId: string, r: Report, now: int, queued: bool, later: int, again: bool)
    requires Reachable(s)
    ensures var once := Notify(s, providerId, r, now, queued).0;
            Notify(once, providerId, r, later, again).0 == once
  {
    hide ShopInv, Reachable, Apply, Frozen;
    if providerId in s.byProvider && HasAttempt(s, s.byProvider[providerId]) {
      var ref := s.byProvider[providerId];
      var o := s.orders[ref.order];
      ReachableInv(s);
      FrozenOrder(s, ref.order);
      ReportTwice(o, ref.number - 1, r, now, queued, later, again);
      ApplyAddsNoRow(o, ref.number - 1, r, now, queued);
      var paid := Apply(o, ref.number - 1, r, now, queued).0;
      assert s.orders[ref.order := paid][ref.order := paid] == s.orders[ref.order := paid];
    }
  }

  /** Delivered again after any further run, a notification changes nothing but the
      status last reported of its attempt -- no order, total, audit row, email or
      other attempt -- unless the attempt is still unpaid and the report now pays
      in full what the order costs. */
  lemma NotificationLater(s: Shop, ref: Ref, r: Report, now: int, queued: bool, more: seq<Step>, later: int, again: bool)
    requires Reachable(s) && HasAttempt(s, ref)
    ensures var pid := AttemptAt(s, ref).providerId;
            var u := Run(Notify(s, pid, r, now, queued).0, more);
            && HasAttempt(u, ref)
            && var p := AttemptAt(u, ref);
               var v := Notify(u, pid, r, later, again).0;
               if p.status.Settled? || !PaysInFull(u.orders[ref.order], p, r) then
                 v == WithAttempt(u, ref, p.(reported := Some(r.transaction)))
               else HasAttempt(v, ref) && AttemptAt(v, ref).status.Settled?
  {
    var pid := AttemptAt(s, ref).providerId;
    hide ShopInv, Apply, Good, Evolves, Run, Reachable, Kept, PaysInFull, Notify;
    ReachableInv(s);
    LaterStill(s, ref, r, now, queued, more);
    DeliveredAgain(s.orders[ref.order], Run(Notify(s, pid, r, now, queued).0, more), pid, ref, r, now, queued, later, again);
  }

  lemma DeliveredAgain(o: Order, u: Shop, pid: string, ref: Ref, r: Report, now: int, queued: bool, later: int, again: bool)
    requires 0 < ref.number <= |o.attempts|
    requires pid in u.byProvider && u.byProvider[pid] == ref && HasAttempt(u, ref)
    requires Evolves(Apply(o, ref.number - 1, r, now, queued).0, u.orders[ref.order])
    ensures var p := AttemptAt(u, ref);
            var v := Notify(u, pid, r, later, again).0;
            if p.status.Settled? || !PaysInFull(u.orders[ref.order], p, r) then
              v == WithAttempt(u, ref, p.(reported := Some(r.transaction)))
            else HasAttempt(v, ref) && AttemptAt(v, ref).status.Settled?
  {
    hide Apply, Evolves, PaysInFull, Notify;
    ReportLater(o, u.orders[ref.order], ref.number - 1, r, now, queued, later, again);
    NotifyReaches(u, pid, ref, r, later, again);
    ApplyAddsNoRow(u.orders[ref.order], ref.number - 1, r, later, again);
  }

  /** The money of an attempt that settles leaves no row in the audit log exactly
      when the order is past pending and not cancelled; and whatever happens later,
      it is on record as owed exactly when the order was cancelled by then. */
  lemma UnrecordedForGood(s: Shop, ref: Ref, r: Report, now: int, queued: bool, more: seq<Step>)
    requires Reachable(s) && HasAttempt(s, ref) && !AttemptAt(s, ref).status.Settled?
    requires PaysInFull(s.orders[ref.order], AttemptAt(s, ref), r)
    ensures var o, pid := s.orders[ref.order], AttemptAt(s, ref).providerId;
            var once := Notify(s, pid, r, now, queued).0;
            var u := Run(once, more);
            && HasAttempt(once, ref) && HasAttempt(u, ref) && AttemptAt(u, ref).status.Settled?
            && (once.orders[ref.order].audit == o.audit <==> !o.status.Pending? && !o.status.Cancelled?)
            && (PaidAfterCancel(pid) in u.orders[ref.order].audit <==> o.status.Cancelled?)
  {
    hide ShopInv, Apply, Good, Evolves, Run, Reachable, PaysInFull, Notify;
    ReachableInv(s);
    GoodOrder(s, ref.order);
    var o, pid := s.orders[ref.order], AttemptAt(s, ref).providerId;
    LaterStill(s, ref, r, now, queued, more);
    RowFound(s, ref);
    NotifyReaches(s, pid, ref, r, now, queued);
    LeavesNoRow(o, ref.number - 1, r, now, queued);
    ApplyAddsNoRow(o, ref.number - 1, r, now, queued);
    DebtStands(Apply(o, ref.number - 1, r, now, queued).0, Run(Notify(s, pid, r, now, queued).0, more).orders[ref.order], ref.number - 1);
  }

  lemma DebtStands(o: Order, o': Order, i: nat)
    requires Evolves(o, o') && i < |o.attempts| && o.attempts[i].status.Settled?
    ensures i < |o'.attempts| && o'.attempts[i].status.Settled?
    ensures PaidAfterCancel(o.attempts[i].providerId) in o'.audit <==> PaidAfterCancel(o.attempts[i].providerId) in o.audit
  {
    assert AttemptEvolves(o.attempts[i], o'.attempts[i]);
  }

  /** A refund is recorded exactly when the audit log says the order was paid, is
      cancelled and has none; and once recorded, no run lets another one through. */
  lemma RefundedOnce(s: Shop, id: OrderId, now: int, more: seq<Step>, later: int)
    requires Reachable(s) && id in s.orders
    ensures var log := s.orders[id].audit;
            var (once, answer) := Next(s, RefundOrder(id, now));
            && (answer == Done <==> Current(log) == Cancelled && Paid in Trail(log) && Refunded !in log)
            && (answer == Done ==> Next(Run(once, more), RefundOrder(id, later)).1 == Refused(RefundAlreadyRecorded))
  {
    hide ShopInv, Good, Evolves, Run, Reachable, Refund;
    ReachableInv(s);
    GoodOrder(s, id);
    RefundExactly(s.orders[id], now);
    if Refund(s.orders[id], now).Ok? {
      var once := Next(s, RefundOrder(id, now)).0;
      NextKeeps(s, RefundOrder(id, now));
      KeptInv(s, once);
      OrderLater(once, more, id);
      RefundedAlready(s.orders[id], now, Run(once, more).orders[id], later);
    }
  }

  lemma RefundedAlready(o: Order, now: int, o': Order, later: int)
    requires Refund(o, now).Ok? && Evolves(Refund(o, now).value, o')
    ensures Refund(o', later) == Err(RefundAlreadyRecorded)
  {
  }

  /** A notification applies its report to the attempt its id leads to. */
  lemma NotifyReaches(s: Shop, pid: string, ref: Ref, r: Report, now: int, queued: bool)
    requires pid in s.byProvider && s.byProvider[pid] == ref && HasAttempt(s, ref)
    ensures Notify(s, pid, r, now, queued).0 ==
            WithOrder(s, ref.order, Apply(s.orders[ref.order], ref.number - 1, r, now, queued).0)
  {
    hide Apply;
  }

  lemma LaterStill(s: Shop, ref: Ref, r: Report, now: int, queued: bool, more: seq<Step>)
    requires ShopInv(s) && HasAttempt(s, ref)
    ensures var pid := AttemptAt(s, ref).providerId;
            var u := Run(Notify(s, pid, r, now, queued).0, more);
            && pid in u.byProvider && u.byProvider[pid] == ref && HasAttempt(u, ref)
            && Evolves(Apply(s.orders[ref.order], ref.number - 1, r, now, queued).0, u.orders[ref.order])
  {
    var pid := AttemptAt(s, ref).providerId;
    hide ShopInv, Apply, Good, Run, Notify, Kept, Live;
    RowFound(s, ref);
    NotifyReaches(s, pid, ref, r, now, queued);
    NotifyKeeps(s, pid, r, now, queued);
    var once := Notify(s, pid, r, now, queued).0;
    ApplyAddsNoRow(s.orders[ref.order], ref.number - 1, r, now, queued);
    KeptInv(s, once);
    OrderLater(once, more, ref.order);
    RunIndex(s, once, more, pid);
  }

  /** The shop with one attempt's row replaced. */
  function WithAttempt(s: Shop, ref: Ref, p: Attempt): Shop
    requires HasAttempt(s, ref)
  {
    WithOrder(s, ref.order, s.orders[ref.order].(attempts := s.orders[ref.order].attempts[ref.number - 1 := p]))
  }

  lemma RowFound(s: Shop, ref: Ref)
    requires ShopInv(s) && HasAttempt(s, ref)
    ensures AttemptAt(s, ref).providerId in s.byProvider && s.byProvider[AttemptAt(s, ref).providerId] == ref
  {
    hide OrdersOk, CartsOk, CallsOk;
  }

  lemma RunIndex(s: Shop, once: Shop, more: seq<Step>, x: string)
    requires ShopInv(s) && Kept(s, once) && x in s.byProvider
    ensures x in Run(once, more).byProvider && Run(once, more).byProvider[x] == s.byProvider[x]
  {
    KeptInv(s, once);
    RunKeeps(once, more);
    hide ShopInv, Evolves;
  }

  lemma FrozenOrder(s: Shop, id: OrderId)
    requires ShopInv(s) && id in s.orders
    ensures Frozen(s.orders[id])
  {
    GoodOrder(s, id);
  }

  /** A notification reaches the attempt its id was made for and no other. */
  lemma NotificationFindsItsAttempt(s: Shop, r: Ref)
    requires Reachable(s) && HasAttempt(s, r)
    ensures var pid := ProviderId(s.orders[r.order].number, r.number);
            pid in s.byProvider && s.byProvider[pid] == r
  {
    ReachableInv(s);
    GoodOrder(s, r.order);
    assert AttemptAt(s, r).providerId in s.byProvider;
  }

  /** A shopper once shown "paid" is shown it after any further run. */
  lemma ShownPaidForGood(s: Shop, more: seq<Step>, id: OrderId)
    requires Reachable(s) && id in s.orders
    requires PaymentStatus(s.orders[id]) == Some(ShownPaid)
    ensures id in Run(s, more).orders && PaymentStatus(Run(s, more).orders[id]) == Some(ShownPaid)
  {
    hide ShopInv, Good, Evolves;
    ReachableInv(s);
    GoodOrder(s, id);
    OrderLater(s, more, id);
    ShownPaidStays(s.orders[id], Run(s, more).orders[id]);
  }

  // --------------------------------------------------------------- audit, mail

  /** Replaying an order's transition rows from pending gives its status; each
      row starts where the last one ended; no status is entered twice; each
      timestamp is set exactly when its status was visited; and each kind of
      email was queued at most once. */
  lemma AuditTellsAll(s: Shop, id: OrderId)
    requires Reachable(s) && id in s.orders
    ensures var o := s.orders[id];
            && Current(o.audit) == o.status && Chained(o.audit) && NoDuplicates(Trail(o.audit))
            && (o.paidAt.Some? <==> Paid in Trail(o.audit)) && (o.shippedAt.Some? <==> Shipped in Trail(o.audit))
            && (o.completedAt.Some? <==> Completed in Trail(o.audit))
            && (o.cancelledAt.Some? <==> Cancelled in Trail(o.audit))
            && NoDuplicates(o.mails)
  {
    ReachableInv(s);
    GoodOrder(s, id);
    TrailClimbs(s.orders[id].audit);
  }

  // ------------------------------------------------------------- uniqueness

  /** Order numbers are unique although the prefix may change between orders. */
  lemma NumbersUnique(s: Shop, a: OrderId, b: OrderId)
    requires Reachable(s) && a in s.orders && b in s.orders
    requires s.orders[a].number == s.orders[b].number
    ensures a == b
  {
    ReachableInv(s);
  }

  /** The unique indexes on order numbers, carts, attempts, provider ids and
      pending rows are never what refuses a step: only an id drawn twice is. */
  lemma IndexesNeverRefuse(s: Shop, step: Step)
    requires Reachable(s) && Next(s, step).1 == Refused(UniqueViolation)
    requires step.CheckOut? ==> step.input.quote != Err(UniqueViolation)
    requires step.ManualOrder? ==> step.terms != Err(UniqueViolation)
    ensures (step.CreateCart? && step.cart in s.carts) ||
            (step.CheckOut? && step.input.newId in s.orders) ||
            (step.ManualOrder? && step.id in s.orders)
  {
    hide ShopInv, Reachable, ChoosePayment, Apply, PlaceOrder, Move, Edit, Refund, CreateManual;
    ReachableInv(s);
    match step {
      case CheckOut(c, input) => CheckoutRefusals(s, c, input);
      case ManualOrder(id, lines, offers, terms, queued) => ManualNeverRefused(s, id, lines, offers, terms, queued);
      case Retry(id, reply, now) => RetryNeverRefused(s, id, now);
      case RetryLost(id, now) => RetryNeverRefused(s, id, now);
      case MoveOrder(id, to, ship, now, queued) => MoveRefusals(s, id, to, ship, now, queued);
      case EditOrder(id, version, shipping) => EditRefusals(s, id, version, shipping);
      case RefundOrder(id, now) => RefundRefusals(s, id, now);
      case _ =>
    }
  }

  lemma CheckoutRefusals(s: Shop, c: CartId, input: CheckoutInput)
    requires ShopInv(s) && Checkout(s, c, input).1 == Refused(UniqueViolation) && input.quote != Err(UniqueViolation)
    ensures input.newId in s.orders
  {
    hide ShopInv, PlaceOrder;
    CheckoutNeverCollides(s, c, input.quote.value, input);
  }

  lemma MoveRefusals(s: Shop, id: OrderId, to: Status, ship: ShipInput, now: int, queued: bool)
    requires id in s.orders
    ensures Move(s.orders[id], to, ship, now, queued) != Err(UniqueViolation)
  {
  }

  lemma EditRefusals(s: Shop, id: OrderId, version: nat, shipping: Option<int>)
    requires id in s.orders
    ensures Edit(s.orders[id], version, shipping) != Err(UniqueViolation)
  {
  }

  lemma RefundRefusals(s: Shop, id: OrderId, now: int)
    requires id in s.orders
    ensures Refund(s.orders[id], now) != Err(UniqueViolation)
  {
  }

  lemma ManualNeverRefused(s: Shop, id: OrderId, lines: seq<ManualLine>, offers: map<VariantId, Offer>,
                           terms: Result<Terms, Refusal>, queued: bool)
    requires ShopInv(s) && CreateManual(s, id, lines, offers, terms, queued).1 == Refused(UniqueViolation)
    requires terms != Err(UniqueViolation)
    ensures id in s.orders
  {
    ManualRefusal(lines, offers);
    FreshNumber(s, ManualOrderOf(s, ManualLines(lines, offers).value, terms.value));
  }

  lemma {:induction false} ManualRefusal(lines: seq<ManualLine>, offers: map<VariantId, Offer>)
    ensures ManualLines(lines, offers) != Err(UniqueViolation)
  {
    if lines != [] {
      ManualRefusal(lines[..|lines| - 1], offers);
    }
  }

  lemma RetryNeverRefused(s: Shop, id: OrderId, now: int)
    requires ShopInv(s) && id in s.orders
    ensures var c := ChoosePayment(s.orders[id], s.midtrans, now);
            c != CannotPay(UniqueViolation) &&
            (c.Open? ==> c.order.attempts != [] && c.order.attempts[|c.order.attempts| - 1].providerId !in s.byProvider)
  {
    GoodOrder(s, id);
    PayAgainNeverCollides(s.orders[id], s.midtrans, now);
    NextIdFree(s, id);
    hide ShopInv, Good, Evolves, ChoosePayment;
    if ChoosePayment(s.orders[id], s.midtrans, now).Open? {
      PayAgainKeeps(s.orders[id], s.midtrans, now);
    }
  }
}
