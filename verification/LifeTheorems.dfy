/** The life of an order as its audit log tells it: which moves there are, what each
    writes, and what makes an order paid. */
module LifeTheorems {
  import opened Base
  import opened OrderIds
  import opened OrderModel
  import opened OrderLaws
  import opened OrderOutcomes
  import opened Texts
  import opened ShopModel
  import opened ShopLaws
  import opened ShopSteps
  import opened ShopTheorems
  import opened ResendTheorems
  import opened PaymentTheorems

  // ------------------------------------------------------------------- moves

  /** Pending, paid, in the works, sent and completed, one after another; or cancelled
      before it is sent, and then nothing more. */
  predicate Path(t: seq<Status>) {
    t != [] &&
    (t <= [Pending, Paid, Processing, Shipped, Completed] ||
     (|t| > 1 && t[|t| - 1].Cancelled? && t[..|t| - 1] <= [Pending, Paid, Processing]))
  }

  lemma LastOfPath(t: seq<Status>)
    requires Path(t)
    ensures match t[|t| - 1]
            case Pending => t == [Pending]
            case Paid => t == [Pending, Paid]
            case Processing => t == [Pending, Paid, Processing]
            case Shipped => t == [Pending, Paid, Processing, Shipped]
            case Completed => t == [Pending, Paid, Processing, Shipped, Completed]
            case Cancelled => |t| > 1
  {
  }

  /** What leads on from a status is what makes the path one longer. */
  lemma AllowedIsNext(t: seq<Status>, to: Status)
    requires Path(t)
    ensures Path(t + [to]) <==> to in Allowed(t[|t| - 1])
  {
    LastOfPath(t);
    var more := t + [to];
    assert more[..|more| - 1] == t && more[|more| - 1] == to;
    if more <= [Pending, Paid, Processing, Shipped, Completed] {
      assert to == [Pending, Paid, Processing, Shipped, Completed][|t|];
    }
  }

  lemma {:induction false} ChainIsAPath(audit: seq<Audit>)
    requires Chained(audit)
    ensures Path(Trail(audit))
  {
    if audit != [] {
      var before, row := audit[..|audit| - 1], audit[|audit| - 1];
      assert audit == before + [row];
      TrailAppend(before, row);
      ChainIsAPath(before);
      if row.Moved? {
        AllowedIsNext(Trail(before), row.to);
      }
    }
  }

  /** Why a shipment cannot be entered, if it cannot: it needs a tracking number that is
      not blank, and a courier code, the shopper's unless another is given. */
  function ShipRefusal(o: Order, ship: ShipInput): Option<Refusal> {
    var courier := CourierOf(o, ship);
    if ship.tracking.None? || (forall i :: 0 <= i < |ship.tracking.value| ==> IsSpace(ship.tracking.value[i])) then Some(NoTracking)
    else if courier == "" then Some(NoCourier)
    else if exists i :: 0 <= i < |courier| && !('a' <= courier[i] <= 'z' || '0' <= courier[i] <= '9' || courier[i] == '_') then Some(BadCourier)
    else None
  }

  function CourierOf(o: Order, ship: ShipInput): string {
    var given := if ship.courier.Some? then ship.courier.value else "";
    var chosen := if o.shippingCourier.Some? then o.shippingCourier.value else "";
    if given != "" then given else chosen
  }

  lemma ShipExactly(o: Order, ship: ShipInput)
    ensures ShipWith(o, ship) ==
            match ShipRefusal(o, ship)
            case Some(why) => Err(why)
            case None => Ok((CourierOf(o, ship), ship.tracking.value))
    ensures ShipRefusal(o, ship).None? ==> ship.tracking.Some?
  {
  }

  /** The order a move writes: the status, its time, the shipment, one audit row and the
      email of the move, and nothing else. */
  predicate MovedTo(o: Order, o': Order, to: Status, ship: ShipInput, now: int, queued: bool) {
    && o'.status == to && o'.version == o.version + 1 && o'.audit == o.audit + [Moved(o.status, to)]
    && o'.paidAt == (if to.Paid? then Some(now) else o.paidAt)
    && o'.shippedAt == (if to.Shipped? then Some(now) else o.shippedAt)
    && o'.completedAt == (if to.Completed? then Some(now) else o.completedAt)
    && o'.cancelledAt == (if to.Cancelled? then Some(now) else o.cancelledAt)
    && o'.courier == (if to.Shipped? then Some(CourierOf(o, ship)) else o.courier)
    && o'.tracking == (if to.Shipped? then ship.tracking else o.tracking)
    && o'.mails == o.mails + (if queued && to.Paid? then [PaymentReceived] else if queued && to.Shipped? then [OrderShipped] else [])
    && o'.total == o.total && o'.shipping == o.shipping && o'.lines == o.lines && o'.attempts == o.attempts
    && o'.refundedAt == o.refundedAt && o'.number == o.number && o'.cart == o.cart && o'.payBy == o.payBy
  }

  lemma MoveExactly(o: Order, to: Status, ship: ShipInput, now: int, queued: bool)
    requires Good(o)
    ensures Path(Trail(o.audit))
    ensures match Move(o, to, ship, now, queued)
            case Err(why) =>
              && to != o.status
              && if !Path(Trail(o.audit) + [to]) then why == IllegalTransition(o.status, to)
                 else to.Shipped? && ShipRefusal(o, ship) == Some(why)
            case Ok((o', changed)) =>
              && (changed <==> to != o.status) && (!changed ==> o' == o)
              && (changed ==> Path(Trail(o.audit) + [to]) && (to.Shipped? ==> ShipRefusal(o, ship) == None) && MovedTo(o, o', to, ship, now, queued))
  {
    hide Good, Path, Trail, Allowed, ShipWith, ShipRefusal, CourierOf, Stamped, MovedTo, WithMail;
    PathOn(o, to);
    ShipExactly(o, ship);
    if !to.Shipped? {
      StampedIs(o, to, ship, None, now, queued);
    } else if ShipRefusal(o, ship).None? {
      StampedIs(o, to, ship, Some((CourierOf(o, ship), ship.tracking.value)), now, queued);
    }
  }

  lemma PathOn(o: Order, to: Status)
    requires Good(o)
    ensures Path(Trail(o.audit)) && (Path(Trail(o.audit) + [to]) <==> to in Allowed(o.status))
  {
    hide Path, Trail, Allowed, Totals, Numbered, Frozen, Checked, Mailed, Accounted;
    ChainIsAPath(o.audit);
    AllowedIsNext(Trail(o.audit), to);
  }

  /** The stamp and the mail together are the move. */
  lemma StampedIs(o: Order, to: Status, ship: ShipInput, entered: Option<(string, string)>, now: int, queued: bool)
    requires if to.Shipped? then ship.tracking.Some? && entered == Some((CourierOf(o, ship), ship.tracking.value)) else entered.None?
    ensures var o' := Stamped(o, to, entered, now);
            MovedTo(o, if MailFor(to).Some? then WithMail(o', MailFor(to).value, queued) else o', to, ship, now, queued)
  {
    hide CourierOf;
    assert o.mails + [] == o.mails;
  }

  /** In every reachable shop the moves of an order so far are a path, and the next one
      goes through exactly when it makes that path one longer and, to ship, comes with a
      tracking number and a courier. A move to where the order is changes nothing. */
  lemma MovesExactly(s: Shop, id: OrderId, to: Status, ship: ShipInput, now: int, queued: bool)
    requires Reachable(s) && id in s.orders
    ensures var o := s.orders[id];
            var (u, answer) := Next(s, MoveOrder(id, to, ship, now, queued));
            && Path(Trail(o.audit))
            && if to == o.status then u == s && answer == Changed(false)
               else if !Path(Trail(o.audit) + [to]) then u == s && answer == Refused(IllegalTransition(o.status, to))
               else if to.Shipped? && ShipRefusal(o, ship).Some? then u == s && answer == Refused(ShipRefusal(o, ship).value)
               else
                 && answer == Changed(true) && id in u.orders && u == WithOrder(s, id, u.orders[id])
                 && MovedTo(o, u.orders[id], to, ship, now, queued)
  {
    hide ShopInv, Reachable, Move, Path, Trail, ShipRefusal, Good, MovedTo;
    ReachableInv(s);
    GoodOrder(s, id);
    MoveExactly(s.orders[id], to, ship, now, queued);
    SameOrder(s, id);
  }

  lemma SameOrder(s: Shop, id: OrderId)
    requires id in s.orders
    ensures WithOrder(s, id, s.orders[id]) == s
  {
    assert s.orders[id := s.orders[id]] == s.orders;
  }

  // ------------------------------------------------------- edits and refunds

  /** An edit goes through exactly on a pending order at its version; the order then
      ships for the amount sent, or as before when none was, its total moves by the
      difference, and nothing else of it changes but the version and the log. */
  lemma EditsExactly(s: Shop, id: OrderId, version: nat, sent: Option<int>)
    requires Reachable(s) && id in s.orders
    ensures var o := s.orders[id];
            var (u, answer) := Next(s, EditOrder(id, version, sent));
            if !o.status.Pending? then u == s && answer == Refused(NotEditable)
            else if version != o.version then u == s && answer == Refused(VersionConflict)
            else
              && answer == Done && id in u.orders && u == WithOrder(s, id, u.orders[id])
              && var o' := u.orders[id];
                 && (sent.Some? ==> o'.shipping == sent.value) && (sent.None? ==> o'.shipping == o.shipping)
                 && o'.total - o.total == o'.shipping - o.shipping
                 && o' == o.(shipping := o'.shipping, total := o'.total, version := version + 1, audit := o'.audit)
                 && |o'.audit| == |o.audit| + 1 && o'.audit[..|o.audit|] == o.audit
                 && o'.audit[|o.audit|] == Edited(if sent.Some? then Some(o.shipping) else None, sent)
  {
    hide ShopInv, Reachable;
    ReachableInv(s);
    GoodOrder(s, id);
    EditExactly(s.orders[id], version, sent);
    hide Edit, Good;
  }

  lemma EditExactly(o: Order, version: nat, sent: Option<int>)
    requires Good(o)
    ensures match Edit(o, version, sent)
            case Err(why) =>
              (!o.status.Pending? && why == NotEditable) || (o.status.Pending? && version != o.version && why == VersionConflict)
            case Ok(o') =>
              && o.status.Pending? && version == o.version
              && (sent.Some? ==> o'.shipping == sent.value) && (sent.None? ==> o'.shipping == o.shipping)
              && o'.total - o.total == o'.shipping - o.shipping
              && o' == o.(shipping := o'.shipping, total := o'.total, version := version + 1, audit := o'.audit)
              && o'.audit == o.audit + [Edited(if sent.Some? then Some(o.shipping) else None, sent)]
  {
  }

  /** A recorded refund stamps the order and leaves everything else of it alone. */
  lemma RefundWrites(s: Shop, id: OrderId, now: int)
    requires Reachable(s) && id in s.orders
    ensures var o := s.orders[id];
            var (u, answer) := Next(s, RefundOrder(id, now));
            if o.refundedAt.Some? then u == s && answer == Refused(RefundAlreadyRecorded)
            else if !o.status.Cancelled? || o.paidAt.None? then u == s && answer == Refused(NotRefundable)
            else
              && answer == Done
              && u == WithOrder(s, id, o.(refundedAt := Some(now), version := o.version + 1, audit := o.audit + [Refunded]))
  {
    hide Reachable;
  }

  // ------------------------------------------------------ what pays an order

  /** Pay-again and a stored link change an order's attempts and nothing else of it. */
  lemma AttemptsOnly(s: Shop, step: Step, id: OrderId)
    requires ShopInv(s) && id in s.orders && (step.Retry? || step.RetryLost? || step.Store?)
    ensures var u := Next(s, step).0;
            id in u.orders && u.orders[id] == s.orders[id].(attempts := u.orders[id].attempts)
  {
    hide ShopInv, Next, PayAgain, PayAgainLost, StoreLink, NeedsLink;
    match step {
      case Retry(other, reply, now) =>
        TriesAre(s, other, reply, now);
        if other in s.orders && NeedsLink(s, other, now) {
          RetryOnly(s, other, reply, now);
        } else {
          if other !in s.orders {
            NoOrderNoLink(s, other, now);
          }
          RetryAsksNothing(s, other, reply, now);
        }
      case RetryLost(other, now) =>
        TriesAre(s, other, None, now);
        LostSends(s, other, now);
      case Store(r, link) =>
        CallsAre(s, r, link, None);
        StoreOnly(s, r, link, id);
    }
  }

  lemma StoreOnly(s: Shop, r: Ref, link: Link, id: OrderId)
    requires id in s.orders
    ensures var u := StoreLink(s, r, link).0;
            id in u.orders && u.orders[id] == s.orders[id].(attempts := u.orders[id].attempts)
  {
  }

  lemma RetryOnly(s: Shop, id: OrderId, reply: Option<Link>, now: int)
    requires ShopInv(s) && id in s.orders && NeedsLink(s, id, now)
    ensures var u := PayAgain(s, id, reply, now).0;
            && id in u.orders && u.orders[id] == s.orders[id].(attempts := u.orders[id].attempts)
            && forall k :: k in s.orders && k != id ==> k in u.orders && u.orders[k] == s.orders[k]
  {
    hide ShopInv, Good, NeedsLink, ChoosePayment, Beside, PayAgain;
    RetryWrites(s, id, reply, now);
    GoodOrder(s, id);
    OpensExactlyWhen(s, id, now);
    OpenIsAppend(s.orders[id], s.midtrans, now);
    RetryTakes(s, id, reply, now);
  }

  /** The order pay-again writes is the one it chose, with the link it got. */
  lemma RetryTakes(s: Shop, id: OrderId, reply: Option<Link>, now: int)
    requires id in s.orders && id in PayAgain(s, id, reply, now).0.orders
    ensures var c := ChoosePayment(s.orders[id], s.midtrans, now);
            var o := PayAgain(s, id, reply, now).0.orders[id];
            o == s.orders[id] || (c.Open? && o == c.order.(attempts := o.attempts))
  {
    hide ChoosePayment;
  }

  /** The step makes this order, which is pending, paid: an admin says so, or one of its
      attempts is paid in full. */
  predicate MakesPaid(s: Shop, step: Step, id: OrderId) {
    && id in s.orders && s.orders[id].status.Pending?
    && ((step.MoveOrder? && step.id == id && step.to.Paid?) ||
        (step.Notification? && step.providerId in s.byProvider && s.byProvider[step.providerId].order == id
         && Befalls(Paying, s, step, s.byProvider[step.providerId])))
  }

  /** What a step can do to what an order costs and to whether it was paid. */
  predicate TermsKept(o: Order, o': Order, edited: bool, paid: bool) {
    && (!edited ==> o'.total == o.total && o'.shipping == o.shipping)
    && o'.lines == o.lines && (o'.paidAt.Some? <==> o.paidAt.Some? || paid)
  }

  lemma StepTerms(s: Shop, step: Step, id: OrderId)
    requires ShopInv(s) && id in s.orders
    ensures var u := Next(s, step).0;
            id in u.orders && TermsKept(s.orders[id], u.orders[id], step.EditOrder? && step.id == id, MakesPaid(s, step, id))
  {
    hide ShopInv, Next, Notify, Befalls;
    match step {
      case Retry(_, _, _) => AttemptsOnly(s, step, id);
      case RetryLost(_, _) => AttemptsOnly(s, step, id);
      case Store(_, _) => AttemptsOnly(s, step, id);
      case Notification(pid, r, now, queued) =>
        NotificationIs(s, pid, r, now, queued);
        NotificationTerms(s, pid, r, now, queued, id);
      case MoveOrder(other, to, ship, now, queued) => MoveTerms(s, other, to, ship, now, queued, id);
      case EditOrder(other, version, sent) => EditTerms(s, other, version, sent, id);
      case RefundOrder(other, now) => RefundTerms(s, other, now, id);
      case _ => OrdersStay(s, step, id);
    }
  }

  lemma OrdersStay(s: Shop, step: Step, id: OrderId)
    requires id in s.orders && !step.Retry? && !step.RetryLost? && !step.Store? && !step.Notification?
    requires !step.MoveOrder? && !step.EditOrder? && !step.RefundOrder?
    ensures id in Next(s, step).0.orders && Next(s, step).0.orders[id] == s.orders[id]
  {
    hide Next, Checkout, CreateManual, EditCart, AskMidtrans;
    match step {
      case CheckOut(c, input) =>
        CheckoutIs(s, c, input);
        CheckoutAdds(s, c, input);
      case ManualOrder(other, lines, offers, terms, queued) =>
        ManualIs(s, other, lines, offers, terms, queued);
        ManualAdds(s, other, lines, offers, terms, queued);
      case Ask(r, reply) =>
        CallsAre(s, r, Link("", ""), reply);
        AskLeavesOrders(s, r, reply);
      case ChangeCart(c, v, qty, visible, now) =>
        CartChangeIs(s, c, v, qty, visible, now);
        CartLeavesOrders(s, c, v, qty, visible, now);
      case _ => SettingsCount(s, step);
    }
  }

  lemma NotificationTerms(s: Shop, pid: string, r: Report, now: int, queued: bool, id: OrderId)
    requires ShopInv(s) && id in s.orders
    ensures var u := Notify(s, pid, r, now, queued).0;
            id in u.orders && TermsKept(s.orders[id], u.orders[id], false, MakesPaid(s, Notification(pid, r, now, queued), id))
  {
    hide ShopInv, Apply, Confirms, InFull, Reported, Good;
    if pid in s.byProvider {
      IdHasRow(s, pid);
      var at := s.byProvider[pid];
      var o := s.orders[at.order];
      AppliedExactly(o, at.number - 1, r, now, queued);
      GoodOrder(s, at.order);
      PendingIsUnpaid(o, at.number - 1);
    }
  }

  lemma PendingIsUnpaid(o: Order, i: nat)
    requires Good(o) && i < |o.attempts|
    ensures o.status.Pending? ==> !o.attempts[i].status.Settled?
  {
  }

  lemma MoveTerms(s: Shop, other: OrderId, to: Status, ship: ShipInput, now: int, queued: bool, id: OrderId)
    requires ShopInv(s) && id in s.orders
    ensures var step := MoveOrder(other, to, ship, now, queued);
            var u := Next(s, step).0;
            id in u.orders && TermsKept(s.orders[id], u.orders[id], false, MakesPaid(s, step, id))
  {
    hide ShopInv, Move, Good, TermsKept, Befalls;
    GoodOrder(s, id);
    MoveTermsOf(s.orders[id], to, ship, now, queued);
    TermsSame(s.orders[id]);
    MakesPaidIs(s, other, to, ship, now, queued, id);
  }

  lemma MakesPaidIs(s: Shop, other: OrderId, to: Status, ship: ShipInput, now: int, queued: bool, id: OrderId)
    requires id in s.orders
    ensures MakesPaid(s, MoveOrder(other, to, ship, now, queued), id) <==> other == id && s.orders[id].status.Pending? && to.Paid?
  {
  }

  lemma TermsSame(o: Order)
    ensures TermsKept(o, o, false, false)
  {
  }

  lemma MoveTermsOf(o: Order, to: Status, ship: ShipInput, now: int, queued: bool)
    requires Good(o)
    ensures match Move(o, to, ship, now, queued)
            case Err(_) => !(o.status.Pending? && to.Paid?)
            case Ok((o', _)) => TermsKept(o, o', false, o.status.Pending? && to.Paid?)
  {
    hide Move, Path, Trail, ShipRefusal, Good, CourierOf;
    MoveExactly(o, to, ship, now, queued);
    PaidFromPending(o);
  }

  lemma PaidFromPending(o: Order)
    requires Good(o)
    ensures Path(Trail(o.audit) + [Paid]) <==> o.status.Pending?
  {
    ChainIsAPath(o.audit);
    AllowedIsNext(Trail(o.audit), Paid);
  }

  lemma EditTerms(s: Shop, other: OrderId, version: nat, sent: Option<int>, id: OrderId)
    requires ShopInv(s) && id in s.orders
    ensures var u := Next(s, EditOrder(other, version, sent)).0;
            id in u.orders && TermsKept(s.orders[id], u.orders[id], other == id, false)
  {
    hide ShopInv, Edit, TermsKept;
    EditTermsOf(s.orders[id], version, sent);
    TermsSame(s.orders[id]);
  }

  lemma EditTermsOf(o: Order, version: nat, sent: Option<int>)
    ensures TermsKept(o, o, true, false) && (Edit(o, version, sent).Ok? ==> TermsKept(o, Edit(o, version, sent).value, true, false))
  {
  }

  lemma RefundTerms(s: Shop, other: OrderId, now: int, id: OrderId)
    requires ShopInv(s) && id in s.orders
    ensures var u := Next(s, RefundOrder(other, now)).0;
            id in u.orders && TermsKept(s.orders[id], u.orders[id], false, false)
  {
    hide ShopInv, Refund, TermsKept;
    RefundTermsOf(s.orders[id], now);
    TermsSame(s.orders[id]);
  }

  lemma RefundTermsOf(o: Order, now: int)
    ensures Refund(o, now).Ok? ==> TermsKept(o, Refund(o, now).value, false, false)
  {
  }

  predicate MadePaidAt(s: Shop, steps: seq<Step>, j: nat, id: OrderId) {
    j < |steps| && MakesPaid(Run(s, steps[..j]), steps[j], id)
  }

  ghost predicate MadePaid(s: Shop, steps: seq<Step>, id: OrderId) {
    exists j: nat :: MadePaidAt(s, steps, j, id)
  }

  lemma MadePaidPrefix(s: Shop, steps: seq<Step>, id: OrderId)
    requires steps != []
    ensures var n := |steps| - 1;
            MadePaid(s, steps, id) <==> MadePaid(s, steps[..n], id) || MakesPaid(Run(s, steps[..n]), steps[n], id)
  {
    hide MakesPaid, Run;
    var n := |steps| - 1;
    forall j: nat | j < n ensures MadePaidAt(s, steps[..n], j, id) <==> MadePaidAt(s, steps, j, id) {
      assert steps[..n][..j] == steps[..j];
    }
    if MadePaid(s, steps, id) && !MadePaidAt(s, steps, n, id) {
      var j: nat :| MadePaidAt(s, steps, j, id);
      assert MadePaidAt(s, steps[..n], j, id);
    }
    if MadePaid(s, steps[..n], id) {
      var j: nat :| MadePaidAt(s, steps[..n], j, id);
      assert MadePaidAt(s, steps, j, id);
    }
    assert MadePaidAt(s, steps, n, id) <==> MakesPaid(Run(s, steps[..n]), steps[n], id);
  }

  lemma {:induction false} NotBefore(s: Shop, steps: seq<Step>, id: OrderId)
    requires ShopInv(s) && id !in Run(s, steps).orders
    ensures !MadePaid(s, steps, id)
  {
    hide ShopInv, Run, Next, MadePaid, TermsKept, MadePaidAt;
    LastOfRun(s, steps);
    if steps != [] {
      var before := steps[..|steps| - 1];
      InvAfter(s, before);
      if id in Run(s, before).orders {
        StepTerms(Run(s, before), steps[|steps| - 1], id);
      }
      NotBefore(s, before, id);
      MadePaidPrefix(s, steps, id);
      assert !MakesPaid(Run(s, before), steps[|steps| - 1], id);
    } else {
      NothingMade(s, id);
    }
  }

  lemma NothingMade(s: Shop, id: OrderId)
    ensures !MadePaid(s, [], id)
  {
  }

  lemma NewIsUnpaid(s: Shop, step: Step, id: OrderId)
    requires ShopInv(s) && id !in s.orders && id in Next(s, step).0.orders
    ensures Next(s, step).0.orders[id].paidAt.None?
  {
    hide ShopInv, Next, Checkout, CreateManual;
    match step {
      case CheckOut(c, input) =>
        CheckoutIs(s, c, input);
        CheckoutUnpaid(s, c, input, id);
      case ManualOrder(other, lines, offers, terms, queued) =>
        ManualIs(s, other, lines, offers, terms, queued);
        ManualUnpaid(s, other, lines, offers, terms, queued, id);
      case _ => NoNewOrder(s, step, id);
    }
  }

  lemma CheckoutUnpaid(s: Shop, c: CartId, input: CheckoutInput, id: OrderId)
    requires id !in s.orders && id in Checkout(s, c, input).0.orders
    ensures Checkout(s, c, input).0.orders[id].paidAt.None?
  {
    hide PlaceOrder, PricedLines, UnavailableItems, Takes, Subtotal, Discounts, OrderNumber;
    var shipping := input.quote.value;
    if PlaceOrder(s, c, shipping, input).1.CheckedOut? {
      PlaceWrites(s, c, shipping, input);
    } else {
      RefusedWritesNothing(s, c, shipping, input);
    }
  }

  lemma ManualUnpaid(s: Shop, id: OrderId, lines: seq<ManualLine>, offers: map<VariantId, Offer>,
                     terms: Result<Terms, Refusal>, queued: bool, made: OrderId)
    requires made !in s.orders && made in CreateManual(s, id, lines, offers, terms, queued).0.orders
    ensures CreateManual(s, id, lines, offers, terms, queued).0.orders[made].paidAt.None?
  {
    hide ManualLines, OrderNumber, Subtotal, Discounts;
  }

  lemma {:induction false} PaidAfter(s: Shop, steps: seq<Step>, id: OrderId)
    requires ShopInv(s) && s.orders == map[] && id in Run(s, steps).orders
    ensures Run(s, steps).orders[id].paidAt.Some? <==> MadePaid(s, steps, id)
  {
    hide ShopInv, Run, Next, MadePaid, MakesPaid;
    LastOfRun(s, steps);
    if steps != [] {
      var before, step := steps[..|steps| - 1], steps[|steps| - 1];
      var u := Run(s, before);
      InvAfter(s, before);
      MadePaidPrefix(s, steps, id);
      if id in u.orders {
        PaidAfter(s, before, id);
        StepTerms(u, step, id);
      } else {
        NewIsUnpaid(u, step, id);
        NotBefore(s, before, id);
        NoOrderUnpaid(u, step, id);
      }
    }
  }

  lemma NoOrderUnpaid(s: Shop, step: Step, id: OrderId)
    requires id !in s.orders
    ensures !MakesPaid(s, step, id)
  {
  }

  /** Over every run of a shop, an order has been paid exactly when, while it was pending,
      an admin said it was or a notification confirmed in full one of its attempts. */
  lemma PaidExactlyWhen(prefix: string, bank: bool, midtrans: bool, steps: seq<Step>, id: OrderId)
    requires ValidPrefix(prefix) && id in Run(Opened(prefix, bank, midtrans), steps).orders
    ensures var s := Opened(prefix, bank, midtrans);
            Run(s, steps).orders[id].paidAt.Some? <==> exists j: nat :: MadePaidAt(s, steps, j, id)
  {
    OpenedInv(prefix, bank, midtrans);
    hide ShopInv, Run, MadePaidAt;
    PaidAfter(Opened(prefix, bank, midtrans), steps, id);
  }

  /** Nothing but an edit changes what an order costs, and nothing its lines. */
  lemma OnlyEditsReprice(s: Shop, step: Step, id: OrderId)
    requires Reachable(s) && id in s.orders && !(step.EditOrder? && step.id == id)
    ensures var u := Next(s, step).0;
            && id in u.orders && u.orders[id].total == s.orders[id].total
            && u.orders[id].shipping == s.orders[id].shipping && u.orders[id].lines == s.orders[id].lines
  {
    ReachableInv(s);
    hide ShopInv, Next, MakesPaid;
    StepTerms(s, step, id);
  }

  // ---------------------------------------------------------- what is shown

  /** What the shopper of a Midtrans order is told: paid once the order was or the newest
      attempt is, failed while that attempt is, and else that the payment is awaited. */
  lemma ShownExactly(o: Order)
    requires Good(o)
    ensures var n := |o.attempts|;
            PaymentStatus(o) ==
            if o.payBy.BankTransfer? then None
            else if Paid in Trail(o.audit) || (n > 0 && o.attempts[n - 1].status.Settled?) then Some(ShownPaid)
            else if n > 0 && o.attempts[n - 1].status.Failed? then Some(ShownFailed)
            else Some(ShownPending)
  {
    LatestIsLast(o);
    hide Latest, Totals, Numbered, Frozen, Checked, Mailed, Accounted, OrderNumber, ValidPrefix;
  }
}
