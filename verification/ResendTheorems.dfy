/** Which attempt ids go out to Midtrans more than once: exactly when a pay-again
    was lost after its call and the order asks for a new link again. */
module ResendTheorems {
  import opened Base
  import opened OrderIds
  import opened OrderModel
  import opened OrderLaws
  import opened OrderOutcomes
  import opened ShopModel
  import opened ShopLaws
  import opened ShopSteps
  import opened ShopTheorems

  /** The id of the order's next attempt. */
  function NextId(o: Order): string {
    ProviderId(o.number, |o.attempts| + 1)
  }

  /** The order is waiting for a Midtrans payment that can be made, and none of its
      links can be paid. */
  predicate NeedsLink(s: Shop, id: OrderId, now: int) {
    && id in s.orders && s.midtrans
    && s.orders[id].payBy.Midtrans? && s.orders[id].status.Pending? && WholeRupiah(s.orders[id].total)
    && forall i :: 0 <= i < |s.orders[id].attempts| ==> !Live(s.orders[id].attempts[i], s.orders[id], now)
  }

  /** The step is a pay-again of the order, when it needs a link. */
  predicate Reopens(s: Shop, step: Step, id: OrderId) {
    (step.Retry? || step.RetryLost?) && step.id == id && NeedsLink(s, id, step.now)
  }

  // ------------------------------------------------------- what a step sends

  /** Pay-again opens an attempt exactly when the order needs a link. */
  lemma OpensExactlyWhen(s: Shop, id: OrderId, now: int)
    requires ShopInv(s) && id in s.orders
    ensures ChoosePayment(s.orders[id], s.midtrans, now).Open? <==> NeedsLink(s, id, now)
  {
    hide ShopInv, FailStale, Insertable, Totals, Frozen, Audited, Checked, Mailed, Accounted, OrderNumber, ValidPrefix, ProviderId;
    GoodOrder(s, id);
    var o := s.orders[id];
    LatestIsLast(o);
    PayAgainNeverCollides(o, s.midtrans, now);
    if i :| 0 <= i < |o.attempts| && Live(o.attempts[i], o, now) {
      OneLiveLink(o, now, i);
    }
  }

  /** And opens it under the next id, which no row has. */
  lemma OpensNextId(s: Shop, id: OrderId, now: int)
    requires ShopInv(s) && NeedsLink(s, id, now)
    ensures var c := ChoosePayment(s.orders[id], s.midtrans, now);
            && c.Open? && c.order.attempts != []
            && RequestFor(c.order.attempts[|c.order.attempts| - 1]).id == NextId(s.orders[id])
            && NextId(s.orders[id]) !in s.byProvider
  {
    OpensExactlyWhen(s, id, now);
    GoodOrder(s, id);
    NextIdFree(s, id);
    hide ShopInv, Good, Evolves, ChoosePayment, NeedsLink;
    PayAgainKeeps(s.orders[id], s.midtrans, now);
  }

  function Sends(s: Shop, step: Step): seq<string> {
    if (step.Retry? || step.RetryLost?) && NeedsLink(s, step.id, step.now) then [NextId(s.orders[step.id])]
    else if step.Ask? && step.ref in s.asking && HasAttempt(s, step.ref) then [AttemptAt(s, step.ref).providerId]
    else []
  }

  lemma RetrySends(s: Shop, id: OrderId, reply: Option<Link>, now: int)
    requires ShopInv(s)
    ensures Ids(PayAgain(s, id, reply, now).0.sent) == Ids(s.sent) + Sends(s, Retry(id, reply, now))
  {
    hide ShopInv, ChoosePayment, NeedsLink, NextId;
    if id in s.orders {
      OpensExactlyWhen(s, id, now);
      if NeedsLink(s, id, now) {
        OpensNextId(s, id, now);
      }
    } else {
      NoOrderNoLink(s, id, now);
    }
  }

  lemma NoOrderNoLink(s: Shop, id: OrderId, now: int)
    requires id !in s.orders
    ensures !NeedsLink(s, id, now)
  {
  }

  lemma LostSends(s: Shop, id: OrderId, now: int)
    requires ShopInv(s)
    ensures var s' := PayAgainLost(s, id, now).0;
            && s'.orders == s.orders && s'.byProvider == s.byProvider && s'.asking == s.asking
            && Ids(s'.sent) == Ids(s.sent) + Sends(s, RetryLost(id, now))
  {
    hide ShopInv, ChoosePayment, NeedsLink, NextId;
    if id in s.orders {
      OpensExactlyWhen(s, id, now);
      if NeedsLink(s, id, now) {
        OpensNextId(s, id, now);
      }
    } else {
      NoOrderNoLink(s, id, now);
    }
  }

  lemma QuietMove(s: Shop, id: OrderId, to: Status, ship: ShipInput, now: int, queued: bool)
    ensures var s' := Next(s, MoveOrder(id, to, ship, now, queued)).0; s'.asking == s.asking && s'.sent == s.sent
  {
    hide Move;
  }

  lemma QuietEdit(s: Shop, id: OrderId, version: nat, shipping: Option<int>)
    ensures var s' := Next(s, EditOrder(id, version, shipping)).0; s'.asking == s.asking && s'.sent == s.sent
  {
    hide Edit;
  }

  lemma QuietRefund(s: Shop, id: OrderId, now: int)
    ensures var s' := Next(s, RefundOrder(id, now)).0; s'.asking == s.asking && s'.sent == s.sent
  {
    hide Refund;
  }

  lemma QuietSettings(s: Shop, prefix: string, bank: bool, midtrans: bool)
    ensures var s' := Next(s, ChangeSettings(prefix, bank, midtrans)).0; s'.asking == s.asking && s'.sent == s.sent
  {
    hide ValidPrefix;
  }

  lemma QuietNotification(s: Shop, providerId: string, r: Report, now: int, queued: bool)
    ensures var s' := Next(s, Notification(providerId, r, now, queued)).0; s'.asking == s.asking && s'.sent == s.sent
  {
    hide Apply;
  }

  lemma QuietStore(s: Shop, r: Ref, link: Link)
    ensures var s' := Next(s, Store(r, link)).0; s'.asking == s.asking && s'.sent == s.sent
  {
  }

  lemma QuietManual(s: Shop, id: OrderId, lines: seq<ManualLine>, offers: map<VariantId, Offer>,
                    terms: Result<Terms, Refusal>, queued: bool)
    ensures var s' := Next(s, ManualOrder(id, lines, offers, terms, queued)).0; s'.asking == s.asking && s'.sent == s.sent
  {
    hide ManualLines, NewOrder, WithMail;
  }

  lemma QuietCart(s: Shop, step: Step)
    requires step.CreateCart? || step.ChangeCart? || step.Sweep?
    ensures Next(s, step).0.asking == s.asking && Next(s, step).0.sent == s.sent
  {
    hide PayAgain, PayAgainLost, Notify, Move, Edit, Refund, Checkout, CreateManual, StoreLink, AskMidtrans;
  }

  /** All steps but checkouts and calls to Midtrans leave alone what is to be asked
      and what has been sent. */
  lemma QuietStep(s: Shop, step: Step)
    requires !step.CheckOut? && !step.Ask? && !step.Retry? && !step.RetryLost?
    ensures Next(s, step).0.asking == s.asking && Next(s, step).0.sent == s.sent
  {
    hide Next;
    match step {
      case MoveOrder(id, to, ship, now, queued) => QuietMove(s, id, to, ship, now, queued);
      case EditOrder(id, version, shipping) => QuietEdit(s, id, version, shipping);
      case RefundOrder(id, now) => QuietRefund(s, id, now);
      case ChangeSettings(prefix, bank, midtrans) => QuietSettings(s, prefix, bank, midtrans);
      case Notification(providerId, r, now, queued) => QuietNotification(s, providerId, r, now, queued);
      case Store(r, link) => QuietStore(s, r, link);
      case ManualOrder(id, lines, offers, terms, queued) => QuietManual(s, id, lines, offers, terms, queued);
      case _ => QuietCart(s, step);
    }
  }

  lemma CheckoutSends(s: Shop, c: CartId, input: CheckoutInput)
    ensures Next(s, CheckOut(c, input)).0.sent == s.sent
    ensures Next(s, CheckOut(c, input)) == Checkout(s, c, input)
  {
    hide Checkout, Next;
    CheckoutIs(s, c, input);
    CheckoutLeavesSent(s, c, input);
  }

  lemma CheckoutLeavesSent(s: Shop, c: CartId, input: CheckoutInput)
    ensures Checkout(s, c, input).0.sent == s.sent
  {
    hide PricedLines, UnavailableItems, NewOrder, NewAttempt, WithMail;
  }

  lemma AskSends(s: Shop, r: Ref, reply: Option<Link>)
    ensures var s' := Next(s, Ask(r, reply)).0;
            && Ids(s'.sent) == Ids(s.sent) + Sends(s, Ask(r, reply))
            && s'.asking == if HasAttempt(s, r) then s.asking - {r} else s.asking
  {
  }

  lemma TriesAre(s: Shop, id: OrderId, reply: Option<Link>, now: int)
    ensures Next(s, Retry(id, reply, now)) == PayAgain(s, id, reply, now)
    ensures Next(s, RetryLost(id, now)) == PayAgainLost(s, id, now)
  {
    hide PayAgain, PayAgainLost;
  }

  lemma SendsNothing(s: Shop, step: Step)
    requires !step.Ask? && !step.Retry? && !step.RetryLost?
    ensures Sends(s, step) == []
  {
    hide NeedsLink, NextId;
  }

  lemma StepSends(s: Shop, step: Step)
    requires ShopInv(s)
    ensures Ids(Next(s, step).0.sent) == Ids(s.sent) + Sends(s, step)
  {
    hide ShopInv, Next, Sends, PayAgain, PayAgainLost, Ids;
    match step {
      case Retry(id, reply, now) =>
        TriesAre(s, id, reply, now);
        RetrySends(s, id, reply, now);
      case RetryLost(id, now) =>
        TriesAre(s, id, None, now);
        LostSends(s, id, now);
      case Ask(r, reply) => AskSends(s, r, reply);
      case CheckOut(c, input) =>
        CheckoutSends(s, c, input);
        SendsNothing(s, step);
      case _ =>
        QuietStep(s, step);
        SendsNothing(s, step);
    }
  }

  lemma CheckoutAdds(s: Shop, c: CartId, input: CheckoutInput)
    ensures var s' := Checkout(s, c, input).0;
            && (forall id :: id in s.orders ==> id in s'.orders && s'.orders[id] == s.orders[id])
            && forall r :: r in s'.asking ==> r in s.asking || !HasAttempt(s, r)
  {
    hide PlaceOrder, NewOrder, NewAttempt;
    if Checkout(s, c, input).0 != s {
      var shipping := input.quote.value;
      if PlaceOrder(s, c, shipping, input).1.CheckedOut? {
        PlaceWrites(s, c, shipping, input);
      } else {
        RefusedWritesNothing(s, c, shipping, input);
      }
    }
  }

  lemma ManualAdds(s: Shop, id: OrderId, lines: seq<ManualLine>, offers: map<VariantId, Offer>,
                   terms: Result<Terms, Refusal>, queued: bool)
    ensures var s' := CreateManual(s, id, lines, offers, terms, queued).0;
            && (forall k :: k in s.orders ==> k in s'.orders && s'.orders[k] == s.orders[k]) && s'.asking == s.asking
  {
    hide NewOrder, ManualLines, WithMail;
  }

  lemma RefusedWritesNothing(s: Shop, c: CartId, shipping: int, input: CheckoutInput)
    requires c in s.carts && !PlaceOrder(s, c, shipping, input).1.CheckedOut?
    ensures PlaceOrder(s, c, shipping, input).0 == s
  {
    hide NewOrder, NewAttempt, WithMail;
  }

  /** Checkouts alone leave a row to be asked for, and a row asked for is not again. */
  lemma StepAsks(s: Shop, step: Step, r: Ref)
    requires r in Next(s, step).0.asking
    ensures (r in s.asking && !(step.Ask? && step.ref == r && HasAttempt(s, r))) || !HasAttempt(s, r)
  {
    hide Next, HasAttempt, Checkout, PayAgain, PayAgainLost, Sends, Ids;
    match step {
      case Retry(_, _, _) => RetryAsks(s, step);
      case RetryLost(_, _) => RetryAsks(s, step);
      case Ask(ref, reply) => AskSends(s, ref, reply);
      case CheckOut(c, input) =>
        CheckoutSends(s, c, input);
        CheckoutAdds(s, c, input);
      case _ => QuietStep(s, step);
    }
  }

  lemma MoveLeaves(s: Shop, other: OrderId, to: Status, ship: ShipInput, now: int, queued: bool, id: OrderId)
    requires id in s.orders
    ensures var s' := Next(s, MoveOrder(other, to, ship, now, queued)).0;
            id in s'.orders && s'.orders[id].attempts == s.orders[id].attempts
  {
    hide Next, Move;
    MoveIs(s, other, to, ship, now, queued);
    if other in s.orders && Move(s.orders[other], to, ship, now, queued).Ok? {
      MoveAddsNoRow(s.orders[other], to, ship, now, queued);
    }
  }

  lemma MoveIs(s: Shop, id: OrderId, to: Status, ship: ShipInput, now: int, queued: bool)
    ensures Next(s, MoveOrder(id, to, ship, now, queued)).0 ==
            if id in s.orders && Move(s.orders[id], to, ship, now, queued).Ok?
            then WithOrder(s, id, Move(s.orders[id], to, ship, now, queued).value.0) else s
  {
    hide Move;
  }

  lemma EditStepLeaves(s: Shop, other: OrderId, version: nat, shipping: Option<int>, id: OrderId)
    requires id in s.orders
    ensures var s' := Next(s, EditOrder(other, version, shipping)).0;
            id in s'.orders && s'.orders[id].attempts == s.orders[id].attempts
  {
    hide Next, Edit;
    EditIs(s, other, version, shipping);
    EditLeaves(s.orders[id], version, shipping);
  }

  lemma EditIs(s: Shop, id: OrderId, version: nat, shipping: Option<int>)
    ensures Next(s, EditOrder(id, version, shipping)).0 ==
            if id in s.orders && Edit(s.orders[id], version, shipping).Ok?
            then WithOrder(s, id, Edit(s.orders[id], version, shipping).value) else s
  {
    hide Edit;
  }

  lemma RefundStepLeaves(s: Shop, other: OrderId, now: int, id: OrderId)
    requires id in s.orders
    ensures var s' := Next(s, RefundOrder(other, now)).0;
            id in s'.orders && s'.orders[id].attempts == s.orders[id].attempts
  {
    hide Next, Refund;
    RefundIs(s, other, now);
    RefundLeaves(s.orders[id], now);
  }

  lemma RefundIs(s: Shop, id: OrderId, now: int)
    ensures Next(s, RefundOrder(id, now)).0 ==
            if id in s.orders && Refund(s.orders[id], now).Ok? then WithOrder(s, id, Refund(s.orders[id], now).value) else s
  {
    hide Refund;
  }

  lemma SettingsCount(s: Shop, step: Step)
    requires step.ChangeSettings? || step.CreateCart? || step.Sweep?
    ensures Next(s, step).0.orders == s.orders
  {
    hide Move, Edit, Refund, Checkout, CreateManual, Notify, PayAgain, PayAgainLost, EditCart, AskMidtrans, StoreLink;
  }

  lemma CallsAre(s: Shop, r: Ref, link: Link, reply: Option<Link>)
    ensures Next(s, Store(r, link)) == StoreLink(s, r, link) && Next(s, Ask(r, reply)) == AskMidtrans(s, r, reply)
  {
    hide StoreLink, AskMidtrans;
  }

  lemma NotificationIs(s: Shop, providerId: string, r: Report, now: int, queued: bool)
    ensures Next(s, Notification(providerId, r, now, queued)) == Notify(s, providerId, r, now, queued)
  {
    hide Notify;
  }

  lemma CartChangeIs(s: Shop, c: CartId, v: VariantId, qty: int, visible: bool, now: int)
    ensures Next(s, ChangeCart(c, v, qty, visible, now)) == EditCart(s, c, v, qty, visible, now)
  {
    hide EditCart;
  }

  lemma ManualIs(s: Shop, id: OrderId, lines: seq<ManualLine>, offers: map<VariantId, Offer>,
                 terms: Result<Terms, Refusal>, queued: bool)
    ensures Next(s, ManualOrder(id, lines, offers, terms, queued)) == CreateManual(s, id, lines, offers, terms, queued)
  {
    hide CreateManual;
  }

  /** Steps that leave every attempt of the order as it was. */
  lemma OtherLeaves(s: Shop, step: Step, id: OrderId)
    requires id in s.orders && !step.Retry? && !step.RetryLost? && !step.Notification? && !step.Store?
    ensures id in Next(s, step).0.orders && Next(s, step).0.orders[id].attempts == s.orders[id].attempts
  {
    hide Next, Checkout, CreateManual, EditCart, AskMidtrans;
    match step {
      case CheckOut(c, input) =>
        CheckoutSends(s, c, input);
        CheckoutAdds(s, c, input);
      case ManualOrder(other, lines, offers, terms, queued) =>
        ManualIs(s, other, lines, offers, terms, queued);
        ManualAdds(s, other, lines, offers, terms, queued);
      case Ask(r, reply) =>
        CallsAre(s, r, Link("", ""), reply);
        AskLeavesOrders(s, r, reply);
      case ChangeCart(c, v, qty, visible, now) =>
        CartChangeIs(s, c, v, qty, visible, now);
        CartLeavesOrders(s, c, v, qty, visible, now);
      case MoveOrder(other, to, ship, now, queued) => MoveLeaves(s, other, to, ship, now, queued, id);
      case EditOrder(other, version, shipping) => EditStepLeaves(s, other, version, shipping, id);
      case RefundOrder(other, now) => RefundStepLeaves(s, other, now, id);
      case _ => SettingsCount(s, step);
    }
  }

  lemma OtherCounts(s: Shop, step: Step, id: OrderId)
    requires id in s.orders && !step.Retry? && !step.RetryLost?
    ensures id in Next(s, step).0.orders && |Next(s, step).0.orders[id].attempts| == |s.orders[id].attempts|
  {
    hide Next, Notify, StoreLink;
    match step {
      case Notification(providerId, r, now, queued) =>
        NotificationIs(s, providerId, r, now, queued);
        NotifyCounts(s, providerId, r, now, queued, id);
      case Store(r, link) =>
        CallsAre(s, r, link, None);
        LinkCounts(s, r, link, id);
      case _ => OtherLeaves(s, step, id);
    }
  }

  /** Only pay-again adds an attempt to an order. */
  lemma StepCounts(s: Shop, step: Step, id: OrderId)
    requires ShopInv(s) && id in s.orders && !(step.Retry? && Reopens(s, step, id))
    ensures id in Next(s, step).0.orders && |Next(s, step).0.orders[id].attempts| == |s.orders[id].attempts|
  {
    hide ShopInv, NeedsLink, PayAgain, PayAgainLost;
    if step.Retry? {
      RetryCounts(s, step.id, step.reply, step.now, id);
    } else if step.RetryLost? {
      LostSends(s, step.id, step.now);
    } else {
      OtherCounts(s, step, id);
    }
  }

  lemma CartLeavesOrders(s: Shop, c: CartId, v: VariantId, qty: int, visible: bool, now: int)
    ensures EditCart(s, c, v, qty, visible, now).0.orders == s.orders
  {
  }

  lemma AskLeavesOrders(s: Shop, r: Ref, reply: Option<Link>)
    ensures AskMidtrans(s, r, reply).0.orders == s.orders
  {
  }

  lemma RetryCounts(s: Shop, other: OrderId, reply: Option<Link>, now: int, id: OrderId)
    requires ShopInv(s) && id in s.orders && (id == other ==> !NeedsLink(s, id, now))
    ensures id in PayAgain(s, other, reply, now).0.orders
    ensures PayAgain(s, other, reply, now).0.orders[id] == s.orders[id]
  {
    hide ShopInv, ChoosePayment, NeedsLink;
    if other in s.orders {
      OpensExactlyWhen(s, other, now);
    }
  }

  lemma NotifyCounts(s: Shop, providerId: string, r: Report, now: int, queued: bool, id: OrderId)
    requires id in s.orders
    ensures id in Notify(s, providerId, r, now, queued).0.orders
    ensures |Notify(s, providerId, r, now, queued).0.orders[id].attempts| == |s.orders[id].attempts|
  {
    hide Apply;
    if providerId in s.byProvider && HasAttempt(s, s.byProvider[providerId]) {
      var ref := s.byProvider[providerId];
      ApplyAddsNoRow(s.orders[ref.order], ref.number - 1, r, now, queued);
    }
  }

  lemma EditLeaves(o: Order, version: nat, shipping: Option<int>)
    ensures Edit(o, version, shipping).Ok? ==> Edit(o, version, shipping).value.attempts == o.attempts
  {
  }

  lemma RefundLeaves(o: Order, now: int)
    ensures Refund(o, now).Ok? ==> Refund(o, now).value.attempts == o.attempts
  {
  }

  lemma LinkCounts(s: Shop, r: Ref, link: Link, id: OrderId)
    requires id in s.orders
    ensures id in StoreLink(s, r, link).0.orders
    ensures |StoreLink(s, r, link).0.orders[id].attempts| == |s.orders[id].attempts|
  {
  }

  // ------------------------------------------------------------ over any run

  /** The orders a run has lost a pay-again of, after its call. */
  function LostOrders(s: Shop, steps: seq<Step>): set<OrderId> {
    if steps == [] then {}
    else
      var u, step := Run(s, steps[..|steps| - 1]), steps[|steps| - 1];
      LostOrders(s, steps[..|steps| - 1]) +
      if step.RetryLost? && Reopens(u, step, step.id) then {step.id} else {}
  }

  /** Some order lost a pay-again and was opened again later. */
  predicate Reopened(s: Shop, steps: seq<Step>) {
    steps != [] &&
    (Reopened(s, steps[..|steps| - 1]) ||
     var u, step := Run(s, steps[..|steps| - 1]), steps[|steps| - 1];
     (step.Retry? || step.RetryLost?) && step.id in LostOrders(s, steps[..|steps| - 1]) && Reopens(u, step, step.id))
  }

  /** What holds while no lost order has been opened again: no id went out twice,
      and an id without a row is a lost order's next. */
  ghost predicate SentOnce(s: Shop, lost: set<OrderId>) {
    && NoDuplicates(Ids(s.sent))
    && (forall x :: x in Ids(s.sent) ==> x in s.byProvider || LostNext(s, lost, x))
    && forall r :: r in s.asking && HasAttempt(s, r) ==> AttemptAt(s, r).providerId !in Ids(s.sent)
  }

  ghost predicate LostNext(s: Shop, lost: set<OrderId>, x: string) {
    exists id :: id in lost && id in s.orders && x == NextId(s.orders[id])
  }

  lemma NextIdsApart(s: Shop, a: OrderId, b: OrderId)
    requires ShopInv(s) && a in s.orders && b in s.orders && NextId(s.orders[a]) == NextId(s.orders[b])
    ensures a == b
  {
    hide ShopInv, OrderNumber, ProviderId, ValidPrefix, Totals, Numbered, Frozen, Audited, Checked, Mailed, Accounted;
    GoodOrder(s, a);
    GoodOrder(s, b);
    var p, q := s.orders[a], s.orders[b];
    ProviderIdInjective(p.prefix, p.seqNo, |p.attempts| + 1, q.prefix, q.seqNo, |q.attempts| + 1);
    SameNumberSameOrder(s, a, b);
  }

  lemma SameNumberSameOrder(s: Shop, a: OrderId, b: OrderId)
    requires ShopInv(s) && a in s.orders && b in s.orders && s.orders[a].number == s.orders[b].number
    ensures a == b
  {
    hide OrdersOk, CartsOk, CallsOk, AttemptAt, HasAttempt;
  }

  /** A lost order that is not opened again keeps its next id. */
  lemma NextIdStays(s: Shop, step: Step, id: OrderId)
    requires ShopInv(s) && id in s.orders && !(step.Retry? && Reopens(s, step, id))
    ensures id in Next(s, step).0.orders && NextId(Next(s, step).0.orders[id]) == NextId(s.orders[id])
  {
    hide ShopInv, Kept, Next, ProviderId, NeedsLink;
    NextKeeps(s, step);
    StepCounts(s, step, id);
    SameNumber(s, Next(s, step).0, id);
  }

  lemma SameNumber(s: Shop, s': Shop, id: OrderId)
    requires Kept(s, s') && id in s.orders
    ensures id in s'.orders && s'.orders[id].number == s.orders[id].number
  {
    hide ShopInv;
  }

  lemma KeptProvider(s: Shop, s': Shop, x: string)
    requires Kept(s, s') && x in s.byProvider
    ensures x in s'.byProvider && s'.byProvider[x] == s.byProvider[x]
  {
    hide ShopInv, Evolves;
  }

  lemma IdHasRow(s: Shop, x: string)
    requires ShopInv(s) && x in s.byProvider
    ensures HasAttempt(s, s.byProvider[x]) && AttemptAt(s, s.byProvider[x]).providerId == x
  {
    hide OrdersOk, CartsOk, CallsOk;
  }

  lemma AskedWasNot(s: Shop, step: Step, r: Ref)
    requires ShopInv(s) && r in Next(s, step).0.asking && HasAttempt(s, r)
    ensures r in s.asking && !(step.Ask? && step.ref == r)
  {
    StepAsks(s, step, r);
    hide ShopInv, Next;
  }

  lemma RetryAsks(s: Shop, step: Step)
    requires step.Retry? || step.RetryLost? || step.Ask?
    ensures Next(s, step).0.asking <= s.asking
  {
    hide Next, PayAgain, PayAgainLost, Sends, Ids;
    match step {
      case Retry(id, reply, now) =>
        TriesAre(s, id, reply, now);
        TriesLeaveAsking(s, id, reply, now);
      case RetryLost(id, now) =>
        TriesAre(s, id, None, now);
        TriesLeaveAsking(s, id, None, now);
      case Ask(r, reply) => AskSends(s, r, reply);
    }
  }

  lemma TriesLeaveAsking(s: Shop, id: OrderId, reply: Option<Link>, now: int)
    ensures PayAgain(s, id, reply, now).0.asking == s.asking && PayAgainLost(s, id, now).0.asking == s.asking
  {
    hide ChoosePayment;
  }

  lemma AskingHasRow(s: Shop, r: Ref)
    requires ShopInv(s) && r in s.asking
    ensures HasAttempt(s, r)
  {
    hide OrdersOk, CartsOk, Indexed, HasAttempt;
  }

  /** What a step sends has not been sent, unless it opens a lost order again. */
  lemma SendsNew(s: Shop, step: Step, lost: set<OrderId>, x: string)
    requires ShopInv(s) && SentOnce(s, lost) && x in Sends(s, step)
    requires (step.Retry? || step.RetryLost?) && Reopens(s, step, step.id) ==> step.id !in lost
    ensures x !in Ids(s.sent)
  {
    hide ShopInv, NextId, NoDuplicates, Live, WholeRupiah;
    if (step.Retry? || step.RetryLost?) && NeedsLink(s, step.id, step.now) {
      OpensNextId(s, step.id, step.now);
      if LostNext(s, lost, x) {
        var id :| id in lost && id in s.orders && x == NextId(s.orders[id]);
        NextIdsApart(s, id, step.id);
      }
    }
  }

  /** A retry's row exists once it has committed. */
  lemma RetryHasRow(s: Shop, id: OrderId, reply: Option<Link>, now: int)
    requires ShopInv(s) && NeedsLink(s, id, now)
    ensures NextId(s.orders[id]) in PayAgain(s, id, reply, now).0.byProvider
  {
    hide ShopInv, ChoosePayment, NextId, Live;
    OpensNextId(s, id, now);
  }

  lemma SentKnown(s: Shop, step: Step, lost: set<OrderId>, x: string)
    requires ShopInv(s) && SentOnce(s, lost) && x in Ids(s.sent)
    requires (step.Retry? || step.RetryLost?) && Reopens(s, step, step.id) ==> step.id !in lost
    ensures x in Next(s, step).0.byProvider || LostNext(Next(s, step).0, lost, x)
  {
    hide ShopInv, Next, NextId, NeedsLink, Kept, NoDuplicates;
    NextKeeps(s, step);
    if x in s.byProvider {
      KeptProvider(s, Next(s, step).0, x);
    } else {
      var id :| id in lost && id in s.orders && x == NextId(s.orders[id]);
      NextIdStays(s, step, id);
    }
  }

  lemma NewKnown(s: Shop, step: Step, lost: set<OrderId>, x: string)
    requires ShopInv(s) && x in Sends(s, step)
    requires step.RetryLost? && Reopens(s, step, step.id) ==> step.id in lost
    ensures x in Next(s, step).0.byProvider || LostNext(Next(s, step).0, lost, x)
  {
    hide ShopInv, NextId, Kept, ChoosePayment, PayAgain, PayAgainLost, Live, WholeRupiah;
    match step {
      case Retry(id, reply, now) => RetryHasRow(s, id, reply, now);
      case RetryLost(id, now) => LostSends(s, id, now);
      case Ask(r, reply) =>
        RowFound(s, r);
        NextKeeps(s, step);
        KeptProvider(s, Next(s, step).0, x);
    }
  }

  lemma SameRowId(s: Shop, s': Shop, r: Ref)
    requires ShopInv(s) && Kept(s, s') && HasAttempt(s, r)
    ensures HasAttempt(s', r) && AttemptAt(s', r).providerId == AttemptAt(s, r).providerId
  {
    RowFound(s, r);
    KeptProvider(s, s', AttemptAt(s, r).providerId);
    KeptInv(s, s');
    IdHasRow(s', AttemptAt(s, r).providerId);
  }

  /** A row still to be asked for has not been asked for. */
  lemma UnaskedOld(s: Shop, step: Step, lost: set<OrderId>, r: Ref)
    requires ShopInv(s) && SentOnce(s, lost) && r in Next(s, step).0.asking && HasAttempt(s, r)
    ensures HasAttempt(Next(s, step).0, r)
    ensures AttemptAt(Next(s, step).0, r).providerId !in Ids(Next(s, step).0.sent)
  {
    hide ShopInv, Next, NextId, Kept, NoDuplicates, LostNext, HasAttempt, AttemptAt, Live, WholeRupiah, Ids;
    NextKeeps(s, step);
    AskedWasNot(s, step, r);
    SameRowId(s, Next(s, step).0, r);
    RowFound(s, r);
    StepSends(s, step);
    if (step.Retry? || step.RetryLost?) && NeedsLink(s, step.id, step.now) {
      OpensNextId(s, step.id, step.now);
    } else if step.Ask? && HasAttempt(s, step.ref) {
      RowFound(s, step.ref);
    }
  }

  lemma UnaskedNew(s: Shop, step: Step, lost: set<OrderId>, r: Ref)
    requires ShopInv(s) && SentOnce(s, lost) && r in Next(s, step).0.asking && !HasAttempt(s, r)
    requires (step.Retry? || step.RetryLost?) && Reopens(s, step, step.id) ==> step.id !in lost
    requires HasAttempt(Next(s, step).0, r)
    ensures AttemptAt(Next(s, step).0, r).providerId !in Ids(Next(s, step).0.sent)
  {
    hide ShopInv, Next, NextId, Kept, NoDuplicates, HasAttempt, AttemptAt, NeedsLink, Ids;
    var s' := Next(s, step).0;
    var x := AttemptAt(s', r).providerId;
    NextKeeps(s, step);
    KeptInv(s, s');
    RowFound(s', r);
    if step.Retry? || step.RetryLost? || step.Ask? {
      RetryAsks(s, step);
      AskingHasRow(s, r);
      assert false;
    }
    StepSends(s, step);
    assert Ids(s'.sent) == Ids(s.sent);
    if x in s.byProvider {
      KeptProvider(s, s', x);
      IdHasRow(s, x);
    } else if LostNext(s, lost, x) {
      var id :| id in lost && id in s.orders && x == NextId(s.orders[id]);
      NextIdStays(s, step, id);
      FreeNext(s', id);
    }
  }

  lemma FreeNext(s: Shop, id: OrderId)
    requires ShopInv(s) && id in s.orders
    ensures NextId(s.orders[id]) !in s.byProvider
  {
    NextIdFree(s, id);
  }

  lemma SendsOne(s: Shop, step: Step)
    ensures |Sends(s, step)| <= 1
  {
    hide NeedsLink, NextId;
  }

  lemma SentOnceStep(s: Shop, step: Step, lost: set<OrderId>)
    requires ShopInv(s) && SentOnce(s, lost)
    requires (step.Retry? || step.RetryLost?) && Reopens(s, step, step.id) ==> step.id !in lost
    ensures SentOnce(Next(s, step).0,
                     lost + if step.RetryLost? && Reopens(s, step, step.id) then {step.id} else {})
  {
    hide ShopInv, Next, NextId, Sends, Reopens, HasAttempt, AttemptAt, Ids;
    var s' := Next(s, step).0;
    var more := lost + if step.RetryLost? && Reopens(s, step, step.id) then {step.id} else {};
    StepSends(s, step);
    SendsOne(s, step);
    if Sends(s, step) != [] {
      var x := Sends(s, step)[0];
      assert Sends(s, step) == [x] && x in Sends(s, step);
      SendsNew(s, step, lost, x);
      NoDuplicatesAppend(Ids(s.sent), x);
    }
    forall x | x in Ids(s'.sent) ensures x in s'.byProvider || LostNext(s', more, x) {
      if x in Ids(s.sent) {
        SentKnown(s, step, lost, x);
      } else {
        NewKnown(s, step, more, x);
      }
    }
    hide LostNext, NoDuplicates;
    forall r | r in s'.asking && HasAttempt(s', r) ensures AttemptAt(s', r).providerId !in Ids(s'.sent) {
      if HasAttempt(s, r) {
        UnaskedOld(s, step, lost, r);
      } else {
        UnaskedNew(s, step, lost, r);
      }
    }
  }

  lemma {:induction false} OnceUnlessReopened(s: Shop, steps: seq<Step>)
    requires ShopInv(s) && s.sent == [] && !Reopened(s, steps)
    ensures SentOnce(Run(s, steps), LostOrders(s, steps))
  {
    hide ShopInv, Next, Reopens, SentOnce;
    if steps == [] {
      NothingSent(s);
    } else {
      var before := steps[..|steps| - 1];
      OnceUnlessReopened(s, before);
      RunKeeps(s, before);
      KeptInv(s, Run(s, before));
      SentOnceStep(Run(s, before), steps[|steps| - 1], LostOrders(s, before));
    }
  }

  lemma NothingSent(s: Shop)
    requires s.sent == []
    ensures SentOnce(s, {})
  {
    assert Ids(s.sent) == [];
    hide HasAttempt, AttemptAt;
  }

  // ---------------------------------------------------------- and conversely

  /** Some id went out twice, or every lost order's next id has gone out. */
  ghost predicate LostAreOut(s: Shop, lost: set<OrderId>) {
    !NoDuplicates(Ids(s.sent)) || forall id :: id in lost ==> id in s.orders && NextId(s.orders[id]) in Ids(s.sent)
  }

  lemma Repeated<T>(s: seq<T>, x: T)
    requires x in s
    ensures !NoDuplicates(s + [x])
  {
    var i :| 0 <= i < |s| && s[i] == x;
    assert (s + [x])[i] == x && (s + [x])[|s|] == x;
  }

  lemma StillRepeated<T>(s: seq<T>, more: seq<T>)
    requires !NoDuplicates(s)
    ensures !NoDuplicates(s + more)
  {
    var i, j :| 0 <= i < j < |s| && s[i] == s[j];
    assert (s + more)[i] == (s + more)[j];
  }

  /** Opening a lost order again sends its id a second time. */
  lemma ReopenRepeats(s: Shop, step: Step, lost: set<OrderId>)
    requires ShopInv(s) && LostAreOut(s, lost) && (step.Retry? || step.RetryLost?)
    requires step.id in lost && Reopens(s, step, step.id)
    ensures !NoDuplicates(Ids(Next(s, step).0.sent))
  {
    hide ShopInv, Next, NextId, NoDuplicates, NeedsLink, Ids;
    StepSends(s, step);
    if NoDuplicates(Ids(s.sent)) {
      Repeated(Ids(s.sent), NextId(s.orders[step.id]));
    } else {
      StillRepeated(Ids(s.sent), Sends(s, step));
    }
  }

  lemma OutStep(s: Shop, step: Step, lost: set<OrderId>)
    requires ShopInv(s) && LostAreOut(s, lost)
    ensures LostAreOut(Next(s, step).0,
                       lost + if step.RetryLost? && Reopens(s, step, step.id) then {step.id} else {})
  {
    hide ShopInv, Next, NextId, NoDuplicates, Ids, Live, WholeRupiah;
    var s' := Next(s, step).0;
    StepSends(s, step);
    if !NoDuplicates(Ids(s.sent)) {
      StillRepeated(Ids(s.sent), Sends(s, step));
    } else if (step.Retry? || step.RetryLost?) && step.id in lost && Reopens(s, step, step.id) {
      ReopenRepeats(s, step, lost);
    } else {
      forall id | id in lost ensures id in s'.orders && NextId(s'.orders[id]) in Ids(s'.sent) {
        NextIdStays(s, step, id);
      }
      if step.RetryLost? && Reopens(s, step, step.id) {
        NextIdStays(s, step, step.id);
      }
    }
  }

  lemma {:induction false} LostStayOut(s: Shop, steps: seq<Step>)
    requires ShopInv(s)
    ensures LostAreOut(Run(s, steps), LostOrders(s, steps))
  {
    hide ShopInv, Next, Reopens, LostAreOut;
    if steps == [] {
      NoneLostYet(s);
    } else {
      var before := steps[..|steps| - 1];
      LostStayOut(s, before);
      RunKeeps(s, before);
      KeptInv(s, Run(s, before));
      OutStep(Run(s, before), steps[|steps| - 1], LostOrders(s, before));
    }
  }

  lemma NoneLostYet(s: Shop)
    ensures LostAreOut(s, {})
  {
  }

  lemma {:induction false} TwiceIfReopened(s: Shop, steps: seq<Step>)
    requires ShopInv(s) && Reopened(s, steps)
    ensures !NoDuplicates(Ids(Run(s, steps).sent))
  {
    hide ShopInv, Next, Reopens, LostAreOut, NoDuplicates, Ids, Sends;
    var before, step := steps[..|steps| - 1], steps[|steps| - 1];
    var u := Run(s, before);
    RunKeeps(s, before);
    KeptInv(s, u);
    if Reopened(s, before) {
      TwiceIfReopened(s, before);
      StepSends(u, step);
      StillRepeated(Ids(u.sent), Sends(u, step));
    } else {
      LostStayOut(s, before);
      ReopenRepeats(u, step, LostOrders(s, before));
    }
  }

  // -------------------------------------------------------------- the theorem

  /** The i-th step of the run is a pay-again of order id, which needs a link. */
  predicate OpensAt(s: Shop, steps: seq<Step>, i: nat, id: OrderId) {
    i < |steps| && Reopens(Run(s, steps[..i]), steps[i], id)
  }

  /** A pay-again of order id was lost at the i-th step, and at the j-th it is opened
      again, whatever happened in between. */
  predicate LostThenOpened(s: Shop, steps: seq<Step>, i: nat, j: nat, id: OrderId) {
    i < j && OpensAt(s, steps, i, id) && steps[i].RetryLost? && OpensAt(s, steps, j, id)
  }

  lemma OpensAtPrefix(s: Shop, steps: seq<Step>, i: nat, id: OrderId)
    requires steps != [] && i < |steps| - 1
    ensures OpensAt(s, steps[..|steps| - 1], i, id) <==> OpensAt(s, steps, i, id)
  {
    hide Reopens, Run;
    assert steps[..|steps| - 1][..i] == steps[..i];
  }

  lemma {:induction false} LostOrdersAre(s: Shop, steps: seq<Step>, id: OrderId)
    ensures id in LostOrders(s, steps) <==> exists i: nat :: OpensAt(s, steps, i, id) && steps[i].RetryLost?
  {
    hide NeedsLink, Run;
    if steps != [] {
      var n := |steps| - 1;
      LostOrdersAre(s, steps[..n], id);
      if i: nat :| OpensAt(s, steps[..n], i, id) && steps[..n][i].RetryLost? {
        OpensAtPrefix(s, steps, i, id);
      }
      if i: nat :| OpensAt(s, steps, i, id) && steps[i].RetryLost? {
        if i < n {
          OpensAtPrefix(s, steps, i, id);
          assert OpensAt(s, steps[..n], i, id);
        }
      }
      if id in LostOrders(s, steps) && id !in LostOrders(s, steps[..n]) {
        assert OpensAt(s, steps, n, id);
      }
    }
  }

  lemma {:induction false} ReopenedIs(s: Shop, steps: seq<Step>)
    ensures Reopened(s, steps) <==> exists i: nat, j: nat, id: OrderId :: LostThenOpened(s, steps, i, j, id)
  {
    hide Reopens, Run, LostOrders;
    if steps != [] {
      var n := |steps| - 1;
      ReopenedIs(s, steps[..n]);
      if i: nat, j: nat, id: OrderId :| LostThenOpened(s, steps[..n], i, j, id) {
        OpensAtPrefix(s, steps, i, id);
        OpensAtPrefix(s, steps, j, id);
        assert LostThenOpened(s, steps, i, j, id);
      }
      if i: nat, j: nat, id: OrderId :| LostThenOpened(s, steps, i, j, id) {
        OpensAtPrefix(s, steps, i, id);
        if j < n {
          OpensAtPrefix(s, steps, j, id);
          assert LostThenOpened(s, steps[..n], i, j, id);
        } else {
          LostOrdersAre(s, steps[..n], id);
          assert OpensAt(s, steps[..n], i, id);
          OpenedId(Run(s, steps[..n]), steps[n], id);
        }
      }
      if Reopened(s, steps) && !Reopened(s, steps[..n]) {
        var id := steps[n].id;
        LostOrdersAre(s, steps[..n], id);
        var i: nat :| OpensAt(s, steps[..n], i, id) && steps[..n][i].RetryLost?;
        OpensAtPrefix(s, steps, i, id);
        assert LostThenOpened(s, steps, i, n, id);
      }
    }
  }

  lemma OpenedId(s: Shop, step: Step, id: OrderId)
    requires Reopens(s, step, id)
    ensures (step.Retry? || step.RetryLost?) && step.id == id
  {
    hide NeedsLink;
  }

  /** Over every run of a shop, some attempt id goes out to Midtrans twice exactly
      when some order needed a link at a pay-again that was lost after its call, and
      needed one again at a later pay-again, whatever happened in between. */
  lemma LostCommitSendsTwice(prefix: string, bank: bool, midtrans: bool, steps: seq<Step>)
    requires ValidPrefix(prefix)
    ensures var s := Opened(prefix, bank, midtrans);
            !NoDuplicates(Ids(Run(s, steps).sent)) <==>
            exists i: nat, j: nat, id: OrderId :: LostThenOpened(s, steps, i, j, id)
  {
    var s := Opened(prefix, bank, midtrans);
    OpenedInv(prefix, bank, midtrans);
    hide ShopInv, Run, LostThenOpened;
    ReopenedIs(s, steps);
    if Reopened(s, steps) {
      TwiceIfReopened(s, steps);
    } else {
      OnceUnlessReopened(s, steps);
    }
  }
}
