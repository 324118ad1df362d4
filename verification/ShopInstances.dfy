/** Runs of a shop from its opening in which a promise is not kept: money for a
    cancelled order that no refund can be recorded for and its payer is not shown,
    and an attempt id that goes out twice. */
module ShopInstances {
  import opened Base
  import opened OrderIds
  import opened OrderModel
  import opened ShopModel
  import opened ShopLaws
  import opened ShopTheorems
  import opened ResendTheorems

  const PREFIX := "ERG"
  const TOTAL := 1000000

  lemma PrefixIsValid()
    ensures ValidPrefix(PREFIX)
  {
  }

  /** One shirt, at 10000 rupiah, paid through Midtrans. */
  function Input(): CheckoutInput {
    CheckoutInput(Method.Midtrans, map[7 := Offer(true, Some(TOTAL), "TEE", "Tee")], Ok(0), "jne", 0, 0, true)
  }

  function Bought(): seq<Step> {
    [CreateCart(0, 0), ChangeCart(0, 7, 1, true, 0), CheckOut(0, Input())]
  }

  lemma RunMore(s: Shop, steps: seq<Step>, step: Step)
    ensures Run(s, steps + [step]) == Next(Run(s, steps), step).0
  {
    hide Next;
    var more := steps + [step];
    assert more[..|more| - 1] == steps;
  }

  lemma RunNone(s: Shop)
    ensures Run(s, []) == s
  {
  }

  function Start(): Shop {
    Opened(PREFIX, true, true)
  }

  function Number(): string {
    OrderNumber(PREFIX, 1)
  }

  /** A shop whose one order has these attempts. */
  predicate Holds(s: Shop, status: Status, attempts: seq<Attempt>) {
    && s.midtrans && 0 in s.orders
    && s.orders[0].payBy.Midtrans? && s.orders[0].status == status && s.orders[0].total == TOTAL
    && s.orders[0].number == Number() && s.orders[0].paidAt.None? && s.orders[0].refundedAt.None?
    && s.orders[0].attempts == attempts
    && Number() in s.byProvider && s.byProvider[Number()] == Ref(0, 1)
    && ProviderId(Number(), |attempts| + 1) !in s.byProvider
  }

  function First(status: AttemptStatus, reported: Option<string>): Attempt {
    Attempt(1, Number(), status, TOTAL, None, PAY_LINK_TTL, None, reported)
  }

  lemma CartFilled()
    ensures var s := Run(Start(), [CreateCart(0, 0), ChangeCart(0, 7, 1, true, 0)]);
            s == Start().(carts := map[0 := Cart(false, CART_TTL, [CartItem(7, 1)])])
  {
    RunNone(Start());
    RunMore(Start(), [], CreateCart(0, 0));
    RunMore(Start(), [CreateCart(0, 0)], ChangeCart(0, 7, 1, true, 0));
    assert [] + [CreateCart(0, 0)] == [CreateCart(0, 0)];
    assert [CreateCart(0, 0)] + [ChangeCart(0, 7, 1, true, 0)] == [CreateCart(0, 0), ChangeCart(0, 7, 1, true, 0)];
    hide Run;
  }

  lemma OneLine()
    ensures UnavailableItems([CartItem(7, 1)], Input().offers) == []
    ensures PricedLines([CartItem(7, 1)], Input().offers) == [Line(7, 1, TOTAL, 0, "TEE", "Tee")]
  {
    assert [CartItem(7, 1)][..0] == [];
    assert UnavailableItems([], Input().offers) == [] && PricedLines([], Input().offers) == [];
  }

  lemma OneTotal()
    ensures Subtotal([Line(7, 1, TOTAL, 0, "TEE", "Tee")]) == TOTAL && Discounts([Line(7, 1, TOTAL, 0, "TEE", "Tee")]) == 0
  {
    var lines := [Line(7, 1, TOTAL, 0, "TEE", "Tee")];
    assert lines[..0] == [];
    assert Subtotal([]) == 0 && Discounts([]) == 0;
  }

  lemma SecondDiffers()
    ensures ProviderId(Number(), 1) == Number() && ProviderId(Number(), 2) != Number()
  {
    assert |ProviderId(Number(), 2)| > |Number()|;
  }

  lemma OrderBought()
    ensures Holds(Run(Start(), Bought()), Pending, [First(Waiting, None)])
  {
    hide Run, OrderNumber, ProviderId, UnavailableItems, PricedLines, Subtotal, Discounts;
    CartFilled();
    OneLine();
    OneTotal();
    SecondDiffers();
    var s := Run(Start(), [CreateCart(0, 0), ChangeCart(0, 7, 1, true, 0)]);
    RunMore(Start(), [CreateCart(0, 0), ChangeCart(0, 7, 1, true, 0)], CheckOut(0, Input()));
    assert [CreateCart(0, 0), ChangeCart(0, 7, 1, true, 0)] + [CheckOut(0, Input())] == Bought();
  }

  // --------------------------------------------------------- sent twice

  lemma LostBought()
    ensures NeedsLink(Run(Start(), Bought()), 0, 1)
    ensures NeedsLink(Run(Start(), Bought() + [RetryLost(0, 1)]), 0, 2)
  {
    hide Run, Bought, OrderNumber, ProviderId;
    OrderBought();
    var s := Run(Start(), Bought());
    RunMore(Start(), Bought(), RetryLost(0, 1));
    LostLeavesOrders(s, 0, 1);
  }

  lemma LostLeavesOrders(s: Shop, id: OrderId, now: int)
    ensures PayAgainLost(s, id, now).0.orders == s.orders && PayAgainLost(s, id, now).0.midtrans == s.midtrans
  {
    hide ChoosePayment;
  }

  /** A shirt is ordered, the first pay-again is lost after its call and the second
      is not: one id has gone out twice. */
  lemma AnIdGoesOutTwice()
    ensures var steps := Bought() + [RetryLost(0, 1), Retry(0, None, 2)];
            !NoDuplicates(Ids(Run(Start(), steps).sent))
  {
    var steps := Bought() + [RetryLost(0, 1), Retry(0, None, 2)];
    assert steps[..3] == Bought() && steps[..4] == Bought() + [RetryLost(0, 1)];
    LostBought();
    PrefixIsValid();
    hide NeedsLink, Run, ValidPrefix;
    assert LostThenOpened(Start(), steps, 3, 4, 0);
    LostCommitSendsTwice(PREFIX, true, true, steps);
  }

  // ------------------------------------------------- money nobody is shown

  const EXPIRED := Report("expire", "", None)
  const SETTLED := Report("settlement", "", Some(10000.0))

  /** The first link expires unpaid, a second attempt is opened, the order is
      cancelled, and then the first one is paid after all. */
  function Late(): seq<Step> {
    [Notification(Number(), EXPIRED, 1, true), Retry(0, None, 2),
     MoveOrder(0, Cancelled, ShipInput(None, None), 3, true), Notification(Number(), SETTLED, 4, true)]
  }

  lemma AfterExpiry(s: Shop)
    requires Holds(s, Pending, [First(Waiting, None)])
    ensures Holds(Next(s, Notification(Number(), EXPIRED, 1, true)).0, Pending, [First(Failed, Some("expire"))])
  {
    hide OrderNumber, ProviderId;
  }

  function Second(): Attempt {
    Attempt(2, ProviderId(Number(), 2), Waiting, TOTAL, None, 2 + PAY_LINK_TTL, None, None)
  }

  lemma AfterRetry(s: Shop)
    requires Holds(s, Pending, [First(Failed, Some("expire"))])
    ensures Holds2(Next(s, Retry(0, None, 2)).0, Pending, First(Failed, Some("expire")))
  {
    var attempts := [First(Failed, Some("expire"))];
    assert attempts[..0] == [];
    assert Latest(attempts) == Some(0);
    hide OrderNumber, ProviderId, Latest;
  }

  /** The same with the second attempt beside the first. */
  predicate Holds2(s: Shop, status: Status, first: Attempt) {
    && 0 in s.orders && s.orders[0].payBy.Midtrans? && s.orders[0].status == status && s.orders[0].total == TOTAL
    && s.orders[0].paidAt.None? && s.orders[0].refundedAt.None? && s.orders[0].attempts == [first, Second()]
    && Number() in s.byProvider && s.byProvider[Number()] == Ref(0, 1)
    && ProviderId(Number(), 2) in s.byProvider && s.byProvider[ProviderId(Number(), 2)] == Ref(0, 2)
  }

  lemma AfterCancel(s: Shop)
    requires Holds2(s, Pending, First(Failed, Some("expire")))
    ensures Holds2(Next(s, MoveOrder(0, Cancelled, ShipInput(None, None), 3, true)).0, Cancelled, First(Failed, Some("expire")))
  {
    hide OrderNumber, ProviderId;
  }

  lemma AfterLateMoney(s: Shop)
    requires Holds2(s, Cancelled, First(Failed, Some("expire")))
    ensures Holds2(Next(s, Notification(Number(), SETTLED, 4, true)).0, Cancelled,
                   First(Settled, Some("settlement")).(paidAt := Some(4)))
  {
    hide OrderNumber, ProviderId;
  }

  /** The money has arrived, no refund can be recorded for it, and the shopper is
      shown a pending payment. */
  lemma LateMoneyIsStranded()
    ensures var s := Run(Start(), Bought() + Late());
            && 0 in s.orders && s.orders[0].attempts != [] && s.orders[0].attempts[0].status.Settled?
            && s.orders[0].status.Cancelled? && Refund(s.orders[0], 5) == Err(NotRefundable)
            && PaymentStatus(s.orders[0]) == Some(ShownPending)
  {
    hide Run, Next, Bought, OrderNumber, ProviderId;
    var a, b := Bought(), Late();
    OrderBought();
    RunMore(Start(), a, b[0]);
    RunMore(Start(), a + [b[0]], b[1]);
    RunMore(Start(), a + [b[0]] + [b[1]], b[2]);
    RunMore(Start(), a + [b[0]] + [b[1]] + [b[2]], b[3]);
    assert a + [b[0]] + [b[1]] + [b[2]] + [b[3]] == a + b;
    AfterExpiry(Run(Start(), a));
    AfterRetry(Run(Start(), a + [b[0]]));
    AfterCancel(Run(Start(), a + [b[0]] + [b[1]]));
    AfterLateMoney(Run(Start(), a + [b[0]] + [b[1]] + [b[2]]));
    SecondIsLatest(First(Settled, Some("settlement")).(paidAt := Some(4)));
  }

  lemma SecondIsLatest(first: Attempt)
    requires first.number == 1
    ensures Latest([first, Second()]) == Some(1)
  {
    var attempts := [first, Second()];
    assert attempts[..1] == [first] && [first][..0] == [];
    assert Latest([first]) == Some(0);
  }

  // ------------------------------------------------------ money paid twice

  /** The first link expires, a second attempt is opened and paid, and then the
      first one is paid as well. */
  function Twice(): seq<Step> {
    [Notification(Number(), EXPIRED, 1, true), Retry(0, None, 2),
     Notification(ProviderId(Number(), 2), SETTLED, 3, true), Notification(Number(), SETTLED, 4, true)]
  }

  /** Both attempts settled or not, on an order that the second one paid. */
  predicate Paid2(s: Shop, first: Attempt, log: seq<Audit>) {
    && 0 in s.orders && s.orders[0].status.Paid? && s.orders[0].total == TOTAL && s.orders[0].audit == log
    && s.orders[0].attempts == [first, Second().(status := Settled, paidAt := Some(3), reported := Some("settlement"))]
    && Number() in s.byProvider && s.byProvider[Number()] == Ref(0, 1)
  }

  lemma AfterSecondMoney(s: Shop, log: seq<Audit>)
    requires Holds2(s, Pending, First(Failed, Some("expire"))) && s.orders[0].audit == log
    ensures Paid2(Next(s, Notification(ProviderId(Number(), 2), SETTLED, 3, true)).0, First(Failed, Some("expire")),
                  log + [Moved(Pending, Paid)])
  {
    hide OrderNumber, ProviderId;
  }

  lemma AfterFirstMoney(s: Shop, log: seq<Audit>)
    requires Paid2(s, First(Failed, Some("expire")), log)
    ensures Paid2(Next(s, Notification(Number(), SETTLED, 4, true)).0,
                  First(Settled, Some("settlement")).(paidAt := Some(4)), log)
  {
    hide OrderNumber, ProviderId;
  }

  /** Two attempts are paid, and the audit log ends as the first payment left it:
      nothing says that the second sum is owed. */
  lemma TheSecondPaymentIsSilent()
    ensures var steps := Bought() + Twice();
            var once, s := Run(Start(), steps[..|steps| - 1]), Run(Start(), steps);
            && 0 in once.orders && 0 in s.orders && s.orders[0].audit == once.orders[0].audit
            && |s.orders[0].attempts| == 2
            && s.orders[0].attempts[0].status.Settled? && s.orders[0].attempts[1].status.Settled?
  {
    hide Run, Next, Bought, OrderNumber, ProviderId;
    var a, b := Bought(), Twice();
    OrderBought();
    RunMore(Start(), a, b[0]);
    RunMore(Start(), a + [b[0]], b[1]);
    RunMore(Start(), a + [b[0]] + [b[1]], b[2]);
    RunMore(Start(), a + [b[0]] + [b[1]] + [b[2]], b[3]);
    assert a + [b[0]] + [b[1]] + [b[2]] + [b[3]] == a + b;
    assert (a + b)[..|a + b| - 1] == a + [b[0]] + [b[1]] + [b[2]];
    AfterExpiry(Run(Start(), a));
    AfterRetry(Run(Start(), a + [b[0]]));
    var log := Run(Start(), a + [b[0]] + [b[1]]).orders[0].audit;
    AfterSecondMoney(Run(Start(), a + [b[0]] + [b[1]]), log);
    AfterFirstMoney(Run(Start(), a + [b[0]] + [b[1]] + [b[2]]), log + [Moved(Pending, Paid)]);
  }
}
