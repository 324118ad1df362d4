/** One cart, one order: for any number of checkouts and edits of a cart, in any
    interleaving with everything else the shop does. */
module CheckoutTheorems {
  import opened Base
  import opened OrderIds
  import opened OrderModel
  import opened OrderLaws
  import opened ShopModel
  import opened ShopLaws
  import opened ShopSteps
  import opened ShopTheorems

  /** What the i-th step of a run answered its caller. */
  function Answer(s: Shop, steps: seq<Step>, i: nat): Outcome
    requires i < |steps|
  {
    Next(Run(s, steps[..i]), steps[i]).1
  }

  /** The i-th step is a checkout of this cart that succeeded. */
  predicate Succeeds(s: Shop, steps: seq<Step>, i: nat, c: CartId)
    requires i < |steps|
  {
    steps[i].CheckOut? && steps[i].cart == c && Answer(s, steps, i).CheckedOut?
  }

  lemma {:induction false} RunSplit(s: Shop, steps: seq<Step>, i: nat)
    requires i <= |steps|
    ensures Run(s, steps) == Run(Run(s, steps[..i]), steps[i..])
  {
    hide Next;
    if i < |steps| {
      var front := steps[..|steps| - 1];
      RunSplit(s, front, i);
      assert front[..i] == steps[..i];
      assert steps[i..][..|steps| - i - 1] == front[i..];
    } else {
      assert steps[..i] == steps;
    }
  }

  lemma CartsHeld(s: Shop)
    requires ShopInv(s)
    ensures CartsOk(s)
  {
    hide OrdersOk, Indexed, CartsOk, CallsOk;
  }

  lemma PlaceAnswers(s: Shop, c: CartId, shipping: int, input: CheckoutInput)
    requires c in s.carts && PlaceOrder(s, c, shipping, input).1.CheckedOut?
    ensures var (s', answer) := PlaceOrder(s, c, shipping, input);
            answer.created && answer.order == input.newId && c in s'.byCart && s'.byCart[c] == input.newId
  {
    PlaceWrites(s, c, shipping, input);
  }

  /** A success creates the cart's order exactly when the cart had none; any
      other success hands back the one it has and changes nothing. */
  lemma CheckoutAnswers(s: Shop, c: CartId, input: CheckoutInput)
    requires CartsOk(s) && Checkout(s, c, input).1.CheckedOut?
    ensures var (s', answer) := Checkout(s, c, input);
            && c in s'.byCart && s'.byCart[c] == answer.order
            && (answer.created <==> c !in s.byCart)
            && (!answer.created ==> s' == s)
  {
    assert c in s.byCart <==> c in s.carts && s.carts[c].checkedOut;
    hide CartsOk, PlaceOrder;
    if !s.carts[c].checkedOut {
      PlaceAnswers(s, c, input.quote.value, input);
    }
  }

  lemma CartKeepsItsOrder(s: Shop, more: seq<Step>, c: CartId)
    requires ShopInv(s) && c in s.byCart
    ensures ShopInv(Run(s, more)) && c in Run(s, more).byCart && Run(s, more).byCart[c] == s.byCart[c]
    ensures c in s.carts && c in Run(s, more).carts && Run(s, more).carts[c] == s.carts[c]
  {
    assert CartsOk(s);
    RunKeeps(s, more);
    hide ShopInv, Evolves;
  }

  lemma LaterSuccess(mid: Shop, between: seq<Step>, c: CartId, input: CheckoutInput)
    requires ShopInv(mid) && c in mid.byCart && Checkout(Run(mid, between), c, input).1.CheckedOut?
    ensures Checkout(Run(mid, between), c, input).1.order == mid.byCart[c]
    ensures !Checkout(Run(mid, between), c, input).1.created
  {
    hide ShopInv, Run, CartsOk;
    CartKeepsItsOrder(mid, between, c);
    CartsHeld(Run(mid, between));
    CheckoutAnswers(Run(mid, between), c, input);
  }

  lemma FirstSuccess(s: Shop, steps: seq<Step>, c: CartId, i: nat)
    requires ShopInv(s) && i < |steps| && Succeeds(s, steps, i, c)
    ensures var mid := Run(s, steps[..i + 1]);
            ShopInv(mid) && c in mid.byCart && mid.byCart[c] == Answer(s, steps, i).order
  {
    hide ShopInv, Checkout, CartsOk, Next;
    var at := Run(s, steps[..i]);
    assert steps[..i + 1][..i] == steps[..i];
    assert Run(s, steps[..i + 1]) == Next(at, steps[i]).0;
    hide Run;
    assert Next(at, steps[i]) == Checkout(at, c, steps[i].input) by {
      CheckoutIs(at, c, steps[i].input);
    }
    RunIsInv(s, steps[..i]);
    RunIsInv(s, steps[..i + 1]);
    CartsHeld(at);
    CheckoutAnswers(at, c, steps[i].input);
  }

  /** Two successful checkouts of a cart answer the same order, and the later
      one says that it did not create it. */
  lemma OneCartOneOrder(s: Shop, steps: seq<Step>, c: CartId, i: nat, j: nat)
    requires ShopInv(s) && i < j < |steps| && Succeeds(s, steps, i, c) && Succeeds(s, steps, j, c)
    ensures Answer(s, steps, j).order == Answer(s, steps, i).order
    ensures !Answer(s, steps, j).created
  {
    hide ShopInv, Run, Checkout;
    FirstSuccess(s, steps, c, i);
    RunSplit(s, steps[..j], i + 1);
    assert steps[..j][..i + 1] == steps[..i + 1];
    LaterSuccess(Run(s, steps[..i + 1]), steps[..j][i + 1..], c, steps[j].input);
  }

  ghost predicate RunInv(s: Shop, steps: seq<Step>) {
    ShopInv(Run(s, steps))
  }

  lemma RunIsInv(s: Shop, steps: seq<Step>)
    requires ShopInv(s)
    ensures RunInv(s, steps)
  {
    hide ShopInv;
    RunKeeps(s, steps);
    KeptInv(s, Run(s, steps));
  }

  /** Only a checkout that says so creates a cart's order. */
  lemma CreatedBySuccess(s: Shop, step: Step, c: CartId)
    requires c !in s.byCart && c in Next(s, step).0.byCart
    ensures step.CheckOut? && step.cart == c && Next(s, step).1.CheckedOut? && Next(s, step).1.created
  {
    hide ChoosePayment, Apply, Move, Edit, Refund, PlaceOrder, CreateManual;
    match step {
      case ManualOrder(id, lines, offers, terms, queued) => ManualMakesNoCart(s, id, lines, offers, terms, queued);
      case CheckOut(d, input) =>
        if Checkout(s, d, input).0 != s {
          PlaceTouchesOneCart(s, d, input.quote.value, input, c);
        }
      case _ =>
    }
  }

  lemma ManualMakesNoCart(s: Shop, id: OrderId, lines: seq<ManualLine>, offers: map<VariantId, Offer>,
                          terms: Result<Terms, Refusal>, queued: bool)
    ensures CreateManual(s, id, lines, offers, terms, queued).0.byCart == s.byCart
  {
    hide ManualLines, OrderInsertable, OrderNumber, Subtotal, Discounts;
  }

  lemma PlaceTouchesOneCart(s: Shop, d: CartId, shipping: int, input: CheckoutInput, c: CartId)
    requires d in s.carts && c !in s.byCart && c in PlaceOrder(s, d, shipping, input).0.byCart
    ensures c == d && PlaceOrder(s, d, shipping, input).1.CheckedOut? && PlaceOrder(s, d, shipping, input).1.created
  {
    if PlaceOrder(s, d, shipping, input).1.CheckedOut? {
      PlaceWrites(s, d, shipping, input);
    }
  }

  /** If any checkout of a cart succeeded, one of them created the order: with
      OneCartOneOrder, exactly one. */
  lemma {:induction false} SomeSuccessCreated(s: Shop, steps: seq<Step>, c: CartId)
    requires c !in s.byCart && c in Run(s, steps).byCart
    ensures exists i :: 0 <= i < |steps| && Succeeds(s, steps, i, c) && Answer(s, steps, i).created
  {
    var last := |steps| - 1;
    var before := Run(s, steps[..last]);
    hide Next;
    if c in before.byCart {
      SomeSuccessCreated(s, steps[..last], c);
      var i :| 0 <= i < last && Succeeds(s, steps[..last], i, c) && Answer(s, steps[..last], i).created;
      assert steps[..last][..i] == steps[..i];
      assert Succeeds(s, steps, i, c) && Answer(s, steps, i).created;
    } else {
      CreatedBySuccess(before, steps[last], c);
      assert Succeeds(s, steps, last, c) && Answer(s, steps, last).created;
    }
  }

  /** In any run from a shop's opening in which a checkout of a cart succeeds, exactly
      one of them reports that it created the order, and all of them return that
      order. */
  lemma ExactlyOneCreates(prefix: string, bank: bool, midtrans: bool, steps: seq<Step>, c: CartId, i: nat)
    returns (k: nat)
    requires ValidPrefix(prefix) && i < |steps| && Succeeds(Opened(prefix, bank, midtrans), steps, i, c)
    ensures var s := Opened(prefix, bank, midtrans);
            && k < |steps| && Succeeds(s, steps, k, c)
            && forall j :: 0 <= j < |steps| && Succeeds(s, steps, j, c) ==>
                 && Answer(s, steps, j).order == Answer(s, steps, k).order
                 && (Answer(s, steps, j).created <==> j == k)
  {
    var s := Opened(prefix, bank, midtrans);
    OpenedInv(prefix, bank, midtrans);
    assert c !in s.byCart;
    hide ShopInv, Run, Succeeds, Answer;
    FirstSuccess(s, steps, c, i);
    CartKeepsItsOrder(Run(s, steps[..i + 1]), steps[i + 1..], c);
    RunSplit(s, steps, i + 1);
    SomeSuccessCreated(s, steps, c);
    k :| 0 <= k < |steps| && Succeeds(s, steps, k, c) && Answer(s, steps, k).created;
    forall j | 0 <= j < |steps| && Succeeds(s, steps, j, c)
      ensures Answer(s, steps, j).order == Answer(s, steps, k).order
      ensures Answer(s, steps, j).created <==> j == k
    {
      if j < k {
        OneCartOneOrder(s, steps, c, j, k);
      } else if k < j {
        OneCartOneOrder(s, steps, c, k, j);
      }
    }
  }

  /** Whatever is asked, and however long after the cart expired, a checkout of
      a cart that has its order returns it; and the cart can no longer change. */
  lemma ReplaysAlwaysSucceed(s: Shop, c: CartId, input: CheckoutInput, v: VariantId, qty: int, visible: bool, now: int)
    requires Reachable(s) && c in s.byCart
    ensures s.byCart[c] in s.orders
    ensures Checkout(s, c, input) ==
            (s, CheckedOut(s.byCart[c], false, ReplayAnswer(s.orders[s.byCart[c]], input.now)))
    ensures EditCart(s, c, v, qty, visible, now).0 == s && EditCart(s, c, v, qty, visible, now).1.Refused?
  {
    hide Reachable, ShopInv, PlaceOrder;
    ReachableInv(s);
    CartsHeld(s);
  }

  /** A replay's link is the one link the order can be paid at, if there is one. */
  lemma ReplayOffersTheLiveLink(o: Order, now: int)
    requires Good(o) && o.payBy.Midtrans?
    ensures ReplayAnswer(o, now).LiveLink? <==> exists i :: 0 <= i < |o.attempts| && Live(o.attempts[i], o, now)
    ensures ReplayAnswer(o, now).LiveLink? ==>
              ReplayAnswer(o, now).link == o.attempts[|o.attempts| - 1].link.value &&
              Live(o.attempts[|o.attempts| - 1], o, now)
  {
    LatestIsLast(o);
  }

  /** The order's lines are the cart's items, and neither ever changes; no other
      order ever comes of the cart. */
  lemma LinesAreTheCartForGood(s: Shop, more: seq<Step>, c: CartId)
    requires Reachable(s) && c in s.byCart
    ensures var s' := Run(s, more);
            var id := s.byCart[c];
            && c in s'.carts && c in s.carts && s'.carts[c].items == s.carts[c].items
            && id in s.orders && id in s'.orders && s'.orders[id].lines == s.orders[id].lines
            && LinesAre(s'.orders[id].lines, s.carts[c].items)
            && (forall other :: other in s'.orders && s'.orders[other].cart == Some(c) ==> other == id)
  {
    ReachableInv(s);
    CartKeepsItsOrder(s, more, c);
    assert CartsOk(s);
    assert CartsOk(Run(s, more));
    OrderLater(s, more, s.byCart[c]);
  }

  lemma WinnerWrites(s: Shop, c: CartId, input: CheckoutInput)
    requires Checkout(s, c, input).1.CheckedOut? && Checkout(s, c, input).1.created
    ensures c in s.carts && input.quote.Ok? && input.newId in Checkout(s, c, input).0.orders
    ensures var base := CheckoutOrder(s, c, s.carts[c], input.quote.value, input);
            var attempts := if base.payBy.Midtrans? then [NewAttempt(base, 1, input.now)] else [];
            Checkout(s, c, input).0.orders[input.newId] ==
            WithMail(base.(attempts := attempts), OrderPlaced, input.queued)
    ensures UnavailableItems(s.carts[c].items, input.offers) == []
  {
    hide WithMail, NewAttempt, UnavailableItems, OrderInsertable, WholeRupiah, Takes, PricedLines, Live, Latest, ReplayAnswer,
      Subtotal, Discounts;
  }

  /** What the winner writes: a pending order for today's prices and the quoted
      shipping, whose lines are the cart's items one for one. */
  lemma WinnerPricesTheCart(s: Shop, c: CartId, input: CheckoutInput)
    requires Reachable(s) && Checkout(s, c, input).1.CheckedOut? && Checkout(s, c, input).1.created
    ensures c in s.carts && input.quote.Ok? && input.newId in Checkout(s, c, input).0.orders
    ensures var o := Checkout(s, c, input).0.orders[input.newId];
            && o.status.Pending? && o.payBy == input.payBy && LinesAre(o.lines, s.carts[c].items)
            && (forall i :: 0 <= i < |o.lines| ==>
                  Buyable(input.offers, o.lines[i].variant) && o.lines[i].discount == 0 &&
                  o.lines[i].unitPrice == input.offers[o.lines[i].variant].price.value)
            && o.total == Subtotal(o.lines) + input.quote.value
            && (o.payBy.Midtrans? <==> |o.attempts| == 1 && o.attempts[0].gross == o.total && o.attempts[0].providerId == o.number)
  {
    WinnerWrites(s, c, input);
    hide Checkout, Subtotal, Discounts, PricedLines, Reachable;
    PricedMatch(s.carts[c].items, input.offers);
    PricedAtOffers(s.carts[c].items, input.offers);
    NoDiscounts(PricedLines(s.carts[c].items, input.offers));
  }

  lemma {:induction false} PricedAtOffers(items: seq<CartItem>, offers: map<VariantId, Offer>)
    ensures forall i :: 0 <= i < |PricedLines(items, offers)| ==>
              var l := PricedLines(items, offers)[i];
              Buyable(offers, l.variant) && l.discount == 0 && l.unitPrice == offers[l.variant].price.value
  {
    if items != [] {
      PricedAtOffers(items[..|items| - 1], offers);
    }
  }

  lemma {:induction false} NoDiscounts(lines: seq<Line>)
    requires forall i :: 0 <= i < |lines| ==> lines[i].discount == 0
    ensures Discounts(lines) == 0
  {
    if lines != [] {
      NoDiscounts(lines[..|lines| - 1]);
    }
  }

  /** A cart with something unavailable makes no order, is left as it was, and
      the answer names exactly the items that cannot be bought. */
  lemma {:induction false} UnavailableNamesItems(items: seq<CartItem>, offers: map<VariantId, Offer>, v: VariantId)
    ensures v in UnavailableItems(items, offers) <==>
            exists i :: 0 <= i < |items| && items[i].variant == v && !Buyable(offers, v)
  {
    if items != [] {
      var front := items[..|items| - 1];
      UnavailableNamesItems(front, offers, v);
      if v in UnavailableItems(front, offers) {
        var i :| 0 <= i < |front| && front[i].variant == v && !Buyable(offers, v);
        assert items[i].variant == v;
      }
    }
  }
}
