/** What the shop answers: every refusal of a checkout, a manual order and a cart edit
    with exactly when it is given, and what is written when none is. */
module ShopAnswers {
  import opened Base
  import opened OrderIds
  import opened OrderModel
  import opened OrderLaws
  import opened ShopModel
  import opened ShopLaws
  import opened ShopSteps
  import opened ShopTheorems
  import opened CheckoutTheorems
  import opened PaymentTheorems

  // ------------------------------------------------------------------ prices

  predicate ForSale(offers: map<VariantId, Offer>, v: VariantId) {
    v in offers && offers[v].available && offers[v].price != None
  }

  predicate AllForSale(items: seq<CartItem>, offers: map<VariantId, Offer>) {
    forall i :: 0 <= i < |items| ==> ForSale(offers, items[i].variant)
  }

  function ItemTotal(it: CartItem, offers: map<VariantId, Offer>): int {
    if ForSale(offers, it.variant) then offers[it.variant].price.value * it.qty else 0
  }

  /** What the items cost together. */
  function CartTotal(items: seq<CartItem>, offers: map<VariantId, Offer>): int {
    if items == [] then 0 else ItemTotal(items[0], offers) + CartTotal(items[1..], offers)
  }

  lemma {:induction false} CartTotalAppend(items: seq<CartItem>, it: CartItem, offers: map<VariantId, Offer>)
    ensures CartTotal(items + [it], offers) == CartTotal(items, offers) + ItemTotal(it, offers)
  {
    hide ItemTotal;
    if items == [] {
      assert ([] + [it])[1..] == [];
    } else {
      CartTotalAppend(items[1..], it, offers);
      assert (items + [it])[1..] == items[1..] + [it];
    }
  }

  /** The line an item for sale becomes. */
  function LineOf(it: CartItem, offers: map<VariantId, Offer>): Line
    requires ForSale(offers, it.variant)
  {
    var f := offers[it.variant];
    Line(it.variant, it.qty, f.price.value, 0, f.sku, f.title)
  }

  lemma {:induction false} PricedExactly(items: seq<CartItem>, offers: map<VariantId, Offer>)
    requires AllForSale(items, offers)
    ensures var lines := PricedLines(items, offers);
            && |lines| == |items| && (forall i :: 0 <= i < |items| ==> lines[i] == LineOf(items[i], offers))
            && Subtotal(lines) == CartTotal(items, offers) && Discounts(lines) == 0
    ensures UnavailableItems(items, offers) == []
  {
    if items != [] {
      var front, it := items[..|items| - 1], items[|items| - 1];
      PricedExactly(front, offers);
      CartTotalAppend(front, it, offers);
      assert front + [it] == items;
      hide CartTotal;
      assert PricedLines(items, offers)[..|front|] == PricedLines(front, offers);
    }
  }

  lemma SomethingGone(items: seq<CartItem>, offers: map<VariantId, Offer>)
    requires !AllForSale(items, offers)
    ensures UnavailableItems(items, offers) != []
  {
    var i :| 0 <= i < |items| && !ForSale(offers, items[i].variant);
    UnavailableNamesItems(items, offers, items[i].variant);
  }

  // ---------------------------------------------------------------- checkout

  /** The shop takes this method: one switch for each. */
  predicate TakenBy(s: Shop, payBy: Method) {
    (payBy.BankTransfer? && s.bank) || (payBy.Midtrans? && s.midtrans)
  }

  /** The order that is made of an open cart, and the tables with it. */
  predicate Made(s: Shop, u: Shop, c: CartId, shipping: int, input: CheckoutInput)
    requires c in s.carts && AllForSale(s.carts[c].items, input.offers)
  {
    var items, id := s.carts[c].items, input.newId;
    var total := CartTotal(items, input.offers) + shipping;
    && id !in s.orders && u.orders.Keys == s.orders.Keys + {id}
    && (forall k :: k in s.orders ==> u.orders[k] == s.orders[k])
    && u.carts == s.carts[c := s.carts[c].(checkedOut := true)] && u.byCart == s.byCart[c := id]
    && u.sent == s.sent && u.answered == s.answered
    && u.asking == (if input.payBy.Midtrans? then s.asking + {Ref(id, 1)} else s.asking)
    && var o := u.orders[id];
       && o.status.Pending? && o.payBy == input.payBy && o.cart == Some(c) && o.paidAt.None? && o.refundedAt.None?
       && o.number == OrderNumber(s.prefix, s.lastNumber + 1)
       && o.total == total && o.shipping == shipping && o.shippingCourier == Some(input.courier)
       && |o.lines| == |items| && (forall i :: 0 <= i < |items| ==> o.lines[i] == LineOf(items[i], input.offers))
       && o.attempts == (if input.payBy.Midtrans?
                         then [Attempt(1, o.number, Waiting, total, None, input.now + 24 * 3600 * 1000, None, None)] else [])
       && o.mails == (if input.queued then [OrderPlaced] else [])
  }

  lemma PlaceDecides(s: Shop, c: CartId, shipping: int, input: CheckoutInput)
    requires ShopInv(s) && c in s.carts && !s.carts[c].checkedOut && AllForSale(s.carts[c].items, input.offers)
    ensures var (u, answer) := PlaceOrder(s, c, shipping, input);
            if input.newId in s.orders then u == s && answer == Refused(UniqueViolation)
            else if input.payBy.Midtrans? && (CartTotal(s.carts[c].items, input.offers) + shipping) % 100 != 0 then
              u == s && answer == Refused(NotWholeRupiah)
            else
              Made(s, u, c, shipping, input) && answer == CheckedOut(input.newId, true, if input.payBy.Midtrans? then Asking else NoPayment)
  {
    hide ShopInv, PricedLines, Subtotal, Discounts, CartTotal, OrderNumber, Made, PlaceOrder, AllForSale;
    PlaceChooses(s, c, shipping, input);
    if PlaceOrder(s, c, shipping, input).1.CheckedOut? {
      PlaceMakes(s, c, shipping, input);
    }
  }

  lemma PlaceChooses(s: Shop, c: CartId, shipping: int, input: CheckoutInput)
    requires ShopInv(s) && c in s.carts && !s.carts[c].checkedOut && AllForSale(s.carts[c].items, input.offers)
    ensures var (u, answer) := PlaceOrder(s, c, shipping, input);
            if input.newId in s.orders then u == s && answer == Refused(UniqueViolation)
            else if input.payBy.Midtrans? && (CartTotal(s.carts[c].items, input.offers) + shipping) % 100 != 0 then
              u == s && answer == Refused(NotWholeRupiah)
            else answer == CheckedOut(input.newId, true, if input.payBy.Midtrans? then Asking else NoPayment)
  {
    hide ShopInv, CartTotal, AddOrder, CloseCart, WithMail, NewAttempt, OrderInsertable, AllForSale, CheckoutOrder;
    CheckoutNeverCollides(s, c, shipping, input);
    CheckoutOrderTotal(s, c, shipping, input);
  }

  lemma CheckoutOrderTotal(s: Shop, c: CartId, shipping: int, input: CheckoutInput)
    requires c in s.carts && AllForSale(s.carts[c].items, input.offers)
    ensures var o := CheckoutOrder(s, c, s.carts[c], shipping, input);
            o.total == CartTotal(s.carts[c].items, input.offers) + shipping && o.payBy == input.payBy
  {
    PricedExactly(s.carts[c].items, input.offers);
    hide PricedLines, Subtotal, Discounts, CartTotal, OrderNumber;
  }

  lemma PlaceMakes(s: Shop, c: CartId, shipping: int, input: CheckoutInput)
    requires c in s.carts && AllForSale(s.carts[c].items, input.offers) && PlaceOrder(s, c, shipping, input).1.CheckedOut?
    ensures Made(s, PlaceOrder(s, c, shipping, input).0, c, shipping, input)
  {
    hide PlaceOrder, OrderNumber, CartTotal;
    PlaceWrites(s, c, shipping, input);
    PlacedExactly(s, c, shipping, input);
  }

  lemma PlacedExactly(s: Shop, c: CartId, shipping: int, input: CheckoutInput)
    requires c in s.carts && AllForSale(s.carts[c].items, input.offers)
    ensures var items, o := s.carts[c].items, Placed(s, c, shipping, input);
            var total := CartTotal(items, input.offers) + shipping;
            && o.status.Pending? && o.payBy == input.payBy && o.cart == Some(c) && o.paidAt.None? && o.refundedAt.None?
            && o.number == OrderNumber(s.prefix, s.lastNumber + 1)
            && o.total == total && o.shipping == shipping && o.shippingCourier == Some(input.courier)
            && |o.lines| == |items| && (forall i :: 0 <= i < |items| ==> o.lines[i] == LineOf(items[i], input.offers))
            && o.attempts == (if input.payBy.Midtrans?
                              then [Attempt(1, o.number, Waiting, total, None, input.now + 24 * 3600 * 1000, None, None)] else [])
            && o.mails == (if input.queued then [OrderPlaced] else [])
  {
    hide PricedLines, Subtotal, Discounts, CartTotal, OrderNumber, AllForSale, LineOf;
    PricedExactly(s.carts[c].items, input.offers);
    assert [] + [OrderPlaced] == [OrderPlaced];
  }

  /** What a checkout answers in every reachable shop, refusal by refusal, and that a
      refusal writes nothing. */
  lemma CheckoutDecides(s: Shop, c: CartId, input: CheckoutInput)
    requires Reachable(s)
    ensures var (u, answer) := Checkout(s, c, input);
            if c !in s.carts then u == s && answer == Refused(NotFound)
            else if c in s.byCart then
              u == s && s.byCart[c] in s.orders && answer == CheckedOut(s.byCart[c], false, Offered(s.orders[s.byCart[c]], input.now))
            else if input.now >= s.carts[c].expiresAt then u == s && answer == Refused(NotFound)
            else if s.carts[c].items == [] then u == s && answer == Refused(EmptyCart)
            else if !AllForSale(s.carts[c].items, input.offers) then
              u == s && answer.Refused? && answer.why.ItemUnavailable? &&
              forall v :: v in answer.why.items <==>
                          exists i :: 0 <= i < |s.carts[c].items| && s.carts[c].items[i].variant == v && !ForSale(input.offers, v)
            else if !TakenBy(s, input.payBy) then u == s && answer == Refused(MethodNotTaken)
            else if input.quote.Err? then u == s && answer == Refused(input.quote.error)
            else if input.newId in s.orders then u == s && answer == Refused(UniqueViolation)
            else if input.payBy.Midtrans? && (CartTotal(s.carts[c].items, input.offers) + input.quote.value) % 100 != 0 then
              u == s && answer == Refused(NotWholeRupiah)
            else
              Made(s, u, c, input.quote.value, input) && answer == CheckedOut(input.newId, true, if input.payBy.Midtrans? then Asking else NoPayment)
  {
    hide ShopInv, Reachable, PlaceOrder, CartTotal, Made, ReplayAnswer, Offered, UnavailableItems, AllForSale;
    ReachableInv(s);
    CartsHeld(s);
    if c in s.byCart {
      OfferedIs(s, s.byCart[c], input.now);
    } else if c in s.carts {
      if AllForSale(s.carts[c].items, input.offers) {
        PricedExactly(s.carts[c].items, input.offers);
        if input.quote.Ok? {
          PlaceDecides(s, c, input.quote.value, input);
        }
      } else {
        SomethingGone(s.carts[c].items, input.offers);
        forall v ensures v in UnavailableItems(s.carts[c].items, input.offers) <==>
                         exists i :: 0 <= i < |s.carts[c].items| && s.carts[c].items[i].variant == v && !ForSale(input.offers, v) {
          UnavailableNamesItems(s.carts[c].items, input.offers, v);
        }
      }
    }
  }

  /** What a repeated checkout says about paying. */
  function Offered(o: Order, now: int): PaymentAnswer {
    if o.payBy.BankTransfer? then NoPayment
    else if Payable(o, now) then LiveLink(o.attempts[|o.attempts| - 1].link.value)
    else PaymentError
  }

  lemma OfferedIs(s: Shop, id: OrderId, now: int)
    requires ShopInv(s) && id in s.orders
    ensures ReplayAnswer(s.orders[id], now) == Offered(s.orders[id], now)
  {
    hide ShopInv, Good;
    GoodOrder(s, id);
    OfferedBy(s.orders[id], now);
  }

  lemma OfferedBy(o: Order, now: int)
    requires Good(o)
    ensures ReplayAnswer(o, now) == Offered(o, now)
  {
    hide Latest, Totals, Frozen, Audited, Checked, Mailed, Accounted, OrderNumber, ProviderId, ValidPrefix;
    LatestIsLast(o);
  }

  // ------------------------------------------------------------ manual orders

  /** Why a line cannot be ordered, if it cannot: no such variant, an archived one, or a
      discount of more than the line. */
  function LineRefusal(l: ManualLine, offers: map<VariantId, Offer>): Option<Refusal> {
    if l.variant !in offers || offers[l.variant].price == None then Some(NotFound)
    else if !offers[l.variant].available then Some(NotForSale)
    else if offers[l.variant].price.value * l.qty < l.discount then Some(BadDiscount)
    else None
  }

  predicate Orderable(lines: seq<ManualLine>, offers: map<VariantId, Offer>) {
    forall i :: 0 <= i < |lines| ==> LineRefusal(lines[i], offers) == None
  }

  function LineTotal(l: ManualLine, offers: map<VariantId, Offer>): int {
    if ForSale(offers, l.variant) then offers[l.variant].price.value * l.qty - l.discount else 0
  }

  function LinesTotal(lines: seq<ManualLine>, offers: map<VariantId, Offer>): int {
    if lines == [] then 0 else LineTotal(lines[0], offers) + LinesTotal(lines[1..], offers)
  }

  lemma {:induction false} LinesTotalAppend(lines: seq<ManualLine>, l: ManualLine, offers: map<VariantId, Offer>)
    ensures LinesTotal(lines + [l], offers) == LinesTotal(lines, offers) + LineTotal(l, offers)
  {
    hide LineTotal;
    if lines == [] {
      assert ([] + [l])[1..] == [];
    } else {
      LinesTotalAppend(lines[1..], l, offers);
      assert (lines + [l])[1..] == lines[1..] + [l];
    }
  }

  predicate LineIs(x: Line, l: ManualLine, offers: map<VariantId, Offer>) {
    && ForSale(offers, l.variant)
    && var f := offers[l.variant];
       x == Line(l.variant, l.qty, f.price.value, l.discount, f.sku, f.title)
  }

  /** The lines in the order asked for; or the first one that is refused, and why. */
  lemma {:induction false} ManualLinesExactly(lines: seq<ManualLine>, offers: map<VariantId, Offer>)
    ensures match ManualLines(lines, offers)
            case Ok(xs) =>
              && Orderable(lines, offers) && |xs| == |lines| && (forall i :: 0 <= i < |lines| ==> LineIs(xs[i], lines[i], offers))
              && Subtotal(xs) - Discounts(xs) == LinesTotal(lines, offers)
            case Err(why) =>
              exists i :: 0 <= i < |lines| && LineRefusal(lines[i], offers) == Some(why) && Orderable(lines[..i], offers)
  {
    if lines != [] {
      var front, l := lines[..|lines| - 1], lines[|lines| - 1];
      assert front + [l] == lines;
      ManualLinesExactly(front, offers);
      LinesTotalAppend(front, l, offers);
      hide LinesTotal, LineTotal;
      if ManualLines(front, offers).Err? {
        var i :| 0 <= i < |front| && LineRefusal(front[i], offers) == Some(ManualLines(front, offers).error) && Orderable(front[..i], offers);
        assert lines[i] == front[i] && lines[..i] == front[..i];
      } else if LineRefusal(l, offers).Some? {
        assert lines[|front|] == l && lines[..|front|] == front;
      } else {
        LineCosts(l, offers);
        var xs := ManualLines(lines, offers).value;
        assert xs[..|xs| - 1] == ManualLines(front, offers).value;
      }
    }
  }

  lemma LineCosts(l: ManualLine, offers: map<VariantId, Offer>)
    requires LineRefusal(l, offers) == None
    ensures ForSale(offers, l.variant) && BadLine(l, offers) == None
    ensures LineTotal(l, offers) == offers[l.variant].price.value * l.qty - l.discount
  {
  }

  /** What entering a manual order answers in every reachable shop, and the order that
      is written when nothing is refused: by bank transfer, for no cart. */
  lemma ManualDecides(s: Shop, id: OrderId, lines: seq<ManualLine>, offers: map<VariantId, Offer>,
                      terms: Result<Terms, Refusal>, queued: bool)
    requires Reachable(s)
    ensures var (u, answer) := CreateManual(s, id, lines, offers, terms, queued);
            if !Orderable(lines, offers) then
              && u == s && answer.Refused?
              && exists i :: 0 <= i < |lines| && LineRefusal(lines[i], offers) == Some(answer.why) && Orderable(lines[..i], offers)
            else if terms.Err? then u == s && answer == Refused(terms.error)
            else if id in s.orders then u == s && answer == Refused(UniqueViolation)
            else
              && answer == Done && u.orders.Keys == s.orders.Keys + {id} && (forall k :: k in s.orders ==> u.orders[k] == s.orders[k])
              && u.carts == s.carts && u.byCart == s.byCart && u.byProvider == s.byProvider && u.asking == s.asking && u.sent == s.sent
              && ManuallyMade(s, u.orders[id], lines, offers, terms.value, queued)
  {
    hide ShopInv, Reachable, Orderable, ManualLines, ManuallyMade, LinesTotal, Subtotal, Discounts, LineRefusal, NewOrder, WithMail, OrderNumber;
    ReachableInv(s);
    ManualLinesExactly(lines, offers);
    var ls := ManualLines(lines, offers);
    if ls.Err? {
      var i :| 0 <= i < |lines| && LineRefusal(lines[i], offers) == Some(ls.error) && Orderable(lines[..i], offers);
      NotOrderable(lines, offers, i);
    } else if terms.Ok? {
      ManualOrderExactly(s, ls.value, lines, offers, terms.value, queued);
      ManualNumberFree(s, ls.value, terms.value, queued);
    }
  }

  lemma NotOrderable(lines: seq<ManualLine>, offers: map<VariantId, Offer>, i: nat)
    requires i < |lines| && LineRefusal(lines[i], offers).Some?
    ensures !Orderable(lines, offers)
  {
  }

  lemma ManualNumberFree(s: Shop, lines: seq<Line>, terms: Terms, queued: bool)
    requires ShopInv(s)
    ensures var o := ManualOrderOf(s, lines, terms); o.number !in s.byNumber && o.cart == None
    ensures WithMail(ManualOrderOf(s, lines, terms), OrderPlaced, queued).cart == None
  {
    hide OrderNumber, Subtotal, Discounts;
    FreshNumber(s, ManualOrderOf(s, lines, terms));
  }

  predicate ManuallyMade(s: Shop, o: Order, lines: seq<ManualLine>, offers: map<VariantId, Offer>, terms: Terms, queued: bool) {
    && o.status.Pending? && o.payBy.BankTransfer? && o.cart.None? && o.attempts == [] && o.paidAt.None?
    && o.number == OrderNumber(s.prefix, s.lastNumber + 1)
    && o.shipping == terms.shipping && o.shippingCourier == terms.courier
    && o.total == LinesTotal(lines, offers) + terms.shipping
    && |o.lines| == |lines| && (forall i :: 0 <= i < |lines| ==> LineIs(o.lines[i], lines[i], offers))
    && o.mails == if queued then [OrderPlaced] else []
  }

  lemma ManualOrderExactly(
      s: Shop, xs: seq<Line>, lines: seq<ManualLine>, offers: map<VariantId, Offer>, terms: Terms, queued: bool)
    requires |xs| == |lines| && (forall i :: 0 <= i < |lines| ==> LineIs(xs[i], lines[i], offers))
    requires Subtotal(xs) - Discounts(xs) == LinesTotal(lines, offers)
    ensures ManuallyMade(s, WithMail(ManualOrderOf(s, xs, terms), OrderPlaced, queued), lines, offers, terms, queued)
  {
    hide OrderNumber, Subtotal, Discounts, LinesTotal, LineIs;
    assert [] + [OrderPlaced] == [OrderPlaced];
  }

  // ------------------------------------------------------------------- carts

  /** How many of a variant a cart holds. */
  function QtyOf(items: seq<CartItem>, v: VariantId): int {
    if items == [] then 0 else if items[0].variant == v then items[0].qty else QtyOf(items[1..], v)
  }

  /** No variant twice: the cart's primary key. */
  predicate OneEach(items: seq<CartItem>) {
    forall i, j :: 0 <= i < j < |items| ==> items[i].variant != items[j].variant
  }

  lemma {:induction false} SetItemExactly(items: seq<CartItem>, variant: VariantId, qty: int, v: VariantId)
    ensures QtyOf(SetItem(items, variant, qty), v) == if v == variant then qty else QtyOf(items, v)
  {
    if items != [] {
      SetItemExactly(items[1..], variant, qty, v);
      if items[0].variant == variant {
        assert ([CartItem(variant, qty)] + items[1..])[1..] == items[1..];
      }
    }
  }

  lemma {:induction false} SetItemOneEach(items: seq<CartItem>, variant: VariantId, qty: int)
    requires OneEach(items)
    ensures OneEach(SetItem(items, variant, qty))
    ensures forall it :: it in SetItem(items, variant, qty) ==> it.variant == variant || it in items
  {
    if items != [] && items[0].variant != variant {
      SetItemOneEach(items[1..], variant, qty);
      OneEachFront(items[0], items[1..], SetItem(items[1..], variant, qty), variant);
    } else if items != [] {
      assert items == [items[0]] + items[1..];
    }
  }

  lemma OneEachFront(first: CartItem, rest: seq<CartItem>, more: seq<CartItem>, variant: VariantId)
    requires OneEach([first] + rest) && OneEach(more) && first.variant != variant
    requires forall it :: it in more ==> it.variant == variant || it in rest
    ensures OneEach([first] + more)
  {
    forall i | 0 <= i < |more| ensures more[i].variant != first.variant {
      if more[i].variant != variant {
        assert more[i] in rest;
        var k :| 0 <= k < |rest| && rest[k] == more[i];
        var all := [first] + rest;
        assert all[0] == first && all[k + 1] == more[i] && all[0].variant != all[k + 1].variant;
      }
    }
  }

  lemma {:induction false} DeleteItemExactly(items: seq<CartItem>, variant: VariantId, v: VariantId)
    ensures QtyOf(DeleteItem(items, variant), v) == if v == variant then 0 else QtyOf(items, v)
    ensures forall i :: 0 <= i < |DeleteItem(items, variant)| ==>
              DeleteItem(items, variant)[i] in items && DeleteItem(items, variant)[i].variant != variant
    ensures OneEach(items) ==> OneEach(DeleteItem(items, variant))
  {
    if items != [] {
      DeleteItemExactly(items[1..], variant, v);
      assert OneEach(items) ==> OneEach(items[1..]);
      assert items == [items[0]] + items[1..];
    }
  }

  /** What setting an item of a cart answers; when it is not refused the cart holds so
      many of the variant and as many as before of any other, for another thirty days. */
  lemma CartEditDecides(s: Shop, c: CartId, variant: VariantId, qty: int, visible: bool, now: int)
    ensures var (u, answer) := EditCart(s, c, variant, qty, visible, now);
            if qty < 0 || 999 < qty then u == s && answer == Refused(BadQuantity)
            else if c !in s.carts || s.carts[c].checkedOut || s.carts[c].expiresAt <= now then u == s && answer == Refused(NotFound)
            else if !visible && qty > 0 then u == s && answer == Refused(NotForSale)
            else
              && answer == Done && c in u.carts && u == s.(carts := s.carts[c := u.carts[c]])
              && !u.carts[c].checkedOut && u.carts[c].expiresAt == now + 30 * 24 * 3600 * 1000
              && (forall v :: QtyOf(u.carts[c].items, v) == if v == variant then qty else QtyOf(s.carts[c].items, v))
              && (OneEach(s.carts[c].items) ==> OneEach(u.carts[c].items))
  {
    hide SetItem, DeleteItem, QtyOf, OneEach;
    if c in s.carts {
      if OneEach(s.carts[c].items) {
        SetItemOneEach(s.carts[c].items, variant, qty);
      }
      DeleteItemExactly(s.carts[c].items, variant, variant);
      forall v
        ensures QtyOf(SetItem(s.carts[c].items, variant, qty), v) == if v == variant then qty else QtyOf(s.carts[c].items, v)
        ensures QtyOf(DeleteItem(s.carts[c].items, variant), v) == if v == variant then 0 else QtyOf(s.carts[c].items, v)
      {
        SetItemExactly(s.carts[c].items, variant, qty, v);
        DeleteItemExactly(s.carts[c].items, variant, v);
      }
    }
  }

  /** A new cart is empty and open for thirty days; a sweep takes the carts that have
      expired without becoming an order, and no other; settings change as asked. */
  lemma CartsComeAndGo(s: Shop, c: CartId, now: int, prefix: string, bank: bool, midtrans: bool)
    ensures c !in s.carts ==>
              Next(s, CreateCart(c, now)) == (s.(carts := s.carts[c := Cart(false, now + 30 * 24 * 3600 * 1000, [])]), Done)
    ensures var u := Next(s, Sweep(now)).0;
            && u == s.(carts := u.carts)
            && (forall k :: k in u.carts <==> k in s.carts && !(s.carts[k].expiresAt < now && !s.carts[k].checkedOut))
            && forall k :: k in u.carts ==> u.carts[k] == s.carts[k]
    ensures ValidPrefix(prefix) ==>
              Next(s, ChangeSettings(prefix, bank, midtrans)) == (s.(prefix := prefix, bank := bank, midtrans := midtrans), Done)
  {
    hide ValidPrefix;
  }
}
