/** The shop's tables as the services change them: one method per transaction,
    statement by statement, each shown to do what ShopModel says of it. */
module ShopStore {
  import opened Base
  import opened OrderIds
  import opened OrderModel
  import opened Texts
  import M = ShopModel

  class Store {
    var prefix: string
    var bank: bool
    var midtrans: bool
    var lastNumber: nat
    var carts: map<CartId, M.Cart>
    var orders: map<OrderId, Order>
    var byCart: map<CartId, OrderId>
    var byNumber: map<string, OrderId>
    var byProvider: map<string, M.Ref>
    var asking: set<M.Ref>
    var answered: set<(M.Ref, Link)>
    var sent: seq<M.Request>
    var lost: nat

    function View(): M.Shop
      reads this
    {
      M.Shop(prefix, bank, midtrans, lastNumber, carts, orders, byCart, byNumber, byProvider, asking, answered, sent, lost)
    }

    constructor (prefix: string, bank: bool, midtrans: bool)
      ensures View() == M.Opened(prefix, bank, midtrans)
    {
      this.prefix, this.bank, this.midtrans := prefix, bank, midtrans;
      lastNumber, carts, orders := 0, map[], map[];
      byCart, byNumber, byProvider := map[], map[], map[];
      asking, answered, sent, lost := {}, {}, [], 0;
    }

    // ----------------------------------------------------------------- carts

    method SetItem(c: CartId, variant: VariantId, qty: int, visible: bool, now: int) returns (answer: M.Outcome)
      modifies this
      ensures (View(), answer) == M.EditCart(old(View()), c, variant, qty, visible, now)
    {
      if qty < 0 || qty > 999 {
        return M.Refused(BadQuantity);
      }
      if c !in carts || carts[c].checkedOut || carts[c].expiresAt <= now {
        return M.Refused(NotFound);
      }
      var row := carts[c];
      if qty == 0 {
        row := row.(items := M.DeleteItem(row.items, variant));
      } else {
        if !visible {
          return M.Refused(NotForSale);
        }
        row := row.(items := M.SetItem(row.items, variant, qty));
      }
      row := row.(expiresAt := now + M.CART_TTL);
      carts := carts[c := row];
      return M.Done;
    }

    // ---------------------------------------------------------------- orders

    /** insert's loop over the lines. */
    method SumLines(lines: seq<Line>) returns (subtotal: int, discount: int)
      ensures subtotal == Subtotal(lines) && discount == Discounts(lines)
    {
      subtotal, discount := 0, 0;
      for i := 0 to |lines|
        invariant subtotal == Subtotal(lines[..i]) && discount == Discounts(lines[..i])
      {
        assert lines[..i + 1][..i] == lines[..i];
        subtotal := subtotal + lines[i].unitPrice * lines[i].qty;
        discount := discount + lines[i].discount;
      }
      assert lines[..|lines|] == lines;
    }

    /** insert: sums the lines, takes the next number and makes the order. The
        transaction writes it when it commits; the indexes refuse it before. */
    method Insert(id: OrderId, payBy: Method, cart: Option<CartId>, lines: seq<Line>, shipping: int, courier: Option<string>)
      returns (r: Result<Order, Refusal>)
      ensures var o := NewOrder(prefix, lastNumber + 1, payBy, cart, lines, shipping, courier);
              r == if M.OrderInsertable(View(), id, o) then Ok(o) else Err(UniqueViolation)
    {
      var subtotal, discount := SumLines(lines);
      var n := lastNumber + 1;
      var number := OrderNumber(prefix, n);
      var total := subtotal + shipping - discount;
      var o := Order(prefix, n, number, payBy, cart, Pending, 1, subtotal, shipping, discount, total, lines,
                     courier, None, None, None, None, None, None, None, [], [Created(total)], []);
      if id in orders || number in byNumber || (cart.Some? && cart.value in byCart) {
        return Err(UniqueViolation);
      }
      return Ok(o);
    }

    /** The committed rows of a new order. */
    method Commit(id: OrderId, o: Order)
      modifies this`lastNumber, this`orders, this`byNumber, this`byCart
      ensures View() == M.AddOrder(old(View()), id, o)
    {
      lastNumber := lastNumber + 1;
      orders := orders[id := o];
      byNumber := byNumber[o.number := id];
      if o.cart.Some? {
        byCart := byCart[o.cart.value := id];
      }
    }

    method QueueMail(id: OrderId, kind: Mail, queued: bool)
      requires id in orders
      modifies this`orders
      ensures orders == old(orders)[id := WithMail(old(orders)[id], kind, queued)]
    {
      if queued {
        orders := orders[id := orders[id].(mails := orders[id].mails + [kind])];
      }
    }

    /** The loop over a cart's items: the lines of those for sale, the variants
        of those that are not. */
    method PriceItems(items: seq<M.CartItem>, offers: map<VariantId, M.Offer>)
      returns (lines: seq<Line>, unavailable: seq<VariantId>)
      ensures lines == M.PricedLines(items, offers) && unavailable == M.UnavailableItems(items, offers)
    {
      lines, unavailable := [], [];
      for i := 0 to |items|
        invariant lines == M.PricedLines(items[..i], offers) && unavailable == M.UnavailableItems(items[..i], offers)
      {
        assert items[..i + 1][..i] == items[..i];
        var v := items[i].variant;
        if v !in offers || !offers[v].available || offers[v].price.None? {
          unavailable := unavailable + [v];
          continue;
        }
        lines := lines + [Line(v, items[i].qty, offers[v].price.value, 0, offers[v].sku, offers[v].title)];
      }
      assert items[..|items|] == items;
    }

    /** Checkout's transaction, rolled back whole when it refuses. */
    method Checkout(c: CartId, input: M.CheckoutInput) returns (answer: M.Outcome)
      modifies this
      ensures (View(), answer) == M.Checkout(old(View()), c, input)
    {
      if c !in carts {
        return M.Refused(NotFound);
      }
      var cart := carts[c];
      if cart.checkedOut {
        if c !in byCart || byCart[c] !in orders {
          return M.Refused(NotFound);
        }
        var made := byCart[c];
        return M.CheckedOut(made, false, M.ReplayAnswer(orders[made], input.now));
      }
      if cart.expiresAt <= input.now {
        return M.Refused(NotFound);
      }
      if cart.items == [] {
        return M.Refused(EmptyCart);
      }
      var lines, unavailable := PriceItems(cart.items, input.offers);
      if unavailable != [] {
        return M.Refused(ItemUnavailable(unavailable));
      }
      if !M.Takes(View(), input.payBy) {
        return M.Refused(MethodNotTaken);
      }
      if input.quote.Err? {
        return M.Refused(input.quote.error);
      }
      answer := Place(c, lines, input.quote.value, input);
    }

    /** A checkout that found its cart open and everything in it for sale: the
        order, its first attempt, the cart, and the email once all is committed. */
    method Place(c: CartId, lines: seq<Line>, shipping: int, input: M.CheckoutInput) returns (answer: M.Outcome)
      requires c in carts && lines == M.PricedLines(carts[c].items, input.offers)
      modifies this
      ensures (View(), answer) == M.PlaceOrder(old(View()), c, shipping, input)
    {
      var id := input.newId;
      var r := Insert(id, input.payBy, Some(c), lines, shipping, Some(input.courier));
      if r.Err? {
        return M.Refused(r.error);
      }
      var o := r.value;
      if !input.payBy.Midtrans? {
        Commit(id, WithMail(o, OrderPlaced, input.queued));
        carts := carts[c := carts[c].(checkedOut := true)];
        return M.CheckedOut(id, true, M.NoPayment);
      }
      if o.total % 100 != 0 {
        return M.Refused(NotWholeRupiah);
      }
      var p := NewAttempt(o, 1, input.now);
      if p.providerId in byProvider {
        return M.Refused(UniqueViolation);
      }
      Commit(id, WithMail(o.(attempts := [p]), OrderPlaced, input.queued));
      byProvider := byProvider[p.providerId := M.Ref(id, 1)];
      asking := asking + {M.Ref(id, 1)};
      carts := carts[c := carts[c].(checkedOut := true)];
      return M.CheckedOut(id, true, M.Asking);
    }

    /** Create: a manual order, its lines checked one by one. */
    method CreateManual(id: OrderId, lines: seq<M.ManualLine>, offers: map<VariantId, M.Offer>,
                        terms: Result<M.Terms, Refusal>, queued: bool)
      returns (answer: M.Outcome)
      modifies this
      ensures (View(), answer) == M.CreateManual(old(View()), id, lines, offers, terms, queued)
    {
      var priced: Result<seq<Line>, Refusal> := PriceManual(lines, offers);
      if priced.Err? {
        return M.Refused(priced.error);
      }
      if terms.Err? {
        return M.Refused(terms.error);
      }
      var r := Insert(id, BankTransfer, None, priced.value, terms.value.shipping, terms.value.courier);
      if r.Err? {
        return M.Refused(r.error);
      }
      Commit(id, WithMail(r.value, OrderPlaced, queued));
      return M.Done;
    }

    method PriceManual(lines: seq<M.ManualLine>, offers: map<VariantId, M.Offer>)
      returns (r: Result<seq<Line>, Refusal>)
      ensures r == M.ManualLines(lines, offers)
    {
      var out: seq<Line> := [];
      for i := 0 to |lines|
        invariant M.ManualLines(lines[..i], offers) == Ok(out)
      {
        assert lines[..i + 1][..i] == lines[..i];
        var l := lines[i];
        var bad := M.BadLine(l, offers);
        if bad.Some? {
          RefusedLater(lines, offers, i + 1);
          return Err(bad.value);
        }
        out := out + [Line(l.variant, l.qty, offers[l.variant].price.value, l.discount, offers[l.variant].sku, offers[l.variant].title)];
      }
      assert lines[..|lines|] == lines;
      return Ok(out);
    }

    // -------------------------------------------------------------- payments

    /** openSnap: the call, then the link in a transaction of its own. */
    method AskMidtrans(r: M.Ref, reply: Option<Link>) returns (answer: M.Outcome)
      modifies this
      ensures (View(), answer) == M.AskMidtrans(old(View()), r, reply)
    {
      if r !in asking || !M.HasAttempt(View(), r) {
        return M.Done;
      }
      var p := orders[r.order].attempts[r.number - 1];
      asking := asking - {r};
      sent := sent + [M.Request(p.providerId, p.gross / 100)];
      if reply.None? {
        return M.PaymentUnavailable;
      }
      answered := answered + {(r, reply.value)};
      return M.Done;
    }

    method StoreLink(r: M.Ref, link: Link) returns (answer: M.Outcome)
      modifies this
      ensures (View(), answer) == M.StoreLink(old(View()), r, link)
    {
      if (r, link) !in answered || !M.HasAttempt(View(), r) {
        return M.Done;
      }
      var o := orders[r.order];
      answered := answered - {(r, link)};
      orders := orders[r.order := o.(attempts := o.attempts[r.number - 1 := o.attempts[r.number - 1].(link := Some(link))])];
      return M.PayLink(link);
    }

    /** PayAgain, holding the order's lock through the call. */
    method PayAgain(id: OrderId, reply: Option<Link>, now: int) returns (answer: M.Outcome)
      modifies this
      ensures (View(), answer) == M.PayAgain(old(View()), id, reply, now)
    {
      hide NewAttempt, Latest;
      if id !in orders {
        return M.Refused(NotFound);
      }
      var o := orders[id];
      if !o.payBy.Midtrans? || !o.status.Pending? {
        return M.Refused(NoPaymentToMake);
      }
      if !midtrans {
        return M.Refused(MethodNotTaken);
      }
      var next := 1;
      var attempts := o.attempts;
      var latest := Latest(attempts);
      if latest.Some? {
        var p := attempts[latest.value];
        if Live(p, o, now) {
          return M.PayLink(p.link.value);
        }
        if p.status.Waiting? {
          attempts := attempts[latest.value := p.(status := Failed)];
        }
        next := p.number + 1;
      }
      if o.total % 100 != 0 {
        return M.Refused(NotWholeRupiah);
      }
      var p := NewAttempt(o, next, now);
      if !Insertable(attempts, next) || p.providerId in byProvider {
        return M.Refused(UniqueViolation);
      }
      byProvider := byProvider[p.providerId := M.Ref(id, next)];
      sent := sent + [M.Request(p.providerId, p.gross / 100)];
      if reply.None? {
        orders := orders[id := o.(attempts := attempts + [p])];
        return M.PaymentUnavailable;
      }
      assert (attempts + [p])[|attempts| := p.(link := Some(reply.value))] == attempts + [p.(link := Some(reply.value))];
      orders := orders[id := o.(attempts := attempts + [p.(link := Some(reply.value))])];
      return M.PayLink(reply.value);
    }

    /** apply: the attempt first, then what it means for its order. */
    method Notify(providerId: string, st: Report, now: int, queued: bool) returns (answer: M.Outcome)
      modifies this
      ensures (View(), answer) == M.Notify(old(View()), providerId, st, now, queued)
    {
      if providerId !in byProvider {
        return M.Notified(false);
      }
      var found := byProvider[providerId];
      if !M.HasAttempt(View(), found) {
        return M.Refused(NotFound);
      }
      var o := orders[found.order];
      var p := o.attempts[found.number - 1];
      var status, paidAt := p.status, p.paidAt;
      var settled := st.transaction == "settlement" || (st.transaction == "capture" && st.fraud == "accept");
      if p.status.Settled? {
        // Paid stays paid: only what was last reported is written, below.
      } else if settled && (!SameAmount(st.gross, p.gross) || p.gross != o.total) {
        status := Mismatch;
      } else if settled {
        status, paidAt := Settled, Some(now);
      } else if st.transaction == "expire" || st.transaction == "cancel" || st.transaction == "deny" {
        if p.status.Waiting? {
          status := Failed;
        }
      }
      var recorded := p.(status := status, paidAt := paidAt, reported := Some(st.transaction));
      o := o.(attempts := o.attempts[found.number - 1 := recorded]);
      orders := orders[found.order := o];
      if !status.Settled? || p.status.Settled? {
        return M.Notified(false);
      }
      if o.status.Pending? {
        var r := Transition(found.order, Paid, ShipInput(None, None), now);
        var paid := orders[found.order];
        WrittenTwice(old(orders), found.order, o, paid);
        if r == Ok(true) {
          QueueMail(found.order, PaymentReceived, queued);
          WrittenTwice(old(orders), found.order, paid, WithMail(paid, PaymentReceived, queued));
        }
        return M.Notified(r == Ok(true));
      }
      if o.status.Cancelled? {
        var owed := o.(audit := o.audit + [PaidAfterCancel(p.providerId)]);
        orders := orders[found.order := owed];
        WrittenTwice(old(orders), found.order, o, owed);
      }
      return M.Notified(false);
    }

    // ----------------------------------------------------------- transitions

    /** transition, inside its caller's transaction. */
    method Transition(id: OrderId, to: Status, input: ShipInput, now: int) returns (r: Result<bool, Refusal>)
      requires id in orders
      modifies this`orders
      ensures match OrderModel.Transition(old(orders)[id], to, input, now)
              case Err(why) => r == Err(why) && orders == old(orders)
              case Ok((o, changed)) => r == Ok(changed) && orders == old(orders)[id := o]
    {
      var o := orders[id];
      if o.status == to {
        return Ok(false);
      }
      if to !in Allowed(o.status) {
        return Err(IllegalTransition(o.status, to));
      }
      var courier, tracking := o.courier, o.tracking;
      if to.Shipped? {
        if input.tracking.None? || Blank(input.tracking.value) {
          return Err(NoTracking);
        }
        var chosen := input.courier;
        if chosen.None? || chosen.value == "" {
          chosen := o.shippingCourier;
        }
        if chosen.None? || chosen.value == "" {
          return Err(NoCourier);
        }
        if !CourierCode(chosen.value) {
          return Err(BadCourier);
        }
        courier, tracking := chosen, input.tracking;
      }
      var stamped := o.(status := to, courier := courier, tracking := tracking, version := o.version + 1,
                        audit := o.audit + [Moved(o.status, to)]);
      match to {
        case Paid => stamped := stamped.(paidAt := Some(now));
        case Shipped => stamped := stamped.(shippedAt := Some(now));
        case Completed => stamped := stamped.(completedAt := Some(now));
        case Cancelled => stamped := stamped.(cancelledAt := Some(now));
        case _ =>
      }
      orders := orders[id := stamped];
      return Ok(true);
    }

    /** Transition, and its email once it has committed. */
    method MoveOrder(id: OrderId, to: Status, input: ShipInput, now: int, queued: bool) returns (answer: M.Outcome)
      modifies this
      ensures (View(), answer) == M.Next(old(View()), M.MoveOrder(id, to, input, now, queued))
    {
      if id !in orders {
        return M.Refused(NotFound);
      }
      var r := Transition(id, to, input, now);
      if r.Err? {
        return M.Refused(r.error);
      }
      if r.value && MailFor(to).Some? {
        var moved := orders[id];
        QueueMail(id, MailFor(to).value, queued);
        WrittenTwice(old(orders), id, moved, WithMail(moved, MailFor(to).value, queued));
      }
      return M.Changed(r.value);
    }

    method UpdatePending(id: OrderId, version: nat, shipping: Option<int>) returns (answer: M.Outcome)
      modifies this
      ensures (View(), answer) == M.Next(old(View()), M.EditOrder(id, version, shipping))
    {
      if id !in orders {
        return M.Refused(NotFound);
      }
      var o := orders[id];
      if !o.status.Pending? {
        return M.Refused(NotEditable);
      }
      if o.version != version {
        return M.Refused(VersionConflict);
      }
      var before := None;
      var was := o.shipping;
      if shipping.Some? {
        before := Some(was);
        o := o.(shipping := shipping.value);
      }
      o := o.(total := o.subtotal + o.shipping - o.discount, version := o.version + 1,
              audit := o.audit + [Edited(before, shipping)]);
      orders := orders[id := o];
      return M.Done;
    }

    method Refund(id: OrderId, now: int) returns (answer: M.Outcome)
      modifies this
      ensures (View(), answer) == M.Next(old(View()), M.RefundOrder(id, now))
    {
      if id !in orders {
        return M.Refused(NotFound);
      }
      var o := orders[id];
      if o.refundedAt.Some? {
        return M.Refused(RefundAlreadyRecorded);
      }
      if !o.status.Cancelled? || o.paidAt.None? {
        return M.Refused(NotRefundable);
      }
      o := o.(refundedAt := Some(now), version := o.version + 1);
      o := o.(audit := o.audit + [Refunded]);
      orders := orders[id := o];
      return M.Done;
    }
  }

  /** Once a line is refused the rest does not matter. */
  lemma RefusedLater(lines: seq<M.ManualLine>, offers: map<VariantId, M.Offer>, i: nat)
    requires i <= |lines| && M.ManualLines(lines[..i], offers).Err?
    ensures M.ManualLines(lines, offers) == M.ManualLines(lines[..i], offers)
    decreases |lines| - i
  {
    if i < |lines| {
      assert lines[..i + 1][..i] == lines[..i];
      RefusedLater(lines, offers, i + 1);
    } else {
      assert lines[..i] == lines;
    }
  }
}
