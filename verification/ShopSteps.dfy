/** Every step of a shop keeps its invariant and undoes nothing, so every run
    does: the base of the theorems about runs. */
module ShopSteps {
  import opened Base
  import opened OrderIds
  import opened OrderModel
  import opened OrderLaws
  import opened ShopModel
  import opened ShopLaws

  /** What the lemmas below show of each step. */
  ghost predicate Kept(s: Shop, s': Shop) {
    ShopInv(s') && ShopEvolves(s, s')
  }

  /** A cart with nothing unavailable becomes a line per item, in order. */
  lemma {:induction false} PricedMatch(items: seq<CartItem>, offers: map<VariantId, Offer>)
    requires UnavailableItems(items, offers) == []
    ensures LinesAre(PricedLines(items, offers), items)
  {
    if items != [] {
      PricedMatch(items[..|items| - 1], offers);
    }
  }

  // ---------------------------------------------------------------- an order

  lemma PlainOrderKeeps(s: Shop, s': Shop, id: OrderId, o: Order)
    requires ShopInv(s) && id !in s.orders && Good(o) && o.seqNo == s.lastNumber + 1 && |o.attempts| <= 1
    requires o.attempts != [] ==> o.attempts[0].providerId !in s.byProvider
    requires s'.prefix == s.prefix && s'.lastNumber == s.lastNumber + 1
    requires s'.orders == s.orders[id := o] && s'.byNumber == s.byNumber[o.number := id]
    requires s'.byProvider == if o.attempts == [] then s.byProvider else s.byProvider[o.attempts[0].providerId := Ref(id, 1)]
    requires s'.asking == if o.attempts == [] then s.asking else s.asking + {Ref(id, 1)}
    requires s'.sent == s.sent && s'.answered == s.answered && s'.lost == s.lost
    ensures OrdersOk(s') && Indexed(s') && CallsOk(s')
  {
    FreshNumber(s, o);
    var p := if o.attempts == [] then None else Some(o.attempts[0]);
    hide Good, OrdersOk, CartsOk, CallsOk, Indexed;
    OrdersGrow(s, s', id, o);
    IndexesAdd(s, s', id, o);
    match p {
      case None => CallsStay(s, s');
      case Some(p) => CallsAdd(s, s', Ref(id, 1), p);
    }
  }

  lemma ManualKeeps(s: Shop, id: OrderId, lines: seq<ManualLine>, offers: map<VariantId, Offer>,
                    terms: Result<Terms, Refusal>, queued: bool)
    requires ShopInv(s)
    ensures Kept(s, CreateManual(s, id, lines, offers, terms, queued).0)
  {
    hide Good, Indexed, CartsOk, CallsOk;
    var s' := CreateManual(s, id, lines, offers, terms, queued).0;
    if s' == s {
      ShopEvolvesReflexive(s);
    } else {
      var ls := ManualLines(lines, offers).value;
      var t := terms.value;
      NewOrderGood(s.prefix, s.lastNumber + 1, BankTransfer, None, ls, t.shipping, t.courier, queued);
      var o := WithMail(ManualOrderOf(s, ls, t), OrderPlaced, queued);
      CartlessKept(s, s', id, o);
    }
  }

  lemma CartlessKept(s: Shop, s': Shop, id: OrderId, o: Order)
    requires ShopInv(s) && id !in s.orders && Good(o) && o.seqNo == s.lastNumber + 1
    requires o.cart.None? && o.attempts == [] && s' == AddOrder(s, id, o)
    ensures Kept(s, s')
  {
    hide Good, OrdersOk, CartsOk, CallsOk, Indexed, Evolves;
    PlainOrderKeeps(s, s', id, o);
    CartsAdd(s, s', id, o);
    OrdersGrow(s, s', id, o);
  }

  // ---------------------------------------------------------------- checkout

  /** The order a checkout writes, with its first attempt if it has one. */
  function Placed(s: Shop, c: CartId, shipping: int, input: CheckoutInput): Order
    requires c in s.carts
  {
    var o := CheckoutOrder(s, c, s.carts[c], shipping, input);
    WithMail(if o.payBy.Midtrans? then o.(attempts := [NewAttempt(o, 1, input.now)]) else o, OrderPlaced, input.queued)
  }

  lemma PlacedGood(s: Shop, c: CartId, shipping: int, input: CheckoutInput)
    requires OrdersOk(s) && c in s.carts
    requires input.payBy.Midtrans? ==> WholeRupiah(CheckoutOrder(s, c, s.carts[c], shipping, input).total)
    ensures Good(Placed(s, c, shipping, input))
  {
    var o := CheckoutOrder(s, c, s.carts[c], shipping, input);
    NewOrderGood(s.prefix, s.lastNumber + 1, input.payBy, Some(c), PricedLines(s.carts[c].items, input.offers),
                 shipping, Some(input.courier), false);
    assert Good(o);
    if o.payBy.Midtrans? {
      AppendKeeps(o, input.now);
      assert o.attempts + [NewAttempt(o, 1, input.now)] == [NewAttempt(o, 1, input.now)];
      MailKeeps(o.(attempts := [NewAttempt(o, 1, input.now)]), OrderPlaced, input.queued);
    } else {
      MailKeeps(o, OrderPlaced, input.queued);
    }
  }

  /** What PlaceOrder writes, table by table. */
  lemma PlaceWrites(s: Shop, c: CartId, shipping: int, input: CheckoutInput)
    requires c in s.carts && PlaceOrder(s, c, shipping, input).1.CheckedOut?
    ensures var s' := PlaceOrder(s, c, shipping, input).0;
            var o := Placed(s, c, shipping, input);
            var id := input.newId;
            && id !in s.orders
            && (input.payBy.Midtrans? ==> WholeRupiah(CheckoutOrder(s, c, s.carts[c], shipping, input).total))
            && o.seqNo == s.lastNumber + 1 && o.prefix == s.prefix && o.cart == Some(c)
            && |o.attempts| <= 1 && o.lines == PricedLines(s.carts[c].items, input.offers)
            && (o.attempts != [] ==> o.attempts[0].providerId !in s.byProvider)
            && s'.prefix == s.prefix && s'.lastNumber == s.lastNumber + 1
            && s'.orders == s.orders[id := o] && s'.byNumber == s.byNumber[o.number := id]
            && s'.byCart == s.byCart[c := id] && s'.carts == s.carts[c := s.carts[c].(checkedOut := true)]
            && s'.byProvider == (if o.attempts == [] then s.byProvider else s.byProvider[o.attempts[0].providerId := Ref(id, 1)])
            && s'.asking == (if o.attempts == [] then s.asking else s.asking + {Ref(id, 1)})
            && s'.sent == s.sent && s'.answered == s.answered && s'.lost == s.lost
  {
    hide PricedLines, OrderNumber, ProviderId, WholeRupiah, NewOrder, WithMail;
    PlacedIs(s, c, shipping, input);
  }

  lemma CheckoutIs(s: Shop, c: CartId, input: CheckoutInput)
    ensures Next(s, CheckOut(c, input)) == Checkout(s, c, input)
  {
    hide Checkout;
  }

  lemma PlacedIs(s: Shop, c: CartId, shipping: int, input: CheckoutInput)
    requires c in s.carts
    ensures var o, bare := Placed(s, c, shipping, input), CheckoutOrder(s, c, s.carts[c], shipping, input);
            && o.seqNo == s.lastNumber + 1 && o.prefix == s.prefix && o.cart == Some(c) && o.number == bare.number
            && o.lines == PricedLines(s.carts[c].items, input.offers) && bare.attempts == [] && bare.payBy == input.payBy
            && bare.seqNo == o.seqNo
            && o.attempts == if bare.payBy.Midtrans? then [NewAttempt(bare, 1, input.now)] else []
  {
    hide PricedLines, OrderNumber, ProviderId;
  }

  /** Neither index behind a checkout ever refuses it: only an id drawn twice could. */
  lemma CheckoutNeverCollides(s: Shop, c: CartId, shipping: int, input: CheckoutInput)
    requires ShopInv(s) && c in s.carts && !s.carts[c].checkedOut
    ensures PlaceOrder(s, c, shipping, input).1 == Refused(UniqueViolation) <==> input.newId in s.orders
  {
    var o := CheckoutOrder(s, c, s.carts[c], shipping, input);
    FreshNumber(s, o);
    FreshProviderId(s, o, 1);
  }

  lemma PlaceKeeps(s: Shop, c: CartId, shipping: int, input: CheckoutInput)
    requires ShopInv(s) && c in s.carts && !s.carts[c].checkedOut
    requires UnavailableItems(s.carts[c].items, input.offers) == []
    ensures Kept(s, PlaceOrder(s, c, shipping, input).0)
  {
    if PlaceOrder(s, c, shipping, input).1.CheckedOut? {
      var s' := PlaceOrder(s, c, shipping, input).0;
      var o := Placed(s, c, shipping, input);
      var id := input.newId;
      PlaceWrites(s, c, shipping, input);
      PlacedGood(s, c, shipping, input);
      PricedMatch(s.carts[c].items, input.offers);
      PlacedKept(s, s', c, id, o);
    } else {
      ShopEvolvesReflexive(s);
    }
  }

  lemma PlacedKept(s: Shop, s': Shop, c: CartId, id: OrderId, o: Order)
    requires ShopInv(s) && c in s.carts && !s.carts[c].checkedOut && LinesAre(o.lines, s.carts[c].items)
    requires id !in s.orders && Good(o) && o.seqNo == s.lastNumber + 1 && o.cart == Some(c) && |o.attempts| <= 1
    requires o.attempts != [] ==> o.attempts[0].providerId !in s.byProvider
    requires s'.prefix == s.prefix && s'.lastNumber == s.lastNumber + 1
    requires s'.orders == s.orders[id := o] && s'.byNumber == s.byNumber[o.number := id]
    requires s'.byCart == s.byCart[c := id] && s'.carts == s.carts[c := s.carts[c].(checkedOut := true)]
    requires s'.byProvider == if o.attempts == [] then s.byProvider else s.byProvider[o.attempts[0].providerId := Ref(id, 1)]
    requires s'.asking == if o.attempts == [] then s.asking else s.asking + {Ref(id, 1)}
    requires s'.sent == s.sent && s'.answered == s.answered && s'.lost == s.lost
    ensures Kept(s, s')
  {
    hide Good, OrdersOk, CartsOk, CallsOk, Indexed, Evolves, LinesAre;
    PlainOrderKeeps(s, s', id, o);
    CartsAdd(s, s', id, o);
    OrdersGrow(s, s', id, o);
  }

  lemma CartsClosed(s: Shop)
    requires ShopInv(s)
    ensures forall c :: c in s.byCart ==> c in s.carts && s.carts[c].checkedOut && s.byCart[c] in s.orders
  {
    hide OrdersOk, Indexed, CallsOk, LinesAre;
  }

  lemma CheckoutKeeps(s: Shop, c: CartId, input: CheckoutInput)
    requires ShopInv(s)
    ensures Kept(s, Checkout(s, c, input).0)
  {
    CartsClosed(s);
    KeptSame(s);
    hide ShopInv, Kept, PlaceOrder, ReplayAnswer, UnavailableItems, Takes;
    if Checkout(s, c, input).0 != s {
      PlaceKeeps(s, c, input.quote.value, input);
    }
  }

  // --------------------------------------------------- tables left as they are

  lemma KeptSame(s: Shop)
    requires ShopInv(s)
    ensures Kept(s, s)
  {
    hide Good, OrdersOk, CartsOk, CallsOk, Indexed;
    ShopEvolvesReflexive(s);
  }

  lemma KeptTransitive(a: Shop, b: Shop, c: Shop)
    requires Kept(a, b) && Kept(b, c)
    ensures Kept(a, c)
  {
    hide ShopInv, Evolves;
    ShopEvolvesTransitive(a, b, c);
  }

  lemma GoodOrder(s: Shop, id: OrderId)
    requires ShopInv(s) && id in s.orders
    ensures Good(s.orders[id])
  {
  }

  lemma SameOrders(s: Shop, s': Shop)
    requires OrdersOk(s) && Indexed(s) && s'.prefix == s.prefix && s'.lastNumber == s.lastNumber
    requires s'.orders == s.orders && s'.byNumber == s.byNumber && s'.byProvider == s.byProvider
    ensures OrdersOk(s') && Indexed(s')
    ensures forall k :: k in s.orders ==> Evolves(s.orders[k], s'.orders[k])
  {
    hide Good;
    assert forall r: Ref :: HasAttempt(s', r) <==> HasAttempt(s, r);
    forall k | k in s.orders ensures Evolves(s.orders[k], s'.orders[k]) {
      EvolvesReflexive(s.orders[k]);
    }
  }

  lemma SameCarts(s: Shop, s': Shop)
    requires CartsOk(s) && s'.carts == s.carts && s'.byCart == s.byCart && s'.orders == s.orders
    ensures CartsOk(s')
  {
  }

  /** Only the calls in flight, and what was sent, have changed. */
  lemma CallStep(s: Shop, s': Shop)
    requires ShopInv(s) && CallsOk(s')
    requires s' == s.(asking := s'.asking, answered := s'.answered, sent := s'.sent, lost := s'.lost)
    requires s.sent <= s'.sent && s.lost <= s'.lost
    ensures Kept(s, s')
  {
    hide Good, OrdersOk, CartsOk, CallsOk, Indexed, Evolves;
    SameOrders(s, s');
    SameCarts(s, s');
  }

  // ------------------------------------------------------------------- carts

  lemma CartsMove(s: Shop, s': Shop)
    requires CartsOk(s) && s'.byCart == s.byCart && s'.orders == s.orders
    requires forall c :: c in s.carts && s.carts[c].checkedOut ==> c in s'.carts && s'.carts[c] == s.carts[c]
    requires forall c :: c in s'.carts && s'.carts[c].checkedOut ==> c in s.carts && s.carts[c].checkedOut
    ensures CartsOk(s')
  {
  }

  lemma CartStepKeeps(s: Shop, s': Shop)
    requires ShopInv(s)
    requires s' == s.(carts := s'.carts)
    requires forall c :: c in s.carts && s.carts[c].checkedOut ==> c in s'.carts && s'.carts[c] == s.carts[c]
    requires forall c :: c in s'.carts && s'.carts[c].checkedOut ==> c in s.carts && s.carts[c].checkedOut
    ensures Kept(s, s')
  {
    hide Good, OrdersOk, CartsOk, Indexed, Evolves;
    SameOrders(s, s');
    CartsMove(s, s');
    assert CallsOk(s') by {
      CallsStay(s, s');
    }
  }

  lemma CartEditKeeps(s: Shop, c: CartId, variant: VariantId, qty: int, visible: bool, now: int)
    requires ShopInv(s)
    ensures Kept(s, EditCart(s, c, variant, qty, visible, now).0)
  {
    var s' := EditCart(s, c, variant, qty, visible, now).0;
    hide ShopInv, Kept;
    if s' == s {
      KeptSame(s);
    } else {
      CartStepKeeps(s, s');
    }
  }

  // ---------------------------------------------------------------- payments

  lemma UpdateStep(s: Shop, id: OrderId, o: Order)
    requires ShopInv(s) && id in s.orders
    requires Good(o) && Evolves(s.orders[id], o) && |o.attempts| == |s.orders[id].attempts|
    ensures Kept(s, WithOrder(s, id, o))
  {
    UpdateKeeps(s, id, o);
    hide Good, Evolves, ShopInv;
    ReplaceEvolves(s, WithOrder(s, id, o), id, o);
  }

  lemma ApplyAddsNoRow(o: Order, i: nat, r: Report, now: int, queued: bool)
    requires i < |o.attempts|
    ensures |Apply(o, i, r, now, queued).0.attempts| == |o.attempts|
  {
  }

  lemma NotifyKeeps(s: Shop, providerId: string, r: Report, now: int, queued: bool)
    requires ShopInv(s)
    ensures Kept(s, Notify(s, providerId, r, now, queued).0)
  {
    hide Good, Evolves, ShopInv, Kept, Apply;
    if providerId in s.byProvider && HasAttempt(s, s.byProvider[providerId]) {
      var ref := s.byProvider[providerId];
      var o := s.orders[ref.order];
      ApplyAddsNoRow(o, ref.number - 1, r, now, queued);
      GoodOrder(s, ref.order);
      ApplyKeeps(o, ref.number - 1, r, now, queued);
      UpdateStep(s, ref.order, Apply(o, ref.number - 1, r, now, queued).0);
    } else {
      KeptSame(s);
    }
  }

  lemma StoreKeeps(s: Shop, r: Ref, link: Link)
    requires ShopInv(s)
    ensures Kept(s, StoreLink(s, r, link).0)
  {
    hide Good, Evolves, ShopInv, Kept;
    if (r, link) in s.answered && HasAttempt(s, r) {
      var o := SetLink(s.orders[r.order], r.number - 1, link);
      GoodOrder(s, r.order);
      SetLinkKeeps(s.orders[r.order], r.number - 1, link);
      UpdateStep(s, r.order, o);
      var mid := WithOrder(s, r.order, o);
      KeptInv(s, mid);
      AnswerTaken(mid, (r, link));
      KeptTransitive(s, mid, mid.(answered := mid.answered - {(r, link)}));
    } else {
      KeptSame(s);
    }
  }

  lemma KeptInv(s: Shop, s': Shop)
    requires Kept(s, s')
    ensures ShopInv(s')
  {
    hide ShopInv, ShopEvolves;
  }

  lemma AnswerTaken(s: Shop, a: (Ref, Link))
    requires ShopInv(s)
    ensures Kept(s, s.(answered := s.answered - {a}))
  {
    var s' := s.(answered := s.answered - {a});
    assert CallsOk(s') by {
      hide Good, OrdersOk, CartsOk, Indexed;
    }
    hide ShopInv, Kept;
    CallStep(s, s');
  }

  lemma AskKeeps(s: Shop, r: Ref, reply: Option<Link>)
    requires ShopInv(s)
    ensures Kept(s, AskMidtrans(s, r, reply).0)
  {
    hide Good, OrdersOk, CartsOk, CallsOk, Indexed, Kept;
    if r in s.asking && HasAttempt(s, r) {
      AskedCalls(s, r, reply);
      CallStep(s, AskMidtrans(s, r, reply).0);
    } else {
      KeptSame(s);
    }
  }

  /** A checkout's request goes out for the first and only time: the row was
      among those not yet asked for. */
  lemma AskedCalls(s: Shop, r: Ref, reply: Option<Link>)
    requires Indexed(s) && CallsOk(s) && r in s.asking && HasAttempt(s, r)
    ensures CallsOk(AskMidtrans(s, r, reply).0)
  {
    var s' := AskMidtrans(s, r, reply).0;
    var pid := AttemptAt(s, r).providerId;
    assert s.byProvider[pid] == r;
    assert Ids(s'.sent) == Ids(s.sent) + [pid];
    if s.lost == 0 {
      assert pid !in Ids(s.sent);
      NoDuplicatesAppend(Ids(s.sent), pid);
      forall id | id in Ids(s'.sent) ensures id in s'.byProvider && s'.byProvider[id] !in s'.asking {
        assert id == pid || id in Ids(s.sent);
      }
    }
  }

  lemma RetryKeeps(s: Shop, id: OrderId, reply: Option<Link>, now: int)
    requires ShopInv(s)
    ensures Kept(s, PayAgain(s, id, reply, now).0)
  {
    if id in s.orders && ChoosePayment(s.orders[id], s.midtrans, now).Open? {
      RetryOpens(s, id, reply, now);
    } else {
      hide ShopInv, Kept;
      KeptSame(s);
    }
  }

  /** The order a pay-again that opens an attempt leaves. */
  function Reopened(s: Shop, id: OrderId, reply: Option<Link>, now: int): Order
    requires id in s.orders && ChoosePayment(s.orders[id], s.midtrans, now).Open?
    requires ChoosePayment(s.orders[id], s.midtrans, now).order.attempts != []
  {
    var o := ChoosePayment(s.orders[id], s.midtrans, now).order;
    match reply
    case None => o
    case Some(link) => SetLink(o, |o.attempts| - 1, link)
  }

  lemma NextIdFree(s: Shop, id: OrderId)
    requires ShopInv(s) && id in s.orders
    ensures ProviderId(s.orders[id].number, |s.orders[id].attempts| + 1) !in s.byProvider
  {
    GoodOrder(s, id);
    FreshProviderId(s, s.orders[id], |s.orders[id].attempts| + 1);
  }

  lemma LinkChangesNoId(o: Order, reply: Option<Link>)
    requires o.attempts != []
    ensures var last := |o.attempts| - 1;
            var o' := match reply case None => o case Some(link) => SetLink(o, last, link);
            |o'.attempts| == |o.attempts| && RequestFor(o'.attempts[last]) == RequestFor(o.attempts[last])
  {
  }

  /** Pay-again's new row never meets an index, and it is the next number. */
  lemma ReopenedGood(s: Shop, id: OrderId, reply: Option<Link>, now: int)
    requires ShopInv(s) && id in s.orders && ChoosePayment(s.orders[id], s.midtrans, now).Open?
    ensures var c := ChoosePayment(s.orders[id], s.midtrans, now);
            && c.number == |c.order.attempts| == |s.orders[id].attempts| + 1
            && c.order.attempts[c.number - 1].providerId !in s.byProvider
            && var o := Reopened(s, id, reply, now);
               && Good(o) && Evolves(s.orders[id], o) && |o.attempts| == c.number
               && RequestFor(o.attempts[c.number - 1]) == RequestFor(c.order.attempts[c.number - 1])
  {
    var was := s.orders[id];
    hide ShopInv, Good, Evolves, ChoosePayment;
    GoodOrder(s, id);
    NextIdFree(s, id);
    PayAgainKeeps(was, s.midtrans, now);
    PayAgainNeverCollides(was, s.midtrans, now);
    var o := ChoosePayment(was, s.midtrans, now).order;
    LinkedOpen(was, o, reply);
    LinkChangesNoId(o, reply);
  }

  lemma RetryOpens(s: Shop, id: OrderId, reply: Option<Link>, now: int)
    requires ShopInv(s) && id in s.orders && ChoosePayment(s.orders[id], s.midtrans, now).Open?
    ensures Kept(s, PayAgain(s, id, reply, now).0)
  {
    hide ShopInv, Good, Evolves, Kept, ChoosePayment;
    ReopenedGood(s, id, reply, now);
    OpenStep(s, PayAgain(s, id, reply, now).0, id, Reopened(s, id, reply, now));
  }

  lemma LinkedOpen(was: Order, o: Order, reply: Option<Link>)
    requires Good(o) && Evolves(was, o) && o.attempts != []
    ensures var o' := match reply case None => o case Some(link) => SetLink(o, |o.attempts| - 1, link);
            Good(o') && Evolves(was, o')
  {
    hide Good, Evolves;
    match reply {
      case None =>
      case Some(link) =>
        SetLinkKeeps(o, |o.attempts| - 1, link);
        EvolvesTransitive(was, o, SetLink(o, |o.attempts| - 1, link));
    }
  }

  lemma OpenStep(s: Shop, s': Shop, id: OrderId, o: Order)
    requires ShopInv(s) && id in s.orders
    requires Good(o) && Evolves(s.orders[id], o) && |o.attempts| == |s.orders[id].attempts| + 1
    requires o.attempts[|o.attempts| - 1].providerId !in s.byProvider
    requires var p := o.attempts[|o.attempts| - 1];
             s' == s.(byProvider := s.byProvider[p.providerId := Ref(id, |o.attempts|)],
                      sent := s.sent + [RequestFor(p)], orders := s.orders[id := o])
    ensures Kept(s, s')
  {
    hide ShopInv, Good, Evolves;
    OpenKeeps(s, s', id, o);
    ReplaceEvolves(s, s', id, o);
  }

  lemma LostKeeps(s: Shop, id: OrderId, now: int)
    requires ShopInv(s)
    ensures Kept(s, PayAgainLost(s, id, now).0)
  {
    var s' := PayAgainLost(s, id, now).0;
    hide Good, OrdersOk, CartsOk, Indexed, Kept, ChoosePayment;
    if s' == s {
      KeptSame(s);
    } else {
      CallStep(s, s');
    }
  }

  // ---------------------------------------------------------------- any step

  lemma MoveAddsNoRow(o: Order, to: Status, ship: ShipInput, now: int, queued: bool)
    requires Move(o, to, ship, now, queued).Ok?
    ensures Move(o, to, ship, now, queued).value.0.attempts == o.attempts
  {
  }

  lemma MoveStep(s: Shop, id: OrderId, to: Status, ship: ShipInput, now: int, queued: bool)
    requires ShopInv(s) && id in s.orders && Move(s.orders[id], to, ship, now, queued).Ok?
    ensures Kept(s, WithOrder(s, id, Move(s.orders[id], to, ship, now, queued).value.0))
  {
    hide Good, Evolves, ShopInv, Kept, Move;
    var o := Move(s.orders[id], to, ship, now, queued).value.0;
    MoveAddsNoRow(s.orders[id], to, ship, now, queued);
    GoodOrder(s, id);
    TransitionKeeps(s.orders[id], to, ship, now, queued);
    UpdateStep(s, id, o);
  }

  lemma EditStep(s: Shop, id: OrderId, version: nat, shipping: Option<int>)
    requires ShopInv(s) && id in s.orders && Edit(s.orders[id], version, shipping).Ok?
    ensures Kept(s, WithOrder(s, id, Edit(s.orders[id], version, shipping).value))
  {
    var o := Edit(s.orders[id], version, shipping).value;
    assert |o.attempts| == |s.orders[id].attempts|;
    hide Good, Evolves, ShopInv, Kept, Edit;
    GoodOrder(s, id);
    EditKeeps(s.orders[id], version, shipping);
    UpdateStep(s, id, o);
  }

  lemma RefundStep(s: Shop, id: OrderId, now: int)
    requires ShopInv(s) && id in s.orders && Refund(s.orders[id], now).Ok?
    ensures Kept(s, WithOrder(s, id, Refund(s.orders[id], now).value))
  {
    var o := Refund(s.orders[id], now).value;
    assert |o.attempts| == |s.orders[id].attempts|;
    hide Good, Evolves, ShopInv, Kept, Refund;
    GoodOrder(s, id);
    RefundKeeps(s.orders[id], now);
    UpdateStep(s, id, o);
  }

  lemma SettingsStep(s: Shop, prefix: string, bank: bool, midtrans: bool)
    requires ShopInv(s) && ValidPrefix(prefix)
    ensures Kept(s, s.(prefix := prefix, bank := bank, midtrans := midtrans))
  {
    var s' := s.(prefix := prefix, bank := bank, midtrans := midtrans);
    assert OrdersOk(s') by {
      hide Good, CartsOk, CallsOk, Indexed;
    }
    SettingsEvolve(s, s');
  }

  lemma SettingsEvolve(s: Shop, s': Shop)
    requires ShopInv(s) && OrdersOk(s')
    requires s' == s.(prefix := s'.prefix, bank := s'.bank, midtrans := s'.midtrans)
    ensures Kept(s, s')
  {
    hide Good, OrdersOk, CartsOk, CallsOk, Indexed, Evolves;
    var same := s.(bank := s'.bank, midtrans := s'.midtrans);
    SameOrders(s, same);
    SameCarts(s, same);
    assert Indexed(s') && CartsOk(same) && CartsOk(s') && CallsOk(s') by {
      SameTables(same, s');
      CallsStay(s, s');
    }
  }

  lemma SameTables(s: Shop, s': Shop)
    requires Indexed(s) && CartsOk(s) && s' == s.(prefix := s'.prefix)
    ensures Indexed(s') && CartsOk(s')
  {
    assert forall r: Ref :: HasAttempt(s', r) <==> HasAttempt(s, r);
  }

  lemma NextKeeps(s: Shop, step: Step)
    requires ShopInv(s)
    ensures Kept(s, Next(s, step).0)
  {
    hide ShopInv, Kept, Move, Edit, Refund, EditCart, Checkout, CreateManual, AskMidtrans, StoreLink, PayAgain, PayAgainLost,
      Notify;
    KeptSame(s);
    match step {
      case CreateCart(c, now) =>
        if c !in s.carts {
          CartStepKeeps(s, Next(s, step).0);
        }
      case ChangeCart(c, v, qty, visible, now) => CartEditKeeps(s, c, v, qty, visible, now);
      case Sweep(now) => CartStepKeeps(s, SweepCarts(s, now));
      case CheckOut(c, input) => CheckoutKeeps(s, c, input);
      case ManualOrder(id, lines, offers, terms, queued) => ManualKeeps(s, id, lines, offers, terms, queued);
      case Ask(r, reply) => AskKeeps(s, r, reply);
      case Store(r, link) => StoreKeeps(s, r, link);
      case Retry(id, reply, now) => RetryKeeps(s, id, reply, now);
      case RetryLost(id, now) => LostKeeps(s, id, now);
      case Notification(providerId, r, now, queued) => NotifyKeeps(s, providerId, r, now, queued);
      case MoveOrder(id, to, ship, now, queued) =>
        if id in s.orders && Move(s.orders[id], to, ship, now, queued).Ok? {
          MoveStep(s, id, to, ship, now, queued);
        }
      case EditOrder(id, version, shipping) =>
        if id in s.orders && Edit(s.orders[id], version, shipping).Ok? {
          EditStep(s, id, version, shipping);
        }
      case RefundOrder(id, now) =>
        if id in s.orders && Refund(s.orders[id], now).Ok? {
          RefundStep(s, id, now);
        }
      case ChangeSettings(prefix, bank, midtrans) =>
        if ValidPrefix(prefix) {
          SettingsStep(s, prefix, bank, midtrans);
        }
    }
  }

  // -------------------------------------------------------------------- runs

  lemma {:induction false} RunKeeps(s: Shop, steps: seq<Step>)
    requires ShopInv(s)
    ensures Kept(s, Run(s, steps))
  {
    if steps == [] {
      KeptSame(s);
    } else {
      var before := Run(s, steps[..|steps| - 1]);
      RunKeeps(s, steps[..|steps| - 1]);
      KeptInv(s, before);
      NextKeeps(before, steps[|steps| - 1]);
      hide ShopInv, ShopEvolves, Kept;
      KeptTransitive(s, before, Run(s, steps));
    }
  }

  lemma OpenedInv(prefix: string, bank: bool, midtrans: bool)
    requires ValidPrefix(prefix)
    ensures ShopInv(Opened(prefix, bank, midtrans))
  {
    var s := Opened(prefix, bank, midtrans);
    assert Ids(s.sent) == [];
  }
}
