/** One shop's tables and the calls in flight between its transactions. Next is
    the whole protocol: one step per committed (or rolled back) transaction, per
    call to Midtrans, and per change the owner makes to the settings. */
module ShopModel {
  import opened Base
  import opened OrderIds
  import opened OrderModel

  datatype CartItem = CartItem(variant: VariantId, qty: int)

  datatype Cart = Cart(checkedOut: bool, expiresAt: int, items: seq<CartItem>)

  /** One row of payments: an order and the attempt's number. */
  datatype Ref = Ref(order: OrderId, number: nat)

  /** What Midtrans is asked: an id and an amount in whole rupiah. */
  datatype Request = Request(id: string, amount: int)

  /** byCart, byNumber and byProvider are the UNIQUE indexes on orders.cart_id,
      orders.order_number and payments.provider_order_id. asking and answered
      are checkouts whose order has committed: not yet asked, and answered but
      not yet stored. sent and lost only record what happened. */
  datatype Shop = Shop(
    prefix: string, bank: bool, midtrans: bool, lastNumber: nat,
    carts: map<CartId, Cart>,
    orders: map<OrderId, Order>,
    byCart: map<CartId, OrderId>,
    byNumber: map<string, OrderId>,
    byProvider: map<string, Ref>,
    asking: set<Ref>,
    answered: set<(Ref, Link)>,
    sent: seq<Request>,
    lost: nat)

  function Opened(prefix: string, bank: bool, midtrans: bool): Shop {
    Shop(prefix, bank, midtrans, 0, map[], map[], map[], map[], map[], {}, {}, [], 0)
  }

  predicate Takes(s: Shop, payBy: Method) {
    match payBy
    case BankTransfer => s.bank
    case Midtrans => s.midtrans
  }

  datatype PaymentAnswer = NoPayment | Asking | LiveLink(link: Link) | PaymentError

  datatype Outcome =
    | Done
    | Refused(why: Refusal)
    | CheckedOut(order: OrderId, created: bool, payment: PaymentAnswer)
    | PayLink(link: Link)
    | PaymentUnavailable
    | CommitLost
    | Notified(moved: bool)
    | Changed(changed: bool)

  // ------------------------------------------------------------------- carts

  const CART_TTL := 30 * 24 * 60 * 60 * 1000

  predicate OpenCart(s: Shop, c: CartId, now: int) {
    c in s.carts && !s.carts[c].checkedOut && s.carts[c].expiresAt > now
  }

  /** ON CONFLICT (cart_id, variant_id) DO UPDATE SET qty. */
  function SetItem(items: seq<CartItem>, variant: VariantId, qty: int): seq<CartItem> {
    if items == [] then [CartItem(variant, qty)]
    else if items[0].variant == variant then [CartItem(variant, qty)] + items[1..]
    else [items[0]] + SetItem(items[1..], variant, qty)
  }

  function DeleteItem(items: seq<CartItem>, variant: VariantId): seq<CartItem> {
    if items == [] then []
    else if items[0].variant == variant then DeleteItem(items[1..], variant)
    else [items[0]] + DeleteItem(items[1..], variant)
  }

  function EditCart(s: Shop, c: CartId, variant: VariantId, qty: int, visible: bool, now: int): (Shop, Outcome) {
    if qty < 0 || qty > 999 then (s, Refused(BadQuantity))
    else if !OpenCart(s, c, now) then (s, Refused(NotFound))
    else if qty != 0 && !visible then (s, Refused(NotForSale))
    else
      var items := if qty == 0 then DeleteItem(s.carts[c].items, variant) else SetItem(s.carts[c].items, variant, qty);
      (s.(carts := s.carts[c := Cart(false, now + CART_TTL, items)]), Done)
  }

  function SweepCarts(s: Shop, now: int): Shop {
    s.(carts := map c | c in s.carts && (s.carts[c].checkedOut || s.carts[c].expiresAt >= now) :: s.carts[c])
  }

  // ---------------------------------------------------------------- checkout

  /** What the storefront views say of a variant at this moment. */
  datatype Offer = Offer(available: bool, price: Option<int>, sku: string, title: string)

  predicate Buyable(offers: map<VariantId, Offer>, v: VariantId) {
    v in offers && offers[v].available && offers[v].price.Some?
  }

  function UnavailableItems(items: seq<CartItem>, offers: map<VariantId, Offer>): seq<VariantId> {
    if items == [] then []
    else
      var rest := UnavailableItems(items[..|items| - 1], offers);
      var v := items[|items| - 1].variant;
      if Buyable(offers, v) then rest else rest + [v]
  }

  /** The lines an available cart becomes, each at its price now. */
  function PricedLines(items: seq<CartItem>, offers: map<VariantId, Offer>): seq<Line> {
    if items == [] then []
    else
      var rest := PricedLines(items[..|items| - 1], offers);
      var it := items[|items| - 1];
      if !Buyable(offers, it.variant) then rest
      else rest + [Line(it.variant, it.qty, offers[it.variant].price.value, 0,
                        offers[it.variant].sku, offers[it.variant].title)]
  }

  /** A checkout request, with what the transaction reads around it: the
      catalog, the courier's quote, the clock and whether the email queue took
      the message. newId is the id drawn for the order. */
  datatype CheckoutInput = CheckoutInput(
    payBy: Method, offers: map<VariantId, Offer>, quote: Result<int, Refusal>, courier: string,
    newId: OrderId, now: int, queued: bool)

  predicate OrderInsertable(s: Shop, id: OrderId, o: Order) {
    && id !in s.orders && o.number !in s.byNumber
    && (o.cart.Some? ==> o.cart.value !in s.byCart)
  }

  function AddOrder(s: Shop, id: OrderId, o: Order): Shop {
    s.(lastNumber := s.lastNumber + 1,
       orders := s.orders[id := o],
       byNumber := s.byNumber[o.number := id],
       byCart := if o.cart.Some? then s.byCart[o.cart.value := id] else s.byCart)
  }

  function CheckoutOrder(s: Shop, c: CartId, cart: Cart, shipping: int, input: CheckoutInput): Order {
    NewOrder(s.prefix, s.lastNumber + 1, input.payBy, Some(c), PricedLines(cart.items, input.offers),
             shipping, Some(input.courier))
  }

  function CloseCart(s: Shop, c: CartId): Shop
    requires c in s.carts
  {
    s.(carts := s.carts[c := s.carts[c].(checkedOut := true)])
  }

  /** A checkout that found its cart open and everything in it for sale. */
  function PlaceOrder(s: Shop, c: CartId, shipping: int, input: CheckoutInput): (Shop, Outcome)
    requires c in s.carts
  {
    var o := CheckoutOrder(s, c, s.carts[c], shipping, input);
    var id := input.newId;
    if !OrderInsertable(s, id, o) then (s, Refused(UniqueViolation))
    else if !o.payBy.Midtrans? then
      (CloseCart(AddOrder(s, id, WithMail(o, OrderPlaced, input.queued)), c), CheckedOut(id, true, NoPayment))
    else if !WholeRupiah(o.total) then (s, Refused(NotWholeRupiah))
    else
      var p := NewAttempt(o, 1, input.now);
      if p.providerId in s.byProvider then (s, Refused(UniqueViolation))
      else
        var s' := AddOrder(s, id, WithMail(o.(attempts := [p]), OrderPlaced, input.queued));
        (CloseCart(s'.(byProvider := s'.byProvider[p.providerId := Ref(id, 1)], asking := s'.asking + {Ref(id, 1)}), c),
         CheckedOut(id, true, Asking))
  }

  /** What a repeated checkout answers about the order its cart already made. */
  function ReplayAnswer(o: Order, now: int): PaymentAnswer {
    if !o.payBy.Midtrans? then NoPayment
    else
      match Latest(o.attempts)
      case Some(i) => if Live(o.attempts[i], o, now) then LiveLink(o.attempts[i].link.value) else PaymentError
      case None => PaymentError
  }

  function Checkout(s: Shop, c: CartId, input: CheckoutInput): (Shop, Outcome) {
    if c !in s.carts then (s, Refused(NotFound))
    else if s.carts[c].checkedOut then
      if c in s.byCart && s.byCart[c] in s.orders then
        (s, CheckedOut(s.byCart[c], false, ReplayAnswer(s.orders[s.byCart[c]], input.now)))
      else (s, Refused(NotFound))
    else if s.carts[c].expiresAt <= input.now then (s, Refused(NotFound))
    else if s.carts[c].items == [] then (s, Refused(EmptyCart))
    else if UnavailableItems(s.carts[c].items, input.offers) != [] then
      (s, Refused(ItemUnavailable(UnavailableItems(s.carts[c].items, input.offers))))
    else if !Takes(s, input.payBy) then (s, Refused(MethodNotTaken))
    else
      match input.quote
      case Err(why) => (s, Refused(why))
      case Ok(shipping) => PlaceOrder(s, c, shipping, input)
  }

  // ------------------------------------------------------------ manual orders

  datatype ManualLine = ManualLine(variant: VariantId, qty: int, discount: int)

  /** Why a manual order's line is refused: no such variant, archived, or a
      discount above what the line costs. */
  function BadLine(l: ManualLine, offers: map<VariantId, Offer>): Option<Refusal> {
    if l.variant !in offers || offers[l.variant].price.None? then Some(NotFound)
    else if !offers[l.variant].available then Some(NotForSale)
    else if l.discount > offers[l.variant].price.value * l.qty then Some(BadDiscount)
    else None
  }

  /** The lines in request order, or the first one refused. */
  function ManualLines(lines: seq<ManualLine>, offers: map<VariantId, Offer>): Result<seq<Line>, Refusal> {
    if lines == [] then Ok([])
    else
      match ManualLines(lines[..|lines| - 1], offers)
      case Err(why) => Err(why)
      case Ok(rest) =>
        var l := lines[|lines| - 1];
        match BadLine(l, offers)
        case Some(why) => Err(why)
        case None => Ok(rest + [Line(l.variant, l.qty, offers[l.variant].price.value, l.discount,
                                     offers[l.variant].sku, offers[l.variant].title)])
  }

  /** What a manual order ships for: the amount entered, or a quoted option with
      its courier; the quote may fail. */
  datatype Terms = Terms(shipping: int, courier: Option<string>)

  function ManualOrderOf(s: Shop, lines: seq<Line>, terms: Terms): Order {
    NewOrder(s.prefix, s.lastNumber + 1, BankTransfer, None, lines, terms.shipping, terms.courier)
  }

  function CreateManual(s: Shop, id: OrderId, lines: seq<ManualLine>, offers: map<VariantId, Offer>,
                        terms: Result<Terms, Refusal>, queued: bool): (Shop, Outcome)
  {
    var ls := ManualLines(lines, offers);
    if ls.Err? then (s, Refused(ls.error))
    else if terms.Err? then (s, Refused(terms.error))
    else
      var o := ManualOrderOf(s, ls.value, terms.value);
      if !OrderInsertable(s, id, o) then (s, Refused(UniqueViolation))
      else (AddOrder(s, id, WithMail(o, OrderPlaced, queued)), Done)
  }

  // ---------------------------------------------------------------- payments

  predicate HasAttempt(s: Shop, r: Ref) {
    r.order in s.orders && 1 <= r.number <= |s.orders[r.order].attempts|
  }

  function AttemptAt(s: Shop, r: Ref): Attempt
    requires HasAttempt(s, r)
  {
    s.orders[r.order].attempts[r.number - 1]
  }

  function RequestFor(p: Attempt): Request {
    Request(p.providerId, p.gross / 100)
  }

  /** openSnap's call, for an attempt whose row has committed. */
  function AskMidtrans(s: Shop, r: Ref, reply: Option<Link>): (Shop, Outcome) {
    if r !in s.asking || !HasAttempt(s, r) then (s, Done)
    else
      var s' := s.(asking := s.asking - {r}, sent := s.sent + [RequestFor(AttemptAt(s, r))]);
      match reply
      case None => (s', PaymentUnavailable)
      case Some(link) => (s'.(answered := s'.answered + {(r, link)}), Done)
  }

  /** SetPaymentLink, in its own transaction: by the row's id and nothing else. */
  function StoreLink(s: Shop, r: Ref, link: Link): (Shop, Outcome) {
    if (r, link) !in s.answered || !HasAttempt(s, r) then (s, Done)
    else
      (s.(answered := s.answered - {(r, link)},
          orders := s.orders[r.order := SetLink(s.orders[r.order], r.number - 1, link)]),
       PayLink(link))
  }

  /** The order's lock is held through the call, so pay-again is one step. */
  function PayAgain(s: Shop, id: OrderId, reply: Option<Link>, now: int): (Shop, Outcome) {
    if id !in s.orders then (s, Refused(NotFound))
    else
      match ChoosePayment(s.orders[id], s.midtrans, now)
      case CannotPay(why) => (s, Refused(why))
      case Reuse(link) => (s, PayLink(link))
      case Open(o, n) =>
        var p := o.attempts[|o.attempts| - 1];
        if p.providerId in s.byProvider then (s, Refused(UniqueViolation))
        else
          var s' := s.(byProvider := s.byProvider[p.providerId := Ref(id, n)], sent := s.sent + [RequestFor(p)]);
          match reply
          case None => (s'.(orders := s.orders[id := o]), PaymentUnavailable)
          case Some(link) => (s'.(orders := s.orders[id := SetLink(o, |o.attempts| - 1, link)]), PayLink(link))
  }

  /** PayAgain whose transaction does not commit after Midtrans was asked:
      the request is out, the row is not there. */
  function PayAgainLost(s: Shop, id: OrderId, now: int): (Shop, Outcome) {
    if id !in s.orders then (s, Refused(NotFound))
    else
      match ChoosePayment(s.orders[id], s.midtrans, now)
      case CannotPay(why) => (s, Refused(why))
      case Reuse(link) => (s, PayLink(link))
      case Open(o, n) =>
        var p := o.attempts[|o.attempts| - 1];
        if p.providerId in s.byProvider then (s, Refused(UniqueViolation))
        else (s.(sent := s.sent + [RequestFor(p)], lost := s.lost + 1), CommitLost)
  }

  /** A verified notification, once Get Status has answered. An id that is no
      attempt of this shop changes nothing. */
  function Notify(s: Shop, providerId: string, r: Report, now: int, queued: bool): (Shop, Outcome) {
    if providerId !in s.byProvider then (s, Notified(false))
    else
      var ref := s.byProvider[providerId];
      if !HasAttempt(s, ref) then (s, Refused(NotFound))
      else
        var (o, moved) := Apply(s.orders[ref.order], ref.number - 1, r, now, queued);
        (s.(orders := s.orders[ref.order := o]), Notified(moved))
  }

  // ---------------------------------------------------------------- the steps

  datatype Step =
    | CreateCart(cart: CartId, now: int)
    | ChangeCart(cart: CartId, variant: VariantId, qty: int, visible: bool, now: int)
    | Sweep(now: int)
    | CheckOut(cart: CartId, input: CheckoutInput)
    | ManualOrder(id: OrderId, lines: seq<ManualLine>, offers: map<VariantId, Offer>, terms: Result<Terms, Refusal>, queued: bool)
    | Ask(ref: Ref, reply: Option<Link>)
    | Store(ref: Ref, link: Link)
    | Retry(id: OrderId, reply: Option<Link>, now: int)
    | RetryLost(id: OrderId, now: int)
    | Notification(providerId: string, report: Report, now: int, queued: bool)
    | MoveOrder(id: OrderId, to: Status, ship: ShipInput, now: int, queued: bool)
    | EditOrder(id: OrderId, version: nat, newShipping: Option<int>)
    | RefundOrder(id: OrderId, now: int)
    | ChangeSettings(prefix: string, bank: bool, midtrans: bool)

  function WithOrder(s: Shop, id: OrderId, o: Order): Shop {
    s.(orders := s.orders[id := o])
  }

  function Next(s: Shop, step: Step): (Shop, Outcome) {
    match step
    case CreateCart(c, now) =>
      if c in s.carts then (s, Refused(UniqueViolation))
      else (s.(carts := s.carts[c := Cart(false, now + CART_TTL, [])]), Done)
    case ChangeCart(c, v, qty, visible, now) => EditCart(s, c, v, qty, visible, now)
    case Sweep(now) => (SweepCarts(s, now), Done)
    case CheckOut(c, input) => Checkout(s, c, input)
    case ManualOrder(id, lines, offers, terms, queued) => CreateManual(s, id, lines, offers, terms, queued)
    case Ask(r, reply) => AskMidtrans(s, r, reply)
    case Store(r, link) => StoreLink(s, r, link)
    case Retry(id, reply, now) => PayAgain(s, id, reply, now)
    case RetryLost(id, now) => PayAgainLost(s, id, now)
    case Notification(providerId, r, now, queued) => Notify(s, providerId, r, now, queued)
    case MoveOrder(id, to, ship, now, queued) =>
      if id !in s.orders then (s, Refused(NotFound))
      else (match Move(s.orders[id], to, ship, now, queued)
            case Err(why) => (s, Refused(why))
            case Ok((o, changed)) => (WithOrder(s, id, o), Changed(changed)))
    case EditOrder(id, version, shipping) =>
      if id !in s.orders then (s, Refused(NotFound))
      else (match Edit(s.orders[id], version, shipping)
            case Err(why) => (s, Refused(why))
            case Ok(o) => (WithOrder(s, id, o), Done))
    case RefundOrder(id, now) =>
      if id !in s.orders then (s, Refused(NotFound))
      else (match Refund(s.orders[id], now)
            case Err(why) => (s, Refused(why))
            case Ok(o) => (WithOrder(s, id, o), Done))
    case ChangeSettings(prefix, bank, midtrans) =>
      if !ValidPrefix(prefix) then (s, Refused(BadPrefix))
      else (s.(prefix := prefix, bank := bank, midtrans := midtrans), Done)
  }

  /** The shop after a run of steps, in any order and any number. */
  function Run(s: Shop, steps: seq<Step>): Shop {
    if steps == [] then s else Next(Run(s, steps[..|steps| - 1]), steps[|steps| - 1]).0
  }
}
