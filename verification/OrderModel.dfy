/** An order with everything that hangs off it: its lines, its Midtrans attempts
    (rows of payments), its rows in the audit log and the emails queued for it.
    Amounts are in minor units, times are an integer clock. Each function here
    is what one transaction does to one order row it has locked. */
module OrderModel {
  import opened Base
  import opened Texts
  import opened OrderIds

  type OrderId = nat
  type CartId = nat
  type VariantId = nat

  datatype Status = Pending | Paid | Processing | Shipped | Completed | Cancelled

  datatype Method = BankTransfer | Midtrans

  /** payments.status: pending, paid, failed, amount_mismatch. */
  datatype AttemptStatus = Waiting | Settled | Failed | Mismatch

  datatype Link = Link(token: string, url: string)

  datatype Attempt = Attempt(
    number: nat,
    providerId: string,
    status: AttemptStatus,
    gross: int,
    link: Option<Link>,
    expiresAt: int,
    paidAt: Option<int>,
    reported: Option<string>)

  datatype Line = Line(variant: VariantId, qty: int, unitPrice: int, discount: int, sku: string, title: string)

  datatype Audit =
    | Created(total: int)
    | Moved(from: Status, to: Status)
    | Edited(before: Option<int>, after: Option<int>)
    | Refunded
    | PaidAfterCancel(providerId: string)

  datatype Mail = OrderPlaced | PaymentReceived | OrderShipped

  datatype Order = Order(
    prefix: string, seqNo: nat, number: string,
    payBy: Method, cart: Option<CartId>,
    status: Status, version: nat,
    subtotal: int, shipping: int, discount: int, total: int,
    lines: seq<Line>,
    shippingCourier: Option<string>, courier: Option<string>, tracking: Option<string>,
    paidAt: Option<int>, shippedAt: Option<int>, completedAt: Option<int>,
    cancelledAt: Option<int>, refundedAt: Option<int>,
    attempts: seq<Attempt>, audit: seq<Audit>, mails: seq<Mail>)

  /** Why a transaction rolled back. */
  datatype Refusal =
    | NotFound | EmptyCart | ItemUnavailable(items: seq<VariantId>) | MethodNotTaken
    | ShippingUnavailable | NotWholeRupiah | IllegalTransition(from: Status, to: Status)
    | NoTracking | NoCourier | BadCourier | NotEditable | VersionConflict | RefundAlreadyRecorded
    | NotRefundable | NoPaymentToMake | UniqueViolation | BadQuantity | NotForSale | BadDiscount | BadPrefix

  // ---------------------------------------------------------------- creation

  function Subtotal(lines: seq<Line>): int {
    if lines == [] then 0
    else Subtotal(lines[..|lines| - 1]) + lines[|lines| - 1].unitPrice * lines[|lines| - 1].qty
  }

  function Discounts(lines: seq<Line>): int {
    if lines == [] then 0 else Discounts(lines[..|lines| - 1]) + lines[|lines| - 1].discount
  }

  /** The row insert writes, with the one order.create audit row. */
  function NewOrder(prefix: string, seqNo: nat, payBy: Method, cart: Option<CartId>, lines: seq<Line>,
                    shipping: int, shippingCourier: Option<string>): Order
  {
    var subtotal := Subtotal(lines);
    var discount := Discounts(lines);
    var total := subtotal + shipping - discount;
    Order(prefix, seqNo, OrderNumber(prefix, seqNo), payBy, cart, Pending, 1,
          subtotal, shipping, discount, total, lines, shippingCourier, None, None,
          None, None, None, None, None, [], [Created(total)], [])
  }

  function WithMail(o: Order, kind: Mail, queued: bool): Order {
    if queued then o.(mails := o.mails + [kind]) else o
  }

  // -------------------------------------------------------------- transitions

  function Allowed(from: Status): set<Status> {
    match from
    case Pending => {Paid, Cancelled}
    case Paid => {Processing, Cancelled}
    case Processing => {Shipped, Cancelled}
    case Shipped => {Completed}
    case Completed => {}
    case Cancelled => {}
  }

  datatype ShipInput = ShipInput(courier: Option<string>, tracking: Option<string>)

  /** ^[a-z0-9_]+$ */
  predicate CourierCode(s: string) {
    s != "" && forall i :: 0 <= i < |s| ==> 'a' <= s[i] <= 'z' || '0' <= s[i] <= '9' || s[i] == '_'
  }

  /** What a ship writes: the courier given, else the one chosen at checkout,
      and a tracking number that is not blank. */
  function ShipWith(o: Order, input: ShipInput): Result<(string, string), Refusal> {
    if input.tracking.None? || Blank(input.tracking.value) then Err(NoTracking)
    else
      var courier := if input.courier.None? || input.courier.value == "" then o.shippingCourier else input.courier;
      if courier.None? || courier.value == "" then Err(NoCourier)
      else if !CourierCode(courier.value) then Err(BadCourier)
      else Ok((courier.value, input.tracking.value))
  }

  /** TransitionOrder and the order.transition audit row beside it. */
  function Stamped(o: Order, to: Status, ship: Option<(string, string)>, now: int): Order {
    o.(status := to,
       paidAt := if to.Paid? then Some(now) else o.paidAt,
       shippedAt := if to.Shipped? then Some(now) else o.shippedAt,
       completedAt := if to.Completed? then Some(now) else o.completedAt,
       cancelledAt := if to.Cancelled? then Some(now) else o.cancelledAt,
       courier := if ship.Some? then Some(ship.value.0) else o.courier,
       tracking := if ship.Some? then Some(ship.value.1) else o.tracking,
       version := o.version + 1,
       audit := o.audit + [Moved(o.status, to)])
  }

  /** transition: the order after it and whether it changed. */
  function Transition(o: Order, to: Status, input: ShipInput, now: int): Result<(Order, bool), Refusal> {
    if o.status == to then Ok((o, false))
    else if to !in Allowed(o.status) then Err(IllegalTransition(o.status, to))
    else if !to.Shipped? then Ok((Stamped(o, to, None, now), true))
    else
      match ShipWith(o, input)
      case Err(why) => Err(why)
      case Ok(ship) => Ok((Stamped(o, to, Some(ship), now), true))
  }

  function MailFor(to: Status): Option<Mail> {
    match to
    case Paid => Some(PaymentReceived)
    case Shipped => Some(OrderShipped)
    case _ => None
  }

  /** Transition, and the email its caller queues once it has committed. */
  function Move(o: Order, to: Status, input: ShipInput, now: int, queued: bool): Result<(Order, bool), Refusal> {
    match Transition(o, to, input, now)
    case Err(why) => Err(why)
    case Ok((o', changed)) =>
      if changed && MailFor(to).Some? then Ok((WithMail(o', MailFor(to).value, queued), true)) else Ok((o', changed))
  }

  // ----------------------------------------------------------- edits, refunds

  function Edit(o: Order, version: nat, shipping: Option<int>): Result<Order, Refusal> {
    if !o.status.Pending? then Err(NotEditable)
    else if o.version != version then Err(VersionConflict)
    else
      var amount := if shipping.Some? then shipping.value else o.shipping;
      Ok(o.(shipping := amount, total := o.subtotal + amount - o.discount, version := o.version + 1,
            audit := o.audit + [Edited(if shipping.Some? then Some(o.shipping) else None, shipping)]))
  }

  function Refund(o: Order, now: int): Result<Order, Refusal> {
    if o.refundedAt.Some? then Err(RefundAlreadyRecorded)
    else if !o.status.Cancelled? || o.paidAt.None? then Err(NotRefundable)
    else Ok(o.(refundedAt := Some(now), version := o.version + 1, audit := o.audit + [Refunded]))
  }

  // ----------------------------------------------------------------- attempts

  const PAY_LINK_TTL := 24 * 60 * 60 * 1000

  /** LatestPayment: ORDER BY attempt DESC LIMIT 1, as an index into the rows. */
  function Latest(attempts: seq<Attempt>): (i: Option<nat>)
    ensures i.None? <==> attempts == []
    ensures i.Some? ==> i.value < |attempts|
  {
    if attempts == [] then None
    else
      var last := |attempts| - 1;
      match Latest(attempts[..last])
      case None => Some(last)
      case Some(j) => if attempts[j].number > attempts[last].number then Some(j) else Some(last)
  }

  predicate Live(p: Attempt, o: Order, now: int) {
    p.status.Waiting? && p.link.Some? && p.expiresAt > now && p.gross == o.total
  }

  predicate WholeRupiah(total: int) {
    total % 100 == 0
  }

  function NewAttempt(o: Order, n: nat, now: int): Attempt {
    Attempt(n, ProviderId(o.number, n), Waiting, o.total, None, now + PAY_LINK_TTL, None, None)
  }

  /** The table's indexes over one order's rows: UNIQUE (order_id, attempt) and
      at most one pending row. */
  predicate Insertable(attempts: seq<Attempt>, n: nat) {
    forall i :: 0 <= i < |attempts| ==> attempts[i].number != n && !attempts[i].status.Waiting?
  }

  function FailStale(attempts: seq<Attempt>, i: nat): seq<Attempt>
    requires i < |attempts|
  {
    if attempts[i].status.Waiting? then attempts[i := attempts[i].(status := Failed)] else attempts
  }

  function SetLink(o: Order, i: nat, link: Link): Order
    requires i < |o.attempts|
  {
    o.(attempts := o.attempts[i := o.attempts[i].(link := Some(link))])
  }

  /** What PayAgain decides about a pending Midtrans order: the live link, or a
      new attempt beside the stale one it fails. */
  datatype PayChoice = Reuse(link: Link) | Open(order: Order, number: nat) | CannotPay(why: Refusal)

  function ChoosePayment(o: Order, taken: bool, now: int): PayChoice {
    if !o.payBy.Midtrans? || !o.status.Pending? then CannotPay(NoPaymentToMake)
    else if !taken then CannotPay(MethodNotTaken)
    else
      match Latest(o.attempts)
      case Some(i) =>
        if Live(o.attempts[i], o, now) then Reuse(o.attempts[i].link.value)
        else OpenAttempt(o, FailStale(o.attempts, i), o.attempts[i].number + 1, now)
      case None => OpenAttempt(o, o.attempts, 1, now)
  }

  function OpenAttempt(o: Order, attempts: seq<Attempt>, n: nat, now: int): PayChoice {
    if !WholeRupiah(o.total) then CannotPay(NotWholeRupiah)
    else if !Insertable(attempts, n) then CannotPay(UniqueViolation)
    else Open(o.(attempts := attempts + [NewAttempt(o, n, now)]), n)
  }

  // ------------------------------------------------------------ notifications

  /** What Get Status answers. gross is the amount in rupiah, None when
      the string is not a number. */
  datatype Report = Report(transaction: string, fraud: string, gross: Option<real>)

  predicate SameAmount(gross: Option<real>, minor: int) {
    gross.Some? && gross.value * 100.0 == minor as real
  }

  predicate IsSettled(r: Report) {
    r.transaction == "settlement" || (r.transaction == "capture" && r.fraud == "accept")
  }

  predicate IsDead(r: Report) {
    r.transaction == "expire" || r.transaction == "cancel" || r.transaction == "deny"
  }

  /** Where a report leaves an attempt. */
  function NextAttempt(o: Order, p: Attempt, r: Report, now: int): Attempt {
    var p' := p.(reported := Some(r.transaction));
    if p.status.Settled? then p'
    else if IsSettled(r) && (!SameAmount(r.gross, p.gross) || p.gross != o.total) then p'.(status := Mismatch)
    else if IsSettled(r) then p'.(status := Settled, paidAt := Some(now))
    else if IsDead(r) && p.status.Waiting? then p'.(status := Failed)
    else p'
  }

  /** apply: the attempt and the order together, and whether this report is
      what moved the order to paid. */
  function Apply(o: Order, i: nat, r: Report, now: int, queued: bool): (Order, bool)
    requires i < |o.attempts|
  {
    var p := o.attempts[i];
    var p' := NextAttempt(o, p, r, now);
    var o' := o.(attempts := o.attempts[i := p']);
    if !p'.status.Settled? || p.status.Settled? then (o', false)
    else if o.status.Pending? then (WithMail(Stamped(o', Paid, None, now), PaymentReceived, queued), true)
    else if o.status.Cancelled? then (o'.(audit := o'.audit + [PaidAfterCancel(p.providerId)]), false)
    else (o', false)
  }

  // ----------------------------------------------------------- what is shown

  /** PaymentStatus: what a Midtrans order's shopper is told. */
  datatype Shown = ShownPending | ShownPaid | ShownFailed

  function PaymentStatus(o: Order): Option<Shown> {
    if !o.payBy.Midtrans? then None
    else if o.paidAt.Some? then Some(ShownPaid)
    else
      match Latest(o.attempts)
      case None => Some(ShownPending)
      case Some(i) =>
        if o.attempts[i].status.Settled? then Some(ShownPaid)
        else if o.attempts[i].status.Failed? then Some(ShownFailed)
        else Some(ShownPending)
  }
}
