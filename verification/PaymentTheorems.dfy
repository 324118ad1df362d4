/** What Midtrans is asked for and what its reports do, in the words and amounts
    that pass between it and the shop, over whole runs. */
module PaymentTheorems {
  import opened Base
  import opened OrderIds
  import opened OrderModel
  import opened OrderLaws
  import opened OrderOutcomes
  import opened ShopModel
  import opened ShopLaws
  import opened ShopSteps
  import opened ShopTheorems
  import opened ResendTheorems

  // ------------------------------------------------------------ what a report does

  /** Midtrans confirms the payment: settled, or captured and past the fraud review. */
  predicate Confirms(r: Report) {
    if r.transaction == "capture" then r.fraud == "accept" else r.transaction == "settlement"
  }

  /** Midtrans will not take money for it any more. */
  predicate Ends(r: Report) {
    r.transaction in ["expire", "cancel", "deny"]
  }

  /** The sum confirmed, in rupiah, is the attempt's amount and the order's total. */
  predicate InFull(r: Report, gross: int, total: int) {
    r.gross.Some? && gross == total && r.gross.value == gross as real / 100.0
  }

  lemma ReportMeans(o: Order, p: Attempt, r: Report)
    ensures IsSettled(r) <==> Confirms(r)
    ensures IsDead(r) <==> Ends(r)
    ensures PaysInFull(o, p, r) <==> Confirms(r) && InFull(r, p.gross, o.total)
    ensures !(Confirms(r) && Ends(r))
  {
  }

  /** The attempt and the order as one report leaves them. */
  lemma AppliedExactly(o: Order, i: nat, r: Report, now: int, queued: bool)
    requires i < |o.attempts|
    ensures var (o', moved) := Apply(o, i, r, now, queued);
            var p := o.attempts[i];
            && |o'.attempts| == |o.attempts| && Reported(p, o'.attempts[i], o.total, r, now)
            && (forall k :: 0 <= k < |o.attempts| && k != i ==> o'.attempts[k] == o.attempts[k])
            && (moved <==> o.status.Pending? && !p.status.Settled? && Confirms(r) && InFull(r, p.gross, o.total))
            && o'.status == (if moved then Paid else o.status) && o'.paidAt == (if moved then Some(now) else o.paidAt)
            && o'.mails == o.mails + (if moved && queued then [PaymentReceived] else [])
            && o'.total == o.total && o'.shipping == o.shipping && o'.lines == o.lines
  {
    ReportMeans(o, o.attempts[i], r);
    ReportDecides(o, i, r, now, queued);
    hide IsSettled, IsDead, PaysInFull, Confirms, Ends, SameAmount;
    assert o.mails + [] == o.mails;
    assert IsSettled(r) ==> (SameAmount(r.gross, o.attempts[i].gross) && o.attempts[i].gross == o.total <==> PaysInFull(o, o.attempts[i], r)) by {
      FullIs(o, o.attempts[i], r);
    }
  }

  lemma FullIs(o: Order, p: Attempt, r: Report)
    ensures PaysInFull(o, p, r) <==> IsSettled(r) && SameAmount(r.gross, p.gross) && p.gross == o.total
  {
  }

  /** q is the attempt p of an order that costs `total` after the report. */
  predicate Reported(p: Attempt, q: Attempt, total: int, r: Report, now: int) {
    && (q.status.Settled? <==> p.status.Settled? || (Confirms(r) && InFull(r, p.gross, total)))
    && (q.status.Mismatch? <==>
          !p.status.Settled? && (if Confirms(r) then !InFull(r, p.gross, total) else p.status.Mismatch?))
    && (q.status.Failed? <==> !Confirms(r) && (p.status.Failed? || (p.status.Waiting? && Ends(r))))
    && q.paidAt == (if q.status.Settled? && !p.status.Settled? then Some(now) else p.paidAt)
    && q.reported == Some(r.transaction) && q.number == p.number && q.providerId == p.providerId
    && q.gross == p.gross && q.link == p.link && q.expiresAt == p.expiresAt
  }

  /** In every reachable shop a notification decides exactly this of the attempt it is
      about and of its order, and touches no other attempt and no other order. */
  lemma NotifiedExactly(s: Shop, ref: Ref, r: Report, now: int, queued: bool)
    requires Reachable(s) && HasAttempt(s, ref)
    ensures var o, p := s.orders[ref.order], AttemptAt(s, ref);
            var (u, answer) := Notify(s, p.providerId, r, now, queued);
            var moved := o.status.Pending? && !p.status.Settled? && Confirms(r) && InFull(r, p.gross, o.total);
            && answer == Notified(moved) && HasAttempt(u, ref)
            && Reported(p, AttemptAt(u, ref), o.total, r, now)
            && u.orders[ref.order].status == (if moved then Paid else o.status)
            && u.orders[ref.order].mails == o.mails + (if moved && queued then [PaymentReceived] else [])
            && (forall other: Ref :: HasAttempt(s, other) && other != ref ==> HasAttempt(u, other) && AttemptAt(u, other) == AttemptAt(s, other))
            && (forall id :: id in s.orders && id != ref.order ==> id in u.orders && u.orders[id] == s.orders[id])
  {
    hide ShopInv, Apply, Confirms, InFull, Reported;
    ReachableInv(s);
    RowFound(s, ref);
    AppliedExactly(s.orders[ref.order], ref.number - 1, r, now, queued);
  }

  // ------------------------------------------------------- what a step does

  /** What pay-again leaves of an order that needs a link: what was waiting has
      failed, and one attempt for today's total is beside it, open for a day. */
  lemma RetryWrites(s: Shop, id: OrderId, reply: Option<Link>, now: int)
    requires ShopInv(s) && id in s.orders && NeedsLink(s, id, now)
    ensures var (u, answer) := PayAgain(s, id, reply, now);
            var o := s.orders[id];
            && id in u.orders && answer == (if reply.Some? then PayLink(reply.value) else PaymentUnavailable)
            && Beside(o, u.orders[id].attempts, reply, now)
            && u.sent == s.sent + [Request(NextId(o), o.total / 100)]
            && u.byProvider == s.byProvider[NextId(o) := Ref(id, |o.attempts| + 1)]
            && forall other :: other in s.orders && other != id ==> other in u.orders && u.orders[other] == s.orders[other]
  {
    hide ShopInv, Good, Evolves, ChoosePayment, NeedsLink, ProviderId;
    GoodOrder(s, id);
    OpensExactlyWhen(s, id, now);
    OpensNextId(s, id, now);
    OpenBeside(s.orders[id], s.midtrans, now);
    LinkedBeside(s.orders[id], ChoosePayment(s.orders[id], s.midtrans, now).order.attempts, reply, now);
  }

  predicate Beside(o: Order, attempts: seq<Attempt>, reply: Option<Link>, now: int) {
    var n := |o.attempts|;
    && |attempts| == n + 1
    && (forall i :: 0 <= i < n ==>
          attempts[i] == if o.attempts[i].status.Waiting? then o.attempts[i].(status := Failed) else o.attempts[i])
    && attempts[n] == Attempt(n + 1, NextId(o), Waiting, o.total, reply, now + 24 * 3600 * 1000, None, None)
  }

  lemma OpenBeside(o: Order, taken: bool, now: int)
    requires Good(o) && ChoosePayment(o, taken, now).Open?
    ensures var c := ChoosePayment(o, taken, now);
            c.number == |o.attempts| + 1 && Beside(o, c.order.attempts, None, now)
    ensures ChoosePayment(o, taken, now).order.total == o.total
  {
    OpenIsAppend(o, taken, now);
    hide ChoosePayment, ProviderId, OrderNumber, ValidPrefix, Totals, Frozen, Audited, Checked, Mailed, Accounted;
  }

  lemma LinkedBeside(o: Order, attempts: seq<Attempt>, reply: Option<Link>, now: int)
    requires Beside(o, attempts, None, now)
    ensures var n := |o.attempts|;
            Beside(o, if reply.Some? then attempts[n := attempts[n].(link := reply)] else attempts, reply, now)
  {
  }

  /** The step is a notification under this id. */
  predicate NotifiesOf(step: Step, id: string) {
    step.Notification? && step.providerId == id
  }

  /** The step is a pay-again of the order that opens an attempt. */
  predicate OpensFor(s: Shop, step: Step, id: OrderId) {
    step.Retry? && step.id == id && NeedsLink(s, id, step.now)
  }

  /** No other step changes the status or the amount of an attempt, or the id it goes by. */
  lemma StepStatus(s: Shop, step: Step, ref: Ref)
    requires ShopInv(s) && HasAttempt(s, ref)
    ensures var u, p := Next(s, step).0, AttemptAt(s, ref);
            && HasAttempt(u, ref)
            && var q := AttemptAt(u, ref);
               && q.providerId == p.providerId && q.gross == p.gross
               && (if NotifiesOf(step, p.providerId) then Reported(p, q, s.orders[ref.order].total, step.report, step.now)
                   else if OpensFor(s, step, ref.order) && p.status.Waiting? then q.status.Failed?
                   else q.status == p.status)
  {
    hide ShopInv, Next, Notify, StoreLink, PayAgain, PayAgainLost, NeedsLink, Confirms, InFull, Ends;
    match step {
      case Notification(id, r, now, queued) =>
        NotificationIs(s, id, r, now, queued);
        NotificationStatus(s, id, r, now, queued, ref);
      case Store(r, link) =>
        CallsAre(s, r, link, None);
        StoreStatus(s, r, link, ref);
      case Retry(id, reply, now) =>
        TriesAre(s, id, reply, now);
        RetryStatus(s, id, reply, now, ref);
      case RetryLost(id, now) =>
        TriesAre(s, id, None, now);
        LostSends(s, id, now);
      case _ => OtherLeaves(s, step, ref.order);
    }
  }

  lemma NotificationStatus(s: Shop, id: string, r: Report, now: int, queued: bool, ref: Ref)
    requires ShopInv(s) && HasAttempt(s, ref)
    ensures var u, p := Notify(s, id, r, now, queued).0, AttemptAt(s, ref);
            && HasAttempt(u, ref)
            && if p.providerId == id then Reported(p, AttemptAt(u, ref), s.orders[ref.order].total, r, now)
               else AttemptAt(u, ref) == p
  {
    hide ShopInv, Apply, Reported;
    RowFound(s, ref);
    if id in s.byProvider {
      IdHasRow(s, id);
      var at := s.byProvider[id];
      AppliedExactly(s.orders[at.order], at.number - 1, r, now, queued);
    }
  }

  lemma StoreStatus(s: Shop, r: Ref, link: Link, ref: Ref)
    requires HasAttempt(s, ref)
    ensures var u := StoreLink(s, r, link).0;
            && HasAttempt(u, ref)
            && AttemptAt(u, ref) ==
               if r == ref && (r, link) in s.answered then AttemptAt(s, ref).(link := Some(link)) else AttemptAt(s, ref)
  {
  }

  lemma RetryStatus(s: Shop, id: OrderId, reply: Option<Link>, now: int, ref: Ref)
    requires ShopInv(s) && HasAttempt(s, ref)
    ensures var u, p := PayAgain(s, id, reply, now).0, AttemptAt(s, ref);
            && HasAttempt(u, ref)
            && AttemptAt(u, ref) ==
               if id == ref.order && NeedsLink(s, id, now) && p.status.Waiting? then p.(status := Failed) else p
  {
    hide ShopInv, PayAgain, NeedsLink, NextId;
    if id !in s.orders {
      NoOrderNoLink(s, id, now);
    }
    if NeedsLink(s, id, now) {
      RetryWrites(s, id, reply, now);
    } else {
      RetryCounts(s, id, reply, now, ref.order);
    }
  }

  // --------------------------------------------------------- over any run

  /** What can befall an attempt: money in full, a confirmation of any sum, or the end
      of an attempt that was waiting. */
  datatype Event = Paying | Confirming | Ending

  predicate Befalls(e: Event, s: Shop, step: Step, ref: Ref) {
    HasAttempt(s, ref) &&
    var p := AttemptAt(s, ref);
    match e
    case Paying =>
      NotifiesOf(step, p.providerId) && Confirms(step.report) && InFull(step.report, p.gross, s.orders[ref.order].total)
    case Confirming => NotifiesOf(step, p.providerId) && Confirms(step.report)
    case Ending =>
      p.status.Waiting? && ((NotifiesOf(step, p.providerId) && Ends(step.report)) || OpensFor(s, step, ref.order))
  }

  predicate BefallsAt(e: Event, s: Shop, steps: seq<Step>, j: nat, ref: Ref) {
    j < |steps| && Befalls(e, Run(s, steps[..j]), steps[j], ref)
  }

  ghost predicate Befell(e: Event, s: Shop, steps: seq<Step>, ref: Ref) {
    exists j :: BefallsAt(e, s, steps, j, ref)
  }

  lemma BefellPrefix(e: Event, s: Shop, steps: seq<Step>, ref: Ref)
    requires steps != []
    ensures var n := |steps| - 1;
            Befell(e, s, steps, ref) <==> Befell(e, s, steps[..n], ref) || Befalls(e, Run(s, steps[..n]), steps[n], ref)
  {
    hide Befalls, Run;
    var n := |steps| - 1;
    forall j | 0 <= j < n ensures BefallsAt(e, s, steps[..n], j, ref) <==> BefallsAt(e, s, steps, j, ref) {
      assert steps[..n][..j] == steps[..j];
    }
    if Befell(e, s, steps, ref) && !BefallsAt(e, s, steps, n, ref) {
      var j :| BefallsAt(e, s, steps, j, ref);
      assert BefallsAt(e, s, steps[..n], j, ref);
    }
    if Befell(e, s, steps[..n], ref) {
      var j :| BefallsAt(e, s, steps[..n], j, ref);
      assert BefallsAt(e, s, steps, j, ref);
    }
    assert BefallsAt(e, s, steps, n, ref) <==> Befalls(e, Run(s, steps[..n]), steps[n], ref);
  }

  /** A row that was not there is new and waits. */
  lemma NewWaits(s: Shop, step: Step, ref: Ref)
    requires ShopInv(s) && !HasAttempt(s, ref) && HasAttempt(Next(s, step).0, ref)
    ensures AttemptAt(Next(s, step).0, ref).status.Waiting?
  {
    hide ShopInv, Next, PayAgain, NeedsLink, Checkout, CreateManual;
    if ref.order in s.orders {
      if OpensFor(s, step, ref.order) {
        TriesAre(s, step.id, step.reply, step.now);
        RetryWrites(s, ref.order, step.reply, step.now);
      } else {
        StepCounts(s, step, ref.order);
      }
    } else {
      match step {
        case CheckOut(c, input) =>
          CheckoutIs(s, c, input);
          CheckoutMakes(s, c, input, ref.order);
        case ManualOrder(id, lines, offers, terms, queued) =>
          ManualIs(s, id, lines, offers, terms, queued);
          ManualMakes(s, id, lines, offers, terms, queued, ref.order);
        case _ => NoNewOrder(s, step, ref.order);
      }
    }
  }

  lemma CheckoutMakes(s: Shop, c: CartId, input: CheckoutInput, id: OrderId)
    requires id !in s.orders && id in Checkout(s, c, input).0.orders
    ensures var o := Checkout(s, c, input).0.orders[id];
            o.attempts == [] || (|o.attempts| == 1 && o.attempts[0].status.Waiting? && o.attempts[0].link == None)
  {
    hide PlaceOrder, PricedLines, UnavailableItems, NewOrder, WithMail, Takes;
    var shipping := input.quote.value;
    if PlaceOrder(s, c, shipping, input).1.CheckedOut? {
      PlaceWrites(s, c, shipping, input);
      PlacedIs(s, c, shipping, input);
    } else {
      RefusedWritesNothing(s, c, shipping, input);
    }
  }

  lemma ManualMakes(s: Shop, id: OrderId, lines: seq<ManualLine>, offers: map<VariantId, Offer>,
                    terms: Result<Terms, Refusal>, queued: bool, made: OrderId)
    requires made !in s.orders && made in CreateManual(s, id, lines, offers, terms, queued).0.orders
    ensures CreateManual(s, id, lines, offers, terms, queued).0.orders[made].attempts == []
  {
    hide ManualLines, OrderNumber;
  }

  lemma NoNewOrder(s: Shop, step: Step, id: OrderId)
    requires ShopInv(s) && id !in s.orders && !step.CheckOut? && !step.ManualOrder?
    ensures id !in Next(s, step).0.orders
  {
    hide ShopInv, Apply, Move, Edit, Refund, ChoosePayment, EditCart, SetLink, RequestFor;
    if step.ChangeCart? {
      CartLeavesOrders(s, step.cart, step.variant, step.qty, step.visible, step.now);
    }
  }

  lemma AttemptStays(s: Shop, step: Step, ref: Ref)
    requires ShopInv(s) && HasAttempt(s, ref)
    ensures HasAttempt(Next(s, step).0, ref)
  {
    hide ShopInv, Next, Reported, NotifiesOf, OpensFor;
    StepStatus(s, step, ref);
  }

  lemma {:induction false} NothingBefore(e: Event, s: Shop, steps: seq<Step>, ref: Ref)
    requires ShopInv(s) && !HasAttempt(Run(s, steps), ref)
    ensures !Befell(e, s, steps, ref)
  {
    hide ShopInv, Run, Next, HasAttempt, Befell;
    if steps != [] {
      var u := Run(s, steps[..|steps| - 1]);
      LastOfRun(s, steps);
      InvAfter(s, steps[..|steps| - 1]);
      if HasAttempt(u, ref) {
        AttemptStays(u, steps[|steps| - 1], ref);
      }
      NothingBefore(e, s, steps[..|steps| - 1], ref);
      BefellPrefix(e, s, steps, ref);
    } else {
      NothingYet(e, s, ref);
    }
  }

  lemma NothingYet(e: Event, s: Shop, ref: Ref)
    ensures !Befell(e, s, [], ref)
  {
  }

  lemma InvAfter(s: Shop, steps: seq<Step>)
    requires ShopInv(s)
    ensures ShopInv(Run(s, steps))
  {
    hide ShopInv;
    RunKeeps(s, steps);
    KeptInv(s, Run(s, steps));
  }

  /** How far an attempt has come, of what befell it. */
  ghost predicate StatusIs(status: AttemptStatus, s: Shop, steps: seq<Step>, ref: Ref) {
    && (status.Settled? <==> Befell(Paying, s, steps, ref))
    && (status.Mismatch? <==> !Befell(Paying, s, steps, ref) && Befell(Confirming, s, steps, ref))
    && (status.Failed? <==> !Befell(Confirming, s, steps, ref) && Befell(Ending, s, steps, ref))
  }

  lemma StatusStep(s: Shop, steps: seq<Step>, ref: Ref)
    requires steps != [] && ShopInv(Run(s, steps[..|steps| - 1])) && HasAttempt(Run(s, steps[..|steps| - 1]), ref)
    requires StatusIs(AttemptAt(Run(s, steps[..|steps| - 1]), ref).status, s, steps[..|steps| - 1], ref)
    ensures HasAttempt(Run(s, steps), ref) && StatusIs(AttemptAt(Run(s, steps), ref).status, s, steps, ref)
  {
    hide ShopInv, Run, Next, Befell, Confirms, Ends, InFull, NeedsLink;
    var u, step := Run(s, steps[..|steps| - 1]), steps[|steps| - 1];
    LastOfRun(s, steps);
    BefellPrefix(Paying, s, steps, ref);
    BefellPrefix(Confirming, s, steps, ref);
    BefellPrefix(Ending, s, steps, ref);
    StepStatus(u, step, ref);
  }

  lemma {:induction false} StatusAfter(s: Shop, steps: seq<Step>, ref: Ref)
    requires ShopInv(s) && s.orders == map[] && HasAttempt(Run(s, steps), ref)
    ensures StatusIs(AttemptAt(Run(s, steps), ref).status, s, steps, ref)
  {
    hide ShopInv, Next, Befell, Befalls, StatusIs;
    if steps != [] {
      var before := steps[..|steps| - 1];
      var u, step := Run(s, before), steps[|steps| - 1];
      InvAfter(s, before);
      if HasAttempt(u, ref) {
        StatusAfter(s, before, ref);
        StatusStep(s, steps, ref);
      } else {
        NewWaits(u, step, ref);
        NewIsUntouched(s, steps, ref);
      }
    }
  }

  lemma NewIsUntouched(s: Shop, steps: seq<Step>, ref: Ref)
    requires steps != [] && ShopInv(s) && !HasAttempt(Run(s, steps[..|steps| - 1]), ref)
    ensures StatusIs(Waiting, s, steps, ref)
  {
    hide ShopInv, Run, Befell, HasAttempt;
    forall e: Event ensures !Befell(e, s, steps, ref) {
      NothingBefore(e, s, steps[..|steps| - 1], ref);
      BefellPrefix(e, s, steps, ref);
    }
  }

  /** Over every run of a shop, an attempt is paid exactly when some notification under
      its id confirmed its amount when that was what the order cost; flagged exactly
      when one confirmed something else and none that; failed exactly when none
      confirmed anything, and while it waited one ended it or pay-again replaced it. */
  lemma StatusExactlyWhen(prefix: string, bank: bool, midtrans: bool, steps: seq<Step>, ref: Ref)
    requires ValidPrefix(prefix) && HasAttempt(Run(Opened(prefix, bank, midtrans), steps), ref)
    ensures var s := Opened(prefix, bank, midtrans);
            var status := AttemptAt(Run(s, steps), ref).status;
            && (status.Settled? <==> exists j :: BefallsAt(Paying, s, steps, j, ref))
            && (status.Mismatch? <==>
                  (forall j :: !BefallsAt(Paying, s, steps, j, ref)) && exists j :: BefallsAt(Confirming, s, steps, j, ref))
            && (status.Failed? <==>
                  (forall j :: !BefallsAt(Confirming, s, steps, j, ref)) && exists j :: BefallsAt(Ending, s, steps, j, ref))
  {
    OpenedInv(prefix, bank, midtrans);
    hide ShopInv, Run, BefallsAt, HasAttempt;
    StatusAfter(Opened(prefix, bank, midtrans), steps, ref);
  }

  // ------------------------------------------------- what Midtrans is asked for

  /** The step asks for the attempt it names, at the attempt's amount, or for the
      order's next one, at its total then; both in whole rupiah. */
  predicate AsksFor(s: Shop, step: Step, q: Request) {
    match step
    case Ask(r, _) => r in s.asking && HasAttempt(s, r) && q.id == AttemptAt(s, r).providerId && 100 * q.amount == AttemptAt(s, r).gross
    case Retry(id, _, now) => NeedsLink(s, id, now) && q.id == NextId(s.orders[id]) && 100 * q.amount == s.orders[id].total
    case RetryLost(id, now) => NeedsLink(s, id, now) && q.id == NextId(s.orders[id]) && 100 * q.amount == s.orders[id].total
    case _ => false
  }

  /** Nothing was sent, or what the step asks for. */
  predicate OneRequest(s: Shop, step: Step, sent: seq<Request>) {
    sent == s.sent ||
    (|sent| == |s.sent| + 1 && sent[..|s.sent|] == s.sent && AsksFor(s, step, sent[|s.sent|]))
  }

  lemma AskRequests(s: Shop, r: Ref, reply: Option<Link>)
    requires ShopInv(s)
    ensures OneRequest(s, Ask(r, reply), Next(s, Ask(r, reply)).0.sent)
  {
    hide ShopInv, Good;
    CallsAre(s, r, Link("", ""), reply);
    if r in s.asking && HasAttempt(s, r) {
      GoodOrder(s, r.order);
      WholeGross(s.orders[r.order], r.number - 1);
    }
    hide Next;
  }

  lemma WholeGross(o: Order, i: nat)
    requires Good(o) && i < |o.attempts|
    ensures o.attempts[i].gross % 100 == 0
  {
  }

  lemma RetryRequests(s: Shop, id: OrderId, reply: Option<Link>, now: int)
    requires ShopInv(s)
    ensures OneRequest(s, Retry(id, reply, now), PayAgain(s, id, reply, now).0.sent)
  {
    hide ShopInv, PayAgain, Live, NextId, Beside;
    if id in s.orders && NeedsLink(s, id, now) {
      RetryWrites(s, id, reply, now);
    } else {
      RetryAsksNothing(s, id, reply, now);
    }
  }

  lemma RetryAsksNothing(s: Shop, id: OrderId, reply: Option<Link>, now: int)
    requires ShopInv(s) && !NeedsLink(s, id, now)
    ensures PayAgain(s, id, reply, now).0 == s && PayAgainLost(s, id, now).0 == s
  {
    hide ShopInv, ChoosePayment, NeedsLink;
    if id in s.orders {
      OpensExactlyWhen(s, id, now);
    }
  }

  lemma LostRequests(s: Shop, id: OrderId, now: int)
    requires ShopInv(s)
    ensures var u := PayAgainLost(s, id, now).0;
            OneRequest(s, RetryLost(id, now), u.sent) && (u.sent == s.sent ==> u == s) && u.lost == s.lost + |u.sent| - |s.sent|
  {
    hide ShopInv, PayAgainLost, Live, NextId;
    if id in s.orders && NeedsLink(s, id, now) {
      LostWrites(s, id, now);
    } else {
      RetryAsksNothing(s, id, None, now);
    }
  }

  lemma LostWrites(s: Shop, id: OrderId, now: int)
    requires ShopInv(s) && id in s.orders && NeedsLink(s, id, now)
    ensures var u := PayAgainLost(s, id, now).0;
            u == s.(sent := s.sent + [Request(NextId(s.orders[id]), s.orders[id].total / 100)], lost := s.lost + 1)
  {
    hide ShopInv, Good, ChoosePayment, NeedsLink, ProviderId;
    GoodOrder(s, id);
    OpensExactlyWhen(s, id, now);
    OpensNextId(s, id, now);
    OpenBeside(s.orders[id], s.midtrans, now);
  }

  lemma SendsSame(s: Shop, step: Step)
    ensures OneRequest(s, step, s.sent)
  {
  }

  /** A step sends one request at most, and that one is what it asks for. */
  lemma StepRequests(s: Shop, step: Step)
    requires ShopInv(s)
    ensures OneRequest(s, step, Next(s, step).0.sent)
  {
    hide ShopInv, Next, PayAgain, PayAgainLost, OneRequest;
    SendsSame(s, step);
    match step {
      case Ask(r, reply) => AskRequests(s, r, reply);
      case Retry(id, reply, now) =>
        TriesAre(s, id, reply, now);
        RetryRequests(s, id, reply, now);
      case RetryLost(id, now) =>
        TriesAre(s, id, None, now);
        LostRequests(s, id, now);
      case CheckOut(c, input) => CheckoutSends(s, c, input);
      case _ => QuietStep(s, step);
    }
  }

  /** The request has a row under its id, for a hundred times its rupiah. */
  predicate Priced(s: Shop, q: Request) {
    && q.id in s.byProvider && HasAttempt(s, s.byProvider[q.id])
    && AttemptAt(s, s.byProvider[q.id]).gross == 100 * q.amount
  }

  lemma PricedStays(s: Shop, step: Step, q: Request)
    requires ShopInv(s) && Priced(s, q)
    ensures Priced(Next(s, step).0, q)
  {
    hide ShopInv, Next, Kept, NotifiesOf, OpensFor, Reported;
    NextKeeps(s, step);
    KeptProvider(s, Next(s, step).0, q.id);
    StepStatus(s, step, s.byProvider[q.id]);
  }

  /** What is asked for has its row once the step has committed. */
  lemma AskedIsPriced(s: Shop, step: Step, q: Request)
    requires ShopInv(s) && AsksFor(s, step, q) && !step.RetryLost?
    ensures Priced(Next(s, step).0, q)
  {
    hide ShopInv, Next, PayAgain, NeedsLink, NextId;
    match step {
      case Ask(r, reply) =>
        RowFound(s, r);
        PricedStays(s, step, q);
      case Retry(id, reply, now) =>
        if id !in s.orders {
          NoOrderNoLink(s, id, now);
        }
        TriesAre(s, id, reply, now);
        RetryWrites(s, id, reply, now);
    }
  }

  /** The step at which the k-th request of a run went out. */
  predicate SentAt(s: Shop, steps: seq<Step>, j: nat, q: Request, k: nat) {
    j < |steps| && |Run(s, steps[..j]).sent| == k && AsksFor(Run(s, steps[..j]), steps[j], q)
  }

  ghost predicate RequestOk(s: Shop, steps: seq<Step>, k: nat)
    requires k < |Run(s, steps).sent|
  {
    var q := Run(s, steps).sent[k];
    exists j: nat :: SentAt(s, steps, j, q, k) && (steps[j].RetryLost? || Priced(Run(s, steps), q))
  }

  lemma {:induction false} RequestsAre(s: Shop, steps: seq<Step>, k: nat)
    requires ShopInv(s) && s.sent == [] && k < |Run(s, steps).sent|
    ensures RequestOk(s, steps, k)
  {
    hide ShopInv, Run, Next, AsksFor, Priced;
    LastOfRun(s, steps);
    if steps != [] {
      var n := |steps| - 1;
      var u, step := Run(s, steps[..n]), steps[n];
      InvAfter(s, steps[..n]);
      StepRequests(u, step);
      var q := Run(s, steps).sent[k];
      if k < |u.sent| {
        RequestsAre(s, steps[..n], k);
        var j: nat :| SentAt(s, steps[..n], j, q, k) && (steps[..n][j].RetryLost? || Priced(u, q));
        assert steps[..n][..j] == steps[..j];
        assert SentAt(s, steps, j, q, k);
        if Priced(u, q) {
          PricedStays(u, step, q);
        }
      } else {
        assert SentAt(s, steps, n, q, k);
        if !step.RetryLost? {
          AskedIsPriced(u, step, q);
        }
      }
    }
  }

  lemma LastOfRun(s: Shop, steps: seq<Step>)
    ensures if steps == [] then Run(s, steps) == s
            else Run(s, steps) == Next(Run(s, steps[..|steps| - 1]), steps[|steps| - 1]).0
  {
    hide Next;
  }

  /** Over every run of a shop, each request that went out asked for a hundredth of what
      its attempt, or its order, cost when it went out; and unless its pay-again was
      lost, its row is there and is for a hundred times the rupiah asked for. */
  lemma EveryRequestIsPriced(prefix: string, bank: bool, midtrans: bool, steps: seq<Step>, k: nat)
    requires ValidPrefix(prefix) && k < |Run(Opened(prefix, bank, midtrans), steps).sent|
    ensures var s := Opened(prefix, bank, midtrans);
            var q := Run(s, steps).sent[k];
            exists j: nat :: SentAt(s, steps, j, q, k) && (steps[j].RetryLost? || Priced(Run(s, steps), q))
  {
    OpenedInv(prefix, bank, midtrans);
    hide ShopInv, Run, SentAt, Priced;
    RequestsAre(Opened(prefix, bank, midtrans), steps, k);
  }

  lemma LossGrows(s: Shop, step: Step)
    requires ShopInv(s) && Next(s, step).0.lost == 0
    ensures s.lost == 0 && (step.RetryLost? ==> Next(s, step).0 == s)
  {
    hide ShopInv, Next, PayAgainLost, AsksFor;
    if step.RetryLost? {
      TriesAre(s, step.id, None, step.now);
      LostRequests(s, step.id, step.now);
    } else {
      StepLosesNothing(s, step);
    }
  }

  lemma {:induction false} PricedWithoutLoss(s: Shop, steps: seq<Step>)
    requires ShopInv(s) && s.sent == [] && Run(s, steps).lost == 0
    ensures forall k :: 0 <= k < |Run(s, steps).sent| ==> Priced(Run(s, steps), Run(s, steps).sent[k])
  {
    hide ShopInv, Run, Next, AsksFor, Priced;
    LastOfRun(s, steps);
    if steps != [] {
      var before, step := steps[..|steps| - 1], steps[|steps| - 1];
      var u, v := Run(s, before), Run(s, steps);
      InvAfter(s, before);
      LossGrows(u, step);
      PricedWithoutLoss(s, before);
      StepRequests(u, step);
      forall k | 0 <= k < |v.sent| ensures Priced(v, v.sent[k]) {
        if k < |u.sent| {
          assert v.sent[k] == u.sent[k];
          PricedStays(u, step, u.sent[k]);
        } else if !step.RetryLost? {
          AskedIsPriced(u, step, v.sent[k]);
        }
      }
    }
  }

  /** While no pay-again has been lost, every request leads through its id to a row for
      a hundred times the rupiah that were asked for; and an order whose attempt is paid
      costs just that. */
  lemma PaidIsWhatWasAsked(s: Shop, k: nat)
    requires Reachable(s) && s.lost == 0 && k < |s.sent|
    ensures var q := s.sent[k];
            && q.id in s.byProvider && HasAttempt(s, s.byProvider[q.id])
            && var ref := s.byProvider[q.id];
               && AttemptAt(s, ref).providerId == q.id && AttemptAt(s, ref).gross == 100 * q.amount
               && (AttemptAt(s, ref).status.Settled? ==> s.orders[ref.order].total == 100 * q.amount)
  {
    hide ShopInv, Run, HasAttempt;
    var prefix, bank, midtrans, steps :| ValidPrefix(prefix) && s == Run(Opened(prefix, bank, midtrans), steps);
    OpenedInv(prefix, bank, midtrans);
    PricedWithoutLoss(Opened(prefix, bank, midtrans), steps);
    var q := s.sent[k];
    assert Priced(s, q);
    ReachableInv(s);
    IdHasRow(s, q.id);
    var ref := s.byProvider[q.id];
    if AttemptAt(s, ref).status.Settled? {
      PaidAttemptFreezesOrder(s, [], ref);
    }
  }

  // --------------------------------------------------------------- whose link

  predicate HasLink(s: Shop, ref: Ref, link: Link) {
    (ref, link) in s.answered || (HasAttempt(s, ref) && AttemptAt(s, ref).link == Some(link))
  }

  /** Midtrans gives this link when it is asked for this very attempt. */
  predicate Replies(s: Shop, step: Step, ref: Ref, link: Link) {
    || (step == Ask(ref, Some(link)) && ref in s.asking && HasAttempt(s, ref))
    || (OpensFor(s, step, ref.order) && step.reply == Some(link) && ref.number == |s.orders[ref.order].attempts| + 1)
  }

  lemma AnsweredStays(s: Shop, step: Step)
    requires !step.Ask? && !step.Store?
    ensures Next(s, step).0.answered == s.answered
  {
    hide Next, Checkout, CreateManual, EditCart, Notify, PayAgain, PayAgainLost;
    match step {
      case CheckOut(c, input) =>
        CheckoutIs(s, c, input);
        CheckoutLeavesAnswers(s, c, input);
      case ManualOrder(id, lines, offers, terms, queued) =>
        ManualIs(s, id, lines, offers, terms, queued);
        ManualLeavesAnswers(s, id, lines, offers, terms, queued);
      case ChangeCart(c, v, qty, visible, now) =>
        CartChangeIs(s, c, v, qty, visible, now);
        CartLeavesAnswers(s, c, v, qty, visible, now);
      case Notification(id, r, now, queued) =>
        NotificationIs(s, id, r, now, queued);
        NotifyLeavesAnswers(s, id, r, now, queued);
      case Retry(id, reply, now) =>
        TriesAre(s, id, reply, now);
        RetryLeavesAnswers(s, id, reply, now);
      case RetryLost(id, now) =>
        TriesAre(s, id, None, now);
        RetryLeavesAnswers(s, id, None, now);
      case _ => AdminLeavesAnswers(s, step);
    }
  }

  lemma CheckoutLeavesAnswers(s: Shop, c: CartId, input: CheckoutInput)
    ensures Checkout(s, c, input).0.answered == s.answered
  {
    hide PricedLines, UnavailableItems, NewOrder, NewAttempt, WithMail;
  }

  lemma ManualLeavesAnswers(s: Shop, id: OrderId, lines: seq<ManualLine>, offers: map<VariantId, Offer>,
                            terms: Result<Terms, Refusal>, queued: bool)
    ensures CreateManual(s, id, lines, offers, terms, queued).0.answered == s.answered
  {
    hide ManualLines, NewOrder, WithMail;
  }

  lemma CartLeavesAnswers(s: Shop, c: CartId, v: VariantId, qty: int, visible: bool, now: int)
    ensures EditCart(s, c, v, qty, visible, now).0.answered == s.answered
  {
  }

  lemma NotifyLeavesAnswers(s: Shop, id: string, r: Report, now: int, queued: bool)
    ensures Notify(s, id, r, now, queued).0.answered == s.answered
  {
    hide Apply;
  }

  lemma RetryLeavesAnswers(s: Shop, id: OrderId, reply: Option<Link>, now: int)
    ensures PayAgain(s, id, reply, now).0.answered == s.answered && PayAgainLost(s, id, now).0.answered == s.answered
  {
    hide ChoosePayment;
  }

  lemma AdminLeavesAnswers(s: Shop, step: Step)
    requires step.MoveOrder? || step.EditOrder? || step.RefundOrder? || step.ChangeSettings? || step.CreateCart? || step.Sweep?
    ensures Next(s, step).0.answered == s.answered
  {
    hide Move, Edit, Refund, Checkout, CreateManual, EditCart, Notify, PayAgain, PayAgainLost, AskMidtrans, StoreLink;
  }

  lemma AskAnswers(s: Shop, r: Ref, reply: Option<Link>, ref: Ref, link: Link)
    requires HasLink(AskMidtrans(s, r, reply).0, ref, link)
    ensures HasLink(s, ref, link) || Replies(s, Ask(r, reply), ref, link)
  {
  }

  lemma StepLinks(s: Shop, step: Step, ref: Ref, link: Link)
    requires ShopInv(s) && HasLink(Next(s, step).0, ref, link)
    ensures HasLink(s, ref, link) || Replies(s, step, ref, link)
  {
    hide ShopInv, Next, StoreLink, PayAgain, PayAgainLost, AskMidtrans, NeedsLink, Notify, NextId;
    match step {
      case Ask(r, reply) =>
        CallsAre(s, r, link, reply);
        AskAnswers(s, r, reply, ref, link);
      case Store(r, l) =>
        CallsAre(s, r, l, None);
        StoreLinks(s, r, l, ref, link);
      case _ =>
        AnsweredStays(s, step);
        if HasAttempt(s, ref) {
          LinkStays(s, step, ref);
        } else if HasAttempt(Next(s, step).0, ref) && (ref, link) !in s.answered {
          NewLink(s, step, ref, link);
        }
    }
  }

  lemma StoreLinks(s: Shop, r: Ref, l: Link, ref: Ref, link: Link)
    requires HasLink(StoreLink(s, r, l).0, ref, link)
    ensures HasLink(s, ref, link)
  {
    if HasAttempt(s, ref) {
      StoreStatus(s, r, l, ref);
    }
  }

  lemma LinkStays(s: Shop, step: Step, ref: Ref)
    requires ShopInv(s) && HasAttempt(s, ref) && !step.Ask? && !step.Store?
    ensures HasAttempt(Next(s, step).0, ref) && AttemptAt(Next(s, step).0, ref).link == AttemptAt(s, ref).link
  {
    hide ShopInv, Next, PayAgain, PayAgainLost, NeedsLink, Notify, Confirms, Ends, InFull;
    match step {
      case Notification(id, r, now, queued) =>
        NotificationIs(s, id, r, now, queued);
        NotificationStatus(s, id, r, now, queued, ref);
      case Retry(id, reply, now) =>
        TriesAre(s, id, reply, now);
        RetryStatus(s, id, reply, now, ref);
      case RetryLost(id, now) =>
        TriesAre(s, id, None, now);
        LostSends(s, id, now);
      case _ => OtherLeaves(s, step, ref.order);
    }
  }

  lemma NewLink(s: Shop, step: Step, ref: Ref, link: Link)
    requires ShopInv(s) && !HasAttempt(s, ref) && HasAttempt(Next(s, step).0, ref)
    requires AttemptAt(Next(s, step).0, ref).link == Some(link)
    ensures OpensFor(s, step, ref.order) && step.reply == Some(link) && ref.number == |s.orders[ref.order].attempts| + 1
  {
    hide ShopInv, Next, PayAgain, NeedsLink, Checkout, CreateManual, NextId;
    if ref.order in s.orders {
      if OpensFor(s, step, ref.order) {
        TriesAre(s, step.id, step.reply, step.now);
        RetryWrites(s, ref.order, step.reply, step.now);
      } else {
        StepCounts(s, step, ref.order);
      }
    } else {
      match step {
        case CheckOut(c, input) =>
          CheckoutIs(s, c, input);
          CheckoutMakes(s, c, input, ref.order);
        case ManualOrder(id, lines, offers, terms, queued) =>
          ManualIs(s, id, lines, offers, terms, queued);
          ManualMakes(s, id, lines, offers, terms, queued, ref.order);
        case _ => NoNewOrder(s, step, ref.order);
      }
    }
  }

  predicate RepliedAt(s: Shop, steps: seq<Step>, j: nat, ref: Ref, link: Link) {
    j < |steps| && Replies(Run(s, steps[..j]), steps[j], ref, link)
  }

  lemma {:induction false} LinkWasReplied(s: Shop, steps: seq<Step>, ref: Ref, link: Link)
    requires ShopInv(s) && s.orders == map[] && s.answered == {} && HasLink(Run(s, steps), ref, link)
    ensures exists j: nat :: RepliedAt(s, steps, j, ref, link)
  {
    hide ShopInv, Run, Next, Replies;
    LastOfRun(s, steps);
    if steps != [] {
      var n := |steps| - 1;
      InvAfter(s, steps[..n]);
      StepLinks(Run(s, steps[..n]), steps[n], ref, link);
      if HasLink(Run(s, steps[..n]), ref, link) {
        LinkWasReplied(s, steps[..n], ref, link);
        var j: nat :| RepliedAt(s, steps[..n], j, ref, link);
        assert steps[..n][..j] == steps[..j];
        assert RepliedAt(s, steps, j, ref, link);
      } else {
        assert RepliedAt(s, steps, n, ref, link);
      }
    }
  }

  /** Over every run of a shop, the link an attempt carries is one Midtrans gave when it
      was asked for that attempt. */
  lemma LinkIsItsOwn(prefix: string, bank: bool, midtrans: bool, steps: seq<Step>, ref: Ref)
    requires ValidPrefix(prefix) && HasAttempt(Run(Opened(prefix, bank, midtrans), steps), ref)
    requires AttemptAt(Run(Opened(prefix, bank, midtrans), steps), ref).link.Some?
    ensures var s := Opened(prefix, bank, midtrans);
            exists j: nat :: RepliedAt(s, steps, j, ref, AttemptAt(Run(s, steps), ref).link.value)
  {
    var s := Opened(prefix, bank, midtrans);
    OpenedInv(prefix, bank, midtrans);
    hide ShopInv, Run, RepliedAt;
    LinkWasReplied(s, steps, ref, AttemptAt(Run(s, steps), ref).link.value);
  }

  // ----------------------------------------------------------- paying again

  /** The newest attempt can be paid through its link at this moment. */
  predicate Payable(o: Order, now: int) {
    o.attempts != [] &&
    var p := o.attempts[|o.attempts| - 1];
    p.status.Waiting? && p.link.Some? && now < p.expiresAt && p.gross == o.total
  }

  lemma NeedsLinkExactly(s: Shop, id: OrderId, now: int)
    requires ShopInv(s) && id in s.orders
    ensures var o := s.orders[id];
            NeedsLink(s, id, now) <==>
            s.midtrans && o.payBy.Midtrans? && o.status.Pending? && o.total % 100 == 0 && !Payable(o, now)
  {
    hide ShopInv;
    GoodOrder(s, id);
    var o := s.orders[id];
    if i :| 0 <= i < |o.attempts| && Live(o.attempts[i], o, now) {
      OneLiveLink(o, now, i);
    }
    hide Good;
  }

  /** What pay-again answers in every reachable shop, refusal by refusal, and that it
      writes nothing unless it opens an attempt. */
  lemma PayAgainDecides(s: Shop, id: OrderId, reply: Option<Link>, now: int)
    requires Reachable(s) && id in s.orders
    ensures var o := s.orders[id];
            var (u, answer) := PayAgain(s, id, reply, now);
            if !o.payBy.Midtrans? || !o.status.Pending? then u == s && answer == Refused(NoPaymentToMake)
            else if !s.midtrans then u == s && answer == Refused(MethodNotTaken)
            else if Payable(o, now) then u == s && answer == PayLink(o.attempts[|o.attempts| - 1].link.value)
            else if o.total % 100 != 0 then u == s && answer == Refused(NotWholeRupiah)
            else
              && id in u.orders && Beside(o, u.orders[id].attempts, reply, now)
              && u.sent == s.sent + [Request(NextId(o), o.total / 100)]
              && answer == (if reply.Some? then PayLink(reply.value) else PaymentUnavailable)
  {
    hide ShopInv, NextId, NeedsLink, Payable, Beside, PayAgain, Reachable;
    ReachableInv(s);
    NeedsLinkExactly(s, id, now);
    if NeedsLink(s, id, now) {
      RetryWrites(s, id, reply, now);
    } else {
      RetryAnswers(s, id, reply, now);
    }
  }

  lemma RetryAnswers(s: Shop, id: OrderId, reply: Option<Link>, now: int)
    requires ShopInv(s) && id in s.orders && !NeedsLink(s, id, now)
    ensures var o := s.orders[id];
            PayAgain(s, id, reply, now) ==
            (s, if !o.payBy.Midtrans? || !o.status.Pending? then Refused(NoPaymentToMake)
                else if !s.midtrans then Refused(MethodNotTaken)
                else if Payable(o, now) then PayLink(o.attempts[|o.attempts| - 1].link.value)
                else Refused(NotWholeRupiah))
  {
    hide ShopInv, NeedsLink, ChoosePayment, Good;
    GoodOrder(s, id);
    OpensExactlyWhen(s, id, now);
    RetryRefuses(s.orders[id], s.midtrans, now);
  }

  lemma RetryRefuses(o: Order, taken: bool, now: int)
    requires Good(o) && !ChoosePayment(o, taken, now).Open?
    ensures ChoosePayment(o, taken, now) ==
            if !o.payBy.Midtrans? || !o.status.Pending? then CannotPay(NoPaymentToMake)
            else if !taken then CannotPay(MethodNotTaken)
            else if Payable(o, now) then Reuse(o.attempts[|o.attempts| - 1].link.value)
            else CannotPay(NotWholeRupiah)
  {
    LatestIsLast(o);
    PayAgainNeverCollides(o, taken, now);
    hide Good, FailStale, Insertable, Latest;
  }
}
