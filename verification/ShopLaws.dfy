/** The invariant of a whole shop, kept by every step of Next. */
module ShopLaws {
  import opened Base
  import opened OrderIds
  import opened OrderModel
  import opened OrderLaws
  import opened ShopModel

  // -------------------------------------------------------------- invariant

  /** Every order keeps its laws, and no two took the same sequence value. */
  ghost predicate OrdersOk(s: Shop) {
    && ValidPrefix(s.prefix)
    && (forall id :: id in s.orders ==> Good(s.orders[id]) && 1 <= s.orders[id].seqNo <= s.lastNumber)
    && (forall a, b :: a in s.orders && b in s.orders && a != b ==> s.orders[a].seqNo != s.orders[b].seqNo)
  }

  /** The unique indexes hold exactly the rows there are. */
  ghost predicate Indexed(s: Shop) {
    && (forall id :: id in s.orders ==> s.orders[id].number in s.byNumber && s.byNumber[s.orders[id].number] == id)
    && (forall n :: n in s.byNumber ==> s.byNumber[n] in s.orders && s.orders[s.byNumber[n]].number == n)
    && (forall r: Ref :: HasAttempt(s, r) ==>
          AttemptAt(s, r).providerId in s.byProvider && s.byProvider[AttemptAt(s, r).providerId] == r)
    && (forall id :: id in s.byProvider ==>
          HasAttempt(s, s.byProvider[id]) && AttemptAt(s, s.byProvider[id]).providerId == id)
  }

  /** An order's lines are a cart's items, one for one and in order. */
  ghost predicate LinesAre(lines: seq<Line>, items: seq<CartItem>) {
    && |lines| == |items|
    && forall i :: 0 <= i < |items| ==> lines[i].variant == items[i].variant && lines[i].qty == items[i].qty
  }

  /** A cart is checked out exactly when it has its one order. */
  ghost predicate CartsOk(s: Shop) {
    && (forall c :: c in s.byCart ==>
          c in s.carts && s.carts[c].checkedOut && s.byCart[c] in s.orders &&
          s.orders[s.byCart[c]].cart == Some(c) && LinesAre(s.orders[s.byCart[c]].lines, s.carts[c].items))
    && (forall c :: c in s.carts && s.carts[c].checkedOut ==> c in s.byCart)
    && (forall id :: id in s.orders && s.orders[id].cart.Some? ==>
          s.orders[id].cart.value in s.byCart && s.byCart[s.orders[id].cart.value] == id)
  }

  function Ids(sent: seq<Request>): seq<string> {
    seq(|sent|, i requires 0 <= i < |sent| => sent[i].id)
  }

  /** Calls in flight are for rows that exist. Every request was for a row, save
      those of lost commits, and without these no id was ever sent twice. */
  ghost predicate CallsOk(s: Shop) {
    && (forall r :: r in s.asking ==> HasAttempt(s, r))
    && (forall a :: a in s.answered ==> HasAttempt(s, a.0))
    && |s.sent| + |s.asking| == |s.byProvider| + s.lost
    && (s.lost == 0 ==>
          && NoDuplicates(Ids(s.sent))
          && (forall id :: id in Ids(s.sent) ==> id in s.byProvider && s.byProvider[id] !in s.asking))
  }

  ghost predicate ShopInv(s: Shop) {
    OrdersOk(s) && Indexed(s) && CartsOk(s) && CallsOk(s)
  }

  /** What no step undoes, order by order and cart by cart. */
  ghost predicate ShopEvolves(s: Shop, s': Shop) {
    && (forall id :: id in s.orders ==> id in s'.orders && Evolves(s.orders[id], s'.orders[id]))
    && (forall c :: c in s.byCart ==> c in s'.byCart && s'.byCart[c] == s.byCart[c])
    && (forall c :: c in s.carts && s.carts[c].checkedOut ==> c in s'.carts && s'.carts[c] == s.carts[c])
    && (forall id :: id in s.byProvider ==> id in s'.byProvider && s'.byProvider[id] == s.byProvider[id])
    && s.sent <= s'.sent && s.lost <= s'.lost
  }

  lemma ShopEvolvesReflexive(s: Shop)
    ensures ShopEvolves(s, s)
  {
  }

  lemma ShopEvolvesTransitive(a: Shop, b: Shop, c: Shop)
    requires ShopEvolves(a, b) && ShopEvolves(b, c)
    ensures ShopEvolves(a, c)
  {
    forall id | id in a.orders ensures id in c.orders && Evolves(a.orders[id], c.orders[id]) {
      EvolvesTransitive(a.orders[id], b.orders[id], c.orders[id]);
    }
  }

  // ------------------------------------------------------- replacing one order

  lemma OrdersStayOk(s: Shop, s': Shop, id: OrderId, o: Order)
    requires OrdersOk(s) && id in s.orders && Good(o) && o.seqNo == s.orders[id].seqNo
    requires s'.orders == s.orders[id := o] && s'.prefix == s.prefix && s'.lastNumber == s.lastNumber
    ensures OrdersOk(s')
  {
    hide Good;
  }

  lemma CartsStayOk(s: Shop, s': Shop, id: OrderId, o: Order)
    requires CartsOk(s) && id in s.orders && o.cart == s.orders[id].cart && o.lines == s.orders[id].lines
    requires s'.orders == s.orders[id := o] && s'.carts == s.carts && s'.byCart == s.byCart
    ensures CartsOk(s')
  {
  }

  /** Rows keep their number and id when their order moves on. */
  lemma RowsStay(s: Shop, s': Shop, id: OrderId, o: Order)
    requires id in s.orders && Evolves(s.orders[id], o) && s'.orders == s.orders[id := o]
    ensures forall r: Ref :: HasAttempt(s, r) ==>
              HasAttempt(s', r) && AttemptAt(s', r).providerId == AttemptAt(s, r).providerId
    ensures forall r: Ref :: HasAttempt(s', r) && !HasAttempt(s, r) ==> r.order == id && r.number > |s.orders[id].attempts|
  {
    forall r: Ref | HasAttempt(s, r)
      ensures HasAttempt(s', r) && AttemptAt(s', r).providerId == AttemptAt(s, r).providerId
    {
      if r.order == id {
        assert AttemptEvolves(s.orders[id].attempts[r.number - 1], o.attempts[r.number - 1]);
      }
    }
  }

  /** Replacing one order, with rows and requests added but none taken away,
      is an evolution of the shop. */
  lemma ReplaceEvolves(s: Shop, s': Shop, id: OrderId, o: Order)
    requires id in s.orders && Evolves(s.orders[id], o) && s'.orders == s.orders[id := o]
    requires s'.byCart == s.byCart && s'.carts == s.carts
    requires forall k :: k in s.byProvider ==> k in s'.byProvider && s'.byProvider[k] == s.byProvider[k]
    requires s.sent <= s'.sent && s.lost <= s'.lost
    ensures ShopEvolves(s, s')
  {
    hide Evolves;
    forall k | k in s.orders ensures k in s'.orders && Evolves(s.orders[k], s'.orders[k]) {
      EvolvesReflexive(s.orders[k]);
    }
  }

  lemma IndexesStay(s: Shop, s': Shop, id: OrderId, o: Order)
    requires Indexed(s) && id in s.orders && Evolves(s.orders[id], o) && |o.attempts| == |s.orders[id].attempts|
    requires s'.orders == s.orders[id := o] && s'.byNumber == s.byNumber && s'.byProvider == s.byProvider
    ensures Indexed(s')
  {
    RowsStay(s, s', id, o);
  }

  lemma CallsStay(s: Shop, s': Shop)
    requires CallsOk(s) && forall r: Ref :: HasAttempt(s, r) ==> HasAttempt(s', r)
    requires s'.byProvider == s.byProvider && s'.sent == s.sent && s'.lost == s.lost
    requires s'.asking == s.asking && s'.answered == s.answered
    ensures CallsOk(s')
  {
  }

  /** An order replaced by a later state of itself with no new attempt. */
  lemma UpdateKeeps(s: Shop, id: OrderId, o: Order)
    requires ShopInv(s) && id in s.orders
    requires Good(o) && Evolves(s.orders[id], o) && |o.attempts| == |s.orders[id].attempts|
    ensures ShopInv(WithOrder(s, id, o))
  {
    var s' := WithOrder(s, id, o);
    hide Good, OrdersOk, Indexed, CartsOk, CallsOk;
    OrdersStayOk(s, s', id, o);
    CartsStayOk(s, s', id, o);
    IndexesStay(s, s', id, o);
    RowsStay(s, s', id, o);
    CallsStay(s, s');
  }

  // ------------------------------------------------------------- new attempts

  /** A row's id is free until the row exists: ids name their order and number. */
  lemma FreshProviderId(s: Shop, o: Order, n: nat)
    requires OrdersOk(s) && Indexed(s) && n >= 1
    requires ValidPrefix(o.prefix) && o.number == OrderNumber(o.prefix, o.seqNo)
    requires forall id :: id in s.orders && s.orders[id].seqNo == o.seqNo ==> |s.orders[id].attempts| < n
    ensures ProviderId(o.number, n) !in s.byProvider
  {
    var pid := ProviderId(o.number, n);
    if pid in s.byProvider {
      var r := s.byProvider[pid];
      var q := s.orders[r.order];
      assert Good(q);
      assert AttemptAt(s, r).providerId == ProviderId(q.number, r.number) == pid;
      ProviderIdInjective(o.prefix, o.seqNo, n, q.prefix, q.seqNo, r.number);
      assert false;
    }
  }

  lemma IndexesGrow(s: Shop, s': Shop, id: OrderId, o: Order, n: nat)
    requires Indexed(s) && id in s.orders && Evolves(s.orders[id], o)
    requires n == |o.attempts| == |s.orders[id].attempts| + 1 && o.attempts[n - 1].providerId !in s.byProvider
    requires s'.orders == s.orders[id := o] && s'.byNumber == s.byNumber
    requires s'.byProvider == s.byProvider[o.attempts[n - 1].providerId := Ref(id, n)]
    ensures Indexed(s')
  {
    RowsStay(s, s', id, o);
    var row := Ref(id, n);
    assert AttemptAt(s', row) == o.attempts[n - 1];
    forall r: Ref | HasAttempt(s', r)
      ensures AttemptAt(s', r).providerId in s'.byProvider && s'.byProvider[AttemptAt(s', r).providerId] == r
    {
      if r != row {
        assert HasAttempt(s, r);
      }
    }
  }

  lemma CallsGrow(s: Shop, s': Shop, row: Ref, p: Attempt)
    requires CallsOk(s) && !HasAttempt(s, row) && p.providerId !in s.byProvider
    requires forall r: Ref :: HasAttempt(s, r) ==> HasAttempt(s', r)
    requires s'.byProvider == s.byProvider[p.providerId := row] && s'.sent == s.sent + [RequestFor(p)]
    requires s'.asking == s.asking && s'.answered == s.answered && s'.lost == s.lost
    ensures CallsOk(s')
  {
    assert s'.byProvider.Keys == s.byProvider.Keys + {p.providerId};
    assert row !in s.asking;
    if s.lost == 0 {
      SentGrows(s, s', row, p);
    }
  }

  lemma SentGrows(s: Shop, s': Shop, row: Ref, p: Attempt)
    requires NoDuplicates(Ids(s.sent)) && row !in s.asking && p.providerId !in s.byProvider
    requires forall id :: id in Ids(s.sent) ==> id in s.byProvider && s.byProvider[id] !in s.asking
    requires s'.byProvider == s.byProvider[p.providerId := row] && s'.sent == s.sent + [RequestFor(p)]
    requires s'.asking == s.asking
    ensures NoDuplicates(Ids(s'.sent))
    ensures forall id :: id in Ids(s'.sent) ==> id in s'.byProvider && s'.byProvider[id] !in s'.asking
  {
    assert Ids(s'.sent) == Ids(s.sent) + [p.providerId];
    NoDuplicatesAppend(Ids(s.sent), p.providerId);
  }

  /** A new attempt row, asked for in the same transaction (pay-again). */
  lemma OpenKeeps(s: Shop, s': Shop, id: OrderId, o: Order)
    requires ShopInv(s) && id in s.orders
    requires Good(o) && Evolves(s.orders[id], o) && |o.attempts| == |s.orders[id].attempts| + 1
    requires o.attempts[|o.attempts| - 1].providerId !in s.byProvider
    requires var p := o.attempts[|o.attempts| - 1];
             s' == s.(byProvider := s.byProvider[p.providerId := Ref(id, |o.attempts|)],
                      sent := s.sent + [RequestFor(p)], orders := s.orders[id := o])
    ensures ShopInv(s')
  {
    var p := o.attempts[|o.attempts| - 1];
    hide Good, OrdersOk, Indexed, CartsOk, CallsOk;
    OrdersStayOk(s, s', id, o);
    CartsStayOk(s, s', id, o);
    IndexesGrow(s, s', id, o, |o.attempts|);
    RowsStay(s, s', id, o);
    CallsGrow(s, s', Ref(id, |o.attempts|), p);
  }

  // --------------------------------------------------------------- new orders

  lemma FreshNumber(s: Shop, o: Order)
    requires OrdersOk(s) && Indexed(s)
    requires ValidPrefix(o.prefix) && o.number == OrderNumber(o.prefix, o.seqNo) && o.seqNo == s.lastNumber + 1
    ensures o.number !in s.byNumber
  {
    if o.number in s.byNumber {
      var q := s.orders[s.byNumber[o.number]];
      assert Good(q);
      OrderNumberInjective(o.prefix, o.seqNo, q.prefix, q.seqNo);
      assert false;
    }
  }

  lemma OrdersGrow(s: Shop, s': Shop, id: OrderId, o: Order)
    requires OrdersOk(s) && id !in s.orders && Good(o) && o.seqNo == s.lastNumber + 1
    requires s'.orders == s.orders[id := o] && s'.prefix == s.prefix && s'.lastNumber == s.lastNumber + 1
    ensures OrdersOk(s')
    ensures forall k :: k in s.orders ==> k in s'.orders && Evolves(s.orders[k], s'.orders[k])
  {
    hide Good, Evolves;
    forall k | k in s.orders ensures k in s'.orders && Evolves(s.orders[k], s'.orders[k]) {
      EvolvesReflexive(s.orders[k]);
    }
  }

  /** The new order's one row of payments, if it has one, and its number. */
  lemma IndexesAdd(s: Shop, s': Shop, id: OrderId, o: Order)
    requires Indexed(s) && id !in s.orders && |o.attempts| <= 1 && o.number !in s.byNumber
    requires o.attempts != [] ==> o.attempts[0].providerId !in s.byProvider
    requires s'.orders == s.orders[id := o] && s'.byNumber == s.byNumber[o.number := id]
    requires s'.byProvider == if o.attempts == [] then s.byProvider else s.byProvider[o.attempts[0].providerId := Ref(id, 1)]
    ensures Indexed(s')
    ensures forall r: Ref :: HasAttempt(s', r) <==> HasAttempt(s, r) || (r == Ref(id, 1) && o.attempts != [])
  {
    assert forall r: Ref :: HasAttempt(s, r) ==> HasAttempt(s', r) && AttemptAt(s', r) == AttemptAt(s, r);
    forall r: Ref | HasAttempt(s', r)
      ensures HasAttempt(s, r) || r == Ref(id, 1)
      ensures AttemptAt(s', r).providerId in s'.byProvider && s'.byProvider[AttemptAt(s', r).providerId] == r
    {
    }
    if o.attempts != [] {
      assert HasAttempt(s', Ref(id, 1)) && AttemptAt(s', Ref(id, 1)) == o.attempts[0];
    }
  }

  lemma CartsAdd(s: Shop, s': Shop, id: OrderId, o: Order)
    requires CartsOk(s) && id !in s.orders && s'.orders == s.orders[id := o]
    requires o.cart.None? ==> s'.carts == s.carts && s'.byCart == s.byCart
    requires o.cart.Some? ==>
               var c := o.cart.value;
               c in s.carts && !s.carts[c].checkedOut && LinesAre(o.lines, s.carts[c].items) &&
               s'.carts == s.carts[c := s.carts[c].(checkedOut := true)] && s'.byCart == s.byCart[c := id]
    ensures CartsOk(s')
    ensures forall c :: c in s.carts && s.carts[c].checkedOut ==> c in s'.carts && s'.carts[c] == s.carts[c]
    ensures forall c :: c in s.byCart ==> c in s'.byCart && s'.byCart[c] == s.byCart[c]
  {
    hide LinesAre;
  }

  /** A checkout's attempt row, not yet asked for. */
  lemma CallsAdd(s: Shop, s': Shop, row: Ref, p: Attempt)
    requires CallsOk(s) && Indexed(s) && !HasAttempt(s, row) && HasAttempt(s', row) && p.providerId !in s.byProvider
    requires forall r: Ref :: HasAttempt(s, r) ==> HasAttempt(s', r)
    requires s'.byProvider == s.byProvider[p.providerId := row] && s'.asking == s.asking + {row}
    requires s'.sent == s.sent && s'.answered == s.answered && s'.lost == s.lost
    ensures CallsOk(s')
  {
    assert s'.byProvider.Keys == s.byProvider.Keys + {p.providerId};
    assert row !in s.asking;
  }
}
