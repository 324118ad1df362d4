/** What holds of an import's rows, whatever the file says. */
module ImportLaws {
  import opened Base
  import opened Catalog
  import opened ImportRows
  import opened Texts
  import Slugs
  import Rupiah
  import Plans = ImportPlan

  // ----------------------------------------------------------- constraints

  lemma DrawKeeps(t: Tables, next: Id)
    requires Constrained(t) && next >= t.nextId
    ensures Constrained(t.(nextId := next))
  {
    hide Checks, SameSku, SameCell;
  }

  lemma InsertKeeps(t: Tables, v: Variant)
    requires Constrained(t) && Insert(t, v).Ok?
    ensures Constrained(Insert(t, v).value)
    ensures Insert(t, v).value == t.(nextId := t.nextId + 1, variants := t.variants[t.nextId := v])
    ensures v.product in t.products
  {
    hide Constrained, Refusal;
    var u := t.(nextId := t.nextId + 1);
    DrawKeeps(t, t.nextId + 1);
    RefusedIffBroken(u, t.nextId, v);
    AcceptedIff(u, t.nextId, v);
  }

  lemma ProductKeeps(t: Tables, title: string, plan: Plan)
    requires Constrained(t)
    ensures Constrained(WithProduct(t, title, plan))
  {
    hide Checks, SameSku, SameCell, Slugs.FreeSlug;
    var u := WithProduct(t, title, plan);
    var slug := u.products[t.nextId].slug;
    assert slug !in SlugsOf(t);
    forall p | p in t.products ensures t.products[p].slug != slug {
      assert t.products[p].slug in SlugsOf(t);
    }
  }

  lemma ExistingKeeps(t: Tables, id: Id, f: Fields, refuse: bool)
    requires Constrained(t) && id in t.variants && Existing(t, id, f, refuse).Ok?
    ensures Constrained(Existing(t, id, f, refuse).value)
    ensures Existing(t, id, f, refuse).value == t.(variants := t.variants[id := Catalog.Updated(t.variants[id], f)])
  {
    assert id < t.nextId;
    hide Constrained, Refusal, Catalog.Updated;
    RefusedIffBroken(t, id, Catalog.Updated(t.variants[id], f));
  }

  lemma FreshKeeps(t: Tables, products: map<string, Id>, r: Row, f: Fields, plan: Plan)
    requires Constrained(t)
    ensures var a := Fresh(t, products, r, f, plan);
            a.tables.nextId >= t.nextId && (!a.outcome.Failed? ==> Constrained(a.tables))
  {
    var title := Trim(Plans.Cell(r, "title"));
    var key := Plans.GroupKey(r);
    var known := key in products;
    var made := if known then t else WithProduct(t, title, plan);
    var id := if known then products[key] else t.nextId;
    var v := NewVariant(id, Options(r, plan.names), f);
    ProductKeeps(t, title, plan);
    if Insert(made, v).Ok? {
      InsertKeeps(made, v);
    }
    hide Constrained, Insert, Plans.GroupKey, Trim, Options, NewVariant, FirstBlank, Slugs.FreeSlug;
  }

  lemma TriedKeeps(t: Tables, products: map<string, Id>, r: Row, plan: Plan)
    requires Constrained(t)
    ensures var a := Tried(t, products, r, plan);
            a.tables.nextId >= t.nextId && (!a.outcome.Failed? ==> Constrained(a.tables))
  {
    hide Constrained, Fresh, Existing, RowFields;
    var fields := RowFields(r);
    if fields.Ok? {
      var f := fields.value;
      FreshKeeps(t, products, r, f, plan);
      var held := if f.sku.Some? then Holder(t, f.sku.value) else None;
      if held.Some? && Existing(t, held.value, f, plan.refuse).Ok? {
        ExistingKeeps(t, held.value, f, plan.refuse);
      }
    }
  }

  lemma RowKeeps(w: Work, r: Row, plan: Plan)
    requires Constrained(w.tables)
    ensures Constrained(RowDone(w, r, plan).tables)
    ensures RowDone(w, r, plan).tables.nextId >= w.tables.nextId
  {
    hide Constrained, Tried;
    var a := Tried(w.tables, w.products, r, plan);
    TriedKeeps(w.tables, w.products, r, plan);
    if a.outcome.Failed? {
      DrawKeeps(w.tables, a.tables.nextId);
    }
  }

  /** Whatever the rows are, the tables never break a constraint. */
  lemma {:induction false} RowsKeep(w: Work, rows: seq<Row>, plan: Plan)
    requires Constrained(w.tables)
    ensures Constrained(RowsDone(w, rows, plan).tables)
    ensures RowsDone(w, rows, plan).tables.nextId >= w.tables.nextId
  {
    hide Constrained, RowDone;
    if rows != [] {
      RowsKeep(w, rows[..|rows| - 1], plan);
      RowKeeps(RowsDone(w, rows[..|rows| - 1], plan), rows[|rows| - 1], plan);
    }
  }

  // ----------------------------------------------------------------- tally

  function Counted(y: Tally): nat {
    y.created + y.updated + |y.errors|
  }

  ghost predicate LineOf(rows: seq<Row>, line: nat) {
    exists r :: r in rows && r.line == line
  }

  /** Every row is counted once, and every error names a row of the batch. */
  lemma {:induction false} EveryRowCounted(w: Work, rows: seq<Row>, plan: Plan)
    ensures Counted(RowsDone(w, rows, plan).tally) == Counted(w.tally) + |rows|
    ensures w.tally.errors <= RowsDone(w, rows, plan).tally.errors
    ensures forall i :: |w.tally.errors| <= i < |RowsDone(w, rows, plan).tally.errors| ==>
              LineOf(rows, RowsDone(w, rows, plan).tally.errors[i].0)
  {
    hide Tried;
    if rows != [] {
      var n := |rows| - 1;
      EveryRowCounted(w, rows[..n], plan);
      var before, after := RowsDone(w, rows[..n], plan), RowsDone(w, rows, plan);
      assert rows[n] in rows;
      forall i | |w.tally.errors| <= i < |after.tally.errors|
        ensures LineOf(rows, after.tally.errors[i].0)
      {
        if i < |before.tally.errors| {
          assert after.tally.errors[i] == before.tally.errors[i];
          assert LineOf(rows[..n], before.tally.errors[i].0);
        } else {
          assert after.tally.errors[i].0 == rows[n].line;
        }
      }
    }
  }

  // -------------------------------------------------------------- products

  function TitleKey(title: string): string {
    "t:" + Lower(title)
  }

  lemma TitledKey(r: Row)
    requires Trim(Plans.Cell(r, "title")) != ""
    ensures Plans.GroupKey(r) == TitleKey(Trim(Plans.Cell(r, "title")))
  {
    assert |Lower(Trim(Plans.Cell(r, "title")))| > 0;
    hide Trim;
  }

  /** What a row does to the products: nothing, unless it is the first of its
      title to get as far as needing one. */
  lemma FreshProducts(t: Tables, products: map<string, Id>, r: Row, f: Fields, plan: Plan)
    ensures var a, k := Fresh(t, products, r, f, plan), Plans.GroupKey(r);
            if a.products == products then a.tables.products == t.products
            else
              && k !in products && a.products == products[k := t.nextId]
              && t.nextId in a.tables.products && TitleKey(a.tables.products[t.nextId].title) == k
              && a.tables.nextId > t.nextId
              && a.tables.products == t.products[t.nextId := a.tables.products[t.nextId]]
  {
    hide Plans.GroupKey, Trim, TitleKey, Options, NewVariant, FirstBlank, Slugs.FreeSlug, Refusal;
    var title := Trim(Plans.Cell(r, "title"));
    if title != "" {
      TitledKey(r);
    }
    var k := Plans.GroupKey(r);
    if k in products {
      assert products[k := products[k]] == products;
    }
  }

  lemma TriedProducts(t: Tables, products: map<string, Id>, r: Row, plan: Plan)
    ensures var a, k := Tried(t, products, r, plan), Plans.GroupKey(r);
            if a.products == products then a.tables.products == t.products
            else
              && k !in products && a.products == products[k := t.nextId]
              && t.nextId in a.tables.products && TitleKey(a.tables.products[t.nextId].title) == k
              && a.tables.nextId > t.nextId
              && a.tables.products == t.products[t.nextId := a.tables.products[t.nextId]]
  {
    hide Fresh, RowFields, Plans.GroupKey, TitleKey, Refusal, Catalog.Updated;
    if RowFields(r).Ok? {
      FreshProducts(t, products, r, RowFields(r).value, plan);
    }
  }

  lemma RowProducts(w: Work, r: Row, plan: Plan)
    ensures var u, k := RowDone(w, r, plan), Plans.GroupKey(r);
            if u.products == w.products then u.tables.products == w.tables.products
            else
              && k !in w.products && u.products == w.products[k := w.tables.nextId]
              && u.tables.nextId > w.tables.nextId
              && (u.tables.products == w.tables.products
                  || (w.tables.nextId in u.tables.products
                      && TitleKey(u.tables.products[w.tables.nextId].title) == k
                      && u.tables.products == w.tables.products[w.tables.nextId := u.tables.products[w.tables.nextId]]))
  {
    TriedProducts(w.tables, w.products, r, plan);
    hide Tried, Plans.GroupKey, TitleKey;
  }

  /** The products made since id `first`, and where a batch keeps them: each
      under its title, every remembered id drawn, every title a row's. */
  ghost predicate Remembers(first: Id, w: Work, rows: seq<Row>) {
    && (forall k :: k in w.products ==> first <= w.products[k] < w.tables.nextId && KeyOf(rows, k))
    && (forall p :: p in w.tables.products && p >= first ==>
          TitleKey(w.tables.products[p].title) in w.products
          && w.products[TitleKey(w.tables.products[p].title)] == p)
  }

  lemma RowLeavesOlder(first: Id, w: Work, r: Row, plan: Plan)
    requires first <= w.tables.nextId
    ensures forall p :: p < first ==> (p in RowDone(w, r, plan).tables.products <==> p in w.tables.products)
    ensures forall p :: p < first && p in w.tables.products ==>
              RowDone(w, r, plan).tables.products[p] == w.tables.products[p]
  {
    RowProducts(w, r, plan);
    hide RowDone, Plans.GroupKey, TitleKey;
  }

  ghost predicate KeyOf(rows: seq<Row>, k: string) {
    exists r :: r in rows && Plans.GroupKey(r) == k
  }

  lemma KeyOfMore(rows: seq<Row>, r: Row)
    ensures forall k :: KeyOf(rows, k) || k == Plans.GroupKey(r) ==> KeyOf(rows + [r], k)
  {
    hide Plans.GroupKey;
    assert r in rows + [r];
  }

  lemma RemembersOne(first: Id, w: Work, u: Work, rows: seq<Row>, more: seq<Row>, k: string)
    requires Remembers(first, w, rows) && first <= w.tables.nextId < u.tables.nextId
    requires (forall h :: KeyOf(rows, h) || h == k ==> KeyOf(more, h)) && k !in w.products
    requires u.products == w.products[k := w.tables.nextId]
    requires u.tables.products == w.tables.products
             || (w.tables.nextId in u.tables.products && TitleKey(u.tables.products[w.tables.nextId].title) == k
                 && u.tables.products == w.tables.products[w.tables.nextId := u.tables.products[w.tables.nextId]])
    ensures Remembers(first, u, more)
  {
    hide TitleKey, KeyOf;
  }

  lemma RowRemembers(first: Id, w: Work, rows: seq<Row>, r: Row, plan: Plan)
    requires Remembers(first, w, rows) && Constrained(w.tables) && first <= w.tables.nextId
    ensures Remembers(first, RowDone(w, r, plan), rows + [r])
  {
    assert forall p :: p in w.tables.products ==> p < w.tables.nextId;
    hide RowDone, Plans.GroupKey, TitleKey, KeyOf, Constrained;
    RowProducts(w, r, plan);
    RowKeeps(w, r, plan);
    KeyOfMore(rows, r);
    if RowDone(w, r, plan).products != w.products {
      hide Remembers;
      RemembersOne(first, w, RowDone(w, r, plan), rows, rows + [r], Plans.GroupKey(r));
    }
  }

  /** A batch leaves older products alone, makes new ones only under its rows'
      titles, and never two under one title. */
  ghost predicate MakesProducts(t: Tables, u: Tables, rows: seq<Row>) {
    && (forall p :: p < t.nextId ==> (p in u.products <==> p in t.products))
    && (forall p :: p < t.nextId && p in t.products ==> u.products[p] == t.products[p])
    && (forall p :: p in u.products && p >= t.nextId ==> KeyOf(rows, TitleKey(u.products[p].title)))
    && forall p, q ::
         p in u.products && q in u.products && p >= t.nextId && q >= t.nextId &&
         TitleKey(u.products[p].title) == TitleKey(u.products[q].title)
         ==> p == q
  }

  lemma {:induction false} RowsRemember(w: Work, rows: seq<Row>, plan: Plan)
    requires Constrained(w.tables) && w.products == map[]
    ensures var first, u := w.tables.nextId, RowsDone(w, rows, plan);
            && Remembers(first, u, rows)
            && (forall p :: p < first ==> (p in u.tables.products <==> p in w.tables.products))
            && forall p :: p < first && p in w.tables.products ==> u.tables.products[p] == w.tables.products[p]
  {
    hide RowDone, Plans.GroupKey, TitleKey, Checks, SameSku, SameCell;
    if rows != [] {
      var n := |rows| - 1;
      RowsRemember(w, rows[..n], plan);
      RowsKeep(w, rows[..n], plan);
      RowRemembers(w.tables.nextId, RowsDone(w, rows[..n], plan), rows[..n], rows[n], plan);
      RowLeavesOlder(w.tables.nextId, RowsDone(w, rows[..n], plan), rows[n], plan);
      assert rows[..n] + [rows[n]] == rows;
    }
  }

  lemma BatchMakesProducts(t: Tables, tally: Tally, rows: seq<Row>, plan: Plan)
    requires Constrained(t)
    ensures MakesProducts(t, BatchDone(t, tally, rows, plan).0, rows)
  {
    RowsRemember(Work(t, map[], tally), rows, plan);
    hide RowDone, RowsDone, Plans.GroupKey, TitleKey, Constrained;
  }

  // -------------------------------------------------- a title that is lost

  /** A batch remembers a product for the title that its tables do not have. */
  ghost predicate Lost(w: Work, k: string) {
    k in w.products && w.products[k] !in w.tables.products && w.products[k] < w.tables.nextId
  }

  /** What stops a new product's first variant: nothing but its own amounts. */
  lemma FirstVariantRefused(t: Tables, v: Variant)
    requires Constrained(t) && v.product in t.products
    requires forall i :: i in t.variants ==> t.variants[i].product != v.product && !SameSku(t.variants[i], v)
    ensures Insert(t, v).Err? <==> !Checks(v)
  {
    AcceptedIff(t.(nextId := t.nextId + 1), t.nextId, v);
    hide Put, Checks, SameSku, Constrained;
  }

  /** The variant a row asks for, once its product is there. */
  function Wanted(id: Id, r: Row, f: Fields, plan: Plan): Variant {
    NewVariant(id, Options(r, plan.names), f)
  }

  /** The row reads, names a product and all its options, and its SKU is new. */
  predicate Complete(t: Tables, r: Row, plan: Plan) {
    && RowFields(r).Ok?
    && (RowFields(r).value.sku.Some? ==> Holder(t, RowFields(r).value.sku.value) == None)
    && Trim(Plans.Cell(r, "title")) != ""
    && FirstBlank(Options(r, plan.names), 0) == |plan.names|
  }

  lemma LostFresh(t: Tables, products: map<string, Id>, r: Row, f: Fields, plan: Plan)
    requires Constrained(t) && Plans.GroupKey(r) !in products
    requires f.sku.Some? ==> Holder(t, f.sku.value) == None
    ensures var a := Fresh(t, products, r, f, plan);
            a.outcome.Failed? && a.products != products <==>
            && Trim(Plans.Cell(r, "title")) != "" && FirstBlank(Options(r, plan.names), 0) == |plan.names|
            && !Checks(Wanted(t.nextId, r, f, plan))
  {
    var title := Trim(Plans.Cell(r, "title"));
    ProductKeeps(t, title, plan);
    var made := WithProduct(t, title, plan);
    var v := Wanted(t.nextId, r, f, plan);
    forall i | i in made.variants ensures made.variants[i].product != v.product && !SameSku(made.variants[i], v) {
      assert t.variants[i].product in t.products;
    }
    FirstVariantRefused(made, v);
    hide Plans.GroupKey, Trim, Options, Checks, WithProduct, Insert, FirstBlank, Holder, Constrained;
  }

  lemma LostTried(t: Tables, products: map<string, Id>, r: Row, plan: Plan)
    requires Constrained(t) && Plans.GroupKey(r) !in products
    ensures var a := Tried(t, products, r, plan);
            a.outcome.Failed? && a.products != products <==>
            Complete(t, r, plan) && !Checks(Wanted(t.nextId, r, RowFields(r).value, plan))
  {
    hide Plans.GroupKey, Trim, Options, Checks, FirstBlank, Holder, Constrained, RowFields, Fresh, Wanted, Existing;
    var fields := RowFields(r);
    if fields.Ok? && (fields.value.sku.Some? ==> Holder(t, fields.value.sku.value) == None) {
      LostFresh(t, products, r, fields.value, plan);
    }
  }

  /** The first row of a title loses it for the whole batch exactly when the row
      is complete and its amounts break a check: the product it created is
      rolled back with it, and stays remembered. */
  lemma LostExactlyWhen(w: Work, r: Row, plan: Plan)
    requires Constrained(w.tables) && Plans.GroupKey(r) !in w.products
    ensures Lost(RowDone(w, r, plan), Plans.GroupKey(r)) <==>
            Complete(w.tables, r, plan) && !Checks(Wanted(w.tables.nextId, r, RowFields(r).value, plan))
  {
    LostTried(w.tables, w.products, r, plan);
    TriedProducts(w.tables, w.products, r, plan);
    assert w.tables.nextId !in w.tables.products;
    hide Tried, Complete, Checks, Wanted, RowFields, Plans.GroupKey, TitleKey, Constrained;
  }

  lemma LostRow(w: Work, r: Row, plan: Plan, k: string)
    requires Lost(w, k)
    ensures Lost(RowDone(w, r, plan), k)
  {
    RowProducts(w, r, plan);
    hide RowDone, Plans.GroupKey, TitleKey;
    if RowDone(w, r, plan).products == w.products {
      TriedNext(w, r, plan);
    }
  }

  lemma FreshNext(t: Tables, products: map<string, Id>, r: Row, f: Fields, plan: Plan)
    ensures Fresh(t, products, r, f, plan).tables.nextId >= t.nextId
  {
    hide Plans.GroupKey, Trim, Options, FirstBlank, Refusal, Slugs.FreeSlug, NewVariant;
  }

  lemma TriedNext(w: Work, r: Row, plan: Plan)
    ensures RowDone(w, r, plan).tables.nextId >= w.tables.nextId
  {
    hide Fresh, RowFields, Refusal, Catalog.Updated;
    if RowFields(r).Ok? {
      FreshNext(w.tables, w.products, r, RowFields(r).value, plan);
    }
  }

  lemma {:induction false} LostStays(w: Work, rows: seq<Row>, plan: Plan, k: string)
    requires Lost(w, k)
    ensures Lost(RowsDone(w, rows, plan), k)
  {
    hide RowDone, Lost;
    if rows != [] {
      LostStays(w, rows[..|rows| - 1], plan, k);
      LostRow(RowsDone(w, rows[..|rows| - 1], plan), rows[|rows| - 1], plan, k);
    }
  }

  lemma {:induction false} RowsDoneConcat(w: Work, a: seq<Row>, b: seq<Row>, plan: Plan)
    ensures RowsDone(w, a + b, plan) == RowsDone(RowsDone(w, a, plan), b, plan)
  {
    hide RowDone;
    if b == [] {
      assert a + b == a;
    } else {
      RowsDoneConcat(w, a, b[..|b| - 1], plan);
      assert (a + b)[..|a + b| - 1] == a + b[..|b| - 1];
    }
  }

  /** Once a batch has lost a title, it ends without a product of that title. */
  lemma LostTitleMakesNothing(t: Tables, tally: Tally, before: seq<Row>, after: seq<Row>, plan: Plan, k: string)
    requires Constrained(t) && Lost(RowsDone(Work(t, map[], tally), before, plan), k)
    ensures var u := BatchDone(t, tally, before + after, plan).0;
            forall p :: p in u.products && p >= t.nextId ==> TitleKey(u.products[p].title) != k
  {
    var w := Work(t, map[], tally);
    RowsDoneConcat(w, before, after, plan);
    LostStays(RowsDone(w, before, plan), after, plan, k);
    RowsRemember(w, before + after, plan);
    hide RowDone, RowsDone, TitleKey, KeyOf, Constrained;
  }

  /** A row reduced to its title and its options. */
  function Bare(r: Row): Row {
    r.(values := map x | x in r.values && x !in {"sku", "regular_price", "sale_price", "weight_grams", "barcode"} ::
                   r.values[x])
  }

  lemma BareReads(r: Row)
    ensures RowFields(Bare(r)) ==
            Ok(Fields(None, false, None, false, None, None, false, None, false, None, false, None))
    ensures Plans.Cell(Bare(r), "title") == Plans.Cell(r, "title")
  {
    hide Rupiah.ParseRupiah, ParseGrams;
  }

  lemma BareOptions(r: Row, names: seq<string>)
    ensures Options(Bare(r), names) == Options(r, names)
  {
    forall i | 0 <= i < |names|
      ensures Plans.Cell(Bare(r), "option:" + names[i]) == Plans.Cell(r, "option:" + names[i])
    {
      assert ("option:" + names[i])[0] == 'o';
    }
  }

  lemma BareKey(r: Row)
    requires Trim(Plans.Cell(r, "title")) != ""
    ensures Plans.GroupKey(Bare(r)) == Plans.GroupKey(r)
  {
    BareReads(r);
    TitledKey(r);
    TitledKey(Bare(r));
    hide Plans.GroupKey, Trim, TitleKey, RowFields, Bare;
  }

  /** A bare row of a complete row's title would have been created. */
  lemma BareCreated(w: Work, r: Row, plan: Plan)
    requires Constrained(w.tables) && Plans.GroupKey(r) !in w.products && Complete(w.tables, r, plan)
    ensures Tried(w.tables, w.products, Bare(r), plan).outcome == Outcome.Created
  {
    BareReads(r);
    BareOptions(r, plan.names);
    BareKey(r);
    hide Plans.GroupKey, Trim, RowFields, Bare, Options, FirstBlank, Fresh, Constrained, Holder;
    var f := RowFields(Bare(r)).value;
    LostFresh(w.tables, w.products, Bare(r), f, plan);
    FreshEnds(w.tables, w.products, Bare(r), f, plan);
    assert Checks(Wanted(w.tables.nextId, Bare(r), f, plan));
  }

  lemma FreshEnds(t: Tables, products: map<string, Id>, r: Row, f: Fields, plan: Plan)
    ensures var a := Fresh(t, products, r, f, plan);
            && (a.outcome.Failed? || a.outcome == Outcome.Created)
            && (Plans.GroupKey(r) !in products && a.products == products ==> a.tables == t && a.outcome.Failed?)
            && (Trim(Plans.Cell(r, "title")) != "" && FirstBlank(Options(r, plan.names), 0) == |plan.names| ==>
                  Plans.GroupKey(r) in a.products)
  {
    hide Plans.GroupKey, Trim, FirstBlank, Refusal, Slugs.FreeSlug, NewVariant;
  }

  /** No row of a lost title becomes a variant: it updates a SKU or it fails. */
  lemma LostCreatesNone(w: Work, r: Row, plan: Plan)
    requires Lost(w, Plans.GroupKey(r))
    ensures Tried(w.tables, w.products, r, plan).outcome != Outcome.Created
  {
    hide Plans.GroupKey, Trim, Options, FirstBlank, RowFields, Checks, SaleBelowRegular, SaleWindow, SameSku, SameCell;
  }

  lemma FailedLeaves(w: Work, r: Row, plan: Plan)
    requires Plans.GroupKey(r) !in w.products && Tried(w.tables, w.products, r, plan).outcome.Failed?
    requires RowDone(w, r, plan).products == w.products
    ensures RowDone(w, r, plan).tables == w.tables
  {
    hide Plans.GroupKey, Fresh, RowFields, Existing;
    if RowFields(r).Ok? {
      FreshEnds(w.tables, w.products, r, RowFields(r).value, plan);
    }
  }

  lemma LostIsRemembered(w: Work, r: Row, plan: Plan)
    requires Constrained(w.tables) && Plans.GroupKey(r) !in w.products
    requires Tried(w.tables, w.products, r, plan).outcome.Failed?
    ensures Lost(RowDone(w, r, plan), Plans.GroupKey(r)) <==> RowDone(w, r, plan).products != w.products
  {
    RowProducts(w, r, plan);
    hide Tried, Plans.GroupKey, TitleKey;
    assert w.tables.nextId !in w.tables.products;
  }

  /** A failed first row of a title fails alone -- every row after it fares as it
      would have without it -- unless it was complete and only its amounts were
      wrong. Then its title is lost to the batch. */
  lemma FailsAloneExactlyWhen(w: Work, r: Row, plan: Plan)
    requires Constrained(w.tables) && Plans.GroupKey(r) !in w.products
    requires Tried(w.tables, w.products, r, plan).outcome.Failed?
    ensures var u := RowDone(w, r, plan);
            (forall next :: Tried(u.tables, u.products, next, plan).outcome
                            == Tried(w.tables, w.products, next, plan).outcome) <==>
            !(Complete(w.tables, r, plan) && !Checks(Wanted(w.tables.nextId, r, RowFields(r).value, plan)))
  {
    var u := RowDone(w, r, plan);
    LostExactlyWhen(w, r, plan);
    LostIsRemembered(w, r, plan);
    if u.products == w.products {
      FailedLeaves(w, r, plan);
    } else if Complete(w.tables, r, plan) {
      BareCreated(w, r, plan);
      BareKey(r);
      LostCreatesNone(u, Bare(r), plan);
    }
    hide RowDone, Tried, Plans.GroupKey, Complete, Checks, Wanted, RowFields, Constrained;
  }

  // -------------------------------------------------------------- an instance

  /** A shirt on sale for more than it costs. */
  function Dear(line: nat): Row {
    Plans.Row(line, [], map["title" := "Tee", "regular_price" := "1", "sale_price" := "2"])
  }

  function Untouched(): Tables {
    Tables(map[], map[], 0)
  }

  function Plain(): Plan {
    Plan([], false, title => "tee")
  }

  function Opening(): Work {
    Work(Untouched(), map[], Tally(0, 0, []))
  }

  lemma DearReads(line: nat)
    ensures RowFields(Dear(line)) ==
            Ok(Fields(None, false, None, false, Some(100), Some(200), false, None, false, None, false, None))
  {
    Rupiah.OneDigit('1');
    Rupiah.OneDigit('2');
    hide Rupiah.ParseRupiah;
  }

  lemma TeeTrims()
    ensures Trim("Tee") == "Tee"
  {
  }

  lemma DearIsComplete(line: nat)
    ensures Complete(Untouched(), Dear(line), Plain()) && Plans.GroupKey(Dear(line)) == TitleKey("Tee")
    ensures !Checks(Wanted(0, Dear(line), RowFields(Dear(line)).value, Plain()))
    ensures Trim(Plans.Cell(Dear(line), "title")) == "Tee"
  {
    DearReads(line);
    TeeTrims();
    TitledKey(Dear(line));
    hide RowFields, Trim, TitleKey, Plans.GroupKey;
  }

  /** Alone in its batch the second row makes a product; after the first, neither
      row makes one. */
  lemma BadRowTakesItsTitle()
    ensures RowsDone(Opening(), [Bare(Dear(2))], Plain()).tally.created == 1
    ensures var w := RowsDone(Opening(), [Dear(1), Bare(Dear(2))], Plain()); w.tally.created == 0 && |w.tally.errors| == 2
  {
    hide RowFields, Trim, TitleKey, Plans.GroupKey, Complete, Wanted, Checks, Bare, Plain, Dear, RowDone, Tried, Lost;
    var w, r, b := Opening(), Dear(1), Bare(Dear(2));
    OpensLawfully();
    DearIsComplete(1);
    DearIsComplete(2);
    BareCreated(w, Dear(2), Plain());
    BareKey(Dear(2));
    LostExactlyWhen(w, r, Plain());
    LostTried(w.tables, w.products, r, Plain());
    LostCreatesNone(RowDone(w, r, Plain()), b, Plain());
    OneRow(w, b, Plain());
    OneRow(w, r, Plain());
    Tallies(w, r, Plain());
    Tallies(w, b, Plain());
    Tallies(RowDone(w, r, Plain()), b, Plain());
    BareNotUpdated(RowDone(w, r, Plain()), Dear(2), Plain());
    assert [r, b][..1] == [r];
  }

  lemma BareNotUpdated(w: Work, r: Row, plan: Plan)
    ensures Tried(w.tables, w.products, Bare(r), plan).outcome != Outcome.Updated
  {
    hide Bare, RowFields, Fresh;
    BareReads(r);
    FreshEnds(w.tables, w.products, Bare(r), RowFields(Bare(r)).value, plan);
  }

  lemma OpensLawfully()
    ensures Constrained(Opening().tables)
  {
  }

  lemma Tallies(w: Work, r: Row, plan: Plan)
    ensures var tally := RowDone(w, r, plan).tally;
            match Tried(w.tables, w.products, r, plan).outcome
            case Created => tally == w.tally.(created := w.tally.created + 1)
            case Updated => tally == w.tally.(updated := w.tally.updated + 1)
            case Failed(e) => tally == w.tally.(errors := w.tally.errors + [(r.line, e)])
  {
    hide Tried;
  }

  lemma OneRow(w: Work, r: Row, plan: Plan)
    ensures RowsDone(w, [r], plan) == RowDone(w, r, plan)
  {
    hide RowDone;
    assert [r][..0] == [];
  }
}
