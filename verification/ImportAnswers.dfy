/** What becomes of a row of an import: of a SKU the catalog has, under either policy for
    conflicts, and of one it does not have, cell by cell. */
module ImportAnswers {
  import opened Base
  import opened Catalog
  import opened ImportRows
  import opened ImportLaws
  import opened ImportRuns
  import opened ImportTheorems
  import opened ImportOverlaps
  import opened Texts
  import opened Decimal
  import Rupiah
  import Slugs
  import Plans = ImportPlan

  // --------------------------------------------------------- the constraints

  /** What the tables' constraints say, column by column. */
  ghost predicate Lawful(t: Tables) {
    && (forall i :: i in t.variants ==>
          var v := t.variants[i];
          && v.product in t.products && i < t.nextId && 0 <= v.regular && 0 <= v.weight
          && (v.sale != None ==> 0 <= v.sale.value && v.sale.value < v.regular)
          && (v.saleStarts != None && v.saleEnds != None ==> v.saleStarts.value < v.saleEnds.value))
    && (forall i, j :: i in t.variants && j in t.variants && i != j ==>
          var v, w := t.variants[i], t.variants[j];
          && (v.sku != None ==> v.sku != w.sku)
          && !(v.product == w.product && v.options == w.options && !v.archived && !w.archived))
    && (forall p :: p in t.products ==> p < t.nextId)
    && forall p, q :: p in t.products && q in t.products && p != q ==> t.products[p].slug != t.products[q].slug
  }

  lemma ConstraintsAre(t: Tables)
    ensures Constrained(t) <==> Lawful(t)
  {
    assert forall i :: i in t.variants ==>
      (Checks(t.variants[i]) <==>
         var v := t.variants[i];
         && 0 <= v.regular && 0 <= v.weight && (v.sale != None ==> 0 <= v.sale.value < v.regular)
         && (v.saleStarts != None && v.saleEnds != None ==> v.saleStarts.value < v.saleEnds.value));
    hide Checks;
  }

  // ------------------------------------------------------------------- cells

  function Amount(r: Row, column: string): Option<int> {
    Rupiah.ParseRupiah(Plans.Cell(r, column))
  }

  function Grams(r: Row): Option<int> {
    ParseGrams(Plans.Cell(r, "weight_grams"))
  }

  /** Every amount that is in the row can be read. */
  predicate Readable(r: Row) {
    && (Plans.Cell(r, "regular_price") == "" || Amount(r, "regular_price") != None)
    && (Plans.Cell(r, "sale_price") == "" || Amount(r, "sale_price") != None)
    && (Plans.Cell(r, "weight_grams") == "" || Grams(r) != None)
  }

  function Text(r: Row, column: string, otherwise: Option<string>): Option<string> {
    if Plans.Cell(r, column) == "" then otherwise else Some(Plans.Cell(r, column))
  }

  function Sum(r: Row, column: string, otherwise: Option<int>): Option<int> {
    if Plans.Cell(r, column) == "" then otherwise else Amount(r, column)
  }

  function Weight(r: Row, otherwise: int): int
    requires Readable(r)
  {
    if Plans.Cell(r, "weight_grams") == "" then otherwise else Grams(r).value
  }

  /** The variant with the cells that are filled in written over it. */
  function Rewritten(v: Variant, r: Row): Variant
    requires Readable(r)
  {
    v.(sku := Text(r, "sku", v.sku), barcode := Text(r, "barcode", v.barcode),
       regular := Sum(r, "regular_price", Some(v.regular)).value, sale := Sum(r, "sale_price", v.sale),
       weight := Weight(r, v.weight), version := v.version + 1)
  }

  /** A new variant with nothing but the cells of the row. */
  function FromCells(product: Id, r: Row, names: seq<string>): Variant
    requires Readable(r)
  {
    Variant(product, Text(r, "sku", None), Text(r, "barcode", None), CellsOf(r, names), Sum(r, "regular_price", Some(0)).value,
            Sum(r, "sale_price", None), None, None, Weight(r, 0), false, 1)
  }

  function CellsOf(r: Row, names: seq<string>): seq<string> {
    seq(|names|, i requires 0 <= i < |names| => Plans.Cell(r, "option:" + names[i]))
  }

  /** The first amount that cannot be read is what a row is refused for. */
  lemma ReadsExactly(r: Row)
    ensures match RowFields(r)
            case Ok(f) =>
              && Readable(r) && f.sku == Text(r, "sku", None)
              && (forall v: Variant :: Catalog.Updated(v, f) == Rewritten(v, r))
              && forall p: Id, names: seq<string> :: NewVariant(p, CellsOf(r, names), f) == FromCells(p, r, names)
            case Err(e) =>
              && !Readable(r)
              && e == BadField(if Plans.Cell(r, "regular_price") != "" && Amount(r, "regular_price") == None then "regular_price"
                               else if Plans.Cell(r, "sale_price") != "" && Amount(r, "sale_price") == None then "sale_price"
                               else "weight_grams")
  {
    hide Rupiah.ParseRupiah, ParseGrams, Plans.Cell;
  }

  // ------------------------------------------------------------ a known SKU

  /** The row fails for this reason and leaves the tables as they were. */
  predicate FailsFor(w: Work, u: Work, r: Row, why: Fault) {
    && u.tables.products == w.tables.products && u.tables.variants == w.tables.variants
    && u.tally == w.tally.(errors := w.tally.errors + [(r.line, why)])
  }

  lemma HolderIs(t: Tables, id: Id, sku: string)
    requires Constrained(t) && id in t.variants && t.variants[id].sku == Some(sku)
    ensures Holder(t, sku) == Some(id)
  {
    assert id < t.nextId;
    var h := Holder(t, sku);
    assert h.Some? && (h.value != id ==> !SameSku(t.variants[h.value], t.variants[id]));
    hide Constrained;
  }

  lemma RewrittenFault(t: Tables, id: Id, v: Variant)
    requires Constrained(t) && id in t.variants && v.sku == t.variants[id].sku
    ensures Put(t, id, v).Err? ==> !Put(t, id, v).error.DuplicateSku?
  {
    forall j | j in t.variants && j != id ensures !SameSku(t.variants[j], v) {
      assert !SameSku(t.variants[j], t.variants[id]);
    }
    hide Constrained, Checks;
  }

  /** A readable row whose SKU a variant holds. When conflicts are errors it fails, naming
      the product that has the SKU. Else an archived holder fails it; and a live one ends
      updated, with the cells written over it, exactly when the tables are lawful after
      that -- and never fails for its SKU. Nothing else is touched in any case. */
  lemma KnownSkuDecides(w: Work, r: Row, plan: Plan, id: Id)
    requires Constrained(w.tables) && Readable(r) && Plans.Cell(r, "sku") != ""
    requires id in w.tables.variants && w.tables.variants[id].sku == Some(Plans.Cell(r, "sku"))
    ensures w.tables.variants[id].product in w.tables.products
    ensures var u, v := RowDone(w, r, plan), w.tables.variants[id];
            var written := w.tables.(variants := w.tables.variants[id := Rewritten(v, r)]);
            && u.products == w.products
            && if plan.refuse then FailsFor(w, u, r, DuplicateSku(Some(w.tables.products[v.product].title)))
               else if v.archived then FailsFor(w, u, r, BadField("sku"))
               else if Lawful(written) then u.tables == written && u.tally == w.tally.(updated := w.tally.updated + 1)
               else exists why: Fault :: FailsFor(w, u, r, why) && !why.DuplicateSku?
  {
    ReadsExactly(r);
    HolderIs(w.tables, id, Plans.Cell(r, "sku"));
    var v := w.tables.variants[id];
    assert id < w.tables.nextId;
    ConstraintsAre(w.tables.(variants := w.tables.variants[id := Rewritten(v, r)]));
    RefusedIffBroken(w.tables, id, Rewritten(v, r));
    RewrittenFault(w.tables, id, Rewritten(v, r));
    PutWrites(w.tables, id, Rewritten(v, r));
    hide Constrained, RowFields, Rewritten, Readable, Fresh, Put, Plans.Cell, Lawful, Catalog.Updated;
    var f := RowFields(r).value;
    assert Tried(w.tables, w.products, r, plan) ==
      match Existing(w.tables, id, f, plan.refuse)
      case Ok(t) => Attempt(t, w.products, Outcome.Updated)
      case Err(e) => Attempt(w.tables, w.products, Failed(e));
    hide Tried;
    if Existing(w.tables, id, f, plan.refuse).Err? {
      assert FailsFor(w, RowDone(w, r, plan), r, Existing(w.tables, id, f, plan.refuse).error);
    }
  }

  lemma PutWrites(t: Tables, id: Id, v: Variant)
    ensures Put(t, id, v).Ok? ==> Put(t, id, v).value == t.(variants := t.variants[id := v])
  {
    hide Refusal;
  }

  // ------------------------------------------------- conflicts are errors

  /** Every variant of t is in u, exactly as it was. */
  ghost predicate AsTheyWere(t: Tables, u: Tables) {
    t.nextId <= u.nextId && forall i :: i in t.variants ==> i in u.variants && u.variants[i] == t.variants[i]
  }

  lemma InsertAdds(t: Tables, v: Variant)
    requires t.nextId !in t.variants
    ensures Insert(t, v).Ok? ==> AsTheyWere(t, Insert(t, v).value)
  {
    PutWrites(t.(nextId := t.nextId + 1), t.nextId, v);
    hide Put;
  }

  lemma FreshAdds(t: Tables, products: map<string, Id>, r: Row, f: Fields, plan: Plan)
    requires Constrained(t)
    ensures AsTheyWere(t, Fresh(t, products, r, f, plan).tables)
  {
    assert t.nextId !in t.variants && t.nextId + 1 !in t.variants;
    hide Constrained, Insert, Plans.GroupKey, Trim, Options, NewVariant, FirstBlank, Slugs.FreeSlug;
    var key := Plans.GroupKey(r);
    var made := if key in products then t else WithProduct(t, Trim(Plans.Cell(r, "title")), plan);
    var id := if key in products then products[key] else t.nextId;
    InsertAdds(made, NewVariant(id, Options(r, plan.names), f));
  }

  /** When conflicts are errors no row touches a variant that is there. */
  lemma RefusingRowAdds(w: Work, r: Row, plan: Plan)
    requires Constrained(w.tables) && plan.refuse
    ensures AsTheyWere(w.tables, RowDone(w, r, plan).tables)
  {
    RowKeeps(w, r, plan);
    hide Constrained, RowFields, Fresh;
    var fields := RowFields(r);
    if fields.Ok? {
      FreshAdds(w.tables, w.products, r, fields.value, plan);
    }
  }

  lemma {:induction false} RefusingRowsAdd(w: Work, rows: seq<Row>, plan: Plan)
    requires Constrained(w.tables) && plan.refuse
    ensures AsTheyWere(w.tables, RowsDone(w, rows, plan).tables)
  {
    hide Constrained, RowDone;
    if rows != [] {
      var n := |rows| - 1;
      RefusingRowsAdd(w, rows[..n], plan);
      RowsKeep(w, rows[..n], plan);
      RefusingRowAdds(RowsDone(w, rows[..n], plan), rows[n], plan);
    }
  }

  lemma StepTables(w: World, e: Event, f: File)
    ensures !e.Edit? && !Commits(w, e, f) ==> Step(w, e, f).tables == w.tables
    ensures Commits(w, e, f) ==>
              Ready(w, e.h, f) &&
              Step(w, e, f).tables == BatchDone(w.tables, w.handlers[e.h].tally, Part(f, w.handlers[e.h].next), f.plan).0
  {
    hide BatchDone, Part, Spans, Skips;
  }

  lemma BatchIsLawful(t: Tables, y: Tally, rows: seq<Row>, plan: Plan)
    requires Constrained(t)
    ensures Constrained(BatchDone(t, y, rows, plan).0)
    ensures plan.refuse ==> AsTheyWere(t, BatchDone(t, y, rows, plan).0)
  {
    hide Constrained, RowsDone;
    RowsKeep(Work(t, map[], y), rows, plan);
    if plan.refuse {
      RefusingRowsAdd(Work(t, map[], y), rows, plan);
    }
  }

  /** Over any run of an import whose conflicts are errors, overlapping or not, with
      nobody else writing: every variant there was is there exactly as it was. */
  lemma {:induction false} RefusingImportTouchesNothing(w: World, events: seq<Event>, f: File)
    requires Constrained(w.tables) && f.plan.refuse && NoEdits(events)
    ensures var u := Run(w, events, f).tables;
            && Constrained(u)
            && forall i :: i in w.tables.variants ==> i in u.variants && u.variants[i] == w.tables.variants[i]
  {
    hide Constrained, Step, Commits, BatchDone, Part, Spans;
    if events != [] {
      var n := |events| - 1;
      var u := Run(w, events[..n], f);
      RefusingImportTouchesNothing(w, events[..n], f);
      StepTables(u, events[n], f);
      if Commits(u, events[n], f) {
        BatchIsLawful(u.tables, u.handlers[events[n].h].tally, Part(f, u.handlers[events[n].h].next), f.plan);
      }
    }
  }

  // -------------------------------------------------------------- a new SKU

  /** The product a title's first row makes. */
  function MadeProduct(t: Tables, r: Row, plan: Plan): Product {
    Product(Trim(Plans.Cell(r, "title")), Slugs.FreeSlug(SlugsOf(t), plan.slugify(Trim(Plans.Cell(r, "title")))), plan.names, false,
            if plan.names == [] then 1 else 2)
  }

  /** The tables and the product a row's variant goes to: the title's, made if need be. */
  function Home(w: Work, r: Row, plan: Plan): (Tables, Id) {
    var key, t := Plans.GroupKey(r), w.tables;
    if key in w.products then (t, w.products[key])
    else (t.(products := t.products[t.nextId := MadeProduct(t, r, plan)], nextId := t.nextId + 1), t.nextId)
  }

  predicate IsBlank(s: string) {
    Trim(s) == ""
  }

  lemma TrimBlank(s: string)
    ensures Trim(s) == "" <==> Blank(s)
  {
    TrimLeftBlank(s);
    TrimRightBlank(TrimLeft(s));
  }

  lemma {:induction false} TrimLeftBlank(s: string)
    ensures Blank(s) ==> TrimLeft(s) == ""
    ensures !Blank(s) ==> !Blank(TrimLeft(s))
  {
    if s != "" {
      assert s == [s[0]] + s[1..];
      TrimLeftBlank(s[1..]);
    }
  }

  lemma {:induction false} TrimRightBlank(s: string)
    ensures TrimRight(s) == "" <==> Blank(s)
  {
    if s != "" {
      assert s == s[..|s| - 1] + [s[|s| - 1]];
      TrimRightBlank(s[..|s| - 1]);
    }
  }

  lemma {:induction false} FirstBlankIs(options: seq<string>, i: nat)
    requires i <= |options|
    ensures var k := FirstBlank(options, i);
            && i <= k <= |options| && (forall j :: i <= j < k ==> !IsBlank(options[j])) && (k < |options| ==> IsBlank(options[k]))
    decreases |options| - i
  {
    if i < |options| {
      TrimBlank(options[i]);
      hide Trim;
      if !Blank(options[i]) {
        FirstBlankIs(options, i + 1);
      }
    }
  }

  lemma OptionsAre(r: Row, names: seq<string>)
    ensures Options(r, names) == CellsOf(r, names)
  {
  }

  /** A readable row of a SKU nobody holds, or of none. It fails without a title or with an
      option left empty; else it ends created, as a variant of its title's product with
      just the cells of the row, exactly when the tables are lawful after that. */
  lemma NewSkuDecides(w: Work, r: Row, plan: Plan)
    requires Constrained(w.tables) && Readable(r)
    requires Plans.Cell(r, "sku") != "" ==> forall i :: i in w.tables.variants ==> w.tables.variants[i].sku != Some(Plans.Cell(r, "sku"))
    ensures var u := RowDone(w, r, plan);
            var cells := CellsOf(r, plan.names);
            var (t, product) := Home(w, r, plan);
            var written := t.(variants := t.variants[t.nextId := FromCells(product, r, plan.names)], nextId := t.nextId + 1);
            if IsBlank(Plans.Cell(r, "title")) then FailsFor(w, u, r, BadField("title")) && u.products == w.products
            else if exists i :: 0 <= i < |cells| && IsBlank(cells[i]) then
              && u.products == w.products
              && exists i :: 0 <= i < |cells| && IsBlank(cells[i]) && (forall j :: 0 <= j < i ==> !IsBlank(cells[j]))
                             && FailsFor(w, u, r, BadField("option:" + plan.names[i]))
            else
              && u.products == w.products[Plans.GroupKey(r) := product]
              && if Lawful(written) then u.tables == written && u.tally == w.tally.(created := w.tally.created + 1)
                 else exists why: Fault :: FailsFor(w, u, r, why)
  {
    hide RowFields, Readable, Plans.Cell, Plans.GroupKey, Trim, Existing, Fresh, Constrained, Slugs.FreeSlug, Lawful, FromCells, NewVariant;
    ReadsExactly(r);
    var f := RowFields(r).value;
    assert f.sku.Some? ==> Holder(w.tables, f.sku.value) == None;
    var a := Fresh(w.tables, w.products, r, f, plan);
    assert Tried(w.tables, w.products, r, plan) == a;
    hide Tried;
    FreshExactly(w, r, f, plan);
    FailsAs(w, r, plan);
  }

  lemma FailsAs(w: Work, r: Row, plan: Plan)
    ensures var a := Tried(w.tables, w.products, r, plan);
            var u := RowDone(w, r, plan);
            match a.outcome
            case Failed(e) => FailsFor(w, u, r, e) && u.products == a.products
            case Created => u == Work(a.tables, a.products, w.tally.(created := w.tally.created + 1))
            case Updated => u == Work(a.tables, a.products, w.tally.(updated := w.tally.updated + 1))
  {
    hide Tried;
  }

  lemma FreshExactly(w: Work, r: Row, f: Fields, plan: Plan)
    requires Constrained(w.tables) && Readable(r) && RowFields(r) == Ok(f)
    ensures var a := Fresh(w.tables, w.products, r, f, plan);
            var cells := CellsOf(r, plan.names);
            var (t, product) := Home(w, r, plan);
            var written := t.(variants := t.variants[t.nextId := FromCells(product, r, plan.names)], nextId := t.nextId + 1);
            if IsBlank(Plans.Cell(r, "title")) then a.outcome == Failed(BadField("title")) && a.products == w.products
            else if exists i :: 0 <= i < |cells| && IsBlank(cells[i]) then
              && a.products == w.products
              && exists i :: 0 <= i < |cells| && IsBlank(cells[i]) && (forall j :: 0 <= j < i ==> !IsBlank(cells[j]))
                             && a.outcome == Failed(BadField("option:" + plan.names[i]))
            else
              && a.products == w.products[Plans.GroupKey(r) := product]
              && if Lawful(written) then a.outcome == Outcome.Created && a.tables == written else a.outcome.Failed?
  {
    hide Readable, Plans.Cell, Plans.GroupKey, Trim, Slugs.FreeSlug, FromCells, NewVariant, RowFields, Lawful, Constrained, FirstBlank;
    ReadsExactly(r);
    OptionsAre(r, plan.names);
    FirstBlankIs(Options(r, plan.names), 0);
    var (t, product) := Home(w, r, plan);
    HomeKeeps(w, r, plan);
    InsertedExactly(t, w.products[Plans.GroupKey(r) := product], FromCells(product, r, plan.names));
    hide Inserted, IsBlank, CellsOf, Options;
  }

  lemma HomeKeeps(w: Work, r: Row, plan: Plan)
    requires Constrained(w.tables)
    ensures var (t, product) := Home(w, r, plan);
            && Constrained(t)
            && (Plans.GroupKey(r) !in w.products ==> t == WithProduct(w.tables, Trim(Plans.Cell(r, "title")), plan))
  {
    ProductKeeps(w.tables, Trim(Plans.Cell(r, "title")), plan);
    hide Constrained, Slugs.FreeSlug, Trim, Plans.GroupKey, Plans.Cell;
  }

  lemma InsertedExactly(t: Tables, products: map<string, Id>, v: Variant)
    requires Constrained(t)
    ensures var a := Inserted(t, products, v);
            var written := t.(variants := t.variants[t.nextId := v], nextId := t.nextId + 1);
            && a.products == products
            && if Lawful(written) then a.outcome == Outcome.Created && a.tables == written else a.outcome.Failed?
  {
    hide Put, Lawful, Constrained;
    var drawn := t.(nextId := t.nextId + 1);
    DrawKeeps(t, t.nextId + 1);
    RefusedIffBroken(drawn, t.nextId, v);
    PutWrites(drawn, t.nextId, v);
    ConstraintsAre(drawn.(variants := drawn.variants[t.nextId := v]));
    assert drawn.(variants := drawn.variants[t.nextId := v]) == t.(variants := t.variants[t.nextId := v], nextId := t.nextId + 1);
  }

  // ------------------------------------------------------------------ grams

  lemma {:induction false} StripDigits(s: string, tail: string)
    requires AllDigits(s)
    ensures StripGrams(s + tail) == s + StripGrams(tail)
  {
    if s == "" {
      assert s + tail == tail;
    } else {
      StripDigits(s[1..], tail);
      assert (s + tail)[0] == s[0] && (s + tail)[1..] == s[1..] + tail;
      assert s == [s[0]] + s[1..];
      assert [s[0]] + (s[1..] + StripGrams(tail)) == s + StripGrams(tail);
    }
  }

  /** A weight in whole grams reads as itself, with the unit or without, as far as 32
      bits go. */
  lemma GramsRead(n: nat)
    ensures ParseGrams(Itoa(n)) == ParseGrams(Itoa(n) + " g") == if n < 0x8000_0000 then Some(n) else None
  {
    var s := Itoa(n);
    ValueOfItoa(n);
    StripDigits(s, "");
    StripDigits(s, " g");
    assert s + "" == s;
    assert StripGrams("g") == "" && StripGrams(" g") == "" && StripGrams("") == "";
    assert IsDigit(s[0]);
    hide StripGrams, Value, Itoa;
  }
}
