/** One batch of an import: each row under its own savepoint, the products a
    batch creates remembered by title, and a tally that grows row by row. */
module ImportRows {
  import opened Base
  import opened Catalog
  import opened Texts
  import Decimal
  import ImportPlan
  import Rupiah
  import Slugs

  type Row = ImportPlan.Row

  /** What a job says about every row: the option columns, whether a SKU already
      held is a conflict, and the database's slugify. */
  datatype Plan = Plan(names: seq<string>, refuse: bool, slugify: string -> string)

  datatype Tally = Tally(created: nat, updated: nat, errors: seq<(nat, Fault)>)

  datatype Outcome = Created | Updated | Failed(fault: Fault)

  /** A batch at work: the tables as its transaction sees them, the products it
      has created, by title, and the tally. */
  datatype Work = Work(tables: Tables, products: map<string, Id>, tally: Tally)

  /** What a row leaves before its savepoint decides. */
  datatype Attempt = Attempt(tables: Tables, products: map<string, Id>, outcome: Outcome)

  // --------------------------------------------------------------- a row

  function StripGrams(s: string): string {
    if s == "" then ""
    else (if s[0] in {'.', ',', ' ', 'g'} then "" else [s[0]]) + StripGrams(s[1..])
  }

  function ParseGrams(s: string): Option<int> {
    match Rupiah.ParseInt(StripGrams(s))
    case Some(n) => if 0 <= n < 0x8000_0000 then Some(n) else None
    case None => None
  }

  /** An optional cell: empty is not sent, anything else must read. */
  function Reading(cell: string, parsed: Option<int>): Result<Option<int>, ()> {
    if cell == "" then Ok(None) else if parsed.None? then Err(()) else Ok(parsed)
  }

  function RowFields(r: Row): Result<Fields, Fault> {
    var regular := ImportPlan.Cell(r, "regular_price");
    var sale := ImportPlan.Cell(r, "sale_price");
    var weight := ImportPlan.Cell(r, "weight_grams");
    var barcode := ImportPlan.Cell(r, "barcode");
    var sku := ImportPlan.Cell(r, "sku");
    var a := Reading(regular, Rupiah.ParseRupiah(regular));
    var b := Reading(sale, Rupiah.ParseRupiah(sale));
    var c := Reading(weight, ParseGrams(weight));
    if a.Err? then Err(BadField("regular_price"))
    else if b.Err? then Err(BadField("sale_price"))
    else if c.Err? then Err(BadField("weight_grams"))
    else
      Ok(Fields(if sku != "" then Some(sku) else None, false,
                if barcode != "" then Some(barcode) else None, false,
                a.value, b.value, false, None, false, None, false, c.value))
  }

  /** A row whose SKU the catalog already has. */
  function Existing(t: Tables, id: Id, f: Fields, refuse: bool): Result<Tables, Fault>
    requires id in t.variants
  {
    var v := t.variants[id];
    if refuse then
      Err(DuplicateSku(if v.product in t.products then Some(t.products[v.product].title) else None))
    else if v.archived then Err(BadField("sku"))
    else Put(t, id, Catalog.Updated(v, f))
  }

  function Options(r: Row, names: seq<string>): seq<string> {
    seq(|names|, i requires 0 <= i < |names| => ImportPlan.Cell(r, "option:" + names[i]))
  }

  function FirstBlank(options: seq<string>, i: nat): nat
    requires i <= |options|
    ensures i <= FirstBlank(options, i) <= |options|
    decreases |options| - i
  {
    if i == |options| || Blank(options[i]) then i else FirstBlank(options, i + 1)
  }

  function SlugsOf(t: Tables): set<string> {
    set p | p in t.products :: t.products[p].slug
  }

  /** CreateProduct, and the option axes when the file has any. */
  function WithProduct(t: Tables, title: string, plan: Plan): Tables {
    var slug := Slugs.FreeSlug(SlugsOf(t), plan.slugify(title));
    var p := Product(title, slug, plan.names, false, if |plan.names| > 0 then 2 else 1);
    t.(products := t.products[t.nextId := p], nextId := t.nextId + 1)
  }

  /** A row that is to become a new variant of its title's product. */
  function Fresh(t: Tables, products: map<string, Id>, r: Row, f: Fields, plan: Plan): Attempt {
    var title := Trim(ImportPlan.Cell(r, "title"));
    var options := Options(r, plan.names);
    var blank := FirstBlank(options, 0);
    var key := ImportPlan.GroupKey(r);
    if title == "" then Attempt(t, products, Failed(BadField("title")))
    else if blank < |options| then Attempt(t, products, Failed(BadField("option:" + plan.names[blank])))
    else
      var known := key in products;
      var made := if known then t else WithProduct(t, title, plan);
      var id := if known then products[key] else t.nextId;
      Inserted(made, products[key := id], NewVariant(id, options, f))
  }

  /** The variant's INSERT; its id is drawn before it is refused. */
  function Inserted(t: Tables, products: map<string, Id>, v: Variant): Attempt {
    match Insert(t, v)
    case Ok(u) => Attempt(u, products, Created)
    case Err(e) => Attempt(t.(nextId := t.nextId + 1), products, Failed(e))
  }

  function Tried(t: Tables, products: map<string, Id>, r: Row, plan: Plan): Attempt {
    match RowFields(r)
    case Err(e) => Attempt(t, products, Failed(e))
    case Ok(f) =>
      var held := if f.sku.Some? then Holder(t, f.sku.value) else None;
      if held.Some? then
        match Existing(t, held.value, f, plan.refuse)
        case Ok(u) => Attempt(u, products, Updated)
        case Err(e) => Attempt(t, products, Failed(e))
      else Fresh(t, products, r, f, plan)
  }

  /** The savepoint: a failed row leaves the tables as they were, but the ids it
      drew are gone and the products it named stay remembered. */
  function RowDone(w: Work, r: Row, plan: Plan): Work {
    var a := Tried(w.tables, w.products, r, plan);
    match a.outcome
    case Created => Work(a.tables, a.products, w.tally.(created := w.tally.created + 1))
    case Updated => Work(a.tables, a.products, w.tally.(updated := w.tally.updated + 1))
    case Failed(e) =>
      Work(w.tables.(nextId := a.tables.nextId), a.products, w.tally.(errors := w.tally.errors + [(r.line, e)]))
  }

  function RowsDone(w: Work, rows: seq<Row>, plan: Plan): Work {
    if rows == [] then w
    else RowDone(RowsDone(w, rows[..|rows| - 1], plan), rows[|rows| - 1], plan)
  }

  /** A batch starts with no products remembered. */
  function BatchDone(t: Tables, tally: Tally, rows: seq<Row>, plan: Plan): (Tables, Tally) {
    var w := RowsDone(Work(t, map[], tally), rows, plan);
    (w.tables, w.tally)
  }
}
