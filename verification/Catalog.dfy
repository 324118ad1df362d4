/** The products and variants tables with their constraints, and the writes to
    one variant that the admin, the matrix editor and the import share. */
module Catalog {
  import opened Base

  type Id = nat

  datatype Product = Product(title: string, slug: string, optionNames: seq<string>, archived: bool, version: int)

  datatype Variant = Variant(
    product: Id,
    sku: Option<string>,
    barcode: Option<string>,
    options: seq<string>,
    regular: int,
    sale: Option<int>,
    saleStarts: Option<int>,
    saleEnds: Option<int>,
    weight: int,
    archived: bool,
    version: int)

  /** Ids are time-ordered UUIDs: each is larger than those drawn before it. */
  datatype Tables = Tables(products: map<Id, Product>, variants: map<Id, Variant>, nextId: Id)

  /** What a client may write of a variant: absent is "not sent", a clear flag
      is an explicit null. */
  datatype Fields = Fields(
    sku: Option<string>, clearSku: bool,
    barcode: Option<string>, clearBarcode: bool,
    regular: Option<int>,
    sale: Option<int>, clearSale: bool,
    saleStarts: Option<int>, clearStarts: bool,
    saleEnds: Option<int>, clearEnds: bool,
    weight: Option<int>)

  datatype Fault =
    | DuplicateSku(holder: Option<string>)
    | BadField(name: string)
    | NoSuchProduct
    | NotFound
    | VersionConflict

  function OrElse<T>(a: Option<T>, b: T): T {
    match a case Some(x) => x case None => b
  }

  /** createParams: amounts that were not sent are zero. */
  function NewVariant(product: Id, options: seq<string>, f: Fields): Variant {
    Variant(product, f.sku, f.barcode, options, OrElse(f.regular, 0), f.sale, f.saleStarts, f.saleEnds,
            OrElse(f.weight, 0), false, 1)
  }

  /** A nullable column after an update: set when sent or cleared, to what was sent. */
  function Column<T>(sent: Option<T>, clear: bool, was: Option<T>): Option<T> {
    if sent.Some? || clear then sent else was
  }

  /** The columns of updateParams through UpdateVariant, the version aside. */
  function Written(v: Variant, f: Fields): Variant {
    v.(sku := Column(f.sku, f.clearSku, v.sku),
       barcode := Column(f.barcode, f.clearBarcode, v.barcode),
       regular := OrElse(f.regular, v.regular),
       sale := Column(f.sale, f.clearSale, v.sale),
       saleStarts := Column(f.saleStarts, f.clearStarts, v.saleStarts),
       saleEnds := Column(f.saleEnds, f.clearEnds, v.saleEnds),
       weight := OrElse(f.weight, v.weight))
  }

  function Updated(v: Variant, f: Fields): Variant {
    Written(v, f).(version := v.version + 1)
  }

  // ---------------------------------------------------------- constraints

  predicate SaleBelowRegular(v: Variant) {
    v.sale.Some? ==> 0 <= v.sale.value < v.regular
  }

  predicate SaleWindow(v: Variant) {
    v.saleStarts.Some? && v.saleEnds.Some? ==> v.saleEnds.value > v.saleStarts.value
  }

  predicate Checks(v: Variant) {
    v.regular >= 0 && SaleBelowRegular(v) && SaleWindow(v) && v.weight >= 0
  }

  predicate SameSku(a: Variant, b: Variant) {
    a.sku.Some? && a.sku == b.sku
  }

  /** Both live, of one product and with the same option values. */
  predicate SameCell(a: Variant, b: Variant) {
    !a.archived && !b.archived && a.product == b.product && a.options == b.options
  }

  ghost predicate Constrained(t: Tables) {
    && (forall i :: i in t.variants ==> Checks(t.variants[i]) && t.variants[i].product in t.products)
    && (forall i, j :: i in t.variants && j in t.variants && i != j ==> !SameSku(t.variants[i], t.variants[j]))
    && (forall i, j :: i in t.variants && j in t.variants && i != j ==> !SameCell(t.variants[i], t.variants[j]))
    && (forall p, q :: p in t.products && q in t.products && p != q ==> t.products[p].slug != t.products[q].slug)
    && (forall i :: i in t.variants ==> i < t.nextId)
    && (forall p :: p in t.products ==> p < t.nextId)
  }

  /** Which constraint refuses row v under id: column checks by name, then the
      unique indexes, then the foreign key. */
  function Refusal(t: Tables, id: Id, v: Variant): Option<Fault> {
    if v.regular < 0 then Some(BadField("regular_price"))
    else if !SaleBelowRegular(v) then Some(BadField("sale_price"))
    else if !SaleWindow(v) then Some(BadField("sale_ends_at"))
    else if v.weight < 0 then Some(BadField("weight_grams"))
    else if exists j :: j in t.variants && j != id && SameSku(t.variants[j], v) then Some(DuplicateSku(None))
    else if exists j :: j in t.variants && j != id && SameCell(t.variants[j], v) then Some(BadField("option_values"))
    else if v.product !in t.products then Some(NoSuchProduct)
    else None
  }

  function Put(t: Tables, id: Id, v: Variant): Result<Tables, Fault> {
    match Refusal(t, id, v)
    case Some(e) => Err(e)
    case None => Ok(t.(variants := t.variants[id := v]))
  }

  /** An INSERT draws its id first; a refused one has used it up. */
  function Insert(t: Tables, v: Variant): Result<Tables, Fault> {
    Put(t.(nextId := t.nextId + 1), t.nextId, v)
  }

  /** VariantBySKU and SKUHolder: the variant holding a SKU, live or archived.
      The unique index leaves no choice; the oldest is as good as any. */
  function Holder(t: Tables, sku: string, from: Id := 0): (r: Option<Id>)
    ensures r.Some? ==> r.value in t.variants && t.variants[r.value].sku == Some(sku)
    ensures r.None? ==> forall i :: from <= i < t.nextId && i in t.variants ==> t.variants[i].sku != Some(sku)
    decreases t.nextId - from
  {
    if from >= t.nextId then None
    else if from in t.variants && t.variants[from].sku == Some(sku) then Some(from)
    else Holder(t, sku, from + 1)
  }

  predicate Taken(t: Tables, id: Id, v: Variant) {
    exists j :: j in t.variants && j != id && (SameSku(t.variants[j], v) || SameCell(t.variants[j], v))
  }

  lemma AcceptedIff(t: Tables, id: Id, v: Variant)
    ensures Put(t, id, v).Ok? <==> Checks(v) && v.product in t.products && !Taken(t, id, v)
  {
    hide SameSku, SameCell;
  }

  lemma PutConstrained(t: Tables, id: Id, v: Variant)
    requires Constrained(t) && id < t.nextId && Checks(v) && v.product in t.products && !Taken(t, id, v)
    ensures Constrained(t.(variants := t.variants[id := v]))
  {
    hide Checks;
    var u := t.(variants := t.variants[id := v]);
    forall i, j | i in u.variants && j in u.variants && i != j
      ensures !SameSku(u.variants[i], u.variants[j]) && !SameCell(u.variants[i], u.variants[j])
    {
      assert i == id ==> !SameSku(t.variants[j], v) && !SameCell(t.variants[j], v);
    }
  }

  /** A write is refused exactly when the tables after it would break a
      constraint. */
  lemma RefusedIffBroken(t: Tables, id: Id, v: Variant)
    requires Constrained(t) && id < t.nextId
    ensures Put(t, id, v).Ok? <==> Constrained(t.(variants := t.variants[id := v]))
  {
    var u := t.(variants := t.variants[id := v]);
    AcceptedIff(t, id, v);
    if Put(t, id, v).Ok? {
      PutConstrained(t, id, v);
    } else {
      hide Put, Refusal, Checks;
      assert u.variants[id] == v;
      if Taken(t, id, v) {
        var j :| j in t.variants && j != id && (SameSku(t.variants[j], v) || SameCell(t.variants[j], v));
        assert u.variants[j] == t.variants[j];
      }
    }
  }
}
