/** The variant matrix: one request holding the whole grid a product should
    have, each row saved under its own savepoint. */
module Matrix {
  import opened Base
  import opened Catalog
  import opened Texts

  datatype GridRow = GridRow(options: seq<string>, fields: Fields)

  datatype Status =
    | Created(id: Id)
    | Updated(id: Id)
    | Restored(id: Id)
    | Unchanged(id: Id)
    | Failed(fault: Fault)

  datatype Saved = Saved(version: int, results: seq<Status>, archived: set<Id>)

  const SEPARATOR := '\U{1f}'

  /** gridKey: the values joined by the separator. */
  function GridKey(options: seq<string>): string {
    if options == [] then ""
    else if |options| == 1 then options[0]
    else GridKey(options[..|options| - 1]) + [SEPARATOR] + options[|options| - 1]
  }

  // ------------------------------------------------------------ the request

  predicate IsColour(name: string) {
    Lower(Trim(name)) in {"colour", "color", "warna"}
  }

  function CheckNames(names: seq<string>, n: nat): Option<Fault>
    requires n <= |names|
  {
    if n == 0 then None
    else
      var earlier := CheckNames(names, n - 1);
      var name := Trim(names[n - 1]);
      if earlier.Some? then earlier
      else if name == "" then Some(BadField("option_names"))
      else if exists i :: 0 <= i < n - 1 && Lower(Trim(names[i])) == Lower(name) then Some(BadField("option_names"))
      else if n > 1 && IsColour(name) then Some(BadField("option_names"))
      else None
  }

  predicate Repeats(rows: seq<GridRow>, n: nat)
    requires n < |rows|
  {
    exists i :: 0 <= i < n && GridKey(rows[i].options) == GridKey(rows[n].options)
  }

  function CheckGrid(names: seq<string>, rows: seq<GridRow>): Option<Fault> {
    if CheckNames(names, |names|).Some? then CheckNames(names, |names|)
    else if exists n :: 0 <= n < |rows| && (|rows[n].options| != |names| || Repeats(rows, n))
    then Some(BadField("rows"))
    else None
  }

  /** A field of a request: left out, null, or a value. */
  datatype Field<T> = Omitted | Null | Given(value: T)

  datatype Body = Body(
    sku: Field<string>, barcode: Field<string>, regular: Field<int>, sale: Field<int>,
    saleStarts: Field<int>, saleEnds: Field<int>, weight: Field<int>)

  function ValueOf<T>(x: Field<T>): Option<T> {
    if x.Given? then Some(x.value) else None
  }

  /** What a row of a request asks of a variant; two columns cannot be null. */
  function Decoded(b: Body): Result<Fields, Fault> {
    if b.regular.Null? || b.weight.Null? then Err(BadField("rows"))
    else
      Ok(Fields(ValueOf(b.sku), b.sku.Null?, ValueOf(b.barcode), b.barcode.Null?, ValueOf(b.regular),
                ValueOf(b.sale), b.sale.Null?, ValueOf(b.saleStarts), b.saleStarts.Null?,
                ValueOf(b.saleEnds), b.saleEnds.Null?, ValueOf(b.weight)))
  }

  // --------------------------------------------------------------- the maps

  predicate In(t: Tables, pid: Id, id: Id, archived: bool, key: string) {
    && id in t.variants && t.variants[id].product == pid
    && t.variants[id].archived == archived && GridKey(t.variants[id].options) == key
  }

  /** live[key]: of live variants with one key the newest is kept. */
  function LiveAt(t: Tables, pid: Id, key: string, below: Id): (r: Option<Id>)
    ensures r.Some? ==> r.value < below && In(t, pid, r.value, false, key)
    ensures r.Some? ==> forall id :: r.value < id < below ==> !In(t, pid, id, false, key)
    ensures r.None? ==> forall id :: 0 <= id < below ==> !In(t, pid, id, false, key)
  {
    if below == 0 then None
    else if In(t, pid, below - 1, false, key) then Some(below - 1)
    else LiveAt(t, pid, key, below - 1)
  }

  /** archived[key]: the oldest. */
  function ArchivedAt(t: Tables, pid: Id, key: string, below: Id): (r: Option<Id>)
    ensures r.Some? ==> r.value < below && In(t, pid, r.value, true, key)
    ensures r.Some? ==> forall id :: 0 <= id < r.value ==> !In(t, pid, id, true, key)
    ensures r.None? ==> forall id :: 0 <= id < below ==> !In(t, pid, id, true, key)
  {
    if below == 0 then None
    else
      var r := ArchivedAt(t, pid, key, below - 1);
      if r.Some? then r else if In(t, pid, below - 1, true, key) then Some(below - 1) else None
  }

  // ------------------------------------------------------------------ a row

  /** Whether a column would change, as the code asks it: a clear counts by what
      is stored now, even beside a value. */
  predicate Differs<T(==)>(sent: Option<T>, clear: bool, was: Option<T>) {
    (clear && was.Some?) || (sent.Some? && sent != was)
  }

  predicate Changes(v: Variant, f: Fields) {
    || Differs(f.sku, f.clearSku, v.sku)
    || Differs(f.barcode, f.clearBarcode, v.barcode)
    || (f.regular.Some? && f.regular.value != v.regular)
    || Differs(f.sale, f.clearSale, v.sale)
    || Differs(f.saleStarts, f.clearStarts, v.saleStarts)
    || Differs(f.saleEnds, f.clearEnds, v.saleEnds)
    || (f.weight.Some? && f.weight.value != v.weight)
  }

  function CheckSku(t: Tables, sku: Option<string>, self: Option<Id>): Option<Fault> {
    if sku.None? then None
    else if Blank(sku.value) then Some(BadField("sku"))
    else
      var held := Holder(t, sku.value);
      if held.None? || held == self then None
      else
        var v := t.variants[held.value];
        Some(DuplicateSku(if v.product in t.products then Some(t.products[v.product].title) else None))
  }

  /** An UPDATE of the row id, if it is still at the version that was read. */
  function Write(t: Tables, id: Id, version: int, f: Fields): Result<Tables, Fault> {
    if CheckSku(t, f.sku, Some(id)).Some? then Err(CheckSku(t, f.sku, Some(id)).value)
    else if id !in t.variants || t.variants[id].version != version then Err(NotFound)
    else Put(t, id, Catalog.Updated(t.variants[id], f))
  }

  function Restore(t: Tables, id: Id): Result<Tables, Fault>
    requires id in t.variants
  {
    var v := t.variants[id];
    Put(t, id, v.(archived := false, version := v.version + 1))
  }

  /** A refused row leaves the tables as they were; a refused INSERT has drawn an id. */
  function Rolled(t: Tables, r: Result<Tables, Fault>, drawn: nat, ok: Status): (Tables, Status) {
    match r
    case Ok(u) => (u, ok)
    case Err(e) => (t.(nextId := t.nextId + drawn), Failed(e))
  }

  /** matrixRow; `before` are the tables as the request read them. */
  function RowSaved(before: Tables, t: Tables, pid: Id, row: GridRow): (Tables, Status) {
    var key := GridKey(row.options);
    var live := LiveAt(before, pid, key, before.nextId);
    var archived := ArchivedAt(before, pid, key, before.nextId);
    if live.Some? then
      var v := before.variants[live.value];
      if !Changes(v, row.fields) then (t, Unchanged(live.value))
      else Rolled(t, Write(t, live.value, v.version, row.fields), 0, Updated(live.value))
    else if archived.Some? && archived.value in t.variants then
      var id := archived.value;
      match Restore(t, id)
      case Err(e) => (t, Failed(e))
      case Ok(u) => Rolled(t, Write(u, id, before.variants[id].version + 1, row.fields), 0, Restored(id))
    else if CheckSku(t, row.fields.sku, None).Some? then (t, Failed(CheckSku(t, row.fields.sku, None).value))
    else Rolled(t, Insert(t, NewVariant(pid, row.options, row.fields)), 1, Created(t.nextId))
  }

  function RowsSaved(before: Tables, t: Tables, pid: Id, rows: seq<GridRow>): (Tables, seq<Status>) {
    if rows == [] then (t, [])
    else
      var (u, done) := RowsSaved(before, t, pid, rows[..|rows| - 1]);
      var (v, status) := RowSaved(before, u, pid, rows[|rows| - 1]);
      (v, done + [status])
  }

  // --------------------------------------------------------------- the save

  predicate Sent(rows: seq<GridRow>, key: string) {
    exists i :: 0 <= i < |rows| && GridKey(rows[i].options) == key
  }

  /** The live variants the grid does not name. */
  function Missing(before: Tables, pid: Id, rows: seq<GridRow>): set<Id> {
    set id | id in before.variants && !before.variants[id].archived && before.variants[id].product == pid
             && LiveAt(before, pid, GridKey(before.variants[id].options), before.nextId) == Some(id)
             && !Sent(rows, GridKey(before.variants[id].options))
  }

  function Archive(t: Tables, ids: set<Id>): Tables {
    t.(variants := map id | id in t.variants ::
                     if id in ids then t.variants[id].(archived := true, version := t.variants[id].version + 1)
                     else t.variants[id])
  }

  predicate HasLive(t: Tables, pid: Id) {
    exists id :: id in t.variants && t.variants[id].product == pid && !t.variants[id].archived
  }

  function Bumped(t: Tables, pid: Id, names: seq<string>): Tables
    requires pid in t.products
  {
    t.(products := t.products[pid := t.products[pid].(optionNames := names, version := t.products[pid].version + 1)])
  }

  function Refused(t: Tables, pid: Id, version: int, names: seq<string>, rows: seq<GridRow>, archiveMissing: bool):
    Option<Fault>
  {
    if CheckGrid(names, rows).Some? then CheckGrid(names, rows)
    else if pid !in t.products then Some(NotFound)
    else if t.products[pid].archived then Some(BadField("product_id"))
    else if t.products[pid].version != version then Some(VersionConflict)
    else if t.products[pid].optionNames != names && !archiveMissing && HasLive(t, pid)
    then Some(BadField("archive_missing"))
    else None
  }

  /** SaveMatrix: everything is refused before a write, or every row has a result. */
  function Save(t: Tables, pid: Id, version: int, names: seq<string>, rows: seq<GridRow>, archiveMissing: bool):
    (Tables, Result<Saved, Fault>)
  {
    match Refused(t, pid, version, names, rows, archiveMissing)
    case Some(e) => (t, Err(e))
    case None =>
      var bumped := Bumped(t, pid, names);
      var (u, results) := RowsSaved(t, bumped, pid, rows);
      var missing := if archiveMissing then Missing(t, pid, rows) else {};
      (Archive(u, missing), Ok(Saved(bumped.products[pid].version, results, missing)))
  }
}
