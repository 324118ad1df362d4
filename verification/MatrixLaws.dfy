/** What a matrix save leaves behind. */
module MatrixLaws {
  import opened Base
  import opened Catalog
  import opened Matrix

  // ----------------------------------------------------- what changes means

  predicate Idle<T(==)>(sent: Option<T>, clear: bool, was: Option<T>) {
    clear && sent.Some? && sent == was
  }

  /** Some column is cleared and at the same time sent the value it has. */
  predicate Contradicts(v: Variant, f: Fields) {
    || Idle(f.sku, f.clearSku, v.sku) || Idle(f.barcode, f.clearBarcode, v.barcode)
    || Idle(f.sale, f.clearSale, v.sale)
    || Idle(f.saleStarts, f.clearStarts, v.saleStarts) || Idle(f.saleEnds, f.clearEnds, v.saleEnds)
  }

  /** `changes` says no exactly when the update would write back what is there,
      apart from requests that clear a column and send its value at once. */
  lemma ChangesExactly(v: Variant, f: Fields)
    ensures Changes(v, f) <==> Written(v, f) != v || Contradicts(v, f)
  {
  }

  /** Some column is both cleared and sent. */
  predicate Clash(f: Fields) {
    || (f.clearSku && f.sku.Some?) || (f.clearBarcode && f.barcode.Some?) || (f.clearSale && f.sale.Some?)
    || (f.clearStarts && f.saleStarts.Some?) || (f.clearEnds && f.saleEnds.Some?)
  }

  /** An update to the value it has, sent beside a clear, counts as a change. */
  lemma ClearedAndSent(v: Variant)
    requires v.sku == Some("TEE")
    ensures var f := Fields(Some("TEE"), true, None, false, None, None, false, None, false, None, false, None);
            Clash(f) && Changes(v, f) && Written(v, f) == v
  {
  }

  /** What a field of a request makes of a column. */
  function After<T>(x: Field<T>, was: Option<T>): Option<T> {
    match x
    case Omitted => was
    case Null => None
    case Given(y) => Some(y)
  }

  /** No row of a request clears and sends one column: each column becomes what the
      request says of it, and `changes` says no exactly when that is what was there. */
  lemma RequestedExactly(v: Variant, b: Body)
    requires Decoded(b).Ok?
    ensures var f := Decoded(b).value;
            var w := Written(v, f);
            && !Clash(f) && (Changes(v, f) <==> w != v)
            && w.sku == After(b.sku, v.sku) && w.barcode == After(b.barcode, v.barcode)
            && w.sale == After(b.sale, v.sale) && w.saleStarts == After(b.saleStarts, v.saleStarts)
            && w.saleEnds == After(b.saleEnds, v.saleEnds)
            && Some(w.regular) == After(b.regular, Some(v.regular)) && Some(w.weight) == After(b.weight, Some(v.weight))
            && w.version == v.version && w.options == v.options && w.archived == v.archived
  {
    ChangesExactly(v, Decoded(b).value);
  }

  /** What a row has written it would not change again, unless it contradicts itself. */
  lemma WrittenTwiceChanges(v: Variant, f: Fields)
    ensures Changes(Catalog.Updated(v, f), f) <==> Clash(f)
    ensures !Changes(v, f) ==> !Clash(f)
  {
  }

  lemma CreatedChanges(pid: Id, options: seq<string>, f: Fields)
    ensures Changes(NewVariant(pid, options, f), f) <==> Clash(f)
  {
  }

  // ------------------------------------------------------------------ a row

  /** The variant a row is about, if the product has one: live before archived. */
  function Match(before: Tables, pid: Id, key: string): Option<Id> {
    var live := LiveAt(before, pid, key, before.nextId);
    if live.Some? then live else ArchivedAt(before, pid, key, before.nextId)
  }

  function IdOf(s: Status): Option<Id> {
    match s
    case Created(id) => Some(id)
    case Updated(id) => Some(id)
    case Restored(id) => Some(id)
    case Unchanged(id) => Some(id)
    case Failed(_) => None
  }

  lemma PutOk(t: Tables, id: Id, v: Variant)
    requires Constrained(t) && id < t.nextId && Put(t, id, v).Ok?
    ensures Put(t, id, v).value == t.(variants := t.variants[id := v]) && Constrained(Put(t, id, v).value)
  {
    RefusedIffBroken(t, id, v);
    hide Constrained;
  }

  lemma WriteOk(t: Tables, id: Id, version: int, f: Fields)
    requires Constrained(t) && id in t.variants && Write(t, id, version, f).Ok?
    ensures Write(t, id, version, f).value == t.(variants := t.variants[id := Catalog.Updated(t.variants[id], f)])
    ensures Constrained(Write(t, id, version, f).value)
  {
    assert id < t.nextId;
    hide Constrained, CheckSku, Catalog.Updated;
    PutOk(t, id, Catalog.Updated(t.variants[id], f));
  }

  lemma RestoreOk(t: Tables, id: Id)
    requires Constrained(t) && id in t.variants && Restore(t, id).Ok?
    ensures var v := t.variants[id];
            Restore(t, id).value == t.(variants := t.variants[id := v.(archived := false, version := v.version + 1)])
    ensures Constrained(Restore(t, id).value)
  {
    assert id < t.nextId;
    hide Constrained, Put, Checks;
    var v := t.variants[id];
    PutOk(t, id, v.(archived := false, version := v.version + 1));
  }

  lemma InsertOk(t: Tables, v: Variant)
    requires Constrained(t) && Insert(t, v).Ok?
    ensures Insert(t, v).value == t.(nextId := t.nextId + 1, variants := t.variants[t.nextId := v])
    ensures Constrained(Insert(t, v).value) && t.nextId !in t.variants
  {
    Drawn(t, 1);
    assert t.nextId !in t.variants;
    hide Constrained, Checks, SameSku, SameCell;
    PutOk(t.(nextId := t.nextId + 1), t.nextId, v);
  }

  lemma Drawn(t: Tables, n: nat)
    requires Constrained(t)
    ensures Constrained(t.(nextId := t.nextId + n))
  {
    hide Checks, SameSku, SameCell;
  }

  /** The row after a save: live, of this product, under the row's key, and with
      the row's fields written. */
  predicate Settled(t: Tables, pid: Id, row: GridRow, id: Id) {
    In(t, pid, id, false, GridKey(row.options)) && (Changes(t.variants[id], row.fields) <==> Clash(row.fields))
  }

  /** What one row does: nothing if it fails, else it settles one variant and
      touches no other. */
  ghost predicate Touches(t: Tables, u: Tables, pid: Id, row: GridRow, hit: Option<Id>, s: Status) {
    && Constrained(u) && u.products == t.products && u.nextId >= t.nextId
    && (IdOf(s).None? ==> u.variants == t.variants)
    && (IdOf(s).Some? ==>
          var id := IdOf(s).value;
          && Settled(u, pid, row, id) && u.variants == t.variants[id := u.variants[id]]
          && match hit
             case Some(m) => id == m && m in t.variants && u.variants[m].options == t.variants[m].options
             case None => id == t.nextId && id !in t.variants && u.variants[id].options == row.options && u.nextId > id)
  }

  lemma LiveRow(before: Tables, t: Tables, pid: Id, row: GridRow, id: Id)
    requires Constrained(t) && In(before, pid, id, false, GridKey(row.options))
    requires id in t.variants && t.variants[id] == before.variants[id]
    requires Match(before, pid, GridKey(row.options)) == Some(id)
    requires LiveAt(before, pid, GridKey(row.options), before.nextId).Some?
    ensures var (u, s) := RowSaved(before, t, pid, row); Touches(t, u, pid, row, Some(id), s)
  {
    hide Constrained, Write, Changes, Clash, LiveAt, ArchivedAt, GridKey, Catalog.Updated;
    var f, v := row.fields, before.variants[id];
    WrittenTwiceChanges(v, f);
    UpdatedKeeps(v, f);
    Drawn(t, 0);
    if Write(t, id, v.version, f).Ok? {
      WriteOk(t, id, v.version, f);
    }
  }

  lemma RestoredAndWritten(t: Tables, id: Id, f: Fields)
    requires Constrained(t) && id in t.variants && Restore(t, id).Ok?
    requires Write(Restore(t, id).value, id, t.variants[id].version + 1, f).Ok?
    ensures var v := t.variants[id];
            Write(Restore(t, id).value, id, v.version + 1, f).value ==
            t.(variants := t.variants[id := Catalog.Updated(v.(archived := false, version := v.version + 1), f)])
    ensures Constrained(Write(Restore(t, id).value, id, t.variants[id].version + 1, f).value)
  {
    var v := t.variants[id];
    var w := v.(archived := false, version := v.version + 1);
    RestoreOk(t, id);
    WriteOk(Restore(t, id).value, id, v.version + 1, f);
    hide Constrained, Write, Restore, Catalog.Updated;
    WrittenTwice(t.variants, id, w, Catalog.Updated(w, f));
  }

  /** The row as Updated leaves it is live if it was, and keeps its cell. */
  lemma UpdatedKeeps(v: Variant, f: Fields)
    ensures var u := Catalog.Updated(v, f); u.product == v.product && u.options == v.options && u.archived == v.archived
  {
  }

  lemma ArchivedRow(before: Tables, t: Tables, pid: Id, row: GridRow, id: Id)
    requires Constrained(t) && In(before, pid, id, true, GridKey(row.options))
    requires id in t.variants && t.variants[id] == before.variants[id]
    requires LiveAt(before, pid, GridKey(row.options), before.nextId).None?
    requires ArchivedAt(before, pid, GridKey(row.options), before.nextId) == Some(id)
    ensures var (u, s) := RowSaved(before, t, pid, row); Touches(t, u, pid, row, Some(id), s)
  {
    hide Constrained, Write, Restore, Changes, Clash, LiveAt, ArchivedAt, GridKey, Catalog.Updated;
    var f, v := row.fields, before.variants[id];
    var w := v.(archived := false, version := v.version + 1);
    Drawn(t, 0);
    WrittenTwiceChanges(w, f);
    UpdatedKeeps(w, f);
    if Restore(t, id).Ok? && Write(Restore(t, id).value, id, v.version + 1, f).Ok? {
      RestoredAndWritten(t, id, f);
    }
  }

  lemma NewRow(before: Tables, t: Tables, pid: Id, row: GridRow)
    requires Constrained(t) && Match(before, pid, GridKey(row.options)) == None
    ensures var (u, s) := RowSaved(before, t, pid, row); Touches(t, u, pid, row, None, s)
  {
    hide Constrained, CheckSku, Insert, Changes, Clash, LiveAt, ArchivedAt, GridKey;
    var v := NewVariant(pid, row.options, row.fields);
    CreatedChanges(pid, row.options, row.fields);
    Drawn(t, 0);
    Drawn(t, 1);
    if Insert(t, v).Ok? {
      InsertOk(t, v);
    }
  }

  lemma RowTouches(before: Tables, t: Tables, pid: Id, row: GridRow)
    requires Constrained(t)
    requires var m := Match(before, pid, GridKey(row.options));
             m.Some? ==> m.value in t.variants && t.variants[m.value] == before.variants[m.value]
    ensures var (u, s) := RowSaved(before, t, pid, row);
            Touches(t, u, pid, row, Match(before, pid, GridKey(row.options)), s)
  {
    var key := GridKey(row.options);
    var live := LiveAt(before, pid, key, before.nextId);
    var archived := ArchivedAt(before, pid, key, before.nextId);
    hide Touches, RowSaved, Constrained, LiveAt, ArchivedAt, GridKey;
    if live.Some? {
      LiveRow(before, t, pid, row, live.value);
    } else if archived.Some? {
      ArchivedRow(before, t, pid, row, archived.value);
    } else {
      NewRow(before, t, pid, row);
    }
  }

  // --------------------------------------------------------------- the rows

  function KeyOf(t: Tables, id: Id): string
    requires id in t.variants
  {
    GridKey(t.variants[id].options)
  }

  /** Variants no row is about are as they were, and none changes its cell. */
  ghost predicate OthersKept(before: Tables, t: Tables, pid: Id, rows: seq<GridRow>) {
    && t.nextId >= before.nextId
    && forall id :: id in before.variants ==>
         && id in t.variants && t.variants[id].product == before.variants[id].product
         && t.variants[id].options == before.variants[id].options
         && (!before.variants[id].archived ==> !t.variants[id].archived)
         && (before.variants[id].product != pid || !Sent(rows, KeyOf(before, id)) ==>
               t.variants[id] == before.variants[id])
  }

  /** Where the j-th row ended up. */
  ghost predicate Landed(before: Tables, t: Tables, pid: Id, row: GridRow, id: Id) {
    && Settled(t, pid, row, id)
    && match Match(before, pid, GridKey(row.options))
       case Some(m) => id == m && id in before.variants
       case None => id !in before.variants && id >= before.nextId && t.variants[id].options == row.options
  }

  ghost predicate AllLanded(before: Tables, t: Tables, pid: Id, rows: seq<GridRow>, results: seq<Status>) {
    && |results| == |rows|
    && forall j :: 0 <= j < |rows| && IdOf(results[j]).Some? ==> Landed(before, t, pid, rows[j], IdOf(results[j]).value)
  }

  predicate LiveIn(t: Tables, pid: Id, id: Id) {
    id in t.variants && t.variants[id].product == pid && !t.variants[id].archived
  }

  /** Nothing else has come to life. */
  ghost predicate NoMoreLive(before: Tables, t: Tables, pid: Id, results: seq<Status>) {
    forall id: Id :: LiveIn(t, pid, id) ==> LiveIn(before, pid, id) || exists j :: 0 <= j < |results| && IdOf(results[j]) == Some(id)
  }

  lemma SentMore(rows: seq<GridRow>, row: GridRow, key: string)
    ensures Sent(rows + [row], key) <==> Sent(rows, key) || GridKey(row.options) == key
  {
    hide GridKey;
    var more := rows + [row];
    if Sent(rows, key) {
      var i :| 0 <= i < |rows| && GridKey(rows[i].options) == key;
      assert more[i] == rows[i];
    }
    assert more[|rows|] == row;
  }

  lemma OthersStep(before: Tables, t: Tables, u: Tables, pid: Id, rows: seq<GridRow>, row: GridRow, s: Status)
    requires OthersKept(before, t, pid, rows)
    requires Touches(t, u, pid, row, Match(before, pid, GridKey(row.options)), s)
    ensures OthersKept(before, u, pid, rows + [row])
  {
    hide GridKey, Constrained, Changes, Clash, LiveAt, ArchivedAt, Sent;
    forall key ensures Sent(rows + [row], key) <==> Sent(rows, key) || GridKey(row.options) == key {
      SentMore(rows, row, key);
    }
  }

  lemma LandedStep(
      before: Tables, t: Tables, u: Tables, pid: Id, rows: seq<GridRow>, results: seq<Status>, row: GridRow, s: Status)
    requires OthersKept(before, t, pid, rows) && AllLanded(before, t, pid, rows, results)
    requires !Sent(rows, GridKey(row.options))
    requires Touches(t, u, pid, row, Match(before, pid, GridKey(row.options)), s)
    requires forall id :: id in before.variants ==> id < before.nextId
    ensures AllLanded(before, u, pid, rows + [row], results + [s])
  {
    hide GridKey, Constrained, Changes, Clash, LiveAt, ArchivedAt;
    var more, all := rows + [row], results + [s];
    forall j | 0 <= j < |more| && IdOf(all[j]).Some? ensures Landed(before, u, pid, more[j], IdOf(all[j]).value) {
      if j < |rows| {
        assert more[j] == rows[j] && all[j] == results[j];
        assert Landed(before, t, pid, rows[j], IdOf(results[j]).value);
      } else {
        assert more[j] == row && all[j] == s;
      }
    }
  }

  lemma LiveStep(before: Tables, t: Tables, u: Tables, pid: Id, results: seq<Status>, row: GridRow, hit: Option<Id>, s: Status)
    requires NoMoreLive(before, t, pid, results) && Touches(t, u, pid, row, hit, s)
    ensures NoMoreLive(before, u, pid, results + [s])
  {
    hide GridKey, Constrained, Changes, Clash;
    var all := results + [s];
    forall id: Id | LiveIn(u, pid, id)
      ensures LiveIn(before, pid, id) || exists j :: 0 <= j < |all| && IdOf(all[j]) == Some(id)
    {
      if IdOf(s) == Some(id) {
        assert IdOf(all[|results|]) == Some(id);
      } else {
        assert LiveIn(t, pid, id);
        if !LiveIn(before, pid, id) {
          var j :| 0 <= j < |results| && IdOf(results[j]) == Some(id);
          assert all[j] == results[j];
        }
      }
    }
  }

  predicate DistinctRows(rows: seq<GridRow>) {
    forall i, j :: 0 <= i < j < |rows| ==> GridKey(rows[i].options) != GridKey(rows[j].options)
  }

  lemma RowsProgress(before: Tables, start: Tables, pid: Id, rows: seq<GridRow>)
    requires Constrained(before) && Constrained(start) && start.variants == before.variants && start.nextId == before.nextId
    requires DistinctRows(rows)
    ensures var (t, results) := RowsSaved(before, start, pid, rows);
            && Constrained(t) && t.products == start.products
            && OthersKept(before, t, pid, rows) && AllLanded(before, t, pid, rows, results)
            && NoMoreLive(before, t, pid, results)
    decreases rows
  {
    hide Constrained, GridKey, RowSaved, AllLanded, NoMoreLive, OthersKept, Sent;
    if rows == [] {
      NoRows(before, start, pid);
    } else {
      var n := |rows| - 1;
      RowsProgress(before, start, pid, rows[..n]);
      assert rows == rows[..n] + [rows[n]];
      NotSentYet(rows);
      var (t, results) := RowsSaved(before, start, pid, rows[..n]);
      OneRowOn(before, t, pid, rows[..n], results, rows[n]);
    }
  }

  lemma OneRowOn(before: Tables, t: Tables, pid: Id, rows: seq<GridRow>, results: seq<Status>, row: GridRow)
    requires Constrained(before) && Constrained(t) && !Sent(rows, GridKey(row.options))
    requires OthersKept(before, t, pid, rows) && AllLanded(before, t, pid, rows, results)
    requires NoMoreLive(before, t, pid, results)
    ensures var (u, s) := RowSaved(before, t, pid, row);
            && Constrained(u) && u.products == t.products
            && OthersKept(before, u, pid, rows + [row]) && AllLanded(before, u, pid, rows + [row], results + [s])
            && NoMoreLive(before, u, pid, results + [s])
  {
    assert forall id :: id in before.variants ==> id < before.nextId;
    hide Constrained, GridKey, LiveAt, ArchivedAt, RowSaved, Touches, Match, AllLanded, NoMoreLive, OthersKept, Sent;
    var (u, s) := RowSaved(before, t, pid, row);
    var hit := Match(before, pid, GridKey(row.options));
    MatchUntouched(before, t, pid, rows, row);
    RowTouches(before, t, pid, row);
    OthersStep(before, t, u, pid, rows, row, s);
    LandedStep(before, t, u, pid, rows, results, row, s);
    LiveStep(before, t, u, pid, results, row, hit, s);
    TouchesKeeps(t, u, pid, row, hit, s);
  }

  lemma NoRows(before: Tables, start: Tables, pid: Id)
    requires start.variants == before.variants && start.nextId == before.nextId
    ensures OthersKept(before, start, pid, []) && AllLanded(before, start, pid, [], []) && NoMoreLive(before, start, pid, [])
  {
    hide GridKey;
  }

  lemma TouchesKeeps(t: Tables, u: Tables, pid: Id, row: GridRow, hit: Option<Id>, s: Status)
    requires Touches(t, u, pid, row, hit, s)
    ensures Constrained(u) && u.products == t.products
  {
    hide Constrained, Settled;
  }

  lemma NotSentYet(rows: seq<GridRow>)
    requires rows != [] && DistinctRows(rows)
    ensures !Sent(rows[..|rows| - 1], GridKey(rows[|rows| - 1].options))
  {
    hide GridKey;
  }

  /** A row's own variant has not been written by an earlier row. */
  lemma MatchUntouched(before: Tables, t: Tables, pid: Id, rows: seq<GridRow>, row: GridRow)
    requires OthersKept(before, t, pid, rows) && !Sent(rows, GridKey(row.options))
    ensures var m := Match(before, pid, GridKey(row.options));
            m.Some? ==> m.value in t.variants && t.variants[m.value] == before.variants[m.value]
  {
    hide GridKey, Sent;
  }
}
