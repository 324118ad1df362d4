/** What saving a matrix answers: each refusal of a request and each fate of a row, with
    exactly when it is met. */
module MatrixAnswers {
  import opened Base
  import opened Catalog
  import opened Matrix
  import opened MatrixLaws
  import opened Texts

  // ------------------------------------------------------------- the request

  /** The i-th name is blank, repeats an earlier one but for case and spaces, or is the
      colour and not the first. */
  predicate BadName(names: seq<string>, i: nat)
    requires i < |names|
  {
    || Trim(names[i]) == ""
    || (exists j :: 0 <= j < i && Lower(Trim(names[j])) == Lower(Trim(names[i])))
    || (i > 0 && Lower(Trim(names[i])) in ["colour", "color", "warna"])
  }

  predicate BadNames(names: seq<string>, n: nat)
    requires n <= |names|
  {
    exists i :: 0 <= i < n && BadName(names, i)
  }

  lemma TrimTwice(s: string)
    ensures Trim(Trim(s)) == Trim(s)
  {
    TrimExactly(s);
    TrimExactly(Trim(s));
  }

  lemma {:induction false} NamesExactly(names: seq<string>, n: nat)
    requires n <= |names|
    ensures CheckNames(names, n) == if BadNames(names, n) then Some(BadField("option_names")) else None
  {
    hide Trim, Lower;
    if n > 0 {
      NamesExactly(names, n - 1);
      TrimTwice(names[n - 1]);
      assert BadNames(names, n) <==> BadNames(names, n - 1) || BadName(names, n - 1);
    }
  }

  /** A row does not fit the names, or has the key of an earlier one. */
  predicate BadRows(names: seq<string>, rows: seq<GridRow>) {
    || (exists n :: 0 <= n < |rows| && |rows[n].options| != |names|)
    || (exists i, n :: 0 <= i < n < |rows| && GridKey(rows[i].options) == GridKey(rows[n].options))
  }

  lemma GridExactly(names: seq<string>, rows: seq<GridRow>)
    ensures CheckGrid(names, rows) ==
            if BadNames(names, |names|) then Some(BadField("option_names"))
            else if BadRows(names, rows) then Some(BadField("rows"))
            else None
  {
    NamesExactly(names, |names|);
    hide CheckNames, BadName, GridKey;
    if i, n :| 0 <= i < n < |rows| && GridKey(rows[i].options) == GridKey(rows[n].options) {
      assert Repeats(rows, n);
    }
    if n :| 0 <= n < |rows| && Repeats(rows, n) {
      var i :| 0 <= i < n && GridKey(rows[i].options) == GridKey(rows[n].options);
    }
  }

  /** When a save is refused and for what; when it is not, every row has a result, the
      product has the names sent and is one version on, and no other product changes. */
  lemma SaveDecides(t: Tables, pid: Id, version: int, names: seq<string>, rows: seq<GridRow>, archiveMissing: bool)
    ensures var (u, answer) := Save(t, pid, version, names, rows, archiveMissing);
            if BadNames(names, |names|) then u == t && answer == Err(BadField("option_names"))
            else if BadRows(names, rows) then u == t && answer == Err(BadField("rows"))
            else if pid !in t.products then u == t && answer == Err(NotFound)
            else if t.products[pid].archived then u == t && answer == Err(BadField("product_id"))
            else if version != t.products[pid].version then u == t && answer == Err(VersionConflict)
            else if names != t.products[pid].optionNames && !archiveMissing &&
                    (exists id :: id in t.variants && t.variants[id].product == pid && !t.variants[id].archived) then
              u == t && answer == Err(BadField("archive_missing"))
            else
              && answer.Ok? && |answer.value.results| == |rows| && answer.value.version == version + 1
              && u.products == t.products[pid := t.products[pid].(optionNames := names, version := version + 1)]
              && (!archiveMissing ==> answer.value.archived == {})
  {
    GridExactly(names, rows);
    hide CheckGrid, BadNames, BadRows, RowsSaved, Missing;
    if Refused(t, pid, version, names, rows, archiveMissing).None? {
      RowsKeepProducts(t, Bumped(t, pid, names), pid, rows);
    }
  }

  lemma {:induction false} RowsKeepProducts(before: Tables, start: Tables, pid: Id, rows: seq<GridRow>)
    ensures var (u, results) := RowsSaved(before, start, pid, rows); u.products == start.products && |results| == |rows|
  {
    hide RowSaved;
    if rows != [] {
      RowsKeepProducts(before, start, pid, rows[..|rows| - 1]);
      RowKeepsProducts(before, RowsSaved(before, start, pid, rows[..|rows| - 1]).0, pid, rows[|rows| - 1]);
    }
  }

  lemma RowKeepsProducts(before: Tables, t: Tables, pid: Id, row: GridRow)
    ensures RowSaved(before, t, pid, row).0.products == t.products
  {
    hide GridKey, LiveAt, ArchivedAt, Changes, CheckSku, Refusal, Catalog.Updated;
  }

  // ------------------------------------------------------------------ a row

  predicate SkuFits(f: Fields) {
    f.sku == None || exists i :: 0 <= i < |f.sku.value| && !IsSpace(f.sku.value[i])
  }

  /** The product has a live, or archived, variant under the key. */
  predicate Has(t: Tables, pid: Id, archived: bool, key: string) {
    exists id :: id in t.variants && In(t, pid, id, archived, key)
  }

  lemma FoundLive(t: Tables, pid: Id, key: string)
    requires Constrained(t)
    ensures LiveAt(t, pid, key, t.nextId).Some? <==> Has(t, pid, false, key)
    ensures ArchivedAt(t, pid, key, t.nextId).Some? <==> Has(t, pid, true, key)
  {
    assert forall id :: id in t.variants ==> id < t.nextId;
    hide Constrained, GridKey;
    if Has(t, pid, false, key) {
      var id :| id in t.variants && In(t, pid, id, false, key);
    }
    if Has(t, pid, true, key) {
      var id :| id in t.variants && In(t, pid, id, true, key);
    }
  }

  /** The tables with v under id. */
  function With(t: Tables, id: Id, v: Variant): Tables {
    t.(variants := t.variants[id := v])
  }

  /** A SKU that another variant holds keeps the tables from being lawful. */
  lemma HeldElsewhere(t: Tables, id: Id, v: Variant)
    requires Constrained(t) && v.sku.Some? && Constrained(With(t, id, v))
    ensures Holder(t, v.sku.value) in {None, Some(id)}
  {
    var h := Holder(t, v.sku.value);
    var u := With(t, id, v);
    forall j | j in t.variants && j != id ensures !SameSku(t.variants[j], v) {
      assert u.variants[j] == t.variants[j] && u.variants[id] == v && !SameSku(u.variants[j], u.variants[id]);
    }
    hide Constrained, Holder;
  }

  lemma SkuChecked(t: Tables, id: Id, v: Variant, f: Fields, self: Option<Id>)
    requires Constrained(t) && (f.sku.Some? ==> v.sku == f.sku) && (self == Some(id) || (self == None && id !in t.variants))
    ensures Constrained(With(t, id, v)) ==> (CheckSku(t, f.sku, self).None? <==> SkuFits(f))
  {
    if Constrained(With(t, id, v)) && f.sku.Some? {
      HeldElsewhere(t, id, v);
    }
    hide Constrained, Holder;
  }

  lemma UpdatedSku(v: Variant, f: Fields)
    ensures f.sku.Some? ==> Catalog.Updated(v, f).sku == f.sku
  {
  }

  lemma WriteExactly(t: Tables, id: Id, version: int, f: Fields)
    requires Constrained(t) && id in t.variants && t.variants[id].version == version
    ensures var r := Write(t, id, version, f);
            var u := With(t, id, Catalog.Updated(t.variants[id], f));
            if SkuFits(f) && Constrained(u) then r == Ok(u) else r.Err?
  {
    var v := Catalog.Updated(t.variants[id], f);
    assert id < t.nextId;
    UpdatedSku(t.variants[id], f);
    RefusedIffBroken(t, id, v);
    SkuChecked(t, id, v, f, Some(id));
    BlankSku(t, f, Some(id));
    PutWritten(t, id, v);
    hide Constrained, CheckSku, Catalog.Updated, Put, SkuFits;
  }

  lemma BlankSku(t: Tables, f: Fields, self: Option<Id>)
    ensures !SkuFits(f) ==> CheckSku(t, f.sku, self).Some?
  {
    hide Holder;
  }

  lemma PutWritten(t: Tables, id: Id, v: Variant)
    ensures Put(t, id, v).Ok? ==> Put(t, id, v).value == With(t, id, v)
  {
    hide Refusal;
  }

  /** Bringing an archived variant back breaks nothing but what writing it would. */
  lemma RestoreExactly(t: Tables, id: Id, f: Fields)
    requires Constrained(t) && id in t.variants
    ensures var v := t.variants[id];
            var w := v.(archived := false, version := v.version + 1);
            var u := With(t, id, Catalog.Updated(w, f));
            (Constrained(u) ==> Restore(t, id).Ok?) && (Restore(t, id).Ok? ==> Restore(t, id).value == With(t, id, w) && Constrained(With(t, id, w)))
  {
    hide Constrained, Put, Checks, Catalog.Updated, Taken;
    var v := t.variants[id];
    var w := v.(archived := false, version := v.version + 1);
    InRange(t, id);
    AcceptedIff(t, id, w);
    PutWritten(t, id, w);
    RefusedIffBroken(t, id, w);
    if Constrained(With(t, id, Catalog.Updated(w, f))) {
      RestoreBreaksNothing(t, id, f);
    }
  }

  lemma InRange(t: Tables, id: Id)
    requires Constrained(t) && id in t.variants
    ensures id < t.nextId
  {
  }

  lemma RestoreBreaksNothing(t: Tables, id: Id, f: Fields)
    requires Constrained(t) && id in t.variants
    requires var v := t.variants[id];
             Constrained(With(t, id, Catalog.Updated(v.(archived := false, version := v.version + 1), f)))
    ensures var v := t.variants[id];
            var w := v.(archived := false, version := v.version + 1);
            Checks(w) && w.product in t.products && !Taken(t, id, w)
  {
    var v := t.variants[id];
    var w := v.(archived := false, version := v.version + 1);
    var x := Catalog.Updated(w, f);
    UpdatedKeeps(w, f);
    hide Catalog.Updated, Checks;
    var u := With(t, id, x);
    forall j | j in t.variants && j != id ensures !SameSku(t.variants[j], v) && !SameCell(t.variants[j], x) {
      assert u.variants[j] == t.variants[j] && u.variants[id] == x;
      assert !SameSku(t.variants[j], t.variants[id]) && !SameCell(u.variants[j], u.variants[id]);
    }
  }

  /** What becomes of one row, by the variants the product had under its key when the
      request read them: the newest live one is left alone if the row asks nothing new of
      it and else updated; with none live the oldest archived one is restored and updated;
      with neither a new one is made. The row fails exactly when its SKU is blank or the
      tables would not be lawful after that. */
  lemma RowDecides(before: Tables, t: Tables, pid: Id, row: GridRow)
    requires Constrained(before) && Constrained(t)
    requires var m := Match(before, pid, GridKey(row.options));
             m.Some? ==> m.value in t.variants && t.variants[m.value] == before.variants[m.value]
    ensures var (u, s) := RowSaved(before, t, pid, row);
            var key, f := GridKey(row.options), row.fields;
            if Has(before, pid, false, key) then
              var id := LiveAt(before, pid, key, before.nextId).value;
              && (forall k :: k in before.variants && In(before, pid, k, false, key) ==> k <= id)
              && var next := With(t, id, Catalog.Updated(t.variants[id], f));
                 if !Changes(t.variants[id], f) then s == Unchanged(id) && u == t
                 else if SkuFits(f) && Constrained(next) then s == Updated(id) && u == next
                 else s.Failed? && u.variants == t.variants
            else if Has(before, pid, true, key) then
              var id := ArchivedAt(before, pid, key, before.nextId).value;
              && (forall k :: k in before.variants && In(before, pid, k, true, key) ==> id <= k)
              && var v := t.variants[id];
                 var next := With(t, id, Catalog.Updated(v.(archived := false, version := v.version + 1), f));
                 if SkuFits(f) && Constrained(next) then s == Restored(id) && u == next
                 else s.Failed? && u.variants == t.variants
            else
              var next := With(t.(nextId := t.nextId + 1), t.nextId, NewVariant(pid, row.options, f));
              if SkuFits(f) && Constrained(next) then s == Created(t.nextId) && u == next
              else s.Failed? && u.variants == t.variants
  {
    var key, f := GridKey(row.options), row.fields;
    FoundLive(before, pid, key);
    assert forall k :: k in before.variants ==> k < before.nextId;
    hide Constrained, GridKey, Changes, SkuFits, NewVariant, Write, Restore, Has, Catalog.Updated, RowSaved, With, LiveAt, ArchivedAt;
    if Has(before, pid, false, key) {
      LiveDecides(before, t, pid, row);
      NewestLive(before, pid, key);
    } else if Has(before, pid, true, key) {
      ArchivedDecides(before, t, pid, row);
      OldestArchived(before, pid, key);
    } else {
      NewDecides(before, t, pid, row);
    }
  }

  lemma NewestLive(t: Tables, pid: Id, key: string)
    requires LiveAt(t, pid, key, t.nextId).Some? && forall k :: k in t.variants ==> k < t.nextId
    ensures forall k :: k in t.variants && In(t, pid, k, false, key) ==> k <= LiveAt(t, pid, key, t.nextId).value
  {
    hide GridKey;
  }

  lemma OldestArchived(t: Tables, pid: Id, key: string)
    requires ArchivedAt(t, pid, key, t.nextId).Some?
    ensures forall k :: k in t.variants && In(t, pid, k, true, key) ==> ArchivedAt(t, pid, key, t.nextId).value <= k
  {
    hide GridKey;
  }

  lemma LiveDecides(before: Tables, t: Tables, pid: Id, row: GridRow)
    requires Constrained(t)
    requires var m := LiveAt(before, pid, GridKey(row.options), before.nextId);
             m.Some? && m.value in t.variants && t.variants[m.value] == before.variants[m.value]
    ensures var (u, s) := RowSaved(before, t, pid, row);
            var id, f := LiveAt(before, pid, GridKey(row.options), before.nextId).value, row.fields;
            var next := With(t, id, Catalog.Updated(t.variants[id], f));
            if !Changes(t.variants[id], f) then s == Unchanged(id) && u == t
            else if SkuFits(f) && Constrained(next) then s == Updated(id) && u == next
            else s.Failed? && u.variants == t.variants
  {
    hide Constrained, GridKey, Changes, SkuFits, Write, Catalog.Updated, ArchivedAt, With;
    var id := LiveAt(before, pid, GridKey(row.options), before.nextId).value;
    WriteExactly(t, id, t.variants[id].version, row.fields);
  }

  lemma ArchivedDecides(before: Tables, t: Tables, pid: Id, row: GridRow)
    requires Constrained(t) && LiveAt(before, pid, GridKey(row.options), before.nextId).None?
    requires var m := ArchivedAt(before, pid, GridKey(row.options), before.nextId);
             m.Some? && m.value in t.variants && t.variants[m.value] == before.variants[m.value]
    ensures var (u, s) := RowSaved(before, t, pid, row);
            var id := ArchivedAt(before, pid, GridKey(row.options), before.nextId).value;
            var v := t.variants[id];
            var next := With(t, id, Catalog.Updated(v.(archived := false, version := v.version + 1), row.fields));
            if SkuFits(row.fields) && Constrained(next) then s == Restored(id) && u == next
            else s.Failed? && u.variants == t.variants
  {
    hide Constrained, GridKey, Changes, SkuFits, Write, Restore, Catalog.Updated, LiveAt, With;
    RestoreThenWrite(t, ArchivedAt(before, pid, GridKey(row.options), before.nextId).value, row.fields);
  }

  lemma NewDecides(before: Tables, t: Tables, pid: Id, row: GridRow)
    requires Constrained(t) && Match(before, pid, GridKey(row.options)) == None
    ensures var (u, s) := RowSaved(before, t, pid, row);
            var next := With(t.(nextId := t.nextId + 1), t.nextId, NewVariant(pid, row.options, row.fields));
            if SkuFits(row.fields) && Constrained(next) then s == Created(t.nextId) && u == next
            else s.Failed? && u.variants == t.variants
  {
    hide Constrained, GridKey, Changes, SkuFits, NewVariant, Insert, CheckSku, With;
    InsertExactly(t, pid, row);
  }

  lemma RestoreThenWrite(t: Tables, id: Id, f: Fields)
    requires Constrained(t) && id in t.variants
    ensures var v := t.variants[id];
            var next := With(t, id, Catalog.Updated(v.(archived := false, version := v.version + 1), f));
            if SkuFits(f) && Constrained(next)
            then Restore(t, id).Ok? && Write(Restore(t, id).value, id, v.version + 1, f) == Ok(next)
            else Restore(t, id).Ok? ==> Write(Restore(t, id).value, id, v.version + 1, f).Err?
  {
    hide Constrained, Write, Restore, Catalog.Updated, SkuFits;
    RestoreExactly(t, id, f);
    if Restore(t, id).Ok? {
      var v := t.variants[id];
      WriteExactly(Restore(t, id).value, id, v.version + 1, f);
      var w := v.(archived := false, version := v.version + 1);
      assert With(With(t, id, w), id, Catalog.Updated(w, f)) == With(t, id, Catalog.Updated(w, f)) by {
        WrittenTwice(t.variants, id, w, Catalog.Updated(w, f));
      }
    }
  }

  lemma InsertExactly(t: Tables, pid: Id, row: GridRow)
    requires Constrained(t)
    ensures var f := row.fields;
            var v := NewVariant(pid, row.options, f);
            var next := With(t.(nextId := t.nextId + 1), t.nextId, v);
            if SkuFits(f) && Constrained(next) then CheckSku(t, f.sku, None).None? && Insert(t, v) == Ok(next)
            else CheckSku(t, f.sku, None).Some? || Insert(t, v).Err?
  {
    hide Constrained, CheckSku, Put, SkuFits, NewVariant;
    var f := row.fields;
    var v := NewVariant(pid, row.options, f);
    var drawn := t.(nextId := t.nextId + 1);
    Drawn(t, 1);
    NextIsFree(t);
    NewSku(pid, row.options, f);
    RefusedIffBroken(drawn, t.nextId, v);
    PutWritten(drawn, t.nextId, v);
    SkuChecked(drawn, t.nextId, v, f, None);
    BlankSku(t, f, None);
    CheckSkuDrawn(t, f.sku);
    WithIs(drawn, t.nextId, v);
  }

  lemma NextIsFree(t: Tables)
    requires Constrained(t)
    ensures t.nextId !in t.variants
  {
  }

  lemma NewSku(pid: Id, options: seq<string>, f: Fields)
    ensures f.sku.Some? ==> NewVariant(pid, options, f).sku == f.sku
  {
  }

  lemma WithIs(t: Tables, id: Id, v: Variant)
    ensures With(t, id, v) == t.(variants := t.variants[id := v])
  {
  }

  lemma CheckSkuDrawn(t: Tables, sku: Option<string>)
    requires Constrained(t)
    ensures CheckSku(t.(nextId := t.nextId + 1), sku, None).None? <==> CheckSku(t, sku, None).None?
  {
    assert forall id :: id in t.variants ==> id < t.nextId;
    hide Constrained;
    if sku.Some? {
      var h, k := Holder(t, sku.value), Holder(t.(nextId := t.nextId + 1), sku.value);
      assert h.Some? ==> k.Some?;
      assert k.Some? ==> h.Some?;
    }
    hide Holder;
  }
}
