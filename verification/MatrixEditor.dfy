/** SaveMatrix as it runs: the request checked in two loops, the product's
    variants read into maps, rows saved one by one, the rest archived. */
module MatrixEditor {
  import opened Base
  import opened Catalog
  import opened Matrix
  import opened Texts

  function At<V>(m: map<string, V>, key: string): Option<V> {
    if key in m then Some(m[key]) else None
  }

  /** checkGrid's loop over the option names. */
  method CheckOptionNames(names: seq<string>) returns (bad: Option<Fault>)
    ensures bad == CheckNames(names, |names|)
  {
    var seen: set<string> := {};
    for i := 0 to |names|
      invariant CheckNames(names, i).None?
      invariant forall s :: s in seen <==> exists k :: 0 <= k < i && Lower(Trim(names[k])) == s
    {
      hide Lower, Trim, IsColour;
      var name := Trim(names[i]);
      if name == "" || Lower(name) in seen || (i > 0 && IsColour(name)) {
        assert CheckNames(names, i + 1).Some?;
        StaysBad(names, i + 1, |names|);
        return Some(BadField("option_names"));
      }
      seen := seen + {Lower(name)};
    }
    bad := None;
  }

  lemma {:induction false} StaysBad(names: seq<string>, m: nat, n: nat)
    requires m <= n <= |names| && CheckNames(names, m).Some?
    ensures CheckNames(names, n) == Some(BadField("option_names"))
  {
    hide Lower, Trim, IsColour;
    if m < n {
      StaysBad(names, m, n - 1);
    } else {
      AlwaysNames(names, m);
    }
  }

  lemma {:induction false} AlwaysNames(names: seq<string>, n: nat)
    requires n <= |names| && CheckNames(names, n).Some?
    ensures CheckNames(names, n) == Some(BadField("option_names"))
  {
    hide Lower, Trim, IsColour;
    if n > 0 && CheckNames(names, n - 1).Some? {
      AlwaysNames(names, n - 1);
    }
  }

  /** checkGrid. */
  method CheckRequest(names: seq<string>, rows: seq<GridRow>) returns (bad: Option<Fault>)
    ensures bad == CheckGrid(names, rows)
  {
    bad := CheckOptionNames(names);
    hide CheckNames, GridKey;
    if bad.Some? {
      return;
    }
    var keys: set<string> := {};
    for i := 0 to |rows|
      invariant forall n :: 0 <= n < i ==> |rows[n].options| == |names| && !Repeats(rows, n)
      invariant forall k :: k in keys <==> exists j :: 0 <= j < i && GridKey(rows[j].options) == k
    {
      if |rows[i].options| != |names| {
        return Some(BadField("rows"));
      }
      var k := GridKey(rows[i].options);
      if k in keys {
        assert Repeats(rows, i);
        return Some(BadField("rows"));
      }
      keys := keys + {k};
    }
  }

  /** The two maps a save works from, filled in creation order. */
  method ReadVariants(t: Tables, pid: Id) returns (live: map<string, Id>, archived: map<string, Id>)
    ensures forall key :: At(live, key) == LiveAt(t, pid, key, t.nextId)
    ensures forall key :: At(archived, key) == ArchivedAt(t, pid, key, t.nextId)
  {
    live, archived := map[], map[];
    for id := 0 to t.nextId
      invariant forall key :: At(live, key) == LiveAt(t, pid, key, id)
      invariant forall key :: At(archived, key) == ArchivedAt(t, pid, key, id)
    {
      hide GridKey;
      if id in t.variants && t.variants[id].product == pid {
        var key := GridKey(t.variants[id].options);
        if !t.variants[id].archived {
          live := live[key := id];
        } else if key !in archived {
          archived := archived[key := id];
        }
      }
    }
  }

  class Editor {
    var tables: Tables

    constructor (tables: Tables)
      ensures this.tables == tables
    {
      this.tables := tables;
    }

    method UpdateVariant(id: Id, version: int, f: Fields) returns (bad: Option<Fault>)
      modifies this
      ensures match Write(old(tables), id, version, f)
              case Ok(u) => tables == u && bad == None
              case Err(e) => tables == old(tables) && bad == Some(e)
    {
      hide CheckSku, Put, Catalog.Updated;
      bad := CheckSku(tables, f.sku, Some(id));
      if bad.None? {
        if id !in tables.variants || tables.variants[id].version != version {
          return Some(NotFound);
        }
        match Put(tables, id, Catalog.Updated(tables.variants[id], f)) {
          case Ok(u) => tables := u;
          case Err(e) => bad := Some(e);
        }
      }
    }

    /** matrixRow: one row under its savepoint. */
    method SaveRow(before: Tables, pid: Id, row: GridRow, live: Option<Id>, archived: Option<Id>) returns (s: Status)
      requires live == LiveAt(before, pid, GridKey(row.options), before.nextId)
      requires archived == ArchivedAt(before, pid, GridKey(row.options), before.nextId)
      modifies this
      ensures (tables, s) == RowSaved(before, old(tables), pid, row)
    {
      hide GridKey, LiveAt, ArchivedAt, Changes, Write, Put, CheckSku, NewVariant, Insert;
      var savepoint := tables;
      if live.Some? {
        var v := before.variants[live.value];
        if !Changes(v, row.fields) {
          return Unchanged(live.value);
        }
        var bad := UpdateVariant(live.value, v.version, row.fields);
        s := if bad.Some? then Failed(bad.value) else Status.Updated(live.value);
      } else if archived.Some? && archived.value in tables.variants {
        var id := archived.value;
        match Restore(tables, id) {
          case Err(e) => return Failed(e);
          case Ok(u) =>
            tables := u;
            var bad := UpdateVariant(id, before.variants[id].version + 1, row.fields);
            if bad.Some? {
              tables := savepoint;
              s := Failed(bad.value);
            } else {
              s := Restored(id);
            }
        }
      } else {
        var bad := CheckSku(tables, row.fields.sku, None);
        if bad.Some? {
          return Failed(bad.value);
        }
        match Insert(tables, NewVariant(pid, row.options, row.fields)) {
          case Ok(u) =>
            s := Status.Created(tables.nextId);
            tables := u;
          case Err(e) =>
            tables := savepoint.(nextId := savepoint.nextId + 1);
            s := Failed(e);
        }
      }
    }

    /** ArchiveVariant for every live key the request did not send. */
    method ArchiveUnsent(before: Tables, pid: Id, rows: seq<GridRow>, live: map<string, Id>, sent: set<string>)
      returns (ids: set<Id>)
      requires forall key :: At(live, key) == LiveAt(before, pid, key, before.nextId)
      requires forall key :: key in sent <==> Sent(rows, key)
      modifies this
      ensures tables == Archive(old(tables), ids) && ids == Missing(before, pid, rows)
    {
      hide GridKey, LiveAt, Sent, Archive;
      ids := {};
      ArchiveNobody(tables);
      var left := live.Keys;
      while left != {}
        invariant left <= live.Keys
        invariant tables == Archive(old(tables), ids)
        invariant forall id :: id in ids <==> exists key :: key in live.Keys - left && key !in sent && live[key] == id
      {
        var key :| key in left;
        if key !in sent {
          var id := live[key];
          forall other | other in live && live[other] == id ensures other == key {
            OwnKey(before, pid, live, other);
            OwnKey(before, pid, live, key);
          }
          ArchiveOneMore(old(tables), ids, id);
          ids := ids + {id};
          tables := Archive(tables, {id});
        }
        left := left - {key};
      }
      UnsentIsMissing(before, pid, rows, live, sent, ids);
    }

    /** SaveMatrix: one transaction. */
    method SaveMatrix(pid: Id, version: int, names: seq<string>, rows: seq<GridRow>, archiveMissing: bool)
      returns (r: Result<Saved, Fault>)
      modifies this
      ensures (tables, r) == Save(old(tables), pid, version, names, rows, archiveMissing)
    {
      hide CheckGrid, GridKey, LiveAt, ArchivedAt, RowSaved, Missing, Archive, HasLive;
      var bad := CheckRequest(names, rows);
      if bad.Some? {
        return Err(bad.value);
      }
      var before := tables;
      if pid !in before.products {
        return Err(NotFound);
      }
      var p := before.products[pid];
      if p.archived {
        return Err(BadField("product_id"));
      }
      if p.version != version {
        return Err(VersionConflict);
      }
      if p.optionNames != names && !archiveMissing && HasLive(before, pid) {
        return Err(BadField("archive_missing"));
      }
      assert Refused(before, pid, version, names, rows, archiveMissing).None?;
      var live, archived := ReadVariants(before, pid);
      tables := Bumped(tables, pid, names);
      ghost var start := tables;
      var sent: set<string> := {};
      var results: seq<Status> := [];
      for i := 0 to |rows|
        invariant (tables, results) == RowsSaved(before, start, pid, rows[..i])
        invariant forall key :: key in sent <==> exists j :: 0 <= j < i && GridKey(rows[j].options) == key
      {
        var key := GridKey(rows[i].options);
        sent := sent + {key};
        var s := SaveRow(before, pid, rows[i], At(live, key), At(archived, key));
        results := results + [s];
        assert rows[..i + 1][..i] == rows[..i];
      }
      assert rows[..|rows|] == rows;
      var ids: set<Id> := {};
      if archiveMissing {
        ids := ArchiveUnsent(before, pid, rows, live, sent);
      } else {
        ArchiveNobody(tables);
      }
      return Ok(Saved(p.version + 1, results, ids));
    }
  }

  lemma OwnKey(before: Tables, pid: Id, live: map<string, Id>, key: string)
    requires key in live && At(live, key) == LiveAt(before, pid, key, before.nextId)
    ensures In(before, pid, live[key], false, key)
  {
    hide GridKey;
  }

  lemma UnsentIsMissing(
      before: Tables, pid: Id, rows: seq<GridRow>, live: map<string, Id>, sent: set<string>, ids: set<Id>)
    requires forall key :: At(live, key) == LiveAt(before, pid, key, before.nextId)
    requires forall key :: key in sent <==> Sent(rows, key)
    requires forall id :: id in ids <==> exists key :: key in live.Keys && key !in sent && live[key] == id
    ensures ids == Missing(before, pid, rows)
  {
    hide GridKey, LiveAt, Sent;
    forall id | id in ids ensures id in Missing(before, pid, rows) {
      var key :| key in live.Keys && key !in sent && live[key] == id;
      OwnKey(before, pid, live, key);
      assert At(live, key) == Some(id);
    }
    forall id | id in Missing(before, pid, rows) ensures id in ids {
      var key := GridKey(before.variants[id].options);
      assert At(live, key) == Some(id);
      assert key in live.Keys && key !in sent && live[key] == id;
    }
  }

  lemma ArchiveNobody(t: Tables)
    ensures Archive(t, {}) == t
  {
  }

  lemma ArchiveOneMore(t: Tables, ids: set<Id>, id: Id)
    requires id !in ids
    ensures Archive(Archive(t, ids), {id}) == Archive(t, ids + {id})
  {
  }
}
