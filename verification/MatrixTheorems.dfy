/** The promises of the matrix editor: the grid asked for is the grid that is
    live, a row that fails changes nothing, and saving again changes nothing. */
module MatrixTheorems {
  import opened Base
  import opened Catalog
  import opened Matrix
  import opened Texts
  import opened MatrixLaws

  lemma GridDistinct(names: seq<string>, rows: seq<GridRow>)
    requires CheckGrid(names, rows).None?
    ensures DistinctRows(rows)
    ensures forall i :: 0 <= i < |rows| ==> |rows[i].options| == |names|
  {
    hide GridKey, CheckNames;
    forall i, j | 0 <= i < j < |rows| ensures GridKey(rows[i].options) != GridKey(rows[j].options) {
      assert !Repeats(rows, j);
    }
  }

  lemma BumpedConstrained(t: Tables, pid: Id, names: seq<string>)
    requires Constrained(t) && pid in t.products
    ensures Constrained(Bumped(t, pid, names))
  {
    hide Checks, SameSku, SameCell;
  }

  /** A row that fails leaves every variant as it was, whatever it got as far as. */
  lemma FailedRowLeavesNothing(before: Tables, t: Tables, pid: Id, row: GridRow)
    requires Constrained(t) && RowSaved(before, t, pid, row).1.Failed?
    ensures RowSaved(before, t, pid, row).0.variants == t.variants
    ensures RowSaved(before, t, pid, row).0.products == t.products
  {
    hide Constrained, Write, Changes, LiveAt, ArchivedAt, GridKey, Refusal;
  }

  predicate NoneFailed(results: seq<Status>) {
    forall j :: 0 <= j < |results| ==> !results[j].Failed?
  }

  /** What a save without failures has done, before anything is archived. */
  lemma RowsDone(t: Tables, pid: Id, version: int, names: seq<string>, rows: seq<GridRow>, archiveMissing: bool)
    requires Constrained(t) && Refused(t, pid, version, names, rows, archiveMissing).None?
    ensures var (u, results) := RowsSaved(t, Bumped(t, pid, names), pid, rows);
            && Constrained(u) && u.products == Bumped(t, pid, names).products
            && OthersKept(t, u, pid, rows) && AllLanded(t, u, pid, rows, results) && NoMoreLive(t, u, pid, results)
            && DistinctRows(rows)
  {
    hide Constrained, CheckGrid, DistinctRows, RowsSaved;
    GridDistinct(names, rows);
    BumpedConstrained(t, pid, names);
    RowsProgress(t, Bumped(t, pid, names), pid, rows);
  }

  // --------------------------------------------------- the grid that is live

  ghost predicate HasLiveWith(t: Tables, pid: Id, options: seq<string>) {
    exists id: Id :: LiveIn(t, pid, id) && t.variants[id].options == options
  }

  predicate Asked(rows: seq<GridRow>, options: seq<string>) {
    exists j :: 0 <= j < |rows| && rows[j].options == options
  }

  /** The live variants of a product are those of the grid, option for option. */
  ghost predicate LiveIsGrid(t: Tables, pid: Id, rows: seq<GridRow>) {
    forall options: seq<string> :: HasLiveWith(t, pid, options) <==> Asked(rows, options)
  }

  /** Live variants of the product have keys of their own. */
  ghost predicate LiveKeysApart(t: Tables, pid: Id) {
    forall a: Id, b: Id :: LiveIn(t, pid, a) && LiveIn(t, pid, b) && KeyOf(t, a) == KeyOf(t, b) ==> a == b
  }

  /** No two live variants share a key, and a key a row shares with the variant it
      is matched to stands for the same options. */
  ghost predicate KeysTellApart(t: Tables, pid: Id, rows: seq<GridRow>) {
    && LiveKeysApart(t, pid)
    && forall j :: 0 <= j < |rows| ==>
         var m := Match(t, pid, GridKey(rows[j].options));
         m.Some? && m.value in t.variants ==> t.variants[m.value].options == rows[j].options
  }

  lemma ArchivedLive(t: Tables, ids: set<Id>, pid: Id, id: Id)
    ensures LiveIn(Archive(t, ids), pid, id) <==> LiveIn(t, pid, id) && id !in ids
    ensures LiveIn(Archive(t, ids), pid, id) ==> Archive(t, ids).variants[id] == t.variants[id]
  {
  }

  lemma MissingNotSent(t: Tables, pid: Id, rows: seq<GridRow>, id: Id)
    ensures id in Missing(t, pid, rows) ==> LiveIn(t, pid, id) && !Sent(rows, KeyOf(t, id))
    ensures LiveIn(t, pid, id) && id !in Missing(t, pid, rows) ==>
              Sent(rows, KeyOf(t, id)) || LiveAt(t, pid, KeyOf(t, id), t.nextId) != Some(id)
  {
    hide GridKey, LiveAt, Sent;
  }

  lemma SentRow(rows: seq<GridRow>, j: nat)
    requires j < |rows|
    ensures Sent(rows, GridKey(rows[j].options))
  {
    hide GridKey;
  }

  /** A variant that carries a row's options and comes out of the rows alive is
      alive after archiving. */
  lemma RowIsLive(t: Tables, u: Tables, pid: Id, rows: seq<GridRow>, results: seq<Status>, j: nat)
    requires KeysTellApart(t, pid, rows) && OthersKept(t, u, pid, rows) && AllLanded(t, u, pid, rows, results)
    requires j < |rows| && IdOf(results[j]).Some?
    ensures var id := IdOf(results[j]).value;
            LiveIn(Archive(u, Missing(t, pid, rows)), pid, id) && u.variants[id].options == rows[j].options
  {
    hide GridKey, LiveAt, ArchivedAt, Changes, Clash, Missing, Sent;
    var id := IdOf(results[j]).value;
    assert Landed(t, u, pid, rows[j], id);
    SentRow(rows, j);
    MissingNotSent(t, pid, rows, id);
    ArchivedLive(u, Missing(t, pid, rows), pid, id);
  }

  lemma LiveAtUnique(t: Tables, pid: Id, rows: seq<GridRow>, id: Id)
    requires Constrained(t) && KeysTellApart(t, pid, rows) && LiveIn(t, pid, id)
    ensures LiveAt(t, pid, KeyOf(t, id), t.nextId) == Some(id) == Match(t, pid, KeyOf(t, id))
  {
    assert id < t.nextId;
    hide Constrained, GridKey;
    var live := LiveAt(t, pid, KeyOf(t, id), t.nextId);
    assert In(t, pid, id, false, KeyOf(t, id));
    assert live.Some? && LiveIn(t, pid, live.value) && KeyOf(t, live.value) == KeyOf(t, id);
  }

  /** A variant alive at the end carries some row's options. */
  lemma LiveIsARow(t: Tables, u: Tables, pid: Id, rows: seq<GridRow>, results: seq<Status>, id: Id) returns (j: nat)
    requires Constrained(t) && KeysTellApart(t, pid, rows) && OthersKept(t, u, pid, rows)
    requires AllLanded(t, u, pid, rows, results) && NoMoreLive(t, u, pid, results)
    requires LiveIn(Archive(u, Missing(t, pid, rows)), pid, id)
    ensures j < |rows| && rows[j].options == Archive(u, Missing(t, pid, rows)).variants[id].options
  {
    ArchivedLive(u, Missing(t, pid, rows), pid, id);
    hide GridKey, LiveAt, ArchivedAt, Changes, Clash, Missing, Constrained, Match, Archive;
    if LiveIn(t, pid, id) {
      LiveAtUnique(t, pid, rows, id);
      MissingNotSent(t, pid, rows, id);
      j :| 0 <= j < |rows| && GridKey(rows[j].options) == KeyOf(t, id);
    } else {
      j :| 0 <= j < |results| && IdOf(results[j]) == Some(id);
      RowIsLive(t, u, pid, rows, results, j);
    }
  }

  lemma GridWhenApart(t: Tables, u: Tables, pid: Id, rows: seq<GridRow>, results: seq<Status>)
    requires Constrained(t) && KeysTellApart(t, pid, rows) && OthersKept(t, u, pid, rows) && NoneFailed(results)
    requires AllLanded(t, u, pid, rows, results) && NoMoreLive(t, u, pid, results)
    ensures LiveIsGrid(Archive(u, Missing(t, pid, rows)), pid, rows)
  {
    var final := Archive(u, Missing(t, pid, rows));
    hide Constrained, KeysTellApart, OthersKept, NoMoreLive, Missing, Archive, Landed;
    forall options: seq<string> ensures HasLiveWith(final, pid, options) <==> Asked(rows, options) {
      if HasLiveWith(final, pid, options) {
        var id: Id :| LiveIn(final, pid, id) && final.variants[id].options == options;
        var j := LiveIsARow(t, u, pid, rows, results, id);
      }
      if Asked(rows, options) {
        var j :| 0 <= j < |rows| && rows[j].options == options;
        RowIsLive(t, u, pid, rows, results, j);
        ArchivedLive(u, Missing(t, pid, rows), pid, IdOf(results[j]).value);
      }
    }
  }

  lemma AskedKey(rows: seq<GridRow>, j: nat, options: seq<string>)
    requires DistinctRows(rows) && j < |rows| && GridKey(rows[j].options) == GridKey(options)
    ensures Asked(rows, options) <==> rows[j].options == options
  {
    hide GridKey;
  }

  lemma AskedSent(rows: seq<GridRow>, options: seq<string>)
    requires Asked(rows, options)
    ensures Sent(rows, GridKey(options))
  {
    hide GridKey;
  }

  /** A variant that stays alive without being asked for. */
  lemma StrayStays(t: Tables, u: Tables, pid: Id, rows: seq<GridRow>, id: Id)
    requires OthersKept(t, u, pid, rows) && id in t.variants
    requires LiveIn(u, pid, id) && !Asked(rows, t.variants[id].options)
    requires id !in Missing(t, pid, rows)
    ensures !LiveIsGrid(Archive(u, Missing(t, pid, rows)), pid, rows)
  {
    hide GridKey, Missing, Asked, Sent;
    var final := Archive(u, Missing(t, pid, rows));
    ArchivedLive(u, Missing(t, pid, rows), pid, id);
    assert LiveIn(final, pid, id) && final.variants[id].options == t.variants[id].options;
    assert HasLiveWith(final, pid, t.variants[id].options);
  }

  lemma MatchHasKey(t: Tables, pid: Id, key: string)
    ensures var m := Match(t, pid, key);
            m.Some? ==> m.value in t.variants && t.variants[m.value].product == pid && KeyOf(t, m.value) == key
  {
    hide GridKey;
  }

  lemma WrongMatch(t: Tables, u: Tables, pid: Id, rows: seq<GridRow>, results: seq<Status>, j: nat)
    requires OthersKept(t, u, pid, rows) && AllLanded(t, u, pid, rows, results) && DistinctRows(rows)
    requires j < |rows| && IdOf(results[j]).Some?
    requires var m := Match(t, pid, GridKey(rows[j].options));
             m.Some? && m.value in t.variants && t.variants[m.value].options != rows[j].options
    ensures !LiveIsGrid(Archive(u, Missing(t, pid, rows)), pid, rows)
  {
    var id := Match(t, pid, GridKey(rows[j].options)).value;
    assert Landed(t, u, pid, rows[j], IdOf(results[j]).value);
    MatchHasKey(t, pid, GridKey(rows[j].options));
    hide GridKey, Match, Changes, Clash, Missing, LiveIsGrid, Archive;
    AskedKey(rows, j, t.variants[id].options);
    SentRow(rows, j);
    MissingNotSent(t, pid, rows, id);
    StrayStays(t, u, pid, rows, id);
  }

  lemma SharedKey(t: Tables, u: Tables, pid: Id, rows: seq<GridRow>, a: Id, b: Id)
    requires Constrained(t) && OthersKept(t, u, pid, rows) && DistinctRows(rows)
    requires a != b && LiveIn(t, pid, a) && LiveIn(t, pid, b) && KeyOf(t, a) == KeyOf(t, b)
    ensures !LiveIsGrid(Archive(u, Missing(t, pid, rows)), pid, rows)
  {
    assert !SameCell(t.variants[a], t.variants[b]);
    hide GridKey, Constrained, Missing, LiveIsGrid, Archive, LiveAt;
    var key := KeyOf(t, a);
    if Sent(rows, key) {
      var j :| 0 <= j < |rows| && GridKey(rows[j].options) == key;
      var y := if t.variants[a].options != rows[j].options then a else b;
      AskedKey(rows, j, t.variants[y].options);
      MissingNotSent(t, pid, rows, y);
      StrayStays(t, u, pid, rows, y);
    } else {
      var y := if LiveAt(t, pid, key, t.nextId) == Some(a) then b else a;
      if Asked(rows, t.variants[y].options) {
        AskedSent(rows, t.variants[y].options);
      }
      OnlyOneMissing(t, pid, rows, y);
      StrayStays(t, u, pid, rows, y);
    }
  }

  lemma OnlyOneMissing(t: Tables, pid: Id, rows: seq<GridRow>, id: Id)
    requires LiveIn(t, pid, id) && LiveAt(t, pid, KeyOf(t, id), t.nextId) != Some(id)
    ensures id !in Missing(t, pid, rows)
  {
    hide GridKey, LiveAt, Sent;
  }

  lemma GridNeedsApart(t: Tables, u: Tables, pid: Id, rows: seq<GridRow>, results: seq<Status>)
    requires Constrained(t) && OthersKept(t, u, pid, rows) && AllLanded(t, u, pid, rows, results)
    requires NoneFailed(results) && DistinctRows(rows) && !KeysTellApart(t, pid, rows)
    ensures !LiveIsGrid(Archive(u, Missing(t, pid, rows)), pid, rows)
  {
    hide Constrained, OthersKept, Missing, Archive, LiveIsGrid, DistinctRows, Landed, GridKey, LiveAt, Match;
    if a: Id, b: Id :| LiveIn(t, pid, a) && LiveIn(t, pid, b) && KeyOf(t, a) == KeyOf(t, b) && a != b {
      SharedKey(t, u, pid, rows, a, b);
    } else {
      var j :| 0 <= j < |rows| && var m := Match(t, pid, GridKey(rows[j].options));
               m.Some? && m.value in t.variants && t.variants[m.value].options != rows[j].options;
      WrongMatch(t, u, pid, rows, results, j);
    }
  }

  /** A save with archive_missing in which no row failed leaves exactly the grid
      live, each combination once, exactly when keys told the options involved
      apart. */
  lemma GridIsLiveExactlyWhen(t: Tables, pid: Id, version: int, names: seq<string>, rows: seq<GridRow>)
    requires Constrained(t) && Save(t, pid, version, names, rows, true).1.Ok?
    requires NoneFailed(Save(t, pid, version, names, rows, true).1.value.results)
    ensures LiveIsGrid(Save(t, pid, version, names, rows, true).0, pid, rows) <==> KeysTellApart(t, pid, rows)
    ensures Constrained(Save(t, pid, version, names, rows, true).0)
  {
    assert pid in t.products;
    hide Constrained, OthersKept, NoMoreLive, Missing, Archive, LiveIsGrid, DistinctRows, Refused, RowsSaved, Bumped,
      AllLanded, KeysTellApart, NoneFailed;
    RowsDone(t, pid, version, names, rows, true);
    var (u, results) := RowsSaved(t, Bumped(t, pid, names), pid, rows);
    ArchiveConstrained(u, Missing(t, pid, rows));
    if KeysTellApart(t, pid, rows) {
      GridWhenApart(t, u, pid, rows, results);
    } else {
      GridNeedsApart(t, u, pid, rows, results);
    }
  }

  lemma ArchivedPair(t: Tables, ids: set<Id>, i: Id, j: Id)
    requires i in t.variants && j in t.variants
    ensures var u := Archive(t, ids).variants;
            && Checks(u[i]) == Checks(t.variants[i]) && u[i].product == t.variants[i].product
            && SameSku(u[i], u[j]) == SameSku(t.variants[i], t.variants[j])
            && (SameCell(u[i], u[j]) ==> SameCell(t.variants[i], t.variants[j]))
  {
  }

  lemma ArchiveConstrained(t: Tables, ids: set<Id>)
    requires Constrained(t)
    ensures Constrained(Archive(t, ids))
  {
    forall i, j | i in t.variants && j in t.variants
      ensures var u := Archive(t, ids).variants;
              && Checks(u[i]) == Checks(t.variants[i]) && u[i].product == t.variants[i].product
              && SameSku(u[i], u[j]) == SameSku(t.variants[i], t.variants[j])
              && (SameCell(u[i], u[j]) ==> SameCell(t.variants[i], t.variants[j]))
    {
      ArchivedPair(t, ids, i, j);
    }
    ArchiveSame(t, ids);
    hide Checks, SameSku, SameCell, Archive;
  }

  lemma ArchiveSame(t: Tables, ids: set<Id>)
    ensures var u := Archive(t, ids); u.products == t.products && u.nextId == t.nextId && u.variants.Keys == t.variants.Keys
  {
  }

  // ----------------------------------------------------- when keys tell apart

  predicate Typed(options: seq<string>) {
    forall i :: 0 <= i < |options| ==> options[i] != "" && SEPARATOR !in options[i]
  }

  lemma {:induction false} SplitAtSeparator(a: string, x: string, b: string, y: string)
    requires a + [SEPARATOR] + x == b + [SEPARATOR] + y && SEPARATOR !in x && SEPARATOR !in y
    ensures a == b && x == y
  {
    var s := a + [SEPARATOR] + x;
    assert s[|a|] == SEPARATOR && s[|b|] == SEPARATOR;
    assert forall k :: |a| < k < |s| ==> s[k] == x[k - |a| - 1];
    assert forall k :: |b| < k < |s| ==> s[k] == y[k - |b| - 1];
    assert |a| == |b|;
    assert a == s[..|a|] && b == s[..|b|];
    assert x == s[|a| + 1..] && y == s[|b| + 1..];
  }

  lemma KeyHasSeparator(options: seq<string>)
    requires Typed(options)
    ensures SEPARATOR in GridKey(options) <==> |options| > 1
    ensures GridKey(options) == "" <==> options == []
  {
    if |options| > 1 {
      var n := |options| - 1;
      assert GridKey(options)[|GridKey(options[..n])|] == SEPARATOR;
    }
  }

  /** Of option values that are not empty and hold no separator, the key says all. */
  lemma {:induction false} KeyTellsAll(a: seq<string>, b: seq<string>)
    requires Typed(a) && Typed(b) && GridKey(a) == GridKey(b)
    ensures a == b
  {
    KeyHasSeparator(a);
    KeyHasSeparator(b);
    if |a| > 1 {
      var m, n := |a| - 1, |b| - 1;
      SplitAtSeparator(GridKey(a[..m]), a[m], GridKey(b[..n]), b[n]);
      KeyTellsAll(a[..m], b[..n]);
      assert a == a[..m] + [a[m]] && b == b[..n] + [b[n]];
    } else if |a| == 1 {
      assert a == [a[0]] && b == [b[0]];
    }
  }

  lemma OneCell(t: Tables, a: Id, b: Id)
    requires Constrained(t) && a in t.variants && b in t.variants && SameCell(t.variants[a], t.variants[b])
    ensures a == b
  {
    hide Checks;
  }

  /** With values as they can be typed the condition always holds. */
  lemma TypedKeysTellApart(t: Tables, pid: Id, rows: seq<GridRow>)
    requires Constrained(t)
    requires forall id :: id in t.variants && t.variants[id].product == pid ==> Typed(t.variants[id].options)
    requires forall j :: 0 <= j < |rows| ==> Typed(rows[j].options)
    ensures KeysTellApart(t, pid, rows)
  {
    hide GridKey;
    forall a: Id, b: Id | LiveIn(t, pid, a) && LiveIn(t, pid, b) && KeyOf(t, a) == KeyOf(t, b) ensures a == b {
      KeyTellsAll(t.variants[a].options, t.variants[b].options);
      OneCell(t, a, b);
    }
    hide Constrained;
    forall j | 0 <= j < |rows|
      ensures var m := Match(t, pid, GridKey(rows[j].options));
              m.Some? && m.value in t.variants ==> t.variants[m.value].options == rows[j].options
    {
      MatchHasKey(t, pid, GridKey(rows[j].options));
      var m := Match(t, pid, GridKey(rows[j].options));
      if m.Some? && m.value in t.variants {
        KeyTellsAll(t.variants[m.value].options, rows[j].options);
      }
    }
  }

  /** A product without options, and its one variant. */
  function Shirt(): Tables {
    Tables(map[0 := Product("Shirt", "shirt", [], false, 1)],
           map[1 := Variant(0, None, None, [], 0, None, None, None, 0, false, 1)], 2)
  }

  /** The grid now wanted: one size, left empty. */
  function OneSize(): seq<GridRow> {
    [GridRow([""], Fields(None, false, None, false, None, None, false, None, false, None, false, None))]
  }

  lemma SizeIsAName()
    ensures CheckNames(["Size"], 1) == None
  {
    assert Trim("Size") == "Size";
    assert Lower("Size") == "size";
    assert CheckNames(["Size"], 0) == None;
  }

  lemma ShirtIsOne()
    ensures Constrained(Shirt()) && LiveAt(Shirt(), 0, "", 2) == Some(1)
  {
  }

  lemma OneSizeSaved()
    ensures var (u, saved) := Save(Shirt(), 0, 1, ["Size"], OneSize(), true);
            saved == Ok(Saved(2, [Unchanged(1)], {})) && u.variants == Shirt().variants
  {
    var rows, bumped := OneSize(), Bumped(Shirt(), 0, ["Size"]);
    SizeIsAName();
    ShirtIsOne();
    assert GridKey(rows[0].options) == "" == GridKey([]);
    assert Missing(Shirt(), 0, rows) == {};
    hide CheckNames, Missing, LiveAt;
    assert CheckGrid(["Size"], rows) == None;
    assert Refused(Shirt(), 0, 1, ["Size"], rows, true) == None;
    OneRowSaved(Shirt(), bumped, 0, rows[0]);
    assert RowSaved(Shirt(), bumped, 0, rows[0]) == (bumped, Unchanged(1));
    ArchiveNone(bumped, {});
  }

  lemma OneRowSaved(before: Tables, start: Tables, pid: Id, row: GridRow)
    ensures var (u, s) := RowSaved(before, start, pid, row); RowsSaved(before, start, pid, [row]) == (u, [s])
  {
    hide RowSaved;
    assert [row][..0] == [] && RowsSaved(before, start, pid, []) == (start, []);
    var s := RowSaved(before, start, pid, row).1;
    assert [] + [s] == [s];
  }

  /** The save reports no failure, and the live variant has no size. */
  lemma AnEmptyValueIsNotTheGrid()
    ensures var (u, saved) := Save(Shirt(), 0, 1, ["Size"], OneSize(), true);
            && Constrained(Shirt()) && saved.Ok? && NoneFailed(saved.value.results) && !LiveIsGrid(u, 0, OneSize())
  {
    OneSizeSaved();
    ShirtIsOne();
    hide Save;
    var u := Save(Shirt(), 0, 1, ["Size"], OneSize(), true).0;
    assert LiveIn(u, 0, 1);
    assert HasLiveWith(u, 0, []) && !Asked(OneSize(), []);
  }

  // ------------------------------------------------------------ saving again

  ghost predicate LandedBy(rows: seq<GridRow>, results: seq<Status>, key: string, id: Id) {
    exists j :: 0 <= j < |rows| && |rows| == |results| && IdOf(results[j]) == Some(id) && GridKey(rows[j].options) == key
  }

  /** Where a live variant comes from: it was live under its key, or a row landed it. */
  lemma Origin(t: Tables, u: Tables, pid: Id, rows: seq<GridRow>, results: seq<Status>, id: Id)
    requires OthersKept(t, u, pid, rows) && LiveIn(u, pid, id)
    requires AllLanded(t, u, pid, rows, results) && NoMoreLive(t, u, pid, results)
    ensures (LiveIn(t, pid, id) && KeyOf(t, id) == KeyOf(u, id)) || LandedBy(rows, results, KeyOf(u, id), id)
  {
    hide GridKey, Match, Changes, Clash;
    if !LiveIn(t, pid, id) {
      var j :| 0 <= j < |results| && IdOf(results[j]) == Some(id);
      assert Landed(t, u, pid, rows[j], id);
    }
  }

  lemma OneLanding(rows: seq<GridRow>, results: seq<Status>, key: string, a: Id, b: Id)
    requires DistinctRows(rows) && LandedBy(rows, results, key, a) && LandedBy(rows, results, key, b)
    ensures a == b
  {
    hide GridKey;
  }

  /** The variant of a row is the one that saving again finds under the row's key. */
  predicate Found(t: Tables, pid: Id, row: GridRow) {
    var live := LiveAt(t, pid, GridKey(row.options), t.nextId);
    live.Some? && Settled(t, pid, row, live.value)
  }

  lemma FoundAs(t: Tables, pid: Id, row: GridRow, id: Id)
    requires Settled(t, pid, row, id) && id < t.nextId
    requires forall b: Id :: LiveIn(t, pid, b) && KeyOf(t, b) == GridKey(row.options) ==> b <= id
    ensures Found(t, pid, row)
  {
    hide GridKey, Changes, Clash;
    var live := LiveAt(t, pid, GridKey(row.options), t.nextId);
    assert In(t, pid, id, false, GridKey(row.options));
    assert live.Some? && id <= live.value && LiveIn(t, pid, live.value);
  }

  /** A row's variant is the newest live one of its key: the newest was matched
      before, and no other row has the key. */
  lemma LandedNewest(t: Tables, u: Tables, pid: Id, rows: seq<GridRow>, results: seq<Status>, j: nat, b: Id)
    requires OthersKept(t, u, pid, rows) && AllLanded(t, u, pid, rows, results) && NoMoreLive(t, u, pid, results)
    requires DistinctRows(rows) && j < |rows| && IdOf(results[j]).Some? && Constrained(t)
    requires LiveIn(u, pid, b) && KeyOf(u, b) == GridKey(rows[j].options)
    ensures b <= IdOf(results[j]).value
  {
    var id, key := IdOf(results[j]).value, GridKey(rows[j].options);
    Origin(t, u, pid, rows, results, b);
    assert b in t.variants ==> b < t.nextId;
    assert Landed(t, u, pid, rows[j], id);
    hide GridKey, Constrained, Changes, Clash, OthersKept, AllLanded, NoMoreLive, DistinctRows;
    if LandedBy(rows, results, key, b) {
      OneLanding(rows, results, key, id, b);
    } else {
      assert In(t, pid, b, false, key);
    }
  }

  lemma LandedSettled(
      t: Tables, u: Tables, pid: Id, rows: seq<GridRow>, results: seq<Status>, missing: set<Id>, j: nat)
    requires AllLanded(t, u, pid, rows, results) && OthersKept(t, u, pid, rows)
    requires j < |rows| && IdOf(results[j]).Some? && missing <= Missing(t, pid, rows)
    ensures Settled(Archive(u, missing), pid, rows[j], IdOf(results[j]).value)
  {
    var id := IdOf(results[j]).value;
    assert Landed(t, u, pid, rows[j], id);
    hide GridKey, Match, Changes, Clash, Missing, Archive;
    MissingNotSent(t, pid, rows, id);
    SentRow(rows, j);
    ArchivedLive(u, missing, pid, id);
  }

  lemma RowFound(t: Tables, u: Tables, pid: Id, rows: seq<GridRow>, results: seq<Status>, missing: set<Id>, j: nat)
    requires Constrained(t) && Constrained(u) && DistinctRows(rows) && missing <= Missing(t, pid, rows)
    requires OthersKept(t, u, pid, rows) && AllLanded(t, u, pid, rows, results) && NoMoreLive(t, u, pid, results)
    requires j < |rows| && IdOf(results[j]).Some?
    ensures Found(Archive(u, missing), pid, rows[j])
  {
    var id, final := IdOf(results[j]).value, Archive(u, missing);
    LandedSettled(t, u, pid, rows, results, missing, j);
    assert id in u.variants;
    assert id < u.nextId;
    ArchiveNext(u, missing);
    hide GridKey, Changes, Clash, OthersKept, AllLanded, NoMoreLive, DistinctRows, Constrained, Missing, Archive, Found;
    forall b: Id | LiveIn(final, pid, b) && KeyOf(final, b) == GridKey(rows[j].options) ensures b <= id {
      ArchivedLive(u, missing, pid, b);
      LandedNewest(t, u, pid, rows, results, j, b);
    }
    FoundAs(final, pid, rows[j], id);
  }

  lemma RowsFound(t: Tables, u: Tables, pid: Id, rows: seq<GridRow>, results: seq<Status>, missing: set<Id>)
    requires Constrained(t) && Constrained(u) && DistinctRows(rows) && missing <= Missing(t, pid, rows)
    requires OthersKept(t, u, pid, rows) && AllLanded(t, u, pid, rows, results) && NoMoreLive(t, u, pid, results)
    requires NoneFailed(results)
    ensures forall j :: 0 <= j < |rows| ==> Found(Archive(u, missing), pid, rows[j])
  {
    hide OthersKept, NoMoreLive, Missing, Archive, DistinctRows, Landed, Constrained, Found;
    forall j | 0 <= j < |rows| ensures Found(Archive(u, missing), pid, rows[j]) {
      RowFound(t, u, pid, rows, results, missing, j);
    }
  }

  /** In the tables a save without failures leaves, each row finds its variant. */
  lemma SavedIsFound(t: Tables, pid: Id, version: int, names: seq<string>, rows: seq<GridRow>, archiveMissing: bool)
    requires Constrained(t) && Save(t, pid, version, names, rows, archiveMissing).1.Ok?
    requires NoneFailed(Save(t, pid, version, names, rows, archiveMissing).1.value.results)
    ensures var next := Save(t, pid, version, names, rows, archiveMissing).0;
            Constrained(next) && forall j :: 0 <= j < |rows| ==> Found(next, pid, rows[j])
  {
    assert pid in t.products;
    hide Constrained, OthersKept, NoMoreLive, Missing, Archive, DistinctRows, Refused, RowsSaved, Bumped,
      AllLanded, NoneFailed, Found;
    RowsDone(t, pid, version, names, rows, archiveMissing);
    var (u, results) := RowsSaved(t, Bumped(t, pid, names), pid, rows);
    var missing := if archiveMissing then Missing(t, pid, rows) else {};
    RowsFound(t, u, pid, rows, results, missing);
    ArchiveConstrained(u, missing);
  }

  lemma ArchiveNext(t: Tables, ids: set<Id>)
    ensures Archive(t, ids).nextId == t.nextId
  {
  }

  lemma {:induction false} ResultAt(before: Tables, start: Tables, pid: Id, rows: seq<GridRow>, j: nat)
    requires j < |rows|
    ensures var results := RowsSaved(before, start, pid, rows).1;
            && |results| == |rows|
            && results[j] == RowSaved(before, RowsSaved(before, start, pid, rows[..j]).0, pid, rows[j]).1
  {
    hide RowSaved;
    var n := |rows| - 1;
    if j < n {
      ResultAt(before, start, pid, rows[..n], j);
      assert rows[..n][..j] == rows[..j];
    } else if n > 0 {
      ResultAt(before, start, pid, rows[..n], 0);
    }
  }

  lemma UnchangedExactlyWhen(before: Tables, t: Tables, pid: Id, row: GridRow)
    requires Found(before, pid, row)
    ensures RowSaved(before, t, pid, row).1.Unchanged? <==> !Clash(row.fields)
    ensures !Clash(row.fields) ==> RowSaved(before, t, pid, row).0 == t
  {
    hide GridKey, Changes, Clash, Write, LiveAt, ArchivedAt;
  }

  lemma {:induction false} RowsUnchanged(before: Tables, start: Tables, pid: Id, rows: seq<GridRow>)
    requires forall j :: 0 <= j < |rows| ==> Found(before, pid, rows[j]) && !Clash(rows[j].fields)
    ensures RowsSaved(before, start, pid, rows).0 == start
  {
    hide Found, Clash, RowSaved;
    if rows != [] {
      var n := |rows| - 1;
      RowsUnchanged(before, start, pid, rows[..n]);
      UnchangedExactlyWhen(before, start, pid, rows[n]);
    }
  }

  lemma NotRefusedAgain(t: Tables, pid: Id, version: int, names: seq<string>, rows: seq<GridRow>, archiveMissing: bool)
    requires Constrained(t) && Save(t, pid, version, names, rows, archiveMissing).1.Ok?
    ensures var (next, saved) := Save(t, pid, version, names, rows, archiveMissing);
            Refused(next, pid, saved.value.version, names, rows, archiveMissing).None?
  {
    hide Constrained, CheckGrid, HasLive, RowsSaved, Missing;
    var (u, results) := RowsSaved(t, Bumped(t, pid, names), pid, rows);
    assert u.products == Bumped(t, pid, names).products by {
      RowsDone(t, pid, version, names, rows, archiveMissing);
    }
  }

  /** Saving the same grid again, at the version the first save returned, is never
      refused and reports a row unchanged exactly when the row does not clear and
      send one column at once. */
  lemma SavingAgainReportsUnchanged(
      t: Tables, pid: Id, version: int, names: seq<string>, rows: seq<GridRow>, archiveMissing: bool)
    requires Constrained(t) && Save(t, pid, version, names, rows, archiveMissing).1.Ok?
    requires NoneFailed(Save(t, pid, version, names, rows, archiveMissing).1.value.results)
    ensures var (next, saved) := Save(t, pid, version, names, rows, archiveMissing);
            var again := Save(next, pid, saved.value.version, names, rows, archiveMissing);
            && again.1.Ok? && |again.1.value.results| == |rows|
            && (forall j :: 0 <= j < |rows| ==> (again.1.value.results[j].Unchanged? <==> !Clash(rows[j].fields)))
  {
    NotRefusedAgain(t, pid, version, names, rows, archiveMissing);
    SavedIsFound(t, pid, version, names, rows, archiveMissing);
    var (next, saved) := Save(t, pid, version, names, rows, archiveMissing);
    assert pid in next.products;
    AgainRows(next, Bumped(next, pid, names), pid, rows);
    hide Constrained, Found, Clash, RowSaved, Refused, RowsSaved, Missing, Archive, Bumped;
  }

  lemma AgainRows(next: Tables, start: Tables, pid: Id, rows: seq<GridRow>)
    requires forall j :: 0 <= j < |rows| ==> Found(next, pid, rows[j])
    ensures |RowsSaved(next, start, pid, rows).1| == |rows|
    ensures forall j :: 0 <= j < |rows| ==>
              (RowsSaved(next, start, pid, rows).1[j].Unchanged? <==> !Clash(rows[j].fields))
    ensures (forall j :: 0 <= j < |rows| ==> !Clash(rows[j].fields)) ==> RowsSaved(next, start, pid, rows).0 == start
  {
    hide Found, Clash, RowSaved;
    forall j | 0 <= j < |rows|
      ensures |RowsSaved(next, start, pid, rows).1| == |rows|
      ensures RowsSaved(next, start, pid, rows).1[j].Unchanged? <==> !Clash(rows[j].fields)
    {
      ResultAt(next, start, pid, rows, j);
      UnchangedExactlyWhen(next, RowsSaved(next, start, pid, rows[..j]).0, pid, rows[j]);
    }
    if forall j :: 0 <= j < |rows| ==> !Clash(rows[j].fields) {
      RowsUnchanged(next, start, pid, rows);
    }
  }

  // ------------------------------------------------- and archiving again

  ghost predicate Unsent(t: Tables, pid: Id, rows: seq<GridRow>, id: Id) {
    LiveIn(t, pid, id) && !Sent(rows, KeyOf(t, id))
  }

  /** No two live variants share a key the grid leaves out. */
  ghost predicate UnsentApart(t: Tables, pid: Id, rows: seq<GridRow>) {
    forall a: Id, b: Id :: Unsent(t, pid, rows, a) && Unsent(t, pid, rows, b) && KeyOf(t, a) == KeyOf(t, b) ==> a == b
  }

  /** What the grid leaves out and the first save leaves alive: live variants that
      share the key of a newer one. */
  lemma StillUnsent(t: Tables, u: Tables, pid: Id, rows: seq<GridRow>, results: seq<Status>, id: Id)
    requires OthersKept(t, u, pid, rows) && AllLanded(t, u, pid, rows, results) && NoMoreLive(t, u, pid, results)
    ensures Unsent(Archive(u, Missing(t, pid, rows)), pid, rows, id) <==>
            Unsent(t, pid, rows, id) && LiveAt(t, pid, KeyOf(t, id), t.nextId) != Some(id)
  {
    ArchivedLive(u, Missing(t, pid, rows), pid, id);
    if LiveIn(u, pid, id) {
      Origin(t, u, pid, rows, results, id);
    }
    hide GridKey, Archive, AllLanded, NoMoreLive, LiveAt;
  }

  lemma MissingWhenUnsent(t: Tables, pid: Id, rows: seq<GridRow>)
    requires Constrained(t)
    ensures Missing(t, pid, rows) == {} <==> forall id: Id :: !Unsent(t, pid, rows, id)
  {
    assert forall id :: id in t.variants ==> id < t.nextId;
    hide Constrained, GridKey, Sent;
    assert forall id :: id in Missing(t, pid, rows) ==> Unsent(t, pid, rows, id);
    if id: Id :| Unsent(t, pid, rows, id) {
      var live := LiveAt(t, pid, KeyOf(t, id), t.nextId);
      assert In(t, pid, id, false, KeyOf(t, id));
      assert live.Some? && live.value in Missing(t, pid, rows);
    }
  }

  lemma NewestUnsent(t: Tables, pid: Id, rows: seq<GridRow>)
    requires Constrained(t)
    ensures UnsentApart(t, pid, rows) <==>
            forall id: Id :: Unsent(t, pid, rows, id) ==> LiveAt(t, pid, KeyOf(t, id), t.nextId) == Some(id)
  {
    assert forall id :: id in t.variants ==> id < t.nextId;
    hide Constrained, GridKey, Sent;
    forall id: Id | Unsent(t, pid, rows, id)
      ensures var live := LiveAt(t, pid, KeyOf(t, id), t.nextId);
              live.Some? && Unsent(t, pid, rows, live.value) && KeyOf(t, live.value) == KeyOf(t, id)
    {
      assert In(t, pid, id, false, KeyOf(t, id));
    }
  }

  lemma NothingMissing(t: Tables, pid: Id, version: int, names: seq<string>, rows: seq<GridRow>)
    requires Constrained(t) && Save(t, pid, version, names, rows, true).1.Ok?
    requires Constrained(Save(t, pid, version, names, rows, true).0)
    ensures Missing(Save(t, pid, version, names, rows, true).0, pid, rows) == {} <==> UnsentApart(t, pid, rows)
  {
    assert pid in t.products;
    RowsDone(t, pid, version, names, rows, true);
    var (u, results) := RowsSaved(t, Bumped(t, pid, names), pid, rows);
    var next := Save(t, pid, version, names, rows, true).0;
    assert next == Archive(u, Missing(t, pid, rows));
    MissingWhenUnsent(next, pid, rows);
    NewestUnsent(t, pid, rows);
    hide Constrained, OthersKept, AllLanded, NoMoreLive, Archive, Refused, RowsSaved, Bumped, Save, Unsent,
      DistinctRows, GridKey, LiveAt, Missing, UnsentApart;
    forall id: Id
      ensures Unsent(next, pid, rows, id) <==>
              Unsent(t, pid, rows, id) && LiveAt(t, pid, KeyOf(t, id), t.nextId) != Some(id)
    {
      StillUnsent(t, u, pid, rows, results, id);
    }
  }

  lemma ArchiveNone(t: Tables, ids: set<Id>)
    requires ids <= t.variants.Keys
    ensures Archive(t, ids).variants == t.variants <==> ids == {}
  {
    if id :| id in ids {
      assert Archive(t, ids).variants[id] != t.variants[id];
    }
  }

  lemma MissingAre(t: Tables, pid: Id, rows: seq<GridRow>)
    ensures Missing(t, pid, rows) <= t.variants.Keys
  {
  }

  /** If no row contradicts itself, saving again writes no variant; and it archives
      none exactly when no two live variants shared a key the grid leaves out. */
  lemma SavingAgainWritesNothing(
      t: Tables, pid: Id, version: int, names: seq<string>, rows: seq<GridRow>, archiveMissing: bool)
    requires Constrained(t) && Save(t, pid, version, names, rows, archiveMissing).1.Ok?
    requires NoneFailed(Save(t, pid, version, names, rows, archiveMissing).1.value.results)
    requires forall j :: 0 <= j < |rows| ==> !Clash(rows[j].fields)
    ensures var (next, saved) := Save(t, pid, version, names, rows, archiveMissing);
            var again := Save(next, pid, saved.value.version, names, rows, archiveMissing);
            && again.1.Ok? && again.0.variants == Archive(next, again.1.value.archived).variants
            && (again.0.variants == next.variants <==> (archiveMissing ==> UnsentApart(t, pid, rows)))
            && (again.1.value.archived == {} <==> (archiveMissing ==> UnsentApart(t, pid, rows)))
  {
    NotRefusedAgain(t, pid, version, names, rows, archiveMissing);
    SavedIsFound(t, pid, version, names, rows, archiveMissing);
    if archiveMissing {
      NothingMissing(t, pid, version, names, rows);
    }
    var (next, saved) := Save(t, pid, version, names, rows, archiveMissing);
    assert pid in next.products;
    AgainRows(next, Bumped(next, pid, names), pid, rows);
    var missing := if archiveMissing then Missing(next, pid, rows) else {};
    MissingAre(next, pid, rows);
    ArchiveNone(Bumped(next, pid, names), missing);
    ArchivedAlike(Bumped(next, pid, names), next, missing);
    assert Bumped(next, pid, names).variants == next.variants;
    hide Constrained, Found, Clash, RowSaved, Refused, RowsSaved, Missing, Archive, Bumped, UnsentApart;
  }

  lemma ArchivedAlike(t: Tables, u: Tables, ids: set<Id>)
    requires t.variants == u.variants
    ensures Archive(t, ids).variants == Archive(u, ids).variants
  {
  }

  /** Two live variants whose values hold the separator, under one key. */
  function Twins(): Tables {
    Tables(map[0 := Product("Shirt", "shirt", ["A", "B"], false, 1)],
           map[1 := Variant(0, None, None, [[SEPARATOR], ""], 0, None, None, None, 0, false, 1),
               2 := Variant(0, None, None, ["", [SEPARATOR]], 0, None, None, None, 0, false, 1)], 3)
  }

  lemma TwoNames()
    ensures CheckNames(["A", "B"], 2) == None
  {
    assert Trim("A") == "A" && Trim("B") == "B" && Lower("A") == "a" && Lower("B") == "b";
    assert CheckNames(["A", "B"], 0) == None;
    assert CheckNames(["A", "B"], 1) == None;
  }

  const TWIN_KEY := [SEPARATOR, SEPARATOR]

  lemma TwinKey()
    ensures GridKey([[SEPARATOR], ""]) == TWIN_KEY == GridKey(["", [SEPARATOR]])
  {
    assert [[SEPARATOR], ""][..1] == [[SEPARATOR]] && ["", [SEPARATOR]][..1] == [""];
    assert GridKey([[SEPARATOR], ""]) == [SEPARATOR] + [SEPARATOR] + "";
    assert GridKey(["", [SEPARATOR]]) == "" + [SEPARATOR] + [SEPARATOR];
  }

  lemma TwinsAreLawful()
    ensures Constrained(Twins())
  {
    hide GridKey;
    var v, w := Twins().variants[1], Twins().variants[2];
    assert v.options[1] != w.options[1];
    assert !SameCell(v, w) && !SameCell(w, v) && !SameSku(v, w) && !SameSku(w, v) && Checks(v) && Checks(w);
    hide SameCell, SameSku, Checks;
  }

  /** What is live under the twins' key, before and after the newer has gone. */
  lemma TwinsAreLive()
    ensures LiveAt(Twins(), 0, TWIN_KEY, 3) == Some(2) && LiveAt(Archive(Twins(), {2}), 0, TWIN_KEY, 3) == Some(1)
  {
    TwinKey();
    hide GridKey;
    assert In(Twins(), 0, 2, false, TWIN_KEY);
    assert In(Archive(Twins(), {2}), 0, 1, false, TWIN_KEY) && !In(Archive(Twins(), {2}), 0, 2, false, TWIN_KEY);
  }

  lemma TwinsMissing()
    ensures Missing(Twins(), 0, []) == {2} && Missing(Archive(Twins(), {2}), 0, []) == {1}
  {
    TwinKey();
    TwinsAreLive();
    hide GridKey, LiveAt;
  }

  /** What a save of an empty grid does, when it is not refused. */
  lemma NothingSaved(t: Tables, pid: Id, names: seq<string>, version: int)
    requires CheckNames(names, |names|) == None && pid in t.products && !t.products[pid].archived
    requires t.products[pid].version == version && t.products[pid].optionNames == names
    ensures Save(t, pid, version, names, [], true) ==
            (Archive(Bumped(t, pid, names), Missing(t, pid, [])), Ok(Saved(version + 1, [], Missing(t, pid, []))))
  {
    hide CheckNames, Missing, Archive;
  }

  lemma MissingAlike(t: Tables, u: Tables, pid: Id)
    requires t.variants == u.variants && t.nextId == u.nextId
    ensures Missing(t, pid, []) == Missing(u, pid, [])
  {
    hide GridKey, LiveAt;
    forall key ensures LiveAt(t, pid, key, t.nextId) == LiveAt(u, pid, key, u.nextId) {
      LiveAlike(t, u, pid, key, t.nextId);
    }
  }

  lemma {:induction false} LiveAlike(t: Tables, u: Tables, pid: Id, key: string, below: Id)
    requires t.variants == u.variants
    ensures LiveAt(t, pid, key, below) == LiveAt(u, pid, key, below)
  {
    hide GridKey;
    if below > 0 {
      LiveAlike(t, u, pid, key, below - 1);
    }
  }

  /** An empty grid archives the newer of the two; saved again, the other one. */
  lemma ArchivedOneAtATime()
    ensures var (next, saved) := Save(Twins(), 0, 1, ["A", "B"], [], true);
            && Constrained(Twins()) && saved == Ok(Saved(2, [], {2}))
            && Save(next, 0, 2, ["A", "B"], [], true).1 == Ok(Saved(3, [], {1}))
  {
    hide Constrained, Save, Missing, Archive, CheckNames;
    TwoNames();
    TwinsAreLawful();
    TwinsMissing();
    NothingSaved(Twins(), 0, ["A", "B"], 1);
    var bumped := Bumped(Twins(), 0, ["A", "B"]);
    var next := Archive(bumped, {2});
    ArchivedAlike(bumped, Twins(), {2});
    ArchiveSame(bumped, {2});
    ArchiveSame(Twins(), {2});
    MissingAlike(next, Archive(Twins(), {2}), 0);
    NothingSaved(next, 0, ["A", "B"], 2);
  }
}
