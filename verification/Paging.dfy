/** The order list: a filter, one of two sorts, and pages found either by a
    position in the order or by their number. */
module Paging {
  import opened Base

  datatype Row = Row(
    id: nat,
    status: string,
    source: string,
    customer: Option<nat>,
    placedAt: int,
    paidAt: Option<int>,
    refundedAt: Option<int>)

  datatype Cursor = Cursor(at: int, id: nat)

  /** An absent part does not restrict; no statuses means any. */
  datatype Filter = Filter(
    status: set<string>,
    source: Option<string>,
    customer: Option<nat>,
    refundOwed: Option<bool>,
    placedFrom: Option<int>,
    placedTo: Option<int>)

  datatype Page = Page(rows: seq<Row>, next: Option<Cursor>, total: nat)

  predicate RefundOwed(r: Row) {
    r.status == "cancelled" && r.paidAt.Some? && r.refundedAt.None?
  }

  predicate Matches(f: Filter, r: Row) {
    && (f.status != {} ==> r.status in f.status)
    && (f.source.Some? ==> r.source == f.source.value)
    && (f.customer.Some? ==> r.customer == f.customer)
    && (f.refundOwed.Some? ==> RefundOwed(r) == f.refundOwed.value)
    && (f.placedFrom.Some? ==> r.placedAt >= f.placedFrom.value)
    && (f.placedTo.Some? ==> r.placedAt < f.placedTo.value)
  }

  function Place(r: Row): Cursor {
    Cursor(r.placedAt, r.id)
  }

  /** (placed_at, id) < (placed_at, id), or > for the default sort. */
  predicate Precedes(a: Cursor, b: Cursor, asc: bool) {
    if asc then a.at < b.at || (a.at == b.at && a.id < b.id)
    else b.at < a.at || (a.at == b.at && b.id < a.id)
  }

  // --------------------------------------------------------------- the query

  /** WHERE. */
  function Chosen(table: seq<Row>, f: Filter, after: Option<Cursor>, asc: bool): seq<Row> {
    if table == [] then []
    else
      var rest := Chosen(table[1..], f, after, asc);
      if Matches(f, table[0]) && (after.Some? ==> Precedes(after.value, Place(table[0]), asc))
      then [table[0]] + rest else rest
  }

  function Inserted(r: Row, s: seq<Row>, asc: bool): seq<Row> {
    if s == [] || Precedes(Place(r), Place(s[0]), asc) then [r] + s
    else [s[0]] + Inserted(r, s[1..], asc)
  }

  /** ORDER BY placed_at, id, both one way. */
  function Ordered(s: seq<Row>, asc: bool): seq<Row> {
    if s == [] then [] else Inserted(s[0], Ordered(s[1..], asc), asc)
  }

  /** OFFSET and LIMIT. */
  function Slice(s: seq<Row>, offset: nat, limit: nat): seq<Row> {
    var from := if offset < |s| then s[offset..] else [];
    if limit < |from| then from[..limit] else from
  }

  function Fetched(table: seq<Row>, f: Filter, asc: bool, after: Option<Cursor>, page: nat, limit: nat): seq<Row> {
    var cursor := if page > 0 then None else after;
    Slice(Ordered(Chosen(table, f, cursor, asc), asc), if page > 0 then (page - 1) * limit else 0, limit + 1)
  }

  /** List: of one row more than asked for, the page is all but the last. */
  method List(table: seq<Row>, f: Filter, asc: bool, after: Option<Cursor>, page: nat, limit: nat) returns (p: Page)
    requires limit >= 1
    ensures p == Listed(table, f, asc, after, page, limit)
  {
    var total := |Chosen(table, f, None, asc)|;
    var found := Fetched(table, f, asc, after, page, limit);
    var out: seq<Row> := [];
    var next: Option<Cursor> := None;
    for i := 0 to |found|
      invariant out == if i <= limit then found[..i] else found[..limit]
      invariant next == if i <= limit then None else Some(Place(found[limit - 1]))
    {
      if |out| < limit {
        out := out + [found[i]];
      } else {
        next := Some(Place(out[limit - 1]));
      }
    }
    p := Page(out, next, total);
  }

  function Listed(table: seq<Row>, f: Filter, asc: bool, after: Option<Cursor>, page: nat, limit: nat): Page
    requires limit >= 1
  {
    var found := Fetched(table, f, asc, after, page, limit);
    var total := |Chosen(table, f, None, asc)|;
    if |found| <= limit then Page(found, None, total)
    else Page(found[..limit], Some(Place(found[limit - 1])), total)
  }

  /** The requested page size, clamped. */
  function PageLimit(l: Option<int>): (n: nat)
    ensures 1 <= n <= 200
    ensures l.Some? && 1 <= l.value <= 200 ==> n == l.value
    ensures l.Some? && l.value < 1 ==> n == 1
    ensures l.Some? && 200 < l.value ==> n == 200
    ensures l.None? ==> n == 50
  {
    match l
    case None => 50
    case Some(x) => if x < 1 then 1 else if x > 200 then 200 else x
  }

  // -------------------------------------------------------------- the order

  ghost predicate Sorted(s: seq<Row>, asc: bool) {
    forall i, j :: 0 <= i < j < |s| ==> Precedes(Place(s[i]), Place(s[j]), asc)
  }

  /** Ids are primary keys. */
  predicate DistinctIds(s: seq<Row>) {
    forall i, j :: 0 <= i < j < |s| ==> s[i].id != s[j].id
  }

  lemma {:induction false} InsertedMembers(r: Row, s: seq<Row>, asc: bool)
    ensures multiset(Inserted(r, s, asc)) == multiset{r} + multiset(s)
  {
    if s != [] && !Precedes(Place(r), Place(s[0]), asc) {
      InsertedMembers(r, s[1..], asc);
      assert s == [s[0]] + s[1..];
    }
  }

  lemma {:induction false} InsertedSorted(r: Row, s: seq<Row>, asc: bool)
    requires Sorted(s, asc) && forall i :: 0 <= i < |s| ==> s[i].id != r.id
    ensures Sorted(Inserted(r, s, asc), asc)
  {
    if s != [] && !Precedes(Place(r), Place(s[0]), asc) {
      InsertedSorted(r, s[1..], asc);
      InsertedMembers(r, s[1..], asc);
      var t := Inserted(r, s[1..], asc);
      forall j | 0 <= j < |t| ensures Precedes(Place(s[0]), Place(t[j]), asc) {
        assert t[j] in multiset(t);
        if t[j] != r {
          assert t[j] in s[1..];
        }
      }
    }
  }

  lemma {:induction false} OrderedMembers(s: seq<Row>, asc: bool)
    ensures multiset(Ordered(s, asc)) == multiset(s)
  {
    if s != [] {
      OrderedMembers(s[1..], asc);
      InsertedMembers(s[0], Ordered(s[1..], asc), asc);
      assert s == [s[0]] + s[1..];
    }
  }

  lemma {:induction false} OrderedSorted(s: seq<Row>, asc: bool)
    requires DistinctIds(s)
    ensures Sorted(Ordered(s, asc), asc)
  {
    if s != [] {
      var t := Ordered(s[1..], asc);
      OrderedSorted(s[1..], asc);
      OrderedMembers(s[1..], asc);
      forall i | 0 <= i < |t| ensures t[i].id != s[0].id {
        assert t[i] in multiset(t);
        assert t[i] in s[1..];
      }
      InsertedSorted(s[0], t, asc);
    }
  }

  /** The rows of a sorted list past a position. */
  function Past(s: seq<Row>, c: Cursor, asc: bool): seq<Row> {
    if s == [] then []
    else if Precedes(c, Place(s[0]), asc) then [s[0]] + Past(s[1..], c, asc)
    else Past(s[1..], c, asc)
  }

  lemma {:induction false} PastAll(s: seq<Row>, c: Cursor, asc: bool)
    requires forall i :: 0 <= i < |s| ==> Precedes(c, Place(s[i]), asc)
    ensures Past(s, c, asc) == s
  {
    if s != [] {
      PastAll(s[1..], c, asc);
      assert s == [s[0]] + s[1..];
    }
  }

  /** Past a row of the list itself: exactly the rows behind it. */
  lemma {:induction false} PastRow(s: seq<Row>, i: nat, asc: bool)
    requires Sorted(s, asc) && i < |s|
    ensures Past(s, Place(s[i]), asc) == s[i + 1..]
  {
    if i == 0 {
      PastAll(s[1..], Place(s[0]), asc);
    } else {
      assert Precedes(Place(s[0]), Place(s[i]), asc);
      PastRow(s[1..], i - 1, asc);
      assert s[1..][i..] == s[i + 1..];
    }
  }

  lemma {:induction false} PastInserted(r: Row, s: seq<Row>, c: Cursor, asc: bool)
    requires Sorted(s, asc)
    ensures Past(Inserted(r, s, asc), c, asc) ==
            if Precedes(c, Place(r), asc) then Inserted(r, Past(s, c, asc), asc) else Past(s, c, asc)
  {
    if s == [] || Precedes(Place(r), Place(s[0]), asc) {
      assert ([r] + s)[1..] == s;
      if Precedes(c, Place(r), asc) {
        forall i | 0 <= i < |s| ensures Precedes(c, Place(s[i]), asc) {
          assert i > 0 ==> Precedes(Place(s[0]), Place(s[i]), asc);
        }
        PastAll(s, c, asc);
      }
    } else {
      PastInserted(r, s[1..], c, asc);
      assert ([s[0]] + Inserted(r, s[1..], asc))[1..] == Inserted(r, s[1..], asc);
      if Precedes(c, Place(s[0]), asc) {
        assert ([s[0]] + Past(s[1..], c, asc))[1..] == Past(s[1..], c, asc);
      }
    }
  }

  lemma {:induction false} ChosenRows(table: seq<Row>, f: Filter, after: Option<Cursor>, asc: bool)
    ensures forall r :: r in Chosen(table, f, after, asc) ==> r in table && Matches(f, r)
    ensures forall r :: r in Chosen(table, f, None, asc) <==> r in table && Matches(f, r)
  {
    hide Matches, Precedes;
    if table != [] {
      ChosenRows(table[1..], f, after, asc);
      assert table == [table[0]] + table[1..];
    }
  }

  lemma {:induction false} ChosenDistinct(table: seq<Row>, f: Filter, after: Option<Cursor>, asc: bool)
    requires DistinctIds(table)
    ensures DistinctIds(Chosen(table, f, after, asc))
  {
    hide Matches, Precedes;
    if table != [] {
      var rest := Chosen(table[1..], f, after, asc);
      ChosenDistinct(table[1..], f, after, asc);
      ChosenRows(table[1..], f, after, asc);
      forall i | 0 <= i < |rest| ensures rest[i].id != table[0].id {
        assert rest[i] in rest;
      }
    }
  }

  /** The whole list. */
  function All(table: seq<Row>, f: Filter, asc: bool): seq<Row> {
    Ordered(Chosen(table, f, None, asc), asc)
  }

  /** Every matching row is in it, once, in the order asked for. */
  lemma AllListsEachOnce(table: seq<Row>, f: Filter, asc: bool)
    requires DistinctIds(table)
    ensures Sorted(All(table, f, asc), asc) && NoDuplicates(All(table, f, asc))
    ensures forall r :: r in All(table, f, asc) <==> r in table && Matches(f, r)
    ensures |All(table, f, asc)| == |Chosen(table, f, None, asc)|
  {
    var chosen, s := Chosen(table, f, None, asc), All(table, f, asc);
    ChosenDistinct(table, f, None, asc);
    ChosenRows(table, f, None, asc);
    OrderedSorted(chosen, asc);
    OrderedMembers(chosen, asc);
    hide Matches, Chosen, Ordered;
    forall r ensures r in s <==> r in chosen {
      assert r in multiset(s) <==> r in multiset(chosen);
    }
    forall i, j | 0 <= i < j < |s| ensures s[i] != s[j] {
      assert Precedes(Place(s[i]), Place(s[j]), asc);
    }
    assert |multiset(s)| == |s| && |multiset(chosen)| == |chosen|;
  }

  /** Asking for the rows past a position is taking the rest of the list. */
  lemma {:induction false} ChosenPast(table: seq<Row>, f: Filter, c: Cursor, asc: bool)
    requires DistinctIds(table)
    ensures Ordered(Chosen(table, f, Some(c), asc), asc) == Past(All(table, f, asc), c, asc)
  {
    hide Matches, Precedes, Inserted, Sorted;
    if table != [] {
      ChosenPast(table[1..], f, c, asc);
      ChosenDistinct(table[1..], f, None, asc);
      OrderedSorted(Chosen(table[1..], f, None, asc), asc);
      PastInserted(table[0], All(table[1..], f, asc), c, asc);
      ChosenCons(table, f, None, asc);
      ChosenCons(table, f, Some(c), asc);
    }
  }

  lemma ChosenCons(table: seq<Row>, f: Filter, after: Option<Cursor>, asc: bool)
    requires table != []
    ensures var rest := Chosen(table[1..], f, after, asc);
            var taken := Matches(f, table[0]) && (after.Some? ==> Precedes(after.value, Place(table[0]), asc));
            Ordered(Chosen(table, f, after, asc), asc) ==
            if taken then Inserted(table[0], Ordered(rest, asc), asc) else Ordered(rest, asc)
  {
    hide Matches, Precedes, Inserted;
    var rest := Chosen(table[1..], f, after, asc);
    assert ([table[0]] + rest)[1..] == rest;
  }

  // --------------------------------------------------------------- the pages

  /** The page that starts at row k of the list. */
  function PageAt(s: seq<Row>, k: nat, limit: nat): Page
    requires k <= |s| && limit >= 1
  {
    if |s| - k <= limit then Page(s[k..], None, |s|)
    else Page(s[k..k + limit], Some(Place(s[k + limit - 1])), |s|)
  }

  lemma FromRest(table: seq<Row>, f: Filter, asc: bool, after: Option<Cursor>, k: nat, limit: nat)
    requires limit >= 1 && k <= |All(table, f, asc)| == |Chosen(table, f, None, asc)|
    requires Ordered(Chosen(table, f, after, asc), asc) == All(table, f, asc)[k..]
    ensures Listed(table, f, asc, after, 0, limit) == PageAt(All(table, f, asc), k, limit)
  {
    var s := All(table, f, asc);
    var rest := s[k..];
    assert rest[0..] == rest;
    hide Chosen, Ordered, All, Place;
    assert limit < |rest| ==> rest[..limit + 1][..limit] == s[k..k + limit];
  }

  /** A page asked for by the position of the row before it starts there. */
  lemma CursorPage(table: seq<Row>, f: Filter, asc: bool, k: nat, limit: nat)
    requires DistinctIds(table) && limit >= 1 && k <= |All(table, f, asc)|
    ensures var s := All(table, f, asc);
            Listed(table, f, asc, if k == 0 then None else Some(Place(s[k - 1])), 0, limit) == PageAt(s, k, limit)
  {
    var s := All(table, f, asc);
    AllListsEachOnce(table, f, asc);
    hide Chosen, Matches, Sorted, Past, NoDuplicates, Listed, PageAt, Place, Ordered;
    if k > 0 {
      ChosenPast(table, f, Place(s[k - 1]), asc);
      PastRow(s, k - 1, asc);
      FromRest(table, f, asc, Some(Place(s[k - 1])), k, limit);
    } else {
      assert s[0..] == s;
      FromRest(table, f, asc, None, 0, limit);
    }
  }

  /** A page asked for by its number starts behind the pages before it. */
  lemma NumberedPage(table: seq<Row>, f: Filter, asc: bool, after: Option<Cursor>, n: nat, limit: nat)
    requires DistinctIds(table) && limit >= 1 && n >= 1 && (n - 1) * limit <= |All(table, f, asc)|
    ensures Listed(table, f, asc, after, n, limit) == PageAt(All(table, f, asc), (n - 1) * limit, limit)
  {
    var s, k := All(table, f, asc), (n - 1) * limit;
    AllListsEachOnce(table, f, asc);
    var rest := s[k..];
    hide Chosen, Ordered, Matches, Sorted, NoDuplicates;
    assert limit < |rest| ==> rest[..limit + 1][..limit] == s[k..k + limit];
  }

  /** The n-th page, from 0, of a client that follows next cursors from the first. */
  function Walk(table: seq<Row>, f: Filter, asc: bool, limit: nat, n: nat): Option<Page>
    requires limit >= 1
  {
    if n == 0 then Some(Listed(table, f, asc, None, 0, limit))
    else
      match Walk(table, f, asc, limit, n - 1)
      case None => None
      case Some(p) => if p.next.Some? then Some(Listed(table, f, asc, p.next, 0, limit)) else None
  }

  lemma {:induction false} WalkPages(table: seq<Row>, f: Filter, asc: bool, limit: nat, n: nat)
    requires DistinctIds(table) && limit >= 1
    ensures var s, k := All(table, f, asc), n * limit;
            Walk(table, f, asc, limit, n) == if n == 0 || k < |s| then Some(PageAt(s, k, limit)) else None
  {
    var s := All(table, f, asc);
    hide All, Listed;
    if n == 0 {
      CursorPage(table, f, asc, 0, limit);
    } else {
      var k := (n - 1) * limit;
      assert n * limit == k + limit;
      WalkPages(table, f, asc, limit, n - 1);
      if n * limit < |s| {
        CursorPage(table, f, asc, k + limit, limit);
      }
    }
  }

  /** Following cursors gives the same pages as page numbers, for both sorts and
      any page size, and ends after the last. */
  lemma CursorsAgreeWithNumbers(table: seq<Row>, f: Filter, asc: bool, limit: nat, n: nat)
    requires DistinctIds(table) && limit >= 1
    ensures Walk(table, f, asc, limit, n).Some? <==> n == 0 || n * limit < |All(table, f, asc)|
    ensures Walk(table, f, asc, limit, n).Some? ==>
              Walk(table, f, asc, limit, n).value == Listed(table, f, asc, None, n + 1, limit)
  {
    WalkPages(table, f, asc, limit, n);
    hide All, Listed, Walk;
    if n == 0 || n * limit < |All(table, f, asc)| {
      assert n == 0 ==> n * limit == 0;
      NumberedPage(table, f, asc, None, n + 1, limit);
    }
  }

  /** The rows of the first n pages of a walk. */
  function Walked(table: seq<Row>, f: Filter, asc: bool, limit: nat, n: nat): seq<Row>
    requires limit >= 1
  {
    if n == 0 then []
    else
      var p := Walk(table, f, asc, limit, n - 1);
      Walked(table, f, asc, limit, n - 1) + if p.Some? then p.value.rows else []
  }

  lemma {:induction false} WalkedPrefix(table: seq<Row>, f: Filter, asc: bool, limit: nat, n: nat)
    requires DistinctIds(table) && limit >= 1
    ensures var s, k := All(table, f, asc), n * limit;
            Walked(table, f, asc, limit, n) == if k < |s| then s[..k] else s
    decreases n
  {
    var s := All(table, f, asc);
    hide All, Walk;
    if n == 0 {
      assert 0 * limit == 0;
      assert s[..0] == [];
    } else {
      var k := (n - 1) * limit;
      assert n * limit == k + limit;
      WalkedPrefix(table, f, asc, limit, n - 1);
      WalkPages(table, f, asc, limit, n - 1);
      if k < |s| {
        assert k + limit < |s| ==> s[..k] + s[k..k + limit] == s[..k + limit];
        assert s[..k] + s[k..] == s;
      }
    }
  }

  /** A walk from the first page to the one without a next cursor shows every
      matching order exactly once, in the order asked for. */
  lemma WalkShowsEveryOrderOnce(table: seq<Row>, f: Filter, asc: bool, limit: nat, n: nat)
    requires DistinctIds(table) && limit >= 1
    requires Walk(table, f, asc, limit, n).Some? && Walk(table, f, asc, limit, n).value.next.None?
    ensures var seen := Walked(table, f, asc, limit, n + 1);
            && Sorted(seen, asc) && NoDuplicates(seen)
            && forall r :: r in seen <==> r in table && Matches(f, r)
  {
    AllListsEachOnce(table, f, asc);
    WalkPages(table, f, asc, limit, n);
    WalkedPrefix(table, f, asc, limit, n + 1);
    assert (n + 1) * limit == n * limit + limit;
    hide All, Walk, Walked, Matches, Sorted, NoDuplicates;
  }

  /** Such a walk is never endless: page |orders| / limit is past the end. */
  lemma WalkEnds(table: seq<Row>, f: Filter, asc: bool, limit: nat)
    requires DistinctIds(table) && limit >= 1
    ensures exists n: nat :: n <= |table| && Walk(table, f, asc, limit, n).Some? && Walk(table, f, asc, limit, n).value.next.None?
  {
    var s := All(table, f, asc);
    var n := if s == [] then 0 else (|s| - 1) / limit;
    AllListsEachOnce(table, f, asc);
    ChosenShort(table, f, asc);
    WalkPages(table, f, asc, limit, n);
    hide All, Walk;
    LastPage(|s|, limit, n);
  }

  lemma LastPage(size: nat, limit: nat, n: nat)
    requires limit >= 1 && n == if size == 0 then 0 else (size - 1) / limit
    ensures n <= size && n * limit <= size && size - n * limit <= limit && (size > 0 ==> n * limit < size)
  {
  }

  lemma {:induction false} ChosenShort(table: seq<Row>, f: Filter, asc: bool)
    ensures |Chosen(table, f, None, asc)| <= |table|
  {
    hide Matches;
    if table != [] {
      ChosenShort(table[1..], f, asc);
    }
  }

  // ------------------------------------------------------ what a page shows

  /** What the parts of a filter ask of an order, each if it is there. */
  predicate Wanted(f: Filter, r: Row) {
    && (f.status == {} || r.status in f.status) && f.source in {None, Some(r.source)}
    && (f.customer == None || f.customer == r.customer)
    && (f.refundOwed != None ==>
          (f.refundOwed.value <==> r.status == "cancelled" && r.paidAt != None && r.refundedAt == None))
    && !(f.placedFrom != None && r.placedAt < f.placedFrom.value) && !(f.placedTo != None && r.placedAt >= f.placedTo.value)
  }

  lemma MatchesAreWanted(f: Filter, r: Row)
    ensures Matches(f, r) <==> Wanted(f, r)
  {
  }

  lemma {:induction false} SizeOfList<T>(s: seq<T>, all: set<T>)
    requires NoDuplicates(s) && forall x :: x in all <==> x in s
    ensures |all| == |s|
  {
    if s == [] {
      assert all == {};
    } else {
      var front, x := s[..|s| - 1], s[|s| - 1];
      assert s == front + [x];
      SizeOfList(front, all - {x});
    }
  }

  /** Any page, by number or by cursor: its rows are wanted ones, latest first or, in the
      ascending sort, earliest first, ids deciding between equal times; they are no more
      than asked for; and the total counts every wanted order of the table. */
  lemma PageShows(table: seq<Row>, f: Filter, asc: bool, after: Option<Cursor>, page: nat, limit: nat)
    requires DistinctIds(table) && limit >= 1
    ensures var p := Listed(table, f, asc, after, page, limit);
            && |p.rows| <= limit && (forall i :: 0 <= i < |p.rows| ==> p.rows[i] in table && Wanted(f, p.rows[i]))
            && (forall i, j :: 0 <= i < j < |p.rows| ==>
                  InOrder(p.rows[i], p.rows[j], asc))
            && p.total == |set r | r in table && Wanted(f, r)|
  {
    hide Wanted, Matches, Chosen, Ordered, All, Slice, Precedes, DistinctIds, Fetched, NoDuplicates;
    TotalCounts(table, f, asc);
    FetchedShows(table, f, asc, after, page, limit);
    var rows := Fetched(table, f, asc, after, page, limit);
    forall i, j | 0 <= i < j < |rows| ensures InOrder(rows[i], rows[j], asc) {
      PrecedesIs(rows[i], rows[j], asc);
    }
  }

  predicate InOrder(a: Row, b: Row, asc: bool) {
    if a.placedAt == b.placedAt then (if asc then a.id < b.id else b.id < a.id)
    else (if asc then a.placedAt < b.placedAt else b.placedAt < a.placedAt)
  }

  lemma PrecedesIs(a: Row, b: Row, asc: bool)
    ensures Precedes(Place(a), Place(b), asc) <==> InOrder(a, b, asc)
  {
  }

  lemma TotalCounts(table: seq<Row>, f: Filter, asc: bool)
    requires DistinctIds(table)
    ensures |Chosen(table, f, None, asc)| == |set r | r in table && Wanted(f, r)|
  {
    hide Wanted, Matches, Chosen, All, DistinctIds, Sorted, NoDuplicates;
    AllListsEachOnce(table, f, asc);
    forall r ensures Matches(f, r) <==> Wanted(f, r) {
      MatchesAreWanted(f, r);
    }
    SizeOfList(All(table, f, asc), set r | r in table && Wanted(f, r));
  }

  lemma FetchedShows(table: seq<Row>, f: Filter, asc: bool, after: Option<Cursor>, page: nat, limit: nat)
    requires DistinctIds(table)
    ensures var rows := Fetched(table, f, asc, after, page, limit);
            && |rows| <= limit + 1 && Sorted(rows, asc)
            && forall i :: 0 <= i < |rows| ==> rows[i] in table && Wanted(f, rows[i])
  {
    hide Wanted, Matches, Chosen, Ordered, Slice, Precedes, DistinctIds;
    var cursor := if page > 0 then None else after;
    var chosen := Chosen(table, f, cursor, asc);
    ChosenRows(table, f, cursor, asc);
    ChosenDistinct(table, f, cursor, asc);
    OrderedSorted(chosen, asc);
    OrderedMembers(chosen, asc);
    var s := Ordered(chosen, asc);
    forall r | r in s ensures r in table && Wanted(f, r) {
      assert r in multiset(s);
      assert r in chosen;
      MatchesAreWanted(f, r);
    }
    SliceIsPart(s, if page > 0 then (page - 1) * limit else 0, limit + 1);
  }

  lemma SliceIsPart(s: seq<Row>, offset: nat, limit: nat)
    ensures var t := Slice(s, offset, limit);
            |t| <= limit && (forall i :: 0 <= i < |t| ==> offset + i < |s| && t[i] == s[offset + i])
  {
  }
}
