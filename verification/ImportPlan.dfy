/** How an import cuts its rows into batches: rows of one product are moved
    together, in place, and no batch boundary falls inside a product. */
module ImportPlan {
  import opened Base
  import opened Decimal
  import opened Texts

  const BATCH := 500

  datatype Row = Row(line: nat, raw: seq<string>, values: map<string, string>)

  datatype Span = Span(start: nat, end: nat)

  function Cell(r: Row, target: string): string {
    if target in r.values then r.values[target] else ""
  }

  function GroupKey(r: Row): string {
    var t := Lower(Trim(Cell(r, "title")));
    if t != "" then "t:" + t else "l:" + Itoa(r.line)
  }

  // ------------------------------------------------------ what is computed

  /** The keys in order of first appearance. */
  function Keys(rows: seq<Row>): seq<string> {
    if rows == [] then []
    else
      var ks := Keys(rows[..|rows| - 1]);
      var k := GroupKey(rows[|rows| - 1]);
      if k in ks then ks else ks + [k]
  }

  /** Where the rows of key k stand. */
  function Places(rows: seq<Row>, k: string): seq<nat> {
    if rows == [] then []
    else
      var n := |rows| - 1;
      Places(rows[..n], k) + (if GroupKey(rows[n]) == k then [n] else [])
  }

  /** The rows of key k, in order. */
  function Of(rows: seq<Row>, k: string): seq<Row> {
    if rows == [] then []
    else
      var n := |rows| - 1;
      Of(rows[..n], k) + (if GroupKey(rows[n]) == k then [rows[n]] else [])
  }

  function Gathered(rows: seq<Row>, ks: seq<string>): seq<Row> {
    if ks == [] then []
    else Gathered(rows, ks[..|ks| - 1]) + Of(rows, ks[|ks| - 1])
  }

  function Grouped(rows: seq<Row>): seq<Row> {
    Gathered(rows, Keys(rows))
  }

  /** One more group: it joins the last span while that stays within a batch. */
  function Joined(out: seq<Span>, start: nat, end: nat): seq<Span> {
    if out != [] && out[|out| - 1].end == start && end - out[|out| - 1].start <= BATCH
    then out[|out| - 1 := Span(out[|out| - 1].start, end)]
    else out + [Span(start, end)]
  }

  function Cut(rows: seq<Row>, ks: seq<string>): seq<Span> {
    if ks == [] then []
    else
      var before := ks[..|ks| - 1];
      var start := |Gathered(rows, before)|;
      Joined(Cut(rows, before), start, start + |Of(rows, ks[|ks| - 1])|)
  }

  function Batches(rows: seq<Row>): seq<Span> {
    Cut(rows, Keys(rows))
  }

  // ------------------------------------------------------------ the method

  lemma {:induction false} PlacesHold(rows: seq<Row>, k: string)
    ensures |Places(rows, k)| == |Of(rows, k)|
    ensures forall j :: 0 <= j < |Places(rows, k)| ==>
              Places(rows, k)[j] < |rows| && rows[Places(rows, k)[j]] == Of(rows, k)[j]
  {
    hide GroupKey;
    if rows != [] {
      PlacesHold(rows[..|rows| - 1], k);
    }
  }

  lemma OneMore(rows: seq<Row>, i: nat)
    requires i < |rows|
    ensures rows[..i + 1] != [] && rows[..i + 1][..|rows[..i + 1]| - 1] == rows[..i]
    ensures rows[..i + 1][|rows[..i + 1]| - 1] == rows[i]
  {
  }

  lemma PlacesStep(rows: seq<Row>, i: nat, k: string)
    requires i < |rows|
    ensures Places(rows[..i + 1], k) == Places(rows[..i], k) + (if GroupKey(rows[i]) == k then [i] else [])
  {
    hide GroupKey;
    OneMore(rows, i);
  }

  lemma KeysStep(rows: seq<Row>, i: nat)
    requires i < |rows|
    ensures Keys(rows[..i + 1]) ==
            var ks := Keys(rows[..i]); if GroupKey(rows[i]) in ks then ks else ks + [GroupKey(rows[i])]
  {
    hide GroupKey;
    OneMore(rows, i);
  }

  /** The first loop: the keys as they appear, and where each key's rows are. */
  method Collect(rows: array<Row>) returns (order: seq<string>, groups: map<string, seq<nat>>)
    ensures order == Keys(rows[..])
    ensures forall k :: k in groups <==> k in order
    ensures forall k :: k in groups ==> groups[k] == Places(rows[..], k)
  {
    ghost var was := rows[..];
    order, groups := [], map[];
    for i := 0 to rows.Length
      invariant order == Keys(was[..i])
      invariant forall k :: k in groups <==> k in order
      invariant forall k :: Places(was[..i], k) == if k in groups then groups[k] else []
    {
      hide GroupKey, Keys, Places;
      var k := GroupKey(rows[i]);
      KeysStep(was, i);
      forall h ensures Places(was[..i + 1], h) == Places(was[..i], h) + if h == k then [i] else [] {
        PlacesStep(was, i, h);
      }
      if k !in groups {
        order := order + [k];
        groups := groups[k := []];
      }
      groups := groups[k := groups[k] + [i]];
    }
    assert was[..rows.Length] == was;
  }

  /** The second: each group's rows after the groups before it. */
  method Gather(rows: array<Row>, order: seq<string>, groups: map<string, seq<nat>>) returns (sorted: seq<Row>)
    requires forall k :: k in order ==> k in groups && groups[k] == Places(rows[..], k)
    ensures sorted == Gathered(rows[..], order)
  {
    hide GroupKey, Of, Places;
    ghost var was := rows[..];
    sorted := [];
    for n := 0 to |order|
      invariant sorted == Gathered(was, order[..n])
    {
      var g := groups[order[n]];
      PlacesHold(was, order[n]);
      for j := 0 to |g|
        invariant sorted == Gathered(was, order[..n]) + Of(was, order[n])[..j]
      {
        sorted := sorted + [rows[g[j]]];
      }
      assert order[..n + 1][..n] == order[..n];
    }
    assert order[..|order|] == order;
  }

  /** The third: a span for each group, or one shared with the span before. */
  method Spans(order: seq<string>, groups: map<string, seq<nat>>, ghost rows: seq<Row>) returns (out: seq<Span>)
    requires forall k :: k in order ==> k in groups && |groups[k]| == |Of(rows, k)|
    ensures out == Cut(rows, order)
  {
    hide GroupKey, Of;
    out := [];
    var start := 0;
    for n := 0 to |order|
      invariant out == Cut(rows, order[..n]) && start == |Gathered(rows, order[..n])|
    {
      var end := start + |groups[order[n]]|;
      if |out| > 0 && out[|out| - 1].end == start && end - out[|out| - 1].start <= BATCH {
        out := out[|out| - 1 := Span(out[|out| - 1].start, end)];
      } else {
        out := out + [Span(start, end)];
      }
      assert order[..n + 1][..n] == order[..n];
      start := end;
    }
    assert order[..|order|] == order;
  }

  /** The rows are rearranged in place; the spans say which of them commit together. */
  method ImportBatches(rows: array<Row>) returns (out: seq<Span>)
    modifies rows
    ensures rows[..] == Grouped(old(rows[..]))
    ensures out == Batches(old(rows[..]))
  {
    hide GroupKey, Keys, Of, Places, Gathered, Cut;
    ghost var was := rows[..];
    var order, groups := Collect(rows);
    var sorted := Gather(rows, order, groups);
    GroupedIsPermutation(was);
    for i := 0 to rows.Length
      invariant rows[..i] == sorted[..i]
    {
      rows[i] := sorted[i];
    }
    forall k | k in order ensures |groups[k]| == |Of(was, k)| {
      PlacesHold(was, k);
    }
    out := Spans(order, groups, was);
  }

  // ------------------------------------------------------------- the order

  lemma {:induction false} KeysAreDistinct(rows: seq<Row>)
    ensures NoDuplicates(Keys(rows))
  {
    hide GroupKey;
    if rows != [] {
      KeysAreDistinct(rows[..|rows| - 1]);
    }
  }

  lemma {:induction false} KeysOccur(rows: seq<Row>, k: string)
    ensures k in Keys(rows) <==> exists i :: 0 <= i < |rows| && GroupKey(rows[i]) == k
    ensures k in Keys(rows) <==> Of(rows, k) != []
  {
    hide GroupKey;
    if rows != [] {
      var n := |rows| - 1;
      KeysOccur(rows[..n], k);
      if k in Keys(rows[..n]) {
        var i :| 0 <= i < n && GroupKey(rows[..n][i]) == k;
        assert rows[i] == rows[..n][i];
      } else {
        assert forall i :: 0 <= i < n ==> rows[..n][i] == rows[i];
      }
      if k in Keys(rows) && k !in Keys(rows[..n]) {
        assert GroupKey(rows[n]) == k;
      }
    }
  }

  lemma {:induction false} OfHasKey(rows: seq<Row>, k: string)
    ensures forall r :: r in Of(rows, k) ==> GroupKey(r) == k && r in rows
  {
    hide GroupKey;
    if rows != [] {
      OfHasKey(rows[..|rows| - 1], k);
    }
  }

  lemma {:induction false} OfConcat(a: seq<Row>, b: seq<Row>, k: string)
    ensures Of(a + b, k) == Of(a, k) + Of(b, k)
  {
    hide GroupKey;
    if b == [] {
      assert a + b == a;
    } else {
      OfConcat(a, b[..|b| - 1], k);
      assert (a + b)[..|a + b| - 1] == a + b[..|b| - 1];
    }
  }

  lemma {:induction false} OfUniform(b: seq<Row>, k: string, of: string)
    requires forall r :: r in b ==> GroupKey(r) == of
    ensures Of(b, k) == if k == of then b else []
  {
    hide GroupKey;
    if b != [] {
      OfUniform(b[..|b| - 1], k, of);
      assert b[|b| - 1] in b;
    }
  }

  lemma {:induction false} KeysConcat(a: seq<Row>, b: seq<Row>, k: string)
    requires b != [] && k !in Keys(a) && forall r :: r in b ==> GroupKey(r) == k
    ensures Keys(a + b) == Keys(a) + [k]
  {
    hide GroupKey;
    var c := b[..|b| - 1];
    assert b[|b| - 1] in b;
    assert (a + b)[..|a + b| - 1] == a + c;
    if c == [] {
      assert a + c == a;
    } else {
      KeysConcat(a, c, k);
    }
  }

  /** Nothing but the rows named is gathered, and each whole. */
  lemma {:induction false} GatheredOf(rows: seq<Row>, ks: seq<string>, k: string)
    requires NoDuplicates(ks)
    ensures Of(Gathered(rows, ks), k) == if k in ks then Of(rows, k) else []
  {
    hide GroupKey, Of;
    if ks != [] {
      var m := |ks| - 1;
      GatheredOf(rows, ks[..m], k);
      OfHasKey(rows, ks[m]);
      OfConcat(Gathered(rows, ks[..m]), Of(rows, ks[m]), k);
      OfUniform(Of(rows, ks[m]), k, ks[m]);
    } else {
      OfUniform([], k, k);
    }
  }

  lemma {:induction false} GatheredHasKeys(rows: seq<Row>, ks: seq<string>)
    ensures forall r :: r in Gathered(rows, ks) ==> GroupKey(r) in ks
  {
    hide GroupKey, Of;
    if ks != [] {
      var m := |ks| - 1;
      GatheredHasKeys(rows, ks[..m]);
      OfHasKey(rows, ks[m]);
    }
  }

  lemma NoKeys()
    ensures Keys([]) == []
  {
  }

  lemma {:induction false} GatheredKeys(rows: seq<Row>, ks: seq<string>)
    requires NoDuplicates(ks) && forall k :: k in ks ==> k in Keys(rows)
    ensures Keys(Gathered(rows, ks)) == ks
  {
    hide GroupKey, Of, Keys;
    if ks == [] {
      assert Keys([]) == [] by { NoKeys(); }
    } else {
      var m := |ks| - 1;
      GatheredKeys(rows, ks[..m]);
      OfHasKey(rows, ks[m]);
      KeysOccur(rows, ks[m]);
      KeysConcat(Gathered(rows, ks[..m]), Of(rows, ks[m]), ks[m]);
    }
  }

  /** Rows of one key stand next to each other. */
  ghost predicate Contiguous(t: seq<Row>) {
    forall i, j, l :: 0 <= i < j < l < |t| && GroupKey(t[i]) == GroupKey(t[l]) ==> GroupKey(t[j]) == GroupKey(t[i])
  }

  lemma {:induction false} GatheredContiguous(rows: seq<Row>, ks: seq<string>)
    requires NoDuplicates(ks)
    ensures Contiguous(Gathered(rows, ks))
  {
    hide GroupKey;
    if ks != [] {
      var m := |ks| - 1;
      var a, b := Gathered(rows, ks[..m]), Of(rows, ks[m]);
      GatheredContiguous(rows, ks[..m]);
      GatheredHasKeys(rows, ks[..m]);
      OfHasKey(rows, ks[m]);
      ContiguousAppend(a, b, ks[m]);
    }
  }

  lemma ContiguousAppend(a: seq<Row>, b: seq<Row>, k: string)
    requires Contiguous(a)
    requires (forall r :: r in a ==> GroupKey(r) != k) && forall r :: r in b ==> GroupKey(r) == k
    ensures Contiguous(a + b)
  {
    hide GroupKey;
    var t := a + b;
    forall i, j, l | 0 <= i < j < l < |t| && GroupKey(t[i]) == GroupKey(t[l])
      ensures GroupKey(t[j]) == GroupKey(t[i])
    {
      assert i < |a| ==> t[i] in a;
      assert l >= |a| ==> t[l] in b;
      assert j >= |a| ==> t[j] in b;
      assert i >= |a| ==> t[i] in b;
    }
  }

  /** What "grouped" means, without saying how: every product's rows in their
      order and together, products in order of first appearance. */
  ghost predicate IsGrouping(rows: seq<Row>, t: seq<Row>) {
    && Contiguous(t)
    && Keys(t) == Keys(rows)
    && forall k :: Of(t, k) == Of(rows, k)
  }

  lemma {:induction false} LastKey(t: seq<Row>)
    requires Contiguous(t) && t != []
    ensures Keys(t) != [] && Keys(t)[|Keys(t)| - 1] == GroupKey(t[|t| - 1])
  {
    hide GroupKey;
    var n := |t| - 1;
    var k := GroupKey(t[n]);
    if k in Keys(t[..n]) {
      KeysOccur(t[..n], k);
      var i :| 0 <= i < n && GroupKey(t[..n][i]) == k;
      assert GroupKey(t[i]) == k;
      assert GroupKey(t[n - 1]) == k;
      LastKey(t[..n]);
    }
  }

  lemma {:induction false} GatheredSame(a: seq<Row>, b: seq<Row>, ks: seq<string>)
    requires forall k :: k in ks ==> Of(a, k) == Of(b, k)
    ensures Gathered(a, ks) == Gathered(b, ks)
  {
    hide GroupKey;
    if ks != [] {
      GatheredSame(a, b, ks[..|ks| - 1]);
    }
  }

  lemma OfLast(t: seq<Row>, k: string)
    requires t != []
    ensures Of(t, k) == Of(t[..|t| - 1], k) + if GroupKey(t[|t| - 1]) == k then [t[|t| - 1]] else []
  {
    hide GroupKey;
  }

  lemma KeysLast(t: seq<Row>)
    requires t != []
    ensures var ks, k := Keys(t[..|t| - 1]), GroupKey(t[|t| - 1]);
            Keys(t) == if k in ks then ks else ks + [k]
  {
    hide GroupKey;
  }

  /** Rows already together stay as they are. */
  lemma {:induction false} AlreadyGrouped(t: seq<Row>)
    requires Contiguous(t)
    ensures Grouped(t) == t
  {
    hide GroupKey, Of, Keys;
    if t == [] {
      NoKeys();
    } else {
      var n := |t| - 1;
      var k, ks := GroupKey(t[n]), Keys(t[..n]);
      AlreadyGrouped(t[..n]);
      KeysLast(t);
      KeysAreDistinct(t);
      LastKey(t);
      var m := |Keys(t)| - 1;
      assert Keys(t)[..m] == if k in ks then ks[..m] else ks;
      forall h ensures Of(t, h) == Of(t[..n], h) + if h == k then [t[n]] else [] {
        OfLast(t, h);
      }
      GatheredSame(t, t[..n], Keys(t)[..m]);
      hide Contiguous, NoDuplicates;
      assert Grouped(t) == Gathered(t[..n], Keys(t)[..m]) + (Of(t[..n], k) + [t[n]]);
      if k in ks {
        assert Gathered(t[..n], ks) == Gathered(t[..n], ks[..m]) + Of(t[..n], k);
      } else {
        KeysOccur(t[..n], k);
      }
      assert t == t[..n] + [t[n]];
    }
  }

  /** The rows come out grouped, and no other arrangement is a grouping. */
  lemma GroupingIsGrouped(rows: seq<Row>, t: seq<Row>)
    ensures t == Grouped(rows) <==> IsGrouping(rows, t)
  {
    hide GroupKey;
    KeysAreDistinct(rows);
    GatheredContiguous(rows, Keys(rows));
    GatheredKeys(rows, Keys(rows));
    forall k ensures Of(Grouped(rows), k) == Of(rows, k) {
      GatheredOf(rows, Keys(rows), k);
      KeysOccur(rows, k);
    }
    if IsGrouping(rows, t) {
      AlreadyGrouped(t);
      GatheredSame(t, rows, Keys(rows));
    }
  }

  lemma {:induction false} CountOf(rows: seq<Row>, r: Row)
    ensures multiset(Of(rows, GroupKey(r)))[r] == multiset(rows)[r]
  {
    hide GroupKey;
    if rows != [] {
      var n := |rows| - 1;
      CountOf(rows[..n], r);
      assert rows == rows[..n] + [rows[n]];
    }
  }

  /** No row is lost, made up or counted twice. */
  lemma GroupedIsPermutation(rows: seq<Row>)
    ensures multiset(Grouped(rows)) == multiset(rows) && |Grouped(rows)| == |rows|
  {
    hide GroupKey;
    GroupingIsGrouped(rows, Grouped(rows));
    forall r ensures multiset(Grouped(rows))[r] == multiset(rows)[r] {
      CountOf(rows, r);
      CountOf(Grouped(rows), r);
    }
    assert multiset(Grouped(rows)) == multiset(rows);
    assert |Grouped(rows)| == |multiset(Grouped(rows))| && |rows| == |multiset(rows)|;
  }

  // ------------------------------------------------------------- the spans

  /** Non-empty spans laid end to end from 0 to n. */
  ghost predicate Tiles(out: seq<Span>, n: nat) {
    && (out == [] <==> n == 0)
    && (out != [] ==> out[0].start == 0 && out[|out| - 1].end == n)
    && (forall i :: 0 <= i < |out| ==> out[i].start < out[i].end <= n)
    && forall i :: 0 < i < |out| ==> out[i].start == out[i - 1].end
  }

  /** A boundary only ever falls between two products. */
  ghost predicate Whole(t: seq<Row>, out: seq<Span>)
    requires Tiles(out, |t|)
  {
    forall i :: 0 < i < |out| ==> 0 < out[i].start < |t| && GroupKey(t[out[i].start - 1]) != GroupKey(t[out[i].start])
  }

  predicate OneProduct(t: seq<Row>, s: Span)
    requires s.start < s.end <= |t|
  {
    forall p :: s.start <= p < s.end ==> GroupKey(t[p]) == GroupKey(t[s.start])
  }

  ghost predicate Sized(t: seq<Row>, out: seq<Span>)
    requires Tiles(out, |t|)
  {
    forall i :: 0 <= i < |out| ==> out[i].end - out[i].start <= 500 || OneProduct(t, out[i])
  }

  /** The product after a span would not have fitted into it. */
  ghost predicate Greedy(rows: seq<Row>, t: seq<Row>, out: seq<Span>)
    requires Tiles(out, |t|)
  {
    forall i :: 0 < i < |out| ==>
      out[i - 1].end - out[i - 1].start + |Of(rows, GroupKey(t[out[i].start]))| > 500
  }

  lemma TilesJoined(out: seq<Span>, start: nat, end: nat)
    requires Tiles(out, start) && start < end
    ensures Tiles(Joined(out, start, end), end)
  {
    hide GroupKey;
  }

  lemma WholeJoined(a: seq<Row>, b: seq<Row>, k: string, out: seq<Span>)
    requires Tiles(out, |a|) && b != [] && Whole(a, out)
    requires (forall r :: r in a ==> GroupKey(r) != k) && forall r :: r in b ==> GroupKey(r) == k
    ensures Tiles(Joined(out, |a|, |a + b|), |a + b|) && Whole(a + b, Joined(out, |a|, |a + b|))
  {
    hide GroupKey;
    var t, next := a + b, Joined(out, |a|, |a + b|);
    TilesJoined(out, |a|, |a + b|);
    forall i | 0 < i < |next|
      ensures 0 < next[i].start < |t| && GroupKey(t[next[i].start - 1]) != GroupKey(t[next[i].start])
    {
      if i < |out| {
        assert next[i].start == out[i].start;
        assert GroupKey(a[out[i].start - 1]) != GroupKey(a[out[i].start]);
      } else {
        assert next[i].start == |a| && a[|a| - 1] in a && b[0] in b;
      }
    }
  }

  lemma SizedAt(a: seq<Row>, b: seq<Row>, k: string, out: seq<Span>, i: nat)
    requires Tiles(out, |a|) && b != [] && Sized(a, out) && forall r :: r in b ==> GroupKey(r) == k
    requires i < |Joined(out, |a|, |a + b|)|
    ensures var s := Joined(out, |a|, |a + b|)[i];
            s.start < s.end <= |a + b| && (s.end - s.start <= BATCH || OneProduct(a + b, s))
  {
    hide GroupKey;
    var t, s := a + b, Joined(out, |a|, |a + b|)[i];
    if i < |out| && s == out[i] {
      assert out[i].end - out[i].start <= BATCH || OneProduct(a, out[i]);
      assert forall p :: s.start <= p < s.end ==> t[p] == a[p];
    } else if s == Span(|a|, |t|) {
      assert forall p :: |a| <= p < |t| ==> t[p] == b[p - |a|] && b[p - |a|] in b;
    }
  }

  lemma SizedJoined(a: seq<Row>, b: seq<Row>, k: string, out: seq<Span>)
    requires Tiles(out, |a|) && b != [] && Sized(a, out) && forall r :: r in b ==> GroupKey(r) == k
    ensures Tiles(Joined(out, |a|, |a + b|), |a + b|) && Sized(a + b, Joined(out, |a|, |a + b|))
  {
    TilesJoined(out, |a|, |a + b|);
    hide GroupKey, OneProduct, Joined, Tiles;
    forall i | 0 <= i < |Joined(out, |a|, |a + b|)|
      ensures var s := Joined(out, |a|, |a + b|)[i];
              s.start < s.end <= |a + b| && (s.end - s.start <= BATCH || OneProduct(a + b, s))
    {
      SizedAt(a, b, k, out, i);
    }
  }

  lemma GreedyJoined(rows: seq<Row>, a: seq<Row>, k: string, out: seq<Span>)
    requires Tiles(out, |a|) && Of(rows, k) != [] && Greedy(rows, a, out)
    requires forall r :: r in Of(rows, k) ==> GroupKey(r) == k
    ensures var b := Of(rows, k);
            Tiles(Joined(out, |a|, |a + b|), |a + b|) && Greedy(rows, a + b, Joined(out, |a|, |a + b|))
  {
    hide GroupKey, Of;
    var b := Of(rows, k);
    var t, next := a + b, Joined(out, |a|, |a + b|);
    TilesJoined(out, |a|, |a + b|);
    forall i | 0 < i < |next|
      ensures next[i - 1].end - next[i - 1].start + |Of(rows, GroupKey(t[next[i].start]))| > BATCH
    {
      assert next[i - 1] == out[i - 1];
      if i < |out| {
        assert next[i].start == out[i].start && t[out[i].start] == a[out[i].start];
      } else {
        assert next[i].start == |a| && b[0] in b && t[|a|] == b[0];
      }
    }
  }

  /** What the batches are for, about any prefix of the keys. */
  lemma {:induction false} CutLaws(rows: seq<Row>, ks: seq<string>)
    requires NoDuplicates(ks) && forall k :: k in ks ==> Of(rows, k) != []
    ensures var t, out := Gathered(rows, ks), Cut(rows, ks);
            Tiles(out, |t|) && Whole(t, out) && Sized(t, out) && Greedy(rows, t, out)
  {
    hide GroupKey, Of, Joined, Whole, Sized, Greedy;
    if ks == [] {
      Untiled(rows);
    } else {
      var m := |ks| - 1;
      var a, b, out := Gathered(rows, ks[..m]), Of(rows, ks[m]), Cut(rows, ks[..m]);
      CutLaws(rows, ks[..m]);
      OfHasKey(rows, ks[m]);
      GatheredHasKeys(rows, ks[..m]);
      WholeJoined(a, b, ks[m], out);
      SizedJoined(a, b, ks[m], out);
      GreedyJoined(rows, a, ks[m], out);
    }
  }

  lemma Untiled(rows: seq<Row>)
    ensures Tiles([], 0) && Whole([], []) && Sized([], []) && Greedy(rows, [], [])
  {
  }

  /** The batches of a file cover its rows from first to last without gap or
      overlap, hold whole products only, are at most 500 rows unless one product
      is longer, and none could have taken in the product after it. */
  lemma BatchesCoverWholeProducts(rows: seq<Row>)
    ensures Tiles(Batches(rows), |rows|)
    ensures Whole(Grouped(rows), Batches(rows)) && Sized(Grouped(rows), Batches(rows))
    ensures Greedy(rows, Grouped(rows), Batches(rows))
  {
    hide GroupKey, Of, Keys, Gathered, Cut, Tiles, Whole, Sized, Greedy;
    KeysAreDistinct(rows);
    forall k | k in Keys(rows) ensures Of(rows, k) != [] {
      KeysOccur(rows, k);
    }
    GroupedIsPermutation(rows);
    CutLaws(rows, Keys(rows));
  }

  /** Two rows of one product never end up in different batches. */
  lemma ProductInOneBatch(rows: seq<Row>, i: nat, p: nat, q: nat)
    requires i < |Batches(rows)| && p < |Grouped(rows)| && q < |Grouped(rows)|
    requires GroupKey(Grouped(rows)[p]) == GroupKey(Grouped(rows)[q])
    requires Batches(rows)[i].start <= p < Batches(rows)[i].end
    ensures Batches(rows)[i].start <= q < Batches(rows)[i].end
  {
    var t, out := Grouped(rows), Batches(rows);
    BatchesCoverWholeProducts(rows);
    GroupingIsGrouped(rows, t);
    GroupedIsPermutation(rows);
    hide GroupKey, Grouped, Batches, Sized, Greedy, Keys;
    if q >= out[i].end {
      assert out[i + 1].start == out[i].end;
      Between(t, p, out[i].end - 1, q);
      Between(t, p, out[i].end, q);
    } else if q < out[i].start {
      Between(t, q, out[i].start - 1, p);
      Between(t, q, out[i].start, p);
    }
  }

  lemma Between(t: seq<Row>, i: nat, j: nat, l: nat)
    requires Contiguous(t) && i <= j <= l < |t| && GroupKey(t[i]) == GroupKey(t[l])
    ensures GroupKey(t[j]) == GroupKey(t[i])
  {
    hide GroupKey;
  }

  /** Two rows are of one product exactly when their titles are the same but for case and
      the spaces around them; a row without a title is of no other's product. */
  lemma SameProductExactlyWhen(a: Row, b: Row)
    ensures var s, t := Trim(Cell(a, "title")), Trim(Cell(b, "title"));
            GroupKey(a) == GroupKey(b) <==>
            if s == "" || t == "" then s == t && a.line == b.line
            else |s| == |t| && forall i :: 0 <= i < |s| ==> LowerChar(s[i]) == LowerChar(t[i])
  {
    hide Trim;
    var s, t := Trim(Cell(a, "title")), Trim(Cell(b, "title"));
    ValueOfItoa(a.line);
    ValueOfItoa(b.line);
    hide Itoa, Value;
    var k, l := GroupKey(a), GroupKey(b);
    assert k[2..] == (if s != "" then Lower(s) else Itoa(a.line));
    assert l[2..] == (if t != "" then Lower(t) else Itoa(b.line));
    assert k[0] == (if s != "" then 't' else 'l') && l[0] == (if t != "" then 't' else 'l');
    if s != "" && t != "" && Lower(s) == Lower(t) {
      assert forall i :: 0 <= i < |s| ==> Lower(s)[i] == LowerChar(s[i]) && Lower(t)[i] == LowerChar(t[i]);
    }
    if s != "" && t != "" && |s| == |t| && forall i :: 0 <= i < |s| ==> LowerChar(s[i]) == LowerChar(t[i]) {
      assert Lower(s) == Lower(t);
    }
  }
}
