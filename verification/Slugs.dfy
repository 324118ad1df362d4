/** The free-slug search: base, base-2, base-3, ... until one is not taken. */
module Slugs {
  import opened Decimal

  function Candidate(base: string, n: nat): string {
    if n <= 1 then base else base + "-" + Itoa(n)
  }

  /** Two numbers never give the same candidate. */
  lemma CandidateInjective(base: string, m: nat, n: nat)
    requires m >= 1 && n >= 1 && Candidate(base, m) == Candidate(base, n)
    ensures m == n
  {
    ValueOfItoa(m);
    ValueOfItoa(n);
    var a, b := base + "-" + Itoa(m), base + "-" + Itoa(n);
    assert a[|base| + 1..] == Itoa(m) && b[|base| + 1..] == Itoa(n);
    assert |a| > |base| && |b| > |base|;
  }

  /** The taken slugs the search has not met before its n-th try. */
  ghost function Unmet(taken: set<string>, base: string, n: nat): set<string> {
    set s | s in taken && forall i :: 1 <= i < n ==> Candidate(base, i) != s
  }

  lemma Closer(taken: set<string>, base: string, n: nat)
    requires n >= 1 && Candidate(base, n) in taken
    ensures |Unmet(taken, base, n + 1)| < |Unmet(taken, base, n)|
  {
    var a, b := Unmet(taken, base, n), Unmet(taken, base, n + 1);
    var s := Candidate(base, n);
    forall i | 1 <= i < n ensures Candidate(base, i) != s {
      if Candidate(base, i) == s {
        CandidateInjective(base, i, n);
      }
    }
    hide Candidate;
    assert s in a && s !in b && b <= a - {s};
    Smaller(b, a - {s});
  }

  lemma {:induction false} Smaller<T>(a: set<T>, b: set<T>)
    requires a <= b
    ensures |a| <= |b|
  {
    if a != {} {
      var x :| x in a;
      Smaller(a - {x}, b - {x});
    }
  }

  /** slug is the n-th candidate, free, and every candidate before it is taken. */
  ghost predicate FirstFree(taken: set<string>, base: string, n: nat, slug: string) {
    && n >= 1 && slug == Candidate(base, n) && slug !in taken
    && forall m :: 1 <= m < n ==> Candidate(base, m) in taken
  }

  function FreeFrom(taken: set<string>, base: string, n: nat): (slug: string)
    requires n >= 1 && forall m :: 1 <= m < n ==> Candidate(base, m) in taken
    ensures exists k :: FirstFree(taken, base, k, slug)
    decreases |Unmet(taken, base, n)|
  {
    var s := Candidate(base, n);
    if s !in taken then
      assert FirstFree(taken, base, n, s);
      s
    else
      Closer(taken, base, n);
      FreeFrom(taken, base, n + 1)
  }

  /** A title that slugifies to nothing starts from "product". */
  function Base(slugified: string): string {
    if slugified == "" then "product" else slugified
  }

  function FreeSlug(taken: set<string>, slugified: string): (slug: string)
    ensures slug !in taken
  {
    FreeFrom(taken, Base(slugified), 1)
  }

  lemma OneFirst(taken: set<string>, base: string, m: nat, a: string, n: nat, b: string)
    requires FirstFree(taken, base, m, a) && FirstFree(taken, base, n, b)
    ensures a == b
  {
    hide Candidate;
    assert m < n ==> Candidate(base, m) in taken;
    assert n < m ==> Candidate(base, n) in taken;
  }

  /** The search always ends, with the first candidate nobody holds. */
  method FindSlug(taken: set<string>, slugified: string) returns (slug: string)
    ensures slug == FreeSlug(taken, slugified)
    ensures exists n :: FirstFree(taken, Base(slugified), n, slug)
  {
    hide Candidate;
    var base := Base(slugified);
    var n := 1;
    slug := base;
    assert slug == Candidate(base, 1) by { First(base); }
    while slug in taken
      invariant n >= 1 && slug == Candidate(base, n)
      invariant forall m :: 1 <= m < n ==> Candidate(base, m) in taken
      decreases |Unmet(taken, base, n)|
    {
      Closer(taken, base, n);
      n := n + 1;
      slug := base + "-" + Itoa(n);
      Suffixed(base, n);
    }
    assert FirstFree(taken, base, n, slug);
    ghost var k :| FirstFree(taken, base, k, FreeSlug(taken, slugified));
    OneFirst(taken, base, n, slug, k, FreeSlug(taken, slugified));
  }

  lemma First(base: string)
    ensures Candidate(base, 1) == base
  {
  }

  lemma Suffixed(base: string, n: nat)
    requires n >= 2
    ensures Candidate(base, n) == base + "-" + Itoa(n)
  {
  }

  /** The n-th candidate is the base itself, or the base, a dash and the number. */
  lemma CandidatesRead(slugified: string, n: nat)
    requires n >= 1
    ensures var base := if slugified == "" then "product" else slugified;
            var c := Candidate(Base(slugified), n);
            if n == 1 then c == base
            else
              && |c| > |base| && c[..|base| + 1] == base + "-"
              && AllDigits(c[|base| + 1..]) && Value(c[|base| + 1..]) == n
  {
    ValueOfItoa(n);
    hide Itoa, Value;
    var base := if slugified == "" then "product" else slugified;
    if n > 1 {
      assert (base + "-" + Itoa(n))[|base| + 1..] == Itoa(n);
    }
  }
}
