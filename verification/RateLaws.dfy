/** What the limits promise, over every trace of requests on one key. */
module RateLaws {
  import opened Base
  import opened RateLimit

  /** One request: when Redis handles it, what its caller's clock says, which
      replica it came to and whether Redis answered that replica. */
  datatype Call = Call(at: int, now: int, replica: nat, reply: Reply)

  /** Everything that counts hits on one key. */
  datatype Fleet = Fleet(key: Option<Key>, local: map<nat, Window>)

  function Mine(f: Fleet, i: nat): Option<Window> {
    if i in f.local then Some(f.local[i]) else None
  }

  function Called(f: Fleet, c: Call, window: int, limit: int): (Fleet, bool) {
    var slid := f.(key := SlideKey(f.key, c.at, c.now, window, limit));
    var w := Mine(f, c.replica);
    match c.reply
    case Answered => (slid, SlideAnswer(f.key, c.at, c.now, window, limit).allowed)
    case _ =>
      var g := if c.reply.Lost? then slid else f;
      (g.(local := g.local[c.replica := HitWindow(w, limit, window, c.now)]),
       HitAnswer(w, limit, window, c.now).allowed)
  }

  /** The fleet after a trace, from a start where nothing was counted. */
  function After(calls: seq<Call>, window: int, limit: int): Fleet {
    if calls == [] then Fleet(None, map[])
    else Called(After(calls[..|calls| - 1], window, limit), calls[|calls| - 1], window, limit).0
  }

  /** Whether the last request of a trace is let through. */
  function Accepts(calls: seq<Call>, window: int, limit: int): bool
    requires calls != []
  {
    Called(After(calls[..|calls| - 1], window, limit), calls[|calls| - 1], window, limit).1
  }

  /** Requests let through in [from, to), by Redis or by one replica's fallback. */
  function Through(calls: seq<Call>, window: int, limit: int, from: int, to: int, via: Option<nat>): nat {
    if calls == [] then 0
    else
      var c := calls[|calls| - 1];
      Through(calls[..|calls| - 1], window, limit, from, to, via) +
      if from <= c.at < to && Source(c) == via && Accepts(calls, window, limit) then 1 else 0
  }

  function Source(c: Call): Option<nat> {
    if c.reply.Answered? then None else Some(c.replica)
  }

  /** Redis handles calls one after another, and every caller's clock is within
      `skew` of its. */
  predicate Timely(calls: seq<Call>, skew: nat) {
    && (forall i :: 0 <= i < |calls| ==> 0 - skew <= calls[i].now - calls[i].at <= skew)
    && forall i, j :: 0 <= i < j < |calls| ==> calls[i].at <= calls[j].at
  }

  // ---------------------------------------------------- the sliding window

  lemma {:induction false} TrimTwice(s: seq<int>, a: int, b: int)
    requires a <= b
    ensures Trimmed(Trimmed(s, a), b) == Trimmed(s, b)
  {
    if s != [] {
      TrimTwice(s[1..], a, b);
      if s[0] > a {
        assert ([s[0]] + Trimmed(s[1..], a))[1..] == Trimmed(s[1..], a);
      }
    }
  }

  lemma {:induction false} TrimShrinks(s: seq<int>, a: int)
    ensures |Trimmed(s, a)| <= |s|
  {
    if s != [] {
      TrimShrinks(s[1..], a);
    }
  }

  lemma {:induction false} TrimAdded(s: seq<int>, x: int, a: int)
    ensures |Trimmed(Added(s, x), a)| == |Trimmed(s, a)| + if x > a then 1 else 0
  {
    if s == [] || x < s[0] {
      assert ([x] + s)[1..] == s;
    } else {
      TrimAdded(s[1..], x, a);
      assert ([s[0]] + Added(s[1..], x))[1..] == Added(s[1..], x);
    }
  }

  function Scores(k: Option<Key>): seq<int> {
    if k.Some? then k.value.scores else []
  }

  /** While nothing in [from, from + window - 2 skew) has been forgotten, the
      log holds every hit it let through there. */
  ghost predicate Held(k: Option<Key>, n: nat, from: int, window: int, skew: nat) {
    && n <= |Trimmed(Scores(k), from - skew - 1)|
    && (n > 0 ==> k.Some? && k.value.expires >= from + window)
  }

  lemma HeldSlides(k: Option<Key>, n: nat, c: Call, from: int, window: int, limit: int, skew: nat)
    requires Held(k, n, from, window, skew) && (0 < n ==> n <= limit && from <= c.at)
    requires 0 - skew <= c.now - c.at <= skew && c.at < from + window - 2 * skew
    ensures var m := if from <= c.at && SlideAnswer(k, c.at, c.now, window, limit).allowed then n + 1 else n;
            && Held(SlideKey(k, c.at, c.now, window, limit), m, from, window, skew) && (0 < m ==> m <= limit)
  {
    var kept := Trimmed(Live(k, c.at), c.now - window);
    var cut := from - skew - 1;
    TrimTwice(Live(k, c.at), c.now - window, cut);
    TrimShrinks(kept, cut);
    TrimAdded(kept, c.now, cut);
    AddedSize(kept, c.now);
    TrimShrinks(Slid(k, c.at, c.now, window, limit), cut);
    assert n > 0 ==> Live(k, c.at) == Scores(k);
    assert n <= |Trimmed(kept, cut)|;
    hide Trimmed, Added;
  }

  lemma {:induction false} ThroughSeen(calls: seq<Call>, window: int, limit: int, from: int, to: int, via: Option<nat>)
    requires Through(calls, window, limit, from, to, via) > 0
    ensures exists i :: 0 <= i < |calls| && from <= calls[i].at < to
  {
    var n := |calls| - 1;
    if !(from <= calls[n].at < to) {
      ThroughSeen(calls[..n], window, limit, from, to, via);
      var i :| 0 <= i < n && from <= calls[..n][i].at < to;
      assert from <= calls[i].at < to;
    }
  }

  /** Of hits counted so far the last call is no earlier than `from`. */
  lemma LastIsLate(calls: seq<Call>, window: int, limit: int, from: int, to: int, via: Option<nat>, skew: nat)
    requires calls != [] && Timely(calls, skew)
    requires Through(calls[..|calls| - 1], window, limit, from, to, via) > 0
    ensures calls[|calls| - 1].at >= from
  {
    ThroughSeen(calls[..|calls| - 1], window, limit, from, to, via);
  }

  lemma {:induction false} LogHolds(calls: seq<Call>, window: int, limit: int, from: int, skew: nat)
    requires Timely(calls, skew)
    ensures var to := from + window - 2 * skew;
            var n := Through(calls, window, limit, from, to, None);
            && (0 < n ==> n <= limit)
            && ((forall i :: 0 <= i < |calls| ==> calls[i].at < to) ==>
                  Held(After(calls, window, limit).key, n, from, window, skew))
  {
    hide Held, SlideKey, SlideAnswer, HitWindow, HitAnswer;
    var to := from + window - 2 * skew;
    if calls == [] {
      NothingHeld(from, window, skew);
    } else {
      var before, c := calls[..|calls| - 1], calls[|calls| - 1];
      LogHolds(before, window, limit, from, skew);
      var n := Through(before, window, limit, from, to, None);
      if n > 0 {
        LastIsLate(calls, window, limit, from, to, None, skew);
      }
      if c.at < to {
        HeldSlides(After(before, window, limit).key, n, c, from, window, limit, skew);
        if c.reply.Lost? {
          HeldLess(After(calls, window, limit).key, n, from, window, skew);
        }
      }
    }
  }

  lemma NothingHeld(from: int, window: int, skew: nat)
    ensures Held(None, 0, from, window, skew)
  {
  }

  lemma HeldLess(k: Option<Key>, n: nat, from: int, window: int, skew: nat)
    requires Held(k, n, from, window, skew) || Held(k, n + 1, from, window, skew)
    ensures Held(k, n, from, window, skew)
  {
  }

  /** In any stretch of one window less twice the clock skew, Redis lets at most
      `limit` hits through: with clocks that agree, in any whole window. */
  lemma AtMostLimitInAWindow(calls: seq<Call>, window: int, limit: int, from: int, skew: nat)
    requires Timely(calls, skew)
    ensures Through(calls, window, limit, from, from + window - 2 * skew, None) <= Max(limit, 0)
  {
    LogHolds(calls, window, limit, from, skew);
    hide Through, After, Held;
  }

  // ------------------------------------------------------ the local window

  /** What a replica's open window says of the hits it let through since `from`. */
  ghost predicate Bounded(w: Option<Window>, n: nat, limit: int, from: int) {
    && (w.None? ==> n == 0)
    && (w.Some? ==> w.value.count <= Max(limit, 0) && (limit > 0 ==> w.value.count > 0))
    && (limit <= 0 ==> n == 0)
    && (w.Some? && limit > 0 ==> n <= w.value.count - 1 + if w.value.start < from then 0 else limit)
  }

  lemma BoundedHits(w: Option<Window>, n: nat, limit: int, window: int, from: int, now: int)
    requires Bounded(w, n, limit, from) && now < from + window && (n > 0 ==> from <= now)
    ensures var m := if from <= now && HitAnswer(w, limit, window, now).allowed then n + 1 else n;
            Bounded(Some(HitWindow(w, limit, window, now)), m, limit, from)
  {
  }

  lemma {:induction false} WindowsHold(calls: seq<Call>, window: int, limit: int, from: int, i: nat)
    requires Timely(calls, 0)
    ensures var n := Through(calls, window, limit, from, from + window, Some(i));
            && n <= Max(2 * limit - 1, 0)
            && ((forall j :: 0 <= j < |calls| ==> calls[j].at < from + window) ==>
                  Bounded(Mine(After(calls, window, limit), i), n, limit, from))
  {
    hide SlideKey, SlideAnswer, HitWindow, HitAnswer, Bounded;
    var to := from + window;
    if calls == [] {
      NothingBounded(limit, from);
    } else {
      var before, c := calls[..|calls| - 1], calls[|calls| - 1];
      WindowsHold(before, window, limit, from, i);
      var n := Through(before, window, limit, from, to, Some(i));
      if n > 0 {
        LastIsLate(calls, window, limit, from, to, Some(i), 0);
      }
      if c.at < to {
        assert c.now == c.at;
        BoundedHits(Mine(After(before, window, limit), i), n, limit, window, from, c.now);
        BoundedTotal(Mine(After(calls, window, limit), i), Through(calls, window, limit, from, to, Some(i)), limit, from);
      }
    }
  }

  lemma NothingBounded(limit: int, from: int)
    ensures Bounded(None, 0, limit, from)
  {
  }

  lemma BoundedTotal(w: Option<Window>, n: nat, limit: int, from: int)
    ensures Bounded(w, n, limit, from) ==> n <= Max(2 * limit - 1, 0)
  {
  }

  /** One replica's fallback lets fewer than twice the limit through in any
      window's length. */
  lemma FallbackBelowTwice(calls: seq<Call>, window: int, limit: int, from: int, i: nat)
    requires Timely(calls, 0)
    ensures Through(calls, window, limit, from, from + window, Some(i)) <= Max(2 * limit - 1, 0)
  {
    WindowsHold(calls, window, limit, from, i);
    hide Through, After, Bounded;
  }

  /** Refused by the fallback, a caller gets in exactly when the reset it was told
      has passed, if the limit lets anyone in. */
  lemma FallbackResetIsExact(w: Option<Window>, limit: int, window: int, now: int, next: int)
    requires now <= next && !HitAnswer(w, limit, window, now).allowed
    ensures var after := Some(HitWindow(w, limit, window, now));
            HitAnswer(after, limit, window, next).allowed <==>
            limit > 0 && next >= now + HitAnswer(w, limit, window, now).resetIn
  {
  }

  /** One early hit, the rest of the limit just before the window ends, and the
      whole limit again as the next one starts. */
  function Burst(window: int, limit: nat, m: nat): seq<Call> {
    if m == 0 then []
    else
      var at := if m == 1 then 0 else if m <= limit then window - 1 else window;
      Burst(window, limit, m - 1) + [Call(at, at, 0, Down)]
  }

  function BurstWindow(window: int, limit: nat, m: nat): Option<Window> {
    if m == 0 then None else if m <= limit then Some(Window(0, m)) else Some(Window(window, m - limit))
  }

  lemma {:induction false} BurstIsTimely(window: int, limit: nat, m: nat)
    requires window >= 2
    ensures var calls := Burst(window, limit, m);
            && Timely(calls, 0)
            && forall i :: 0 <= i < |calls| ==> calls[i].at <= if m <= 1 then 0 else if m <= limit then window - 1 else window
  {
    if m > 0 {
      BurstIsTimely(window, limit, m - 1);
    }
  }

  lemma BurstHit(window: int, limit: nat, m: nat, at: int)
    requires window >= 2 && 0 < m <= 2 * limit && at == if m == 1 then 0 else if m <= limit then window - 1 else window
    ensures Some(HitWindow(BurstWindow(window, limit, m - 1), limit, window, at)) == BurstWindow(window, limit, m)
    ensures HitAnswer(BurstWindow(window, limit, m - 1), limit, window, at).allowed
  {
  }

  lemma CallStep(calls: seq<Call>, at: int, window: int, limit: int, from: int, to: int)
    ensures var more := calls + [Call(at, at, 0, Down)];
            var w := Mine(After(calls, window, limit), 0);
            && Mine(After(more, window, limit), 0) == Some(HitWindow(w, limit, window, at))
            && Through(more, window, limit, from, to, Some(0)) ==
               Through(calls, window, limit, from, to, Some(0)) +
               if from <= at < to && HitAnswer(w, limit, window, at).allowed then 1 else 0
  {
    hide HitWindow, HitAnswer, SlideKey, SlideAnswer;
    var more := calls + [Call(at, at, 0, Down)];
    assert more[..|more| - 1] == calls;
  }

  lemma {:induction false} BurstGoesThrough(window: int, limit: nat, m: nat)
    requires window >= 2 && limit >= 1 && m <= 2 * limit
    ensures var calls := Burst(window, limit, m);
            && Mine(After(calls, window, limit), 0) == BurstWindow(window, limit, m)
            && Through(calls, window, limit, window - 1, 2 * window - 1, Some(0)) == if m == 0 then 0 else m - 1
  {
    hide HitWindow, HitAnswer, BurstWindow, SlideKey, SlideAnswer, After, Through, Mine;
    if m > 0 {
      BurstGoesThrough(window, limit, m - 1);
      var at := if m == 1 then 0 else if m <= limit then window - 1 else window;
      CallStep(Burst(window, limit, m - 1), at, window, limit, window - 1, 2 * window - 1);
      BurstHit(window, limit, m, at);
    } else {
      NoBurst(window, limit);
    }
  }

  lemma NoBurst(window: int, limit: nat)
    ensures BurstWindow(window, limit, 0) == None == Mine(After(Burst(window, limit, 0), window, limit), 0)
    ensures Through(Burst(window, limit, 0), window, limit, window - 1, 2 * window - 1, Some(0)) == 0
  {
  }

  /** The bound on the fallback cannot be lowered. */
  lemma FallbackReachesTheBound(window: int, limit: nat)
    requires window >= 2 && limit >= 1
    ensures var calls := Burst(window, limit, 2 * limit);
            Timely(calls, 0) && Through(calls, window, limit, window - 1, 2 * window - 1, Some(0)) == 2 * limit - 1
  {
    BurstGoesThrough(window, limit, 2 * limit);
    BurstIsTimely(window, limit, 2 * limit);
  }

  // -------------------------------------------------------------- together

  function AllThrough(calls: seq<Call>, window: int, limit: int, from: int, to: int): nat {
    if calls == [] then 0
    else
      AllThrough(calls[..|calls| - 1], window, limit, from, to) +
      if from <= calls[|calls| - 1].at < to && Accepts(calls, window, limit) then 1 else 0
  }

  function LocalThrough(calls: seq<Call>, window: int, limit: int, from: int, to: int, r: nat): nat {
    if r == 0 then 0
    else LocalThrough(calls, window, limit, from, to, r - 1) + Through(calls, window, limit, from, to, Some(r - 1))
  }

  lemma {:induction false} LocalStep(calls: seq<Call>, window: int, limit: int, from: int, to: int, r: nat)
    requires calls != []
    ensures var c := calls[|calls| - 1];
            LocalThrough(calls, window, limit, from, to, r) ==
            LocalThrough(calls[..|calls| - 1], window, limit, from, to, r) +
            if from <= c.at < to && !c.reply.Answered? && c.replica < r && Accepts(calls, window, limit) then 1 else 0
  {
    hide Accepts;
    if r > 0 {
      LocalStep(calls, window, limit, from, to, r - 1);
    }
  }

  lemma {:induction false} SplitBySource(calls: seq<Call>, window: int, limit: int, from: int, to: int, r: nat)
    requires forall i :: 0 <= i < |calls| ==> calls[i].replica < r
    ensures AllThrough(calls, window, limit, from, to) ==
            Through(calls, window, limit, from, to, None) + LocalThrough(calls, window, limit, from, to, r)
  {
    hide Accepts;
    if calls != [] {
      SplitBySource(calls[..|calls| - 1], window, limit, from, to, r);
      LocalStep(calls, window, limit, from, to, r);
    } else {
      NoneLocal(window, limit, from, to, r);
    }
  }

  lemma {:induction false} NoneLocal(window: int, limit: int, from: int, to: int, r: nat)
    ensures LocalThrough([], window, limit, from, to, r) == 0
  {
    if r > 0 {
      NoneLocal(window, limit, from, to, r - 1);
    }
  }

  lemma OneMore(r: nat, x: int)
    requires r > 0
    ensures r * x == (r - 1) * x + x
  {
  }

  lemma {:induction false} LocalBound(calls: seq<Call>, window: int, limit: int, from: int, r: nat)
    requires Timely(calls, 0)
    ensures LocalThrough(calls, window, limit, from, from + window, r) <= r * Max(2 * limit - 1, 0)
  {
    hide Through, Timely, Max;
    if r > 0 {
      LocalBound(calls, window, limit, from, r - 1);
      FallbackBelowTwice(calls, window, limit, from, r - 1);
      OneMore(r, Max(2 * limit - 1, 0));
    }
  }

  /** With r replicas and Redis failing whenever it likes, one key lets at most
      limit + r (2 limit - 1) hits through in any window's length. */
  lemma OutagesLoosenThisMuch(calls: seq<Call>, window: int, limit: int, from: int, r: nat)
    requires Timely(calls, 0) && forall i :: 0 <= i < |calls| ==> calls[i].replica < r
    ensures AllThrough(calls, window, limit, from, from + window) <= Max(limit, 0) + r * Max(2 * limit - 1, 0)
  {
    SplitBySource(calls, window, limit, from, from + window, r);
    AtMostLimitInAWindow(calls, window, limit, from, 0);
    LocalBound(calls, window, limit, from, r);
    hide Through, AllThrough, LocalThrough, Timely;
  }

  // ------------------------------------------------ the bound is reached

  /** Hits of one moment on one replica. */
  function Hits(at: int, i: nat, reply: Reply, k: nat): seq<Call> {
    if k == 0 then [] else Hits(at, i, reply, k - 1) + [Call(at, at, i, reply)]
  }

  /** The same on each of r replicas, none of which reaches Redis. */
  function Round(at: int, k: nat, r: nat): seq<Call> {
    if r == 0 then [] else Round(at, k, r - 1) + Hits(at, r - 1, Down, k)
  }

  /** One hit on each replica, then the rest of the limit on each just before its
      window ends and the whole limit on Redis, which answers for once, and the
      whole limit again as each next window starts. */
  function Worst(window: int, limit: nat, r: nat): seq<Call>
    requires limit >= 1
  {
    Round(0, 1, r) + Round(window - 1, limit - 1, r) + Hits(window - 1, 0, Answered, limit) + Round(window, limit, r)
  }

  function Opened(w: Option<Window>, window: int, at: int, k: nat): Option<Window> {
    if k == 0 then w else
      var c := Current(w, window, at);
      Some(c.(count := c.count + k))
  }

  function Within(at: int, from: int, to: int, k: nat): nat {
    if from <= at < to then k else 0
  }

  lemma AppendCall(calls: seq<Call>, c: Call, window: int, limit: int, from: int, to: int)
    ensures After(calls + [c], window, limit) == Called(After(calls, window, limit), c, window, limit).0
    ensures AllThrough(calls + [c], window, limit, from, to) ==
            AllThrough(calls, window, limit, from, to) +
            if from <= c.at < to && Called(After(calls, window, limit), c, window, limit).1 then 1 else 0
  {
    hide Called;
    var more := calls + [c];
    assert more[..|more| - 1] == calls;
  }

  lemma HitLocal(f: Fleet, i: nat, at: int, window: int, limit: int, w: Option<Window>, k: nat)
    requires Mine(f, i) == Opened(w, window, at, k) && Current(w, window, at).count + k < limit && window > 0
    ensures var (g, ok) := Called(f, Call(at, at, i, Down), window, limit);
            ok && g == f.(local := f.local[i := Opened(w, window, at, k + 1).value])
  {
  }

  lemma {:induction false} HitsGo(
      calls: seq<Call>, i: nat, at: int, k: nat, window: int, limit: int, from: int, to: int)
    requires window > 0 && Current(Mine(After(calls, window, limit), i), window, at).count + k <= limit
    ensures var before, after := After(calls, window, limit), After(calls + Hits(at, i, Down, k), window, limit);
            && after.key == before.key && Mine(after, i) == Opened(Mine(before, i), window, at, k)
            && (forall j: nat :: j != i ==> Mine(after, j) == Mine(before, j))
    ensures AllThrough(calls + Hits(at, i, Down, k), window, limit, from, to) ==
            AllThrough(calls, window, limit, from, to) + Within(at, from, to, k)
  {
    hide After, AllThrough, Called, Current, Opened;
    var w := Mine(After(calls, window, limit), i);
    if k == 0 {
      assert calls + Hits(at, i, Down, k) == calls;
      NoneOpened(w, window, at);
    } else {
      HitsGo(calls, i, at, k - 1, window, limit, from, to);
      var more := calls + Hits(at, i, Down, k - 1);
      HitLocal(After(more, window, limit), i, at, window, limit, w, k - 1);
      AppendCall(more, Call(at, at, i, Down), window, limit, from, to);
      assert calls + Hits(at, i, Down, k) == more + [Call(at, at, i, Down)];
      SomeOpened(w, window, at, k);
    }
  }

  lemma NoneOpened(w: Option<Window>, window: int, at: int)
    ensures Opened(w, window, at, 0) == w
  {
  }

  lemma SomeOpened(w: Option<Window>, window: int, at: int, k: nat)
    ensures k > 0 ==> Opened(w, window, at, k).Some?
  {
  }

  /** Every replica's window. */
  ghost predicate Each(f: Fleet, r: nat, w: Option<Window>) {
    forall i: nat :: i < r ==> Mine(f, i) == w
  }

  lemma {:induction false} RoundGoes(
      calls: seq<Call>, at: int, k: nat, r: nat, w: Option<Window>, window: int, limit: int, from: int, to: int)
    requires window > 0 && Current(w, window, at).count + k <= limit && Each(After(calls, window, limit), r, w)
    ensures var before, after := After(calls, window, limit), After(calls + Round(at, k, r), window, limit);
            && after.key == before.key && Each(after, r, Opened(w, window, at, k))
            && (forall j: nat :: j >= r ==> Mine(after, j) == Mine(before, j))
    ensures AllThrough(calls + Round(at, k, r), window, limit, from, to) ==
            AllThrough(calls, window, limit, from, to) + r * Within(at, from, to, k)
  {
    hide After, AllThrough, Mine, Current, Opened, Hits, Within;
    if r == 0 {
      assert calls + Round(at, k, r) == calls;
    } else {
      RoundGoes(calls, at, k, r - 1, w, window, limit, from, to);
      var more := calls + Round(at, k, r - 1);
      HitsGo(more, r - 1, at, k, window, limit, from, to);
      assert calls + Round(at, k, r) == more + Hits(at, r - 1, Down, k);
      OneMore(r, Within(at, from, to, k));
    }
  }

  /** Redis when it has counted k hits, all of this moment. */
  ghost predicate Logged(key: Option<Key>, at: int, window: int, k: nat) {
    |Scores(key)| == k && (forall i :: 0 <= i < k ==> Scores(key)[i] == at) && (key.Some? ==> key.value.expires == at + window)
  }

  lemma HitRedis(f: Fleet, at: int, window: int, limit: int, k: nat)
    requires Logged(f.key, at, window, k) && k < limit && window > 0
    ensures var (g, ok) := Called(f, Call(at, at, 0, Answered), window, limit);
            ok && g.local == f.local && Logged(g.key, at, window, k + 1)
  {
    var s := Scores(f.key);
    assert Live(f.key, at) == s;
    TrimAscending(s, at - window);
    AddLast(s, at);
    assert Trimmed(s, at - window) == s;
    hide Trimmed, Added;
  }

  lemma {:induction false} RedisGoes(calls: seq<Call>, at: int, k: nat, window: int, limit: int, from: int, to: int)
    requires window > 0 && k <= limit && After(calls, window, limit).key == None
    ensures var after := After(calls + Hits(at, 0, Answered, k), window, limit);
            Logged(after.key, at, window, k) && after.local == After(calls, window, limit).local
    ensures AllThrough(calls + Hits(at, 0, Answered, k), window, limit, from, to) ==
            AllThrough(calls, window, limit, from, to) + Within(at, from, to, k)
  {
    hide After, AllThrough, Called;
    if k == 0 {
      assert calls + Hits(at, 0, Answered, k) == calls;
    } else {
      hide Logged;
      RedisGoes(calls, at, k - 1, window, limit, from, to);
      var more := calls + Hits(at, 0, Answered, k - 1);
      HitRedis(After(more, window, limit), at, window, limit, k - 1);
      AppendCall(more, Call(at, at, 0, Answered), window, limit, from, to);
      assert calls + Hits(at, 0, Answered, k) == more + [Call(at, at, 0, Answered)];
    }
  }

  /** Calls of one moment, on replicas below r. */
  ghost predicate Moment(calls: seq<Call>, at: int, r: nat) {
    forall i :: 0 <= i < |calls| ==> calls[i].at == at == calls[i].now && calls[i].replica < r
  }

  lemma {:induction false} HitsMoment(at: int, i: nat, reply: Reply, k: nat, r: nat)
    requires i < r
    ensures Moment(Hits(at, i, reply, k), at, r)
  {
    if k > 0 {
      HitsMoment(at, i, reply, k - 1, r);
    }
  }

  lemma {:induction false} RoundMoment(at: int, k: nat, n: nat, r: nat)
    requires n <= r
    ensures Moment(Round(at, k, n), at, r)
  {
    if n > 0 {
      RoundMoment(at, k, n - 1, r);
      HitsMoment(at, n - 1, Down, k, r);
    }
  }

  ghost predicate Upto(calls: seq<Call>, at: int, r: nat) {
    Timely(calls, 0) && forall i :: 0 <= i < |calls| ==> calls[i].at <= at && calls[i].replica < r
  }

  lemma MomentAfter(a: seq<Call>, b: seq<Call>, was: int, at: int, r: nat)
    requires Upto(a, was, r) && was <= at && Moment(b, at, r)
    ensures Upto(a + b, at, r)
  {
  }

  lemma WorstIsTimely(window: int, limit: nat, r: nat)
    requires window >= 2 && limit >= 1 && r >= 1
    ensures Upto(Worst(window, limit, r), window, r)
  {
    hide Round, Hits, Moment, Upto;
    RoundMoment(0, 1, r, r);
    RoundMoment(window - 1, limit - 1, r, r);
    HitsMoment(window - 1, 0, Answered, limit, r);
    RoundMoment(window, limit, r, r);
    var a, b, c, d := Round(0, 1, r), Round(window - 1, limit - 1, r), Hits(window - 1, 0, Answered, limit), Round(window, limit, r);
    NoneYet(r);
    MomentAfter([], a, 0, 0, r);
    assert [] + a == a;
    MomentAfter(a, b, 0, window - 1, r);
    MomentAfter(a + b, c, window - 1, window - 1, r);
    MomentAfter(a + b + c, d, window - 1, window, r);
  }

  lemma NoneYet(r: nat)
    ensures Upto([], 0, r)
  {
  }

  lemma NothingCounted(r: nat, window: int, limit: int, from: int, to: int)
    ensures After([], window, limit).key == None && Each(After([], window, limit), r, None)
    ensures AllThrough([], window, limit, from, to) == 0
  {
  }

  lemma SameLocal(f: Fleet, g: Fleet, r: nat, w: Option<Window>)
    requires f.local == g.local && Each(f, r, w)
    ensures Each(g, r, w)
  {
    assert forall i: nat :: Mine(g, i) == Mine(f, i);
  }

  lemma Opens(window: int, limit: nat)
    requires window >= 2 && limit >= 1
    ensures Current(None, window, 0).count == 0
    ensures Opened(None, window, 0, 1) == Some(Window(0, 1))
    ensures Current(Some(Window(0, 1)), window, window - 1).count == 1
    ensures Opened(Some(Window(0, 1)), window, window - 1, limit - 1) == Some(Window(0, limit))
    ensures Current(Some(Window(0, limit)), window, window).count == 0
  {
  }

  lemma FirstRound(window: int, limit: nat, r: nat)
    requires window >= 2 && limit >= 1
    ensures var calls := Round(0, 1, r);
            && After(calls, window, limit).key == None && Each(After(calls, window, limit), r, Some(Window(0, 1)))
            && AllThrough(calls, window, limit, window - 1, 2 * window - 1) == 0
  {
    hide After, AllThrough, Round, Each, Current, Opened;
    Opens(window, limit);
    NothingCounted(r, window, limit, window - 1, 2 * window - 1);
    RoundGoes([], 0, 1, r, None, window, limit, window - 1, 2 * window - 1);
    assert [] + Round(0, 1, r) == Round(0, 1, r);
  }

  lemma SecondRound(window: int, limit: nat, r: nat)
    requires window >= 2 && limit >= 1
    ensures var calls := Round(0, 1, r) + Round(window - 1, limit - 1, r);
            && After(calls, window, limit).key == None && Each(After(calls, window, limit), r, Some(Window(0, limit)))
            && AllThrough(calls, window, limit, window - 1, 2 * window - 1) == r * (limit - 1)
  {
    hide After, AllThrough, Round, Each, Current, Opened;
    Opens(window, limit);
    FirstRound(window, limit, r);
    RoundGoes(Round(0, 1, r), window - 1, limit - 1, r, Some(Window(0, 1)), window, limit, window - 1, 2 * window - 1);
  }

  lemma RedisAnswers(window: int, limit: nat, r: nat)
    requires window >= 2 && limit >= 1
    ensures var calls := Round(0, 1, r) + Round(window - 1, limit - 1, r) + Hits(window - 1, 0, Answered, limit);
            && Each(After(calls, window, limit), r, Some(Window(0, limit)))
            && AllThrough(calls, window, limit, window - 1, 2 * window - 1) == r * (limit - 1) + limit
  {
    hide After, AllThrough, Round, Each, Hits;
    SecondRound(window, limit, r);
    var calls := Round(0, 1, r) + Round(window - 1, limit - 1, r);
    RedisGoes(calls, window - 1, limit, window, limit, window - 1, 2 * window - 1);
    var more := calls + Hits(window - 1, 0, Answered, limit);
    SameLocal(After(calls, window, limit), After(more, window, limit), r, Some(Window(0, limit)));
  }

  lemma WorstGoesThrough(window: int, limit: nat, r: nat)
    requires window >= 2 && limit >= 1
    ensures AllThrough(Worst(window, limit, r), window, limit, window - 1, 2 * window - 1) ==
            r * (limit - 1) + limit + r * limit
  {
    hide After, AllThrough, Round, Each, Current, Opened, Hits;
    Opens(window, limit);
    RedisAnswers(window, limit, r);
    var calls := Round(0, 1, r) + Round(window - 1, limit - 1, r) + Hits(window - 1, 0, Answered, limit);
    RoundGoes(calls, window, limit, r, Some(Window(0, limit)), window, limit, window - 1, 2 * window - 1);
  }

  lemma SumUp(r: nat, limit: int)
    ensures r * (limit - 1) + r * limit == r * (2 * limit - 1)
  {
  }

  /** And no lower bound would do. */
  lemma OutagesReachTheBound(window: int, limit: nat, r: nat)
    requires window >= 2 && limit >= 1 && r >= 1
    ensures var calls := Worst(window, limit, r);
            && Timely(calls, 0) && (forall i :: 0 <= i < |calls| ==> calls[i].replica < r)
            && AllThrough(calls, window, limit, window - 1, 2 * window - 1) == limit + r * (2 * limit - 1)
  {
    WorstIsTimely(window, limit, r);
    WorstGoesThrough(window, limit, r);
    SumUp(r, limit);
    hide Worst, AllThrough, Timely;
  }

  // --------------------------------------------------------- expiry, reset

  /** The log as it would be if Redis never dropped a key. */
  function Forever(times: seq<int>, window: int, limit: int): seq<int> {
    if times == [] then []
    else
      var now := times[|times| - 1];
      var kept := Trimmed(Forever(times[..|times| - 1], window, limit), now - window);
      if |kept| < limit then Added(kept, now) else kept
  }

  function KeyAfter(times: seq<int>, window: int, limit: int): Option<Key> {
    if times == [] then None
    else
      var now := times[|times| - 1];
      SlideKey(KeyAfter(times[..|times| - 1], window, limit), now, now, window, limit)
  }

  ghost predicate Ascending(s: seq<int>) {
    forall i, j :: 0 <= i < j < |s| ==> s[i] <= s[j]
  }

  lemma {:induction false} TrimAll(s: seq<int>, cut: int)
    requires forall i :: 0 <= i < |s| ==> s[i] <= cut
    ensures Trimmed(s, cut) == []
  {
    if s != [] {
      TrimAll(s[1..], cut);
    }
  }

  lemma {:induction false} TrimWithin(s: seq<int>, cut: int, last: int)
    requires forall i :: 0 <= i < |s| ==> s[i] <= last
    ensures forall i :: 0 <= i < |Trimmed(s, cut)| ==> cut < Trimmed(s, cut)[i] <= last
  {
    if s != [] {
      TrimWithin(s[1..], cut, last);
    }
  }

  lemma {:induction false} AddWithin(s: seq<int>, x: int, last: int)
    requires x <= last && forall i :: 0 <= i < |s| ==> s[i] <= last
    ensures forall i :: 0 <= i < |Added(s, x)| ==> Added(s, x)[i] <= last
  {
    if s != [] && x >= s[0] {
      AddWithin(s[1..], x, last);
    }
  }

  /** Between a key and the log that never expires: the same scores, none in the
      future, and a key that lives a window past its last use. */
  ghost predicate Agrees(k: Option<Key>, s: seq<int>, last: int, window: int) {
    && Scores(k) == s && (forall i :: 0 <= i < |s| ==> s[i] <= last)
    && (k.Some? ==> k.value.expires == last + window)
  }

  lemma AgreesSlides(k: Option<Key>, s: seq<int>, last: int, now: int, window: int, limit: int)
    requires Agrees(k, s, last, window) && last <= now
    ensures Trimmed(Live(k, now), now - window) == Trimmed(s, now - window)
    ensures var kept := Trimmed(s, now - window);
            Agrees(SlideKey(k, now, now, window, limit), if |kept| < limit then Added(kept, now) else kept, now, window)
  {
    if k.Some? && now >= k.value.expires {
      TrimAll(s, now - window);
    }
    var kept := Trimmed(s, now - window);
    TrimWithin(s, now - window, now);
    AddWithin(kept, now, now);
    hide Trimmed, Added;
  }

  lemma {:induction false} KeyAgrees(times: seq<int>, window: int, limit: int)
    requires Ascending(times) && times != []
    ensures Agrees(KeyAfter(times, window, limit), Forever(times, window, limit), times[|times| - 1], window)
  {
    hide Agrees, SlideKey, Trimmed, Added;
    var n := |times| - 1;
    var before := times[..n];
    if n == 0 {
      StartAgrees(times[0], window);
      AgreesSlides(None, [], times[0], times[0], window, limit);
      assert before == [];
    } else {
      KeyAgrees(before, window, limit);
      assert before[n - 1] <= times[n];
      AgreesSlides(KeyAfter(before, window, limit), Forever(before, window, limit), before[n - 1], times[n], window, limit);
    }
  }

  lemma StartAgrees(now: int, window: int)
    ensures Agrees(None, [], now, window)
  {
  }

  lemma AgreesOn(times: seq<int>, now: int, window: int, limit: int)
    requires Ascending(times) && forall i :: 0 <= i < |times| ==> times[i] <= now
    ensures Trimmed(Live(KeyAfter(times, window, limit), now), now - window) ==
            Trimmed(Forever(times, window, limit), now - window)
  {
    hide Agrees, SlideKey, Trimmed, Added, Live;
    if times == [] {
      StartAgrees(now, window);
      AgreesSlides(None, [], now, now, window, limit);
    } else {
      KeyAgrees(times, window, limit);
      AgreesSlides(KeyAfter(times, window, limit), Forever(times, window, limit), times[|times| - 1], now, window, limit);
    }
  }

  lemma AscendingPrefix(times: seq<int>, now: int)
    requires Ascending(times + [now])
    ensures Ascending(times) && forall i :: 0 <= i < |times| ==> times[i] <= now
  {
    var all := times + [now];
    assert forall i :: 0 <= i < |times| ==> all[i] == times[i];
    assert all[|times|] == now;
  }

  lemma SameScores(times: seq<int>, window: int, limit: int)
    requires Ascending(times)
    ensures Scores(KeyAfter(times, window, limit)) == Forever(times, window, limit)
  {
    if times != [] {
      KeyAgrees(times, window, limit);
      hide KeyAfter, Forever;
    }
  }

  /** That Redis drops an idle key never changes an answer. */
  lemma ExpiryChangesNothing(times: seq<int>, now: int, window: int, limit: int)
    requires Ascending(times + [now])
    ensures SlideAnswer(KeyAfter(times, window, limit), now, now, window, limit).allowed <==>
            |Trimmed(Forever(times, window, limit), now - window)| < limit
    ensures Scores(KeyAfter(times + [now], window, limit)) == Forever(times + [now], window, limit)
  {
    AscendingPrefix(times, now);
    AgreesOn(times, now, window, limit);
    SameScores(times + [now], window, limit);
    hide Trimmed, Added, Forever, KeyAfter, Live, Slid, Ascending, Scores;
  }

  /** A key as calls at non-decreasing times leave it: in order, within the limit. */
  ghost predicate Kept(k: Option<Key>, last: int, window: int, limit: int) {
    && Agrees(k, Scores(k), last, window) && Ascending(Scores(k)) && |Scores(k)| <= Max(limit, 0)
  }

  lemma {:induction false} TrimAscending(s: seq<int>, cut: int)
    requires Ascending(s)
    ensures Ascending(Trimmed(s, cut)) && |Trimmed(s, cut)| <= |s|
    ensures Trimmed(s, cut) == s <==> s == [] || s[0] > cut
  {
    if s != [] {
      TrimAscending(s[1..], cut);
      TrimWithin(s[1..], cut, s[|s| - 1]);
      if s[0] > cut && |s| > 1 {
        assert s[1] > cut;
      }
      if s[0] > cut {
        assert s[1..] == [] || s[1..][0] > cut;
        assert s == [s[0]] + s[1..];
      } else {
        assert |Trimmed(s, cut)| < |s|;
      }
    }
  }

  lemma {:induction false} AddLast(s: seq<int>, x: int)
    requires forall i :: 0 <= i < |s| ==> s[i] <= x
    ensures Added(s, x) == s + [x]
  {
    if s != [] {
      AddLast(s[1..], x);
      assert s == [s[0]] + s[1..];
    }
  }

  lemma KeptScores(kept: seq<int>, now: int, limit: int)
    requires Ascending(kept) && |kept| <= Max(limit, 0) && forall i :: 0 <= i < |kept| ==> kept[i] <= now
    ensures var s := if |kept| < limit then Added(kept, now) else kept; Ascending(s) && |s| <= Max(limit, 0)
  {
    AddLast(kept, now);
    hide Added;
  }

  lemma SlidIs(k: Option<Key>, now: int, window: int, limit: int)
    ensures Slid(k, now, now, window, limit) == Scores(SlideKey(k, now, now, window, limit))
    ensures var kept := Trimmed(Live(k, now), now - window);
            Slid(k, now, now, window, limit) == if |kept| < limit then Added(kept, now) else kept
  {
    hide Trimmed, Added, Live;
  }

  lemma KeptIs(k: Option<Key>, last: int, window: int, limit: int)
    ensures Kept(k, last, window, limit) <==>
            Agrees(k, Scores(k), last, window) && Ascending(Scores(k)) && |Scores(k)| <= Max(limit, 0)
  {
    hide Agrees, Ascending, Scores;
  }

  lemma KeptSlides(k: Option<Key>, last: int, now: int, window: int, limit: int)
    requires Kept(k, last, window, limit) && last <= now
    ensures Kept(SlideKey(k, now, now, window, limit), now, window, limit)
    ensures Slid(k, now, now, window, limit) == Scores(SlideKey(k, now, now, window, limit))
  {
    hide Trimmed, Added, Ascending, Agrees, Live, Kept, Slid, SlideKey, Scores;
    var s := Scores(k);
    var kept := Trimmed(s, now - window);
    var u := SlideKey(k, now, now, window, limit);
    KeptIs(k, last, window, limit);
    AgreesSlides(k, s, last, now, window, limit);
    AgreesWithin(k, s, last, window);
    TrimAscending(s, now - window);
    TrimWithin(s, now - window, now);
    KeptScores(kept, now, limit);
    SlidIs(k, now, window, limit);
    KeptIs(u, now, window, limit);
  }

  lemma AgreesWithin(k: Option<Key>, s: seq<int>, last: int, window: int)
    requires Agrees(k, s, last, window)
    ensures Scores(k) == s && forall i :: 0 <= i < |s| ==> s[i] <= last
  {
  }

  lemma {:induction false} KeptAfter(times: seq<int>, window: int, limit: int)
    requires Ascending(times) && times != []
    ensures Kept(KeyAfter(times, window, limit), times[|times| - 1], window, limit)
  {
    hide Kept, SlideKey;
    var n := |times| - 1;
    if n == 0 {
      assert times[..n] == [];
      StartKept(times[0], window, limit);
      KeptSlides(None, times[0], times[0], window, limit);
    } else {
      KeptAfter(times[..n], window, limit);
      KeptSlides(KeyAfter(times[..n], window, limit), times[n - 1], times[n], window, limit);
    }
  }

  lemma StartKept(now: int, window: int, limit: int)
    ensures Kept(None, now, window, limit)
  {
  }

  /** After a call, the next is let through exactly when there was room left, or
      the reset reported has passed and the limit is not zero. */
  lemma NextAllowedExactlyWhen(k: Option<Key>, last: int, now: int, next: int, window: int, limit: int)
    requires Kept(k, last, window, limit) && last <= now <= next && window > 0
    ensures var a, after := SlideAnswer(k, now, now, window, limit), SlideKey(k, now, now, window, limit);
            SlideAnswer(after, next, next, window, limit).allowed <==>
            a.count < limit || (limit > 0 && next >= now + a.resetIn)
  {
    hide Trimmed, Added, Slid, Live, SlideKey, Kept, Agrees, Ascending, Scores;
    var after := SlideKey(k, now, now, window, limit);
    var s := Scores(after);
    KeptSlides(k, last, now, window, limit);
    KeptIs(after, now, window, limit);
    AgreesSlides(after, s, now, next, window, limit);
    TrimAscending(s, next - window);
    TrimShorter(s, next - window);
  }

  lemma TrimShorter(s: seq<int>, cut: int)
    requires Ascending(s)
    ensures |Trimmed(s, cut)| < |s| <==> s != [] && s[0] <= cut
  {
    TrimAscending(s, cut);
    if s != [] && s[0] <= cut {
      TrimAscending(s[1..], cut);
    }
  }

  function KeyAfterFrom(k: Option<Key>, times: seq<int>, window: int, limit: int): Option<Key> {
    if times == [] then k
    else
      var now := times[|times| - 1];
      SlideKey(KeyAfterFrom(k, times[..|times| - 1], window, limit), now, now, window, limit)
  }

  /** A full log stays as it is, however often it is tried before its oldest hit leaves. */
  lemma {:induction false} FullStays(k: Option<Key>, last: int, tries: seq<int>, window: int, limit: int)
    requires Kept(k, last, window, limit) && limit > 0 && |Scores(k)| == limit
    requires Ascending(tries) && forall i :: 0 <= i < |tries| ==> last <= tries[i] < Scores(k)[0] + window
    ensures var u := KeyAfterFrom(k, tries, window, limit);
            Scores(u) == Scores(k) && Kept(u, if tries == [] then last else tries[|tries| - 1], window, limit)
  {
    hide Kept, SlideKey, SlideAnswer, Scores;
    if tries != [] {
      var n := |tries| - 1;
      FullStays(k, last, tries[..n], window, limit);
      var u := KeyAfterFrom(k, tries[..n], window, limit);
      var at := if n == 0 then last else tries[n - 1];
      assert at <= tries[n];
      FullAnswers(u, at, tries[n], window, limit);
      KeptSlides(u, at, tries[n], window, limit);
    }
  }

  /** Refused calls do not push the reset away: whatever the caller tries before
      it is refused, and the first call at or after it gets in. */
  lemma HammeringChangesNothing(
      k: Option<Key>, last: int, now: int, tries: seq<int>, next: int, window: int, limit: int)
    requires Kept(k, last, window, limit) && last <= now <= next && window > 0 && limit > 0
    requires !SlideAnswer(k, now, now, window, limit).allowed
    requires Ascending(tries)
    requires forall i :: 0 <= i < |tries| ==>
               now <= tries[i] <= next && tries[i] < now + SlideAnswer(k, now, now, window, limit).resetIn
    ensures var u := KeyAfterFrom(SlideKey(k, now, now, window, limit), tries, window, limit);
            SlideAnswer(u, next, next, window, limit).allowed <==>
            next >= now + SlideAnswer(k, now, now, window, limit).resetIn
  {
    hide Kept, SlideKey, SlideAnswer, Scores;
    var after := SlideKey(k, now, now, window, limit);
    KeptSlides(k, last, now, window, limit);
    RefusedIsFull(k, last, now, window, limit);
    FullStays(after, now, tries, window, limit);
    var u := KeyAfterFrom(after, tries, window, limit);
    FullAnswers(u, if tries == [] then now else tries[|tries| - 1], next, window, limit);
  }

  /** A refused call leaves a full log whose oldest hit dates its reset. */
  lemma RefusedIsFull(k: Option<Key>, last: int, now: int, window: int, limit: int)
    requires Kept(k, last, window, limit) && last <= now && limit > 0
    requires !SlideAnswer(k, now, now, window, limit).allowed
    ensures var s := Scores(SlideKey(k, now, now, window, limit));
            |s| == limit && now + SlideAnswer(k, now, now, window, limit).resetIn == s[0] + window
  {
    KeptSlides(k, last, now, window, limit);
    AgreesSlides(k, Scores(k), last, now, window, limit);
    TrimAscending(Scores(k), now - window);
    hide Trimmed, Added;
  }

  /** What a full log answers: refused and unchanged until its oldest hit leaves. */
  lemma FullAnswers(k: Option<Key>, last: int, now: int, window: int, limit: int)
    requires Kept(k, last, window, limit) && last <= now && limit > 0 && |Scores(k)| == limit
    ensures SlideAnswer(k, now, now, window, limit).allowed <==> now >= Scores(k)[0] + window
    ensures now < Scores(k)[0] + window ==> Scores(SlideKey(k, now, now, window, limit)) == Scores(k)
  {
    assert Agrees(k, Scores(k), last, window) && Ascending(Scores(k));
    hide Trimmed, Added, Live, Ascending, Kept, Agrees, SlideAnswer, SlideKey, Slid, Scores;
    AgreesSlides(k, Scores(k), last, now, window, limit);
    TrimAscending(Scores(k), now - window);
    TrimShorter(Scores(k), now - window);
    TrimmedAnswers(k, Scores(k), now, window, limit);
  }

  /** What the script answers, from what is left of its log. */
  lemma TrimmedAnswers(k: Option<Key>, s: seq<int>, now: int, window: int, limit: int)
    requires limit > 0 && |s| == limit && Trimmed(Live(k, now), now - window) == Trimmed(s, now - window)
    ensures SlideAnswer(k, now, now, window, limit).allowed <==> |Trimmed(s, now - window)| < limit
    ensures Trimmed(s, now - window) == s ==> Scores(SlideKey(k, now, now, window, limit)) == s
  {
    hide Trimmed, Added, Live;
  }
}
