/** One request against several rules: what is decided, what is reported, and
    when trying again will work. */
module RateChecks {
  import opened Base
  import opened RateLimit
  import opened RateLaws

  lemma RefusedHasNoneLeft(s: Store, r: Rule, reply: Reply, clock: int, now: int)
    ensures var a := Counted(s, r, reply, clock, now).1; !a.allowed ==> Remaining(r, a) == 0
    ensures var a := Counted(s, r, reply, clock, now).1; Remaining(r, a) >= 0
  {
    hide Trimmed, Added, Live;
  }

  /** A request is let through exactly when every rule lets it through. */
  lemma {:induction false} AllowedByAll(s: Store, rules: seq<Rule>, replies: seq<Reply>, clock: int, now: int, n: nat)
    requires n <= |rules| == |replies|
    ensures Checked(s, rules, replies, clock, now, n).1.allowed <==>
            forall i :: 0 <= i < n ==> AnswerTo(s, rules, replies, clock, now, i).allowed
  {
    hide Counted, Remaining;
    if n > 0 {
      AllowedByAll(s, rules, replies, clock, now, n - 1);
      assert AnswerTo(s, rules, replies, clock, now, n - 1).allowed
             == Counted(Checked(s, rules, replies, clock, now, n - 1).0, rules[n - 1], replies[n - 1], clock, now).1.allowed;
    }
  }

  /** A refusal reports the last rule that refused, with none left. */
  lemma {:induction false} ReportsLastRefusal(
      s: Store, rules: seq<Rule>, replies: seq<Reply>, clock: int, now: int, n: nat, j: nat)
    requires j < n <= |rules| == |replies|
    requires !AnswerTo(s, rules, replies, clock, now, j).allowed
    requires forall i :: j < i < n ==> AnswerTo(s, rules, replies, clock, now, i).allowed
    ensures var res := Checked(s, rules, replies, clock, now, n).1;
            && !res.allowed && res.limit == rules[j].limit && res.remaining == 0
            && res.reset == AnswerTo(s, rules, replies, clock, now, j).resetIn
  {
    hide Counted, Remaining;
    RefusedHasNoneLeft(Checked(s, rules, replies, clock, now, n - 1).0, rules[n - 1], replies[n - 1], clock, now);
    var a := AnswerTo(s, rules, replies, clock, now, n - 1);
    if j < n - 1 {
      ReportsLastRefusal(s, rules, replies, clock, now, n - 1, j);
      assert a.allowed;
    }
  }

  function Left(s: Store, rules: seq<Rule>, replies: seq<Reply>, clock: int, now: int, i: nat): int
    requires i < |rules| == |replies|
  {
    Remaining(rules[i], AnswerTo(s, rules, replies, clock, now, i))
  }

  /** The rule an accepted request reports: of those with the fewest left, the first. */
  ghost predicate Tightest(s: Store, rules: seq<Rule>, replies: seq<Reply>, clock: int, now: int, n: nat, j: nat)
    requires n <= |rules| == |replies|
  {
    && j < n
    && (forall i :: 0 <= i < n ==> Left(s, rules, replies, clock, now, j) <= Left(s, rules, replies, clock, now, i))
    && forall i :: 0 <= i < j ==> Left(s, rules, replies, clock, now, j) < Left(s, rules, replies, clock, now, i)
  }

  lemma {:induction false} ReportsTightest(s: Store, rules: seq<Rule>, replies: seq<Reply>, clock: int, now: int, n: nat)
    returns (j: nat)
    requires 0 < n <= |rules| == |replies|
    requires forall i :: 0 <= i < n ==> AnswerTo(s, rules, replies, clock, now, i).allowed
    requires forall i :: 0 <= i < n ==> Left(s, rules, replies, clock, now, i) < MAX_INT
    ensures Tightest(s, rules, replies, clock, now, n, j)
    ensures var res := Checked(s, rules, replies, clock, now, n).1;
            && res.allowed && res.limit == rules[j].limit && res.remaining == Left(s, rules, replies, clock, now, j)
            && res.reset == AnswerTo(s, rules, replies, clock, now, j).resetIn
  {
    hide Counted, Remaining;
    var last := n - 1;
    assert AnswerTo(s, rules, replies, clock, now, last).allowed;
    assert Left(s, rules, replies, clock, now, last) < MAX_INT;
    j := last;
    if last > 0 {
      j := ReportsTightest(s, rules, replies, clock, now, last);
      if Left(s, rules, replies, clock, now, last) < Left(s, rules, replies, clock, now, j) {
        j := last;
      }
    }
  }

  // ------------------------------------------------------------ trying again

  function Answering(n: nat): seq<Reply> {
    seq(n, i => Answered)
  }

  predicate DistinctKeys(rules: seq<Rule>) {
    forall i, j :: 0 <= i < j < |rules| ==> rules[i].key != rules[j].key
  }

  /** Redis's part of a check, rule by rule. */
  function KeysAfter(keys: map<string, Key>, rules: seq<Rule>, now: int, n: nat): map<string, Key>
    requires n <= |rules|
  {
    if n == 0 then keys
    else
      var m := KeysAfter(keys, rules, now, n - 1);
      var r := rules[n - 1];
      Assigned(m, r.key, SlideKey(Lookup(m, r.key), now, now, r.window, r.limit))
  }

  lemma {:induction false} CheckedKeys(s: Store, rules: seq<Rule>, now: int, n: nat)
    requires n <= |rules|
    ensures Checked(s, rules, Answering(|rules|), now, now, n).0.keys == KeysAfter(s.keys, rules, now, n)
  {
    hide SlideKey, SlideAnswer, Tightened;
    if n > 0 {
      CheckedKeys(s, rules, now, n - 1);
    }
  }

  lemma LookupAssigned<V>(m: map<string, V>, k: string, v: Option<V>, other: string)
    ensures Lookup(Assigned(m, k, v), other) == if other == k then v else Lookup(m, other)
  {
  }

  lemma {:induction false} KeysElsewhere(keys: map<string, Key>, rules: seq<Rule>, now: int, n: nat, i: nat)
    requires n <= |rules| && i < |rules| && DistinctKeys(rules)
    ensures Lookup(KeysAfter(keys, rules, now, n), rules[i].key) ==
            var k := Lookup(keys, rules[i].key);
            if i < n then SlideKey(k, now, now, rules[i].window, rules[i].limit) else k
  {
    hide SlideKey, Lookup, Assigned;
    if n > 0 {
      var r, m := rules[n - 1], KeysAfter(keys, rules, now, n - 1);
      KeysElsewhere(keys, rules, now, n - 1, i);
      LookupAssigned(m, r.key, SlideKey(Lookup(m, r.key), now, now, r.window, r.limit), rules[i].key);
    }
  }

  /** With distinct keys each rule answers from its own key alone. */
  lemma AnswersApart(s: Store, rules: seq<Rule>, now: int, i: nat)
    requires i < |rules| && DistinctKeys(rules)
    ensures AnswerTo(s, rules, Answering(|rules|), now, now, i) ==
            SlideAnswer(Lookup(s.keys, rules[i].key), now, now, rules[i].window, rules[i].limit)
  {
    CheckedKeys(s, rules, now, i);
    KeysElsewhere(s.keys, rules, now, i, i);
    hide SlideKey, SlideAnswer, Checked, KeysAfter, Lookup, Assigned;
  }

  ghost predicate KeptBefore(k: Option<Key>, r: Rule, now: int) {
    exists last :: last <= now && Kept(k, last, r.window, r.limit)
  }

  /** The keys of the rules are as earlier calls left them. */
  ghost predicate AllKept(s: Store, rules: seq<Rule>, now: int) {
    forall i :: 0 <= i < |rules| ==> KeptBefore(Lookup(s.keys, rules[i].key), rules[i], now) && rules[i].window > 0
  }

  /** Whether one rule stands in the way of trying again at `next`, from what it
      answered at `now`. */
  predicate Clears(r: Rule, a: Answer, now: int, next: int) {
    Remaining(r, a) > 0 || (r.limit > 0 && next >= now + a.resetIn)
  }

  lemma ClearsExactlyWhen(s: Store, rules: seq<Rule>, now: int, next: int, i: nat)
    requires DistinctKeys(rules) && AllKept(s, rules, now) && now <= next && i < |rules|
    ensures var replies := Answering(|rules|);
            var after := Checked(s, rules, replies, now, now, |rules|).0;
            AnswerTo(after, rules, replies, next, next, i).allowed <==>
            Clears(rules[i], AnswerTo(s, rules, replies, now, now, i), now, next)
  {
    var replies := Answering(|rules|);
    var after := Checked(s, rules, replies, now, now, |rules|).0;
    var r := rules[i];
    var k := Lookup(s.keys, r.key);
    var last :| last <= now && Kept(k, last, r.window, r.limit);
    AnswersApart(s, rules, now, i);
    AnswersApart(after, rules, next, i);
    CheckedKeys(s, rules, now, |rules|);
    KeysElsewhere(s.keys, rules, now, |rules|, i);
    hide Checked, KeysAfter, SlideKey, SlideAnswer, Kept, AnswerTo, Lookup, AllKept, DistinctKeys;
    NextAllowedExactlyWhen(k, last, now, next, r.window, r.limit);
  }

  /** Trying again at `next`, with nobody else in between, works exactly when
      every rule had room left after the first try or has passed its own reset. */
  lemma RetryWorksExactlyWhen(s: Store, rules: seq<Rule>, now: int, next: int)
    requires DistinctKeys(rules) && AllKept(s, rules, now) && now <= next
    ensures var replies := Answering(|rules|);
            var after := Checked(s, rules, replies, now, now, |rules|).0;
            Checked(after, rules, replies, next, next, |rules|).1.allowed <==>
            forall i :: 0 <= i < |rules| ==> Clears(rules[i], AnswerTo(s, rules, replies, now, now, i), now, next)
  {
    var replies := Answering(|rules|);
    var after := Checked(s, rules, replies, now, now, |rules|).0;
    hide Checked, Clears, AnswerTo, AllKept, DistinctKeys;
    AllowedByAll(after, rules, replies, next, next, |rules|);
    forall i | 0 <= i < |rules|
      ensures AnswerTo(after, rules, replies, next, next, i).allowed <==>
              Clears(rules[i], AnswerTo(s, rules, replies, now, now, i), now, next)
    {
      ClearsExactlyWhen(s, rules, now, next, i);
    }
  }

  /** One rule: a refused caller who waits what was reported is let in. With
      several this fails when an earlier rule's reset is the longer one. */
  lemma ReportedResetMayBeShort()
    ensures var rules := [Rule("email", 1, 1000), Rule("ip", 1, 10)];
            var s := Store(map["email" := Key([4], 1004), "ip" := Key([0], 10)], map[]);
            var (after, res) := Checked(s, rules, Answering(2), 5, 5, 2);
            && AllKept(s, rules, 5) && DistinctKeys(rules)
            && !res.allowed && res.reset == 5
            && !Checked(after, rules, Answering(2), 5 + res.reset, 5 + res.reset, 2).1.allowed
  {
    hide Checked, KeysAfter, Trimmed, AnswerTo, SlideAnswer, SlideKey, Kept, Clears;
    var rules := [Rule("email", 1, 1000), Rule("ip", 1, 10)];
    var s := Store(map["email" := Key([4], 1004), "ip" := Key([0], 10)], map[]);
    ExampleKept();
    EmailAnswer();
    IpAnswer();
    AnswersApart(s, rules, 5, 0);
    AnswersApart(s, rules, 5, 1);
    ReportsLastRefusal(s, rules, Answering(2), 5, 5, 2, 1);
    RetryWorksExactlyWhen(s, rules, 5, 10);
    StillTooEarly(rules[0], AnswerTo(s, rules, Answering(2), 5, 5, 0));
  }

  lemma ExampleKept()
    ensures Kept(Some(Key([4], 1004)), 4, 1000, 1) && Kept(Some(Key([0], 10)), 0, 10, 1)
  {
  }

  lemma EmailAnswer()
    ensures SlideAnswer(Some(Key([4], 1004)), 5, 5, 1000, 1) == Answer(false, 1, 999)
  {
    TrimOne(4, 5 - 1000);
    hide Trimmed;
  }

  lemma IpAnswer()
    ensures SlideAnswer(Some(Key([0], 10)), 5, 5, 10, 1) == Answer(false, 1, 5)
  {
    TrimOne(0, 5 - 10);
    hide Trimmed;
  }

  lemma StillTooEarly(r: Rule, a: Answer)
    requires r == Rule("email", 1, 1000) && a == Answer(false, 1, 999)
    ensures !Clears(r, a, 5, 10)
  {
  }

  lemma TrimOne(x: int, cut: int)
    ensures Trimmed([x], cut) == if x <= cut then [] else [x]
  {
    assert [x][1..] == [];
  }

  // ------------------------------------------------- many keys, many replicas

  /** What Redis holds for all replicas, and what each keeps for itself. */
  datatype Service = Service(keys: map<string, Key>, locals: map<nat, map<string, Window>>)

  /** One rule of one request. */
  datatype Hit = Hit(rule: Rule, call: Call)

  function StoreAt(v: Service, i: nat): Store {
    Store(v.keys, if i in v.locals then v.locals[i] else map[])
  }

  function Counts(v: Service, h: Hit): (Service, bool) {
    var c := h.call;
    var (t, a) := Counted(StoreAt(v, c.replica), h.rule, c.reply, c.at, c.now);
    (Service(t.keys, v.locals[c.replica := t.local]), a.allowed)
  }

  function Serving(hits: seq<Hit>): Service {
    if hits == [] then Service(map[], map[]) else Counts(Serving(hits[..|hits| - 1]), hits[|hits| - 1]).0
  }

  /** How many hits on the key are let through in [from, to). */
  function LetThrough(hits: seq<Hit>, key: string, from: int, to: int): nat {
    if hits == [] then 0
    else
      var h := hits[|hits| - 1];
      LetThrough(hits[..|hits| - 1], key, from, to) +
      if h.rule.key == key && from <= h.call.at < to && Counts(Serving(hits[..|hits| - 1]), h).1 then 1 else 0
  }

  function CallsOn(hits: seq<Hit>, key: string): seq<Call> {
    if hits == [] then []
    else
      var h := hits[|hits| - 1];
      CallsOn(hits[..|hits| - 1], key) + if h.rule.key == key then [h.call] else []
  }

  /** What the service knows of one key is a fleet that sees the hits on it alone. */
  ghost predicate Mirrors(v: Service, key: string, f: Fleet) {
    Lookup(v.keys, key) == f.key && forall i: nat :: Lookup(StoreAt(v, i).local, key) == Mine(f, i)
  }

  lemma HitMirrors(v: Service, h: Hit, f: Fleet)
    requires Mirrors(v, h.rule.key, f)
    ensures var (g, ok) := Called(f, h.call, h.rule.window, h.rule.limit);
            Mirrors(Counts(v, h).0, h.rule.key, g) && Counts(v, h).1 == ok
  {
    hide SlideKey, SlideAnswer, HitWindow, HitAnswer;
    var k, c := h.rule.key, h.call;
    var u, g := Counts(v, h).0, Called(f, c, h.rule.window, h.rule.limit).0;
    assert Lookup(StoreAt(v, c.replica).local, k) == Mine(f, c.replica);
    LookupAssigned(v.keys, k, SlideKey(f.key, c.at, c.now, h.rule.window, h.rule.limit), k);
    forall i: nat ensures Lookup(StoreAt(u, i).local, k) == Mine(g, i) {
      assert Lookup(StoreAt(v, i).local, k) == Mine(f, i);
    }
  }

  lemma OtherKeyStays(v: Service, h: Hit, key: string, f: Fleet)
    requires Mirrors(v, key, f) && h.rule.key != key
    ensures Mirrors(Counts(v, h).0, key, f)
  {
    hide SlideKey, SlideAnswer, HitWindow, HitAnswer;
    var u := Counts(v, h).0;
    forall i: nat ensures Lookup(StoreAt(u, i).local, key) == Mine(f, i) {
      assert Lookup(StoreAt(v, i).local, key) == Mine(f, i);
    }
  }

  lemma {:induction false} ServiceMirrors(hits: seq<Hit>, r: Rule, from: int, to: int)
    requires forall i :: 0 <= i < |hits| && hits[i].rule.key == r.key ==> hits[i].rule == r
    ensures var calls := CallsOn(hits, r.key);
            && Mirrors(Serving(hits), r.key, After(calls, r.window, r.limit))
            && LetThrough(hits, r.key, from, to) == AllThrough(calls, r.window, r.limit, from, to)
  {
    hide Mirrors, Counts, Called;
    if hits == [] {
      NothingServed(r);
    } else {
      var before, h := hits[..|hits| - 1], hits[|hits| - 1];
      ServiceMirrors(before, r, from, to);
      var calls := CallsOn(before, r.key);
      var f := After(calls, r.window, r.limit);
      if h.rule.key == r.key {
        HitMirrors(Serving(before), h, f);
        AppendCall(calls, h.call, r.window, r.limit, from, to);
      } else {
        OtherKeyStays(Serving(before), h, r.key, f);
        assert CallsOn(hits, r.key) == calls;
      }
    }
  }

  lemma NothingServed(r: Rule)
    ensures Mirrors(Serving([]), r.key, After([], r.window, r.limit))
  {
  }

  /** Whatever else is counted, on whatever keys and replicas: in any window's length a key
      lets at most limit + n (2 limit - 1) hits through on n replicas, and at most the
      limit when Redis answers every call on it. */
  lemma EachKeyIsLimited(hits: seq<Hit>, r: Rule, from: int, n: nat)
    requires forall i :: 0 <= i < |hits| && hits[i].rule.key == r.key ==> hits[i].rule == r
    requires Timely(CallsOn(hits, r.key), 0)
    requires forall c :: c in CallsOn(hits, r.key) ==> c.replica < n
    ensures LetThrough(hits, r.key, from, from + r.window) <= Max(r.limit, 0) + n * Max(2 * r.limit - 1, 0)
    ensures (forall c :: c in CallsOn(hits, r.key) ==> c.reply.Answered?) ==>
              LetThrough(hits, r.key, from, from + r.window) <= Max(r.limit, 0)
  {
    hide CallsOn, LetThrough, AllThrough, Through, Timely, Mirrors, Max;
    var calls := CallsOn(hits, r.key);
    ServiceMirrors(hits, r, from, from + r.window);
    assert forall i :: 0 <= i < |calls| ==> calls[i] in calls;
    OutagesLoosenThisMuch(calls, r.window, r.limit, from, n);
    if forall c :: c in calls ==> c.reply.Answered? {
      AtMostLimitInAWindow(calls, r.window, r.limit, from, 0);
      AllFromRedis(calls, r.window, r.limit, from, from + r.window);
    }
  }

  lemma {:induction false} AllFromRedis(calls: seq<Call>, window: int, limit: int, from: int, to: int)
    requires forall c :: c in calls ==> c.reply.Answered?
    ensures AllThrough(calls, window, limit, from, to) == Through(calls, window, limit, from, to, None)
  {
    hide Accepts;
    if calls != [] {
      assert calls[|calls| - 1] in calls;
      AllFromRedis(calls[..|calls| - 1], window, limit, from, to);
    }
  }
}
