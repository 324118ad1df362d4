/** Counting requests: one sliding log per key in Redis, which all replicas use,
    and in each process a fixed window for when Redis does not answer. Times are
    milliseconds. */
module RateLimit {
  import opened Base

  // ------------------------------------------------------- the Redis script

  /** A sorted set of hit times, and the moment Redis drops it. */
  datatype Key = Key(scores: seq<int>, expires: int)

  datatype Answer = Answer(allowed: bool, count: nat, resetIn: int)

  datatype Rule = Rule(key: string, limit: int, window: int)

  /** What is left of a key at Redis's own time. */
  function Live(k: Option<Key>, clock: int): seq<int> {
    if k.Some? && clock < k.value.expires then k.value.scores else []
  }

  /** ZREMRANGEBYSCORE key -inf cut. */
  function Trimmed(s: seq<int>, cut: int): seq<int> {
    if s == [] then []
    else if s[0] <= cut then Trimmed(s[1..], cut)
    else [s[0]] + Trimmed(s[1..], cut)
  }

  /** ZADD: in order of score. */
  function Added(s: seq<int>, x: int): seq<int> {
    if s == [] || x < s[0] then [x] + s else [s[0]] + Added(s[1..], x)
  }

  function Slid(k: Option<Key>, clock: int, now: int, window: int, limit: int): seq<int> {
    var kept := Trimmed(Live(k, clock), now - window);
    if |kept| < limit then Added(kept, now) else kept
  }

  function SlideKey(k: Option<Key>, clock: int, now: int, window: int, limit: int): Option<Key> {
    var s := Slid(k, clock, now, window, limit);
    if s == [] then None else Some(Key(s, clock + window))
  }

  /** The script's reply as SlidingWindow reads it. */
  function SlideAnswer(k: Option<Key>, clock: int, now: int, window: int, limit: int): Answer {
    var s := Slid(k, clock, now, window, limit);
    Answer(|Trimmed(Live(k, clock), now - window)| < limit, |s|, (if s == [] then now else s[0]) + window - now)
  }

  // ------------------------------------------------------- the local window

  datatype Window = Window(start: int, count: nat)

  /** The window a hit falls in: the one that is open, or one that starts now. */
  function Current(w: Option<Window>, window: int, now: int): Window {
    if w.None? || now - w.value.start >= window then Window(now, 0) else w.value
  }

  function HitWindow(w: Option<Window>, limit: int, window: int, now: int): Window {
    var c := Current(w, window, now);
    if c.count >= limit then c else c.(count := c.count + 1)
  }

  function HitAnswer(w: Option<Window>, limit: int, window: int, now: int): Answer {
    var c := Current(w, window, now);
    Answer(c.count < limit, HitWindow(w, limit, window, now).count, c.start + window - now)
  }

  // ------------------------------------------------------------- the limiter

  /** What becomes of a call to Redis: it answers, it runs the script but the
      answer is lost, or it is not reached. */
  datatype Reply = Answered | Lost | Down

  datatype Store = Store(keys: map<string, Key>, local: map<string, Window>)

  function Lookup<V>(m: map<string, V>, k: string): Option<V> {
    if k in m then Some(m[k]) else None
  }

  function Assigned<V>(m: map<string, V>, k: string, v: Option<V>): map<string, V> {
    match v case Some(x) => m[k := x] case None => m - {k}
  }

  function Counted(s: Store, r: Rule, reply: Reply, clock: int, now: int): (Store, Answer) {
    var k := Lookup(s.keys, r.key);
    var slid := s.(keys := Assigned(s.keys, r.key, SlideKey(k, clock, now, r.window, r.limit)));
    var w := Lookup(s.local, r.key);
    match reply
    case Answered => (slid, SlideAnswer(k, clock, now, r.window, r.limit))
    case _ =>
      var t := if reply.Lost? then slid else s;
      (t.(local := t.local[r.key := HitWindow(w, r.limit, r.window, now)]), HitAnswer(w, r.limit, r.window, now))
  }

  datatype Outcome = Outcome(allowed: bool, limit: int, remaining: int, reset: int)

  const MAX_INT: int := 0x7fff_ffff_ffff_ffff

  function Max(a: int, b: int): int {
    if a < b then b else a
  }

  function Remaining(r: Rule, a: Answer): int {
    Max(r.limit - a.count, 0)
  }

  function Tightened(res: Outcome, r: Rule, a: Answer): Outcome {
    var remaining := Remaining(r, a);
    var next := if !a.allowed || remaining < res.remaining
                then res.(limit := r.limit, remaining := remaining, reset := a.resetIn) else res;
    next.(allowed := res.allowed && a.allowed)
  }

  /** One request against the first n rules. */
  function Checked(s: Store, rules: seq<Rule>, replies: seq<Reply>, clock: int, now: int, n: nat): (Store, Outcome)
    requires n <= |rules| == |replies|
  {
    if n == 0 then (s, Outcome(true, 0, MAX_INT, 0))
    else
      var (t, res) := Checked(s, rules, replies, clock, now, n - 1);
      var (u, a) := Counted(t, rules[n - 1], replies[n - 1], clock, now);
      (u, Tightened(res, rules[n - 1], a))
  }

  /** The n-th rule's answer. */
  function AnswerTo(s: Store, rules: seq<Rule>, replies: seq<Reply>, clock: int, now: int, n: nat): Answer
    requires n < |rules| == |replies|
  {
    Counted(Checked(s, rules, replies, clock, now, n).0, rules[n], replies[n], clock, now).1
  }

  /** Redis, as every replica shares it. */
  class Redis {
    var keys: map<string, Key>

    constructor ()
      ensures keys == map[]
    {
      keys := map[];
    }

    /** The script, step by step; atomic as Redis runs it. */
    method Script(key: string, clock: int, now: int, window: int, limit: int)
      returns (allowed: bool, count: nat, oldest: int)
      modifies this
      ensures keys == Assigned(old(keys), key, SlideKey(Lookup(old(keys), key), clock, now, window, limit))
      ensures Answer(allowed, count, oldest + window - now) ==
              SlideAnswer(Lookup(old(keys), key), clock, now, window, limit)
    {
      var scores := Trimmed(Live(Lookup(keys, key), clock), now - window);
      count := |scores|;
      allowed := false;
      if count < limit {
        scores := Added(scores, now);
        AddedSize(Trimmed(Live(Lookup(keys, key), clock), now - window), now);
        count := count + 1;
        allowed := true;
      }
      if scores == [] {
        keys := keys - {key};
        oldest := now;
      } else {
        keys := keys[key := Key(scores, clock + window)];
        oldest := scores[0];
      }
    }
  }

  lemma {:induction false} AddedSize(s: seq<int>, x: int)
    ensures |Added(s, x)| == |s| + 1
  {
    if s != [] && x >= s[0] {
      AddedSize(s[1..], x);
    }
  }

  class Limiter {
    const redis: Redis
    var hits: map<string, Window>

    constructor (redis: Redis)
      ensures this.redis == redis && hits == map[]
    {
      this.redis := redis;
      hits := map[];
    }

    ghost function View(): Store
      reads this, redis
    {
      Store(redis.keys, hits)
    }

    /** localWindows.hit, under its mutex. */
    method Hit(key: string, limit: int, window: int, now: int) returns (allowed: bool, count: nat, resetIn: int)
      modifies `hits
      ensures hits == old(hits)[key := HitWindow(Lookup(old(hits), key), limit, window, now)]
      ensures Answer(allowed, count, resetIn) == HitAnswer(Lookup(old(hits), key), limit, window, now)
    {
      if key !in hits || now - hits[key].start >= window {
        hits := hits[key := Window(now, 0)];
      }
      var w := hits[key];
      resetIn := w.start + window - now;
      if w.count >= limit {
        assert hits == old(hits)[key := w];
        return false, w.count, resetIn;
      }
      hits := hits[key := w.(count := w.count + 1)];
      return true, w.count + 1, resetIn;
    }

    method Count(r: Rule, reply: Reply, clock: int, now: int) returns (a: Answer)
      modifies this, redis
      ensures (View(), a) == Counted(old(View()), r, reply, clock, now)
    {
      hide SlideKey, SlideAnswer, HitWindow, HitAnswer;
      if !reply.Down? {
        var allowed, count, oldest := redis.Script(r.key, clock, now, r.window, r.limit);
        a := Answer(allowed, count, oldest + r.window - now);
      }
      if !reply.Answered? {
        var allowed, count, resetIn := Hit(r.key, r.limit, r.window, now);
        a := Answer(allowed, count, resetIn);
      }
    }

    /** Check: one hit against every rule, whatever the others answer. */
    method Check(rules: seq<Rule>, replies: seq<Reply>, clock: int, now: int) returns (res: Outcome)
      requires |rules| == |replies|
      modifies this, redis
      ensures (View(), res) == Checked(old(View()), rules, replies, clock, now, |rules|)
    {
      hide Counted;
      res := Outcome(true, 0, MAX_INT, 0);
      for i := 0 to |rules|
        invariant (View(), res) == Checked(old(View()), rules, replies, clock, now, i)
      {
        var r := rules[i];
        var a := Count(r, replies[i], clock, now);
        var remaining := Max(r.limit - a.count, 0);
        if !a.allowed || remaining < res.remaining {
          res := res.(limit := r.limit, remaining := remaining, reset := a.resetIn);
        }
        res := res.(allowed := res.allowed && a.allowed);
      }
    }
  }
}
