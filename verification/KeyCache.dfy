/** The storefront's cache of API keys and shop slugs: one map, entries good for
    a while, filled by requests that read the database without holding it. */
module KeyCache {
  import opened Base

  type Request = nat

  /** What a request learns: the tenant, the key's origin, whether it is revoked. */
  datatype Info = Info(tenant: nat, origin: string, revoked: bool)

  datatype Db = Db(keys: map<string, Info>, shops: map<string, nat>)

  /** A key by the hash of what was presented, or a shop by its slug. */
  datatype Ask = ByHash(hash: string) | BySlug(slug: string)

  datatype Cached = Cached(info: Info, at: int)

  /** Where a request stands: it has copied what the cache held, found that it
      must ask the database, or has the row it read at `readAt`. */
  datatype Phase = Peeked(c: Option<Cached>) | Missed | Fetched(info: Info, readAt: int)

  datatype Call = Call(ask: Ask, phase: Phase)

  datatype State = State(now: int, db: Db, cache: map<string, Cached>, calls: map<Request, Call>)

  datatype Event =
    | Tick(d: nat)
    | Change(db: Db)
    | Peek(r: Request, ask: Ask)
    | Check(r: Request)
    | Fetch(r: Request)
    | Insert(r: Request)
    | Drop(r: Request)

  predicate HexDigit(c: char) {
    '0' <= c <= '9' || 'a' <= c <= 'f'
  }

  /** hex.EncodeToString of a SHA-256. */
  predicate IsHash(s: string) {
    |s| == 64 && forall i :: 0 <= i < |s| ==> HexDigit(s[i])
  }

  predicate Proper(ask: Ask) {
    ask.ByHash? ==> IsHash(ask.hash)
  }

  function Entry(ask: Ask): string {
    match ask
    case ByHash(hash) => hash
    case BySlug(slug) => "slug:" + slug
  }

  function Row(db: Db, ask: Ask): Option<Info> {
    match ask
    case ByHash(hash) => if hash in db.keys then Some(db.keys[hash]) else None
    case BySlug(slug) => if slug in db.shops then Some(Info(db.shops[slug], "", false)) else None
  }

  predicate FreshAt(c: Option<Cached>, now: int, ttl: int) {
    c.Some? && now - c.value.at < ttl
  }

  function Step(s: State, e: Event, ttl: int): State {
    match e
    case Tick(d) => s.(now := s.now + d)
    case Change(db) => s.(db := db)
    case Peek(r, ask) =>
      if r in s.calls || !Proper(ask) then s
      else
        var c := if Entry(ask) in s.cache then Some(s.cache[Entry(ask)]) else None;
        s.(calls := s.calls[r := Call(ask, Peeked(c))])
    case Check(r) =>
      if r !in s.calls || !s.calls[r].phase.Peeked? then s
      else if FreshAt(s.calls[r].phase.c, s.now, ttl) then s.(calls := s.calls - {r})
      else s.(calls := s.calls[r := Call(s.calls[r].ask, Missed)])
    case Fetch(r) =>
      if r !in s.calls || !s.calls[r].phase.Missed? then s
      else
        var row := Row(s.db, s.calls[r].ask);
        if row.None? then s.(calls := s.calls - {r})
        else s.(calls := s.calls[r := Call(s.calls[r].ask, Fetched(row.value, s.now))])
    case Insert(r) =>
      if r !in s.calls || !s.calls[r].phase.Fetched? then s
      else
        s.(cache := s.cache[Entry(s.calls[r].ask) := Cached(s.calls[r].phase.info, s.now)], calls := s.calls - {r})
    case Drop(r) => s.(calls := s.calls - {r})
  }

  /** What a step tells the request that took it. */
  function Answer(s: State, e: Event, ttl: int): Option<(Ask, Info)> {
    match e
    case Check(r) =>
      if r in s.calls && s.calls[r].phase.Peeked? && FreshAt(s.calls[r].phase.c, s.now, ttl)
      then Some((s.calls[r].ask, s.calls[r].phase.c.value.info)) else None
    case Insert(r) =>
      if r in s.calls && s.calls[r].phase.Fetched? then Some((s.calls[r].ask, s.calls[r].phase.info)) else None
    case _ => None
  }

  function Start(now: int, db: Db): State {
    State(now, db, map[], map[])
  }

  function Run(s: State, events: seq<Event>, ttl: int): State {
    if events == [] then s else Step(Run(s, events[..|events| - 1], ttl), events[|events| - 1], ttl)
  }

  /** Every row that is cached was read at most `delay` before. */
  predicate Prompt(s: State, events: seq<Event>, ttl: int, delay: nat) {
    events != [] ==>
      && Prompt(s, events[..|events| - 1], ttl, delay)
      && var u, e := Run(s, events[..|events| - 1], ttl), events[|events| - 1];
         e.Insert? && e.r in u.calls && u.calls[e.r].phase.Fetched? ==> u.now - u.calls[e.r].phase.readAt <= delay
  }

  /** At some moment of the run, after `from` and no later than `to`, this row was
      what the database held. */
  ghost predicate WasSo(s: State, events: seq<Event>, ttl: int, ask: Ask, info: Info, from: int, to: int) {
    exists i :: 0 <= i <= |events| && from < Run(s, events[..i], ttl).now <= to
                && Row(Run(s, events[..i], ttl).db, ask) == Some(info)
  }

  /** Hashes are hexadecimal, so no slug's entry is a key's, and each entry is one
      question's. */
  lemma EntriesApart(a: Ask, b: Ask)
    requires Proper(a) && Proper(b) && Entry(a) == Entry(b)
    ensures a == b
  {
    assert a.BySlug? ==> Entry(a)[4] == ':' && Entry(a)[5..] == a.slug;
    assert b.BySlug? ==> Entry(b)[4] == ':' && Entry(b)[5..] == b.slug;
    assert a.ByHash? ==> HexDigit(Entry(a)[4]);
    assert b.ByHash? ==> HexDigit(Entry(b)[4]);
  }

  // ------------------------------------------------------------- invariant

  ghost predicate Backed(s: State, events: seq<Event>, ttl: int, delay: nat, ask: Ask, c: Cached) {
    WasSo(s, events, ttl, ask, c.info, c.at - delay - 1, c.at)
  }

  ghost predicate CallOk(s: State, events: seq<Event>, ttl: int, delay: nat, call: Call, now: int) {
    && Proper(call.ask)
    && match call.phase
       case Peeked(c) => c.Some? ==> Backed(s, events, ttl, delay, call.ask, c.value) && c.value.at <= now
       case Missed => true
       case Fetched(info, readAt) => readAt <= now && WasSo(s, events, ttl, call.ask, info, readAt - 1, readAt)
  }

  ghost predicate CacheOk(s: State, events: seq<Event>, ttl: int, delay: nat, u: State) {
    forall ask :: Proper(ask) && Entry(ask) in u.cache ==>
      Backed(s, events, ttl, delay, ask, u.cache[Entry(ask)]) && u.cache[Entry(ask)].at <= u.now
  }

  ghost predicate Inv(s: State, events: seq<Event>, ttl: int, delay: nat, u: State) {
    && CacheOk(s, events, ttl, delay, u)
    && forall r :: r in u.calls ==> CallOk(s, events, ttl, delay, u.calls[r], u.now)
  }

  lemma WasSoLater(s: State, events: seq<Event>, e: Event, ttl: int, ask: Ask, info: Info, from: int, to: int)
    requires WasSo(s, events, ttl, ask, info, from, to)
    ensures WasSo(s, events + [e], ttl, ask, info, from, to)
  {
    hide Row, Run;
    var i :| 0 <= i <= |events| && from < Run(s, events[..i], ttl).now <= to
             && Row(Run(s, events[..i], ttl).db, ask) == Some(info);
    assert (events + [e])[..i] == events[..i];
  }

  lemma IsSoNow(s: State, events: seq<Event>, ttl: int, ask: Ask, info: Info)
    requires Row(Run(s, events, ttl).db, ask) == Some(info)
    ensures var now := Run(s, events, ttl).now; WasSo(s, events, ttl, ask, info, now - 1, now)
  {
    hide Row, Run;
    assert events[..|events|] == events;
  }

  lemma WasSoWider(s: State, events: seq<Event>, ttl: int, ask: Ask, info: Info, from: int, to: int, lo: int, hi: int)
    requires WasSo(s, events, ttl, ask, info, from, to) && lo <= from && to <= hi
    ensures WasSo(s, events, ttl, ask, info, lo, hi)
  {
    hide Row, Run;
  }

  lemma InvLater(s: State, events: seq<Event>, e: Event, ttl: int, delay: nat, u: State, now: int)
    requires Inv(s, events, ttl, delay, u) && now >= u.now
    ensures Inv(s, events + [e], ttl, delay, u.(now := now))
  {
    hide WasSo, Proper, Entry;
    forall ask, info, from, to | WasSo(s, events, ttl, ask, info, from, to)
      ensures WasSo(s, events + [e], ttl, ask, info, from, to)
    {
      WasSoLater(s, events, e, ttl, ask, info, from, to);
    }
  }

  lemma PeekKeeps(s: State, events: seq<Event>, ttl: int, delay: nat, u: State, r: Request, ask: Ask)
    requires Inv(s, events, ttl, delay, u)
    ensures Inv(s, events, ttl, delay, Step(u, Peek(r, ask), ttl))
  {
    hide WasSo, Backed, Entry;
  }

  lemma FetchKeeps(s: State, events: seq<Event>, ttl: int, delay: nat, u: State, r: Request)
    requires Inv(s, events, ttl, delay, u)
    requires r in u.calls && Row(u.db, u.calls[r].ask).Some? ==>
               WasSo(s, events, ttl, u.calls[r].ask, Row(u.db, u.calls[r].ask).value, u.now - 1, u.now)
    ensures Inv(s, events, ttl, delay, Step(u, Fetch(r), ttl))
  {
    hide WasSo, Backed, Entry, Row;
  }

  lemma InsertKeeps(s: State, events: seq<Event>, ttl: int, delay: nat, u: State, r: Request)
    requires Inv(s, events, ttl, delay, u)
    requires r in u.calls && u.calls[r].phase.Fetched? ==> u.now - u.calls[r].phase.readAt <= delay
    ensures Inv(s, events, ttl, delay, Step(u, Insert(r), ttl))
  {
    if r in u.calls && u.calls[r].phase.Fetched? {
      var call := u.calls[r];
      assert CallOk(s, events, ttl, delay, call, u.now);
      var c := Cached(call.phase.info, u.now);
      WasSoWider(s, events, ttl, call.ask, c.info, call.phase.readAt - 1, call.phase.readAt, u.now - delay - 1, u.now);
      assert Backed(s, events, ttl, delay, call.ask, c);
      hide WasSo, Backed, Entry, Proper;
      forall ask | Proper(ask) && Entry(ask) == Entry(call.ask) ensures ask == call.ask {
        EntriesApart(ask, call.ask);
      }
    }
  }

  lemma StepKeeps(s: State, events: seq<Event>, e: Event, ttl: int, delay: nat)
    requires Inv(s, events, ttl, delay, Run(s, events, ttl)) && Prompt(s, events + [e], ttl, delay)
    ensures Inv(s, events + [e], ttl, delay, Run(s, events + [e], ttl))
  {
    var u, more := Run(s, events, ttl), events + [e];
    assert more[..|more| - 1] == events;
    InvLater(s, events, e, ttl, delay, u, if e.Tick? then u.now + e.d else u.now);
    match e {
      case Peek(r, ask) => PeekKeeps(s, more, ttl, delay, u, r, ask);
      case Fetch(r) =>
        if r in u.calls && Row(u.db, u.calls[r].ask).Some? {
          var info := Row(u.db, u.calls[r].ask).value;
          IsSoNow(s, events, ttl, u.calls[r].ask, info);
          WasSoLater(s, events, e, ttl, u.calls[r].ask, info, u.now - 1, u.now);
        }
        FetchKeeps(s, more, ttl, delay, u, r);
      case Insert(r) => InsertKeeps(s, more, ttl, delay, u, r);
      case _ =>
    }
    hide WasSo, Backed, Entry, Row, Prompt;
  }

  lemma {:induction false} RunKeeps(start: int, db: Db, events: seq<Event>, ttl: int, delay: nat)
    requires Prompt(Start(start, db), events, ttl, delay)
    ensures Inv(Start(start, db), events, ttl, delay, Run(Start(start, db), events, ttl))
  {
    hide Step, WasSo, Backed;
    if events != [] {
      var before, e := events[..|events| - 1], events[|events| - 1];
      RunKeeps(start, db, before, ttl, delay);
      assert before + [e] == events;
      StepKeeps(Start(start, db), before, e, ttl, delay);
    }
  }

  /** Whatever a request is told, cached or not, the database held it for that very
      question within the last TTL plus the longest time a row took to be cached,
      however many requests overwrite each other's entry. */
  lemma AnswersWereSo(start: int, db: Db, events: seq<Event>, e: Event, ttl: int, delay: nat, ask: Ask, info: Info)
    requires ttl > 0 && Prompt(Start(start, db), events + [e], ttl, delay)
    requires Answer(Run(Start(start, db), events, ttl), e, ttl) == Some((ask, info))
    ensures var now := Run(Start(start, db), events, ttl).now;
            WasSo(Start(start, db), events, ttl, ask, info, now - ttl - delay, now)
  {
    var s, more := Start(start, db), events + [e];
    assert more[..|more| - 1] == events;
    RunKeeps(start, db, events, ttl, delay);
    var u := Run(s, events, ttl);
    var r := e.r;
    assert CallOk(s, events, ttl, delay, u.calls[r], u.now);
    hide WasSo, Run;
    match u.calls[r].phase
    case Peeked(c) =>
      var at := c.value.at;
      WasSoWider(s, events, ttl, ask, info, at - delay - 1, at, u.now - ttl - delay, u.now);
    case Fetched(i, readAt) =>
      WasSoWider(s, events, ttl, ask, info, readAt - 1, readAt, u.now - ttl - delay, u.now);
    case Missed => assert false;
  }

  lemma {:induction false} NowGrows(s: State, events: seq<Event>, ttl: int, i: nat)
    requires i <= |events|
    ensures Run(s, events[..i], ttl).now <= Run(s, events, ttl).now
    decreases |events|
  {
    if i < |events| {
      NowGrows(s, events[..|events| - 1], ttl, i);
      assert events[..|events| - 1][..i] == events[..i];
    } else {
      assert events[..i] == events;
    }
  }

  lemma NowUpTo(s: State, events: seq<Event>, ttl: int, i: nat, m: nat)
    requires i <= m <= |events|
    ensures Run(s, events[..i], ttl).now <= Run(s, events[..m], ttl).now
  {
    NowGrows(s, events[..m], ttl, i);
    assert events[..m][..i] == events[..i];
  }

  /** Live is what the database says of a key that exists and is not revoked. */
  predicate Live(db: Db, hash: string) {
    hash in db.keys && !db.keys[hash].revoked
  }

  /** A key that stopped being live is no longer accepted once that time is over. */
  lemma RevokedKeyStops(start: int, db: Db, events: seq<Event>, e: Event, ttl: int, delay: nat, hash: string, info: Info, m: nat)
    requires ttl > 0 && Prompt(Start(start, db), events + [e], ttl, delay) && m <= |events|
    requires forall i :: m <= i <= |events| ==> !Live(Run(Start(start, db), events[..i], ttl).db, hash)
    requires Run(Start(start, db), events, ttl).now >= Run(Start(start, db), events[..m], ttl).now + ttl + delay
    requires Answer(Run(Start(start, db), events, ttl), e, ttl) == Some((ByHash(hash), info))
    ensures info.revoked
  {
    var s := Start(start, db);
    AnswersWereSo(start, db, events, e, ttl, delay, ByHash(hash), info);
    hide Run, Answer, Prompt;
    var now := Run(s, events, ttl).now;
    var i :| 0 <= i <= |events| && now - ttl - delay < Run(s, events[..i], ttl).now <= now
             && Row(Run(s, events[..i], ttl).db, ByHash(hash)) == Some(info);
    if i <= m {
      NowUpTo(s, events, ttl, i, m);
    }
  }

  // ---------------------------------------------------- the bound is reached

  lemma RunMore(s: State, events: seq<Event>, e: Event, ttl: int, delay: nat)
    ensures Run(s, events + [e], ttl) == Step(Run(s, events, ttl), e, ttl)
    ensures Prompt(s, events + [e], ttl, delay) <==>
            && Prompt(s, events, ttl, delay)
            && var u := Run(s, events, ttl);
               e.Insert? && e.r in u.calls && u.calls[e.r].phase.Fetched? ==> u.now - u.calls[e.r].phase.readAt <= delay
  {
    hide Step;
    var more := events + [e];
    assert more[..|more| - 1] == events;
  }

  lemma RunNone(s: State, ttl: int, delay: nat)
    ensures Run(s, [], ttl) == s && Prompt(s, [], ttl, delay)
  {
  }

  /** Only a change of the database changes the database. */
  lemma {:induction false} DbStays(s: State, before: seq<Event>, more: seq<Event>, ttl: int)
    requires forall i :: 0 <= i < |more| ==> !more[i].Change?
    ensures Run(s, before + more, ttl).db == Run(s, before, ttl).db
  {
    if more == [] {
      assert before + more == before;
    } else {
      DbStays(s, before, more[..|more| - 1], ttl);
      assert (before + more)[..|before + more| - 1] == before + more[..|more| - 1];
    }
  }

  /** The key of this hash, and nothing else. */
  function Holding(hash: string, info: Info): Db {
    Db(map[hash := info], map[])
  }

  function Revoked(info: Info): Info {
    info.(revoked := true)
  }

  /** Request 1 reads a live key, and the key is revoked. */
  function Revoking(hash: string, info: Info): seq<Event> {
    [Peek(1, ByHash(hash)), Check(1), Fetch(1), Change(Holding(hash, Revoked(info)))]
  }

  /** Request 2 reads the revoked key. */
  function Noticing(hash: string): seq<Event> {
    [Peek(2, ByHash(hash)), Check(2), Fetch(2)]
  }

  /** It caches that; request 1 caches what it read over it, as late as it may; and
      request 3 comes just before that is too old. */
  function Lingering(hash: string, ttl: int, delay: nat): seq<Event>
    requires ttl > 0
  {
    [Insert(2), Tick(delay), Insert(1), Tick(ttl - 1), Peek(3, ByHash(hash))]
  }

  lemma AfterRevoking(hash: string, info: Info, ttl: int, delay: nat)
    requires IsHash(hash)
    ensures var s := Start(0, Holding(hash, info));
            && Prompt(s, Revoking(hash, info), ttl, delay)
            && Run(s, Revoking(hash, info), ttl) ==
               State(0, Holding(hash, Revoked(info)), map[], map[1 := Call(ByHash(hash), Fetched(info, 0))])
  {
    hide Run, Prompt, IsHash;
    var s, a := Start(0, Holding(hash, info)), Revoking(hash, info);
    RunNone(s, ttl, delay);
    RunMore(s, [], a[0], ttl, delay);
    RunMore(s, [] + [a[0]], a[1], ttl, delay);
    RunMore(s, [] + [a[0]] + [a[1]], a[2], ttl, delay);
    RunMore(s, [] + [a[0]] + [a[1]] + [a[2]], a[3], ttl, delay);
    assert [] + [a[0]] + [a[1]] + [a[2]] + [a[3]] == a;
  }

  lemma AfterNoticing(hash: string, info: Info, ttl: int, delay: nat)
    requires IsHash(hash)
    ensures var s, a := Start(0, Holding(hash, info)), Revoking(hash, info) + Noticing(hash);
            && Prompt(s, a, ttl, delay)
            && Run(s, a, ttl) ==
               State(0, Holding(hash, Revoked(info)), map[],
                     map[1 := Call(ByHash(hash), Fetched(info, 0)), 2 := Call(ByHash(hash), Fetched(Revoked(info), 0))])
  {
    AfterRevoking(hash, info, ttl, delay);
    hide Run, Prompt, IsHash, Revoking;
    var s, a, b := Start(0, Holding(hash, info)), Revoking(hash, info), Noticing(hash);
    RunMore(s, a, b[0], ttl, delay);
    RunMore(s, a + [b[0]], b[1], ttl, delay);
    RunMore(s, a + [b[0]] + [b[1]], b[2], ttl, delay);
    assert a + [b[0]] + [b[1]] + [b[2]] == a + b;
  }

  lemma AfterLingering(hash: string, info: Info, ttl: int, delay: nat)
    requires IsHash(hash) && ttl > 0
    ensures var s, a := Start(0, Holding(hash, info)), Revoking(hash, info) + Noticing(hash) + Lingering(hash, ttl, delay);
            var c := Cached(info, delay);
            && Prompt(s, a, ttl, delay)
            && Run(s, a, ttl) ==
               State(ttl + delay - 1, Holding(hash, Revoked(info)), map[hash := c], map[3 := Call(ByHash(hash), Peeked(Some(c)))])
  {
    AfterNoticing(hash, info, ttl, delay);
    hide Run, Prompt, IsHash, Revoking, Noticing;
    var s, a, b := Start(0, Holding(hash, info)), Revoking(hash, info) + Noticing(hash), Lingering(hash, ttl, delay);
    RunMore(s, a, b[0], ttl, delay);
    RunMore(s, a + [b[0]], b[1], ttl, delay);
    RunMore(s, a + [b[0]] + [b[1]], b[2], ttl, delay);
    RunMore(s, a + [b[0]] + [b[1]] + [b[2]], b[3], ttl, delay);
    RunMore(s, a + [b[0]] + [b[1]] + [b[2]] + [b[3]], b[4], ttl, delay);
    assert a + [b[0]] + [b[1]] + [b[2]] + [b[3]] + [b[4]] == a + b;
  }

  /** For any key, TTL and delay: request 2 is told that the key is revoked, and a
      moment before the TTL plus the delay have gone by since the revocation, with
      the database saying so all along, request 3 is let in. */
  lemma RevokedKeyLingers(hash: string, info: Info, ttl: int, delay: nat)
    requires IsHash(hash) && !info.revoked && ttl > 0
    ensures var s, revoking := Start(0, Holding(hash, info)), Revoking(hash, info);
            var noticing := revoking + Noticing(hash);
            var events := noticing + Lingering(hash, ttl, delay);
            && Prompt(s, events + [Check(3)], ttl, delay)
            && (forall i :: |revoking| <= i <= |events| ==> !Live(Run(s, events[..i], ttl).db, hash))
            && Answer(Run(s, noticing, ttl), Insert(2), ttl) == Some((ByHash(hash), Revoked(info)))
            && Run(s, events, ttl).now == Run(s, revoking, ttl).now + ttl + delay - 1
            && Answer(Run(s, events, ttl), Check(3), ttl) == Some((ByHash(hash), info))
  {
    AfterRevoking(hash, info, ttl, delay);
    AfterNoticing(hash, info, ttl, delay);
    AfterLingering(hash, info, ttl, delay);
    var s, revoking := Start(0, Holding(hash, info)), Revoking(hash, info);
    var rest := Noticing(hash) + Lingering(hash, ttl, delay);
    assert forall i :: 0 <= i < |rest| ==> !rest[i].Change?;
    hide Run, Prompt, IsHash, Revoking, Noticing, Lingering;
    var events := revoking + Noticing(hash) + Lingering(hash, ttl, delay);
    RunMore(s, events, Check(3), ttl, delay);
    forall i | |revoking| <= i <= |events| ensures !Live(Run(s, events[..i], ttl).db, hash) {
      DbStays(s, revoking, rest[..i - |revoking|], ttl);
      assert events[..i] == revoking + rest[..i - |revoking|];
    }
  }

  /** The map itself, behind its mutex, and one request's way through it. */
  class Keys {
    const ttl: int
    var cache: map<string, Cached>

    constructor (ttl: int)
      ensures this.ttl == ttl && cache == map[]
    {
      this.ttl := ttl;
      cache := map[];
    }

    method Lookup(ask: Ask) returns (c: Option<Cached>)
      ensures c == if Entry(ask) in cache then Some(cache[Entry(ask)]) else None
    {
      c := if Entry(ask) in cache then Some(cache[Entry(ask)]) else None;
    }

    method Remember(ask: Ask, info: Info, now: int)
      modifies this
      ensures cache == old(cache)[Entry(ask) := Cached(info, now)]
    {
      cache := cache[Entry(ask) := Cached(info, now)];
    }

    /** resolve and shop with nobody in between: what the steps of one request
        come to, from the moment it looks (`checked`) to the one it has the row
        (`read`). */
    method Resolve(s: State, r: Request, ask: Ask, checked: nat, read: nat) returns (info: Option<Info>)
      requires s.cache == cache && r !in s.calls && Proper(ask)
      modifies this
      ensures var events := [Peek(r, ask), Tick(checked), Check(r), Fetch(r), Tick(read), Insert(r)];
              var hit := Entry(ask) in s.cache && s.now + checked - s.cache[Entry(ask)].at < ttl;
              && cache == Alone(s, events, ttl).cache
              && info == if hit then Some(s.cache[Entry(ask)].info) else Row(s.db, ask)
    {
      hide Proper, Row, Entry;
      var c := Lookup(ask);
      if c.Some? && s.now + checked - c.value.at < ttl {
        return Some(c.value.info);
      }
      info := Row(s.db, ask);
      if info.Some? {
        Remember(ask, info.value, s.now + checked + read);
      }
    }
  }

  /** Six steps in a row. */
  function Alone(s: State, events: seq<Event>, ttl: int): State
    requires |events| == 6
  {
    Step(Step(Step(Step(Step(Step(s, events[0], ttl), events[1], ttl), events[2], ttl), events[3], ttl), events[4], ttl),
         events[5], ttl)
  }
}
