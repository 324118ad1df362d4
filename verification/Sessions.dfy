/** Staff sessions: a login starts a chain of refresh tokens, each refresh
    replaces its token in three separate steps (look up, revoke, issue), and the
    steps of any number of requests interleave. */
module Sessions {
  import opened Base

  type Id = nat
  type User = nat
  type Request = nat

  const TTL := 30 * 24 * 3600

  /** A row of refresh_tokens; whether revoked_at is set is kept beside it. */
  datatype Token = Token(user: User, rotatedFrom: Option<Id>, expiresAt: int)

  /** A refresh between its lookup and its transaction: the row as it was read. */
  datatype Lookup = Lookup(id: Id, user: User, revoked: bool, expiresAt: int)

  /** A session about to be issued: its token is not stored yet. */
  datatype Issue = Issue(user: User, rotatedFrom: Option<Id>)

  datatype State = State(
    tokens: map<Id, Token>,
    revoked: set<Id>,
    nextId: Id,
    lookups: map<Request, Lookup>,
    issues: map<Request, Issue>)

  datatype Event =
    | SignIn(req: Request, user: User)
    | Present(req: Request, id: Id)
    | Rotate(req: Request, now: int)
    | Store(req: Request, now: int)
    | Drop(req: Request)
    | SignOut(id: Id)
    | Reset(req: Request, user: User)
    | Disable(user: User)

  const EMPTY := State(map[], {}, 0, map[], map[])

  // --------------------------------------------------------- the statements

  /** RevokeRefreshToken's row count. */
  predicate Revocable(s: State, id: Id) {
    id in s.tokens && id !in s.revoked
  }

  predicate HasSuccessor(s: State, id: Id) {
    exists n :: n in s.tokens && s.tokens[n].rotatedFrom == Some(id)
  }

  function TokensOf(s: State, user: User): set<Id> {
    set n | n in s.tokens && s.tokens[n].user == user
  }

  function AllRevoked(s: State, user: User): State {
    s.(revoked := s.revoked + TokensOf(s, user))
  }

  // --------------------------------------------------------------- the steps

  /** A request number in use belongs to one request. */
  predicate Unused(s: State, req: Request) {
    req !in s.lookups && req !in s.issues
  }

  function Presented(s: State, req: Request, id: Id): State {
    if id !in s.tokens then s
    else
      var t := s.tokens[id];
      s.(lookups := s.lookups[req := Lookup(id, t.user, id in s.revoked, t.expiresAt)])
  }

  /** What a refresh does once its lookup is back. */
  function Rotated(s: State, req: Request, now: int): State
    requires req in s.lookups
  {
    var l := s.lookups[req];
    var done := s.(lookups := s.lookups - {req});
    if l.revoked then if HasSuccessor(s, l.id) then AllRevoked(done, l.user) else done
    else if now > l.expiresAt || !Revocable(s, l.id) then done
    else done.(revoked := s.revoked + {l.id}, issues := s.issues[req := Issue(l.user, Some(l.id))])
  }

  function Stored(s: State, req: Request, now: int): State
    requires req in s.issues
  {
    var i := s.issues[req];
    s.(tokens := s.tokens[s.nextId := Token(i.user, i.rotatedFrom, now + TTL)], nextId := s.nextId + 1,
       issues := s.issues - {req})
  }

  function Step(s: State, e: Event): State {
    match e
    case SignIn(req, user) => if Unused(s, req) then s.(issues := s.issues[req := Issue(user, None)]) else s
    case Present(req, id) => if Unused(s, req) then Presented(s, req, id) else s
    case Rotate(req, now) => if req in s.lookups then Rotated(s, req, now) else s
    case Store(req, now) => if req in s.issues then Stored(s, req, now) else s
    case Drop(req) => s.(lookups := s.lookups - {req}, issues := s.issues - {req})
    case SignOut(id) => if Revocable(s, id) then s.(revoked := s.revoked + {id}) else s
    case Reset(req, user) =>
      if Unused(s, req) then AllRevoked(s, user).(issues := s.issues[req := Issue(user, None)]) else s
    case Disable(user) => AllRevoked(s, user)
  }

  function Run(s: State, events: seq<Event>): State {
    if events == [] then s else Step(Run(s, events[..|events| - 1]), events[|events| - 1])
  }

  // -------------------------------------------------------------- invariant

  predicate Parented(tokens: map<Id, Token>, nextId: Id) {
    forall n :: n in tokens ==>
      && n < nextId
      && (tokens[n].rotatedFrom.Some? ==>
            var p := tokens[n].rotatedFrom.value;
            p < n && p in tokens && tokens[p].user == tokens[n].user)
  }

  /** The login a token goes back to. */
  function Root(tokens: map<Id, Token>, nextId: Id, n: Id): (r: Id)
    requires Parented(tokens, nextId) && n in tokens
    ensures r in tokens && r <= n
    decreases n
  {
    match tokens[n].rotatedFrom
    case None => n
    case Some(p) => Root(tokens, nextId, p)
  }

  predicate Ended(tokens: map<Id, Token>, n: Id) {
    n in tokens && forall m :: m in tokens ==> tokens[m].rotatedFrom != Some(n)
  }

  ghost predicate Tree(tokens: map<Id, Token>, nextId: Id) {
    && Parented(tokens, nextId)
    && (forall m, n ::
          m in tokens && n in tokens && tokens[m].rotatedFrom.Some? && tokens[m].rotatedFrom == tokens[n].rotatedFrom
          ==> m == n)
    && forall a, b ::
         Ended(tokens, a) && Ended(tokens, b) && Root(tokens, nextId, a) == Root(tokens, nextId, b) ==> a == b
  }

  /** A pending rotation: its token is revoked, ends its chain, is the user's,
      and no other request rotates it. */
  ghost predicate Pending(s: State) {
    && (forall r :: r in s.issues && s.issues[r].rotatedFrom.Some? ==>
          var p := s.issues[r].rotatedFrom.value;
          Ended(s.tokens, p) && p in s.revoked && s.tokens[p].user == s.issues[r].user)
    && (forall q, r ::
          q in s.issues && r in s.issues && s.issues[q].rotatedFrom.Some? &&
          s.issues[q].rotatedFrom == s.issues[r].rotatedFrom
          ==> q == r)
  }

  ghost predicate Read(s: State) {
    forall r :: r in s.lookups ==>
      && s.lookups[r].id in s.tokens && s.tokens[s.lookups[r].id].user == s.lookups[r].user
      && (s.lookups[r].revoked ==> s.lookups[r].id in s.revoked)
      && r !in s.issues
  }

  ghost predicate Inv(s: State) {
    && Tree(s.tokens, s.nextId) && Pending(s) && Read(s)
    && (forall n :: n in s.revoked ==> n in s.tokens)
    && forall n :: n in s.tokens && !Ended(s.tokens, n) ==> n in s.revoked
  }

  // ------------------------------------------------------------ preservation

  lemma {:induction false} RootGrows(tokens: map<Id, Token>, nextId: Id, t: Token, n: Id)
    requires Parented(tokens, nextId) && Parented(tokens[nextId := t], nextId + 1) && n in tokens
    ensures Root(tokens[nextId := t], nextId + 1, n) == Root(tokens, nextId, n)
    decreases n
  {
    if tokens[n].rotatedFrom.Some? {
      RootGrows(tokens, nextId, t, tokens[n].rotatedFrom.value);
    }
  }

  lemma ParentedGrows(tokens: map<Id, Token>, nextId: Id, t: Token)
    requires Parented(tokens, nextId)
    requires t.rotatedFrom.Some? ==> Ended(tokens, t.rotatedFrom.value) && tokens[t.rotatedFrom.value].user == t.user
    ensures Parented(tokens[nextId := t], nextId + 1)
  {
  }

  lemma EndsGrow(tokens: map<Id, Token>, nextId: Id, t: Token, n: Id)
    requires Parented(tokens, nextId)
    requires t.rotatedFrom.Some? ==> Ended(tokens, t.rotatedFrom.value)
    ensures Ended(tokens[nextId := t], n) <==> n == nextId || (Ended(tokens, n) && t.rotatedFrom != Some(n))
  {
    var more := tokens[nextId := t];
    if n in tokens && !Ended(tokens, n) {
      var m :| m in tokens && tokens[m].rotatedFrom == Some(n);
      assert more[m].rotatedFrom == Some(n);
    }
    assert more[nextId].rotatedFrom == t.rotatedFrom;
  }

  lemma TreeGrows(tokens: map<Id, Token>, nextId: Id, t: Token)
    requires Tree(tokens, nextId)
    requires t.rotatedFrom.Some? ==> Ended(tokens, t.rotatedFrom.value) && tokens[t.rotatedFrom.value].user == t.user
    ensures Tree(tokens[nextId := t], nextId + 1)
  {
    ParentedGrows(tokens, nextId, t);
    var more := tokens[nextId := t];
    forall a, b | Ended(more, a) && Ended(more, b) && Root(more, nextId + 1, a) == Root(more, nextId + 1, b)
      ensures a == b
    {
      EndsGrow(tokens, nextId, t, a);
      EndsGrow(tokens, nextId, t, b);
      if a != nextId {
        RootGrows(tokens, nextId, t, a);
      }
      if b != nextId {
        RootGrows(tokens, nextId, t, b);
      }
      if t.rotatedFrom.Some? {
        RootGrows(tokens, nextId, t, t.rotatedFrom.value);
      }
    }
  }

  /** A new token leaves only its predecessor no longer the end of its chain. */
  ghost predicate EndsBut(tokens: map<Id, Token>, more: map<Id, Token>, n: Id, from: Option<Id>) {
    n !in tokens && (forall m :: m in tokens ==> m in more && more[m] == tokens[m])
    && (forall m :: m in more ==> m == n || m in tokens)
    && forall m :: Ended(more, m) <==> m == n || (Ended(tokens, m) && from != Some(m))
  }

  lemma NewTokenEnds(tokens: map<Id, Token>, nextId: Id, t: Token)
    requires Parented(tokens, nextId)
    requires t.rotatedFrom.Some? ==> Ended(tokens, t.rotatedFrom.value)
    ensures EndsBut(tokens, tokens[nextId := t], nextId, t.rotatedFrom)
  {
    forall n ensures Ended(tokens[nextId := t], n) <==> n == nextId || (Ended(tokens, n) && t.rotatedFrom != Some(n)) {
      EndsGrow(tokens, nextId, t, n);
    }
    assert nextId !in tokens;
    hide Parented, Ended;
  }

  lemma StoredPending(s: State, u: State, req: Request)
    requires Pending(s) && req in s.issues && u.issues == s.issues - {req} && u.revoked == s.revoked
    requires EndsBut(s.tokens, u.tokens, s.nextId, s.issues[req].rotatedFrom)
    ensures Pending(u)
  {
    assert forall p :: Ended(s.tokens, p) ==> p in s.tokens && u.tokens[p] == s.tokens[p];
    hide Ended;
    forall r | r in u.issues && u.issues[r].rotatedFrom.Some?
      ensures u.issues[r].rotatedFrom != s.issues[req].rotatedFrom
    {
      assert r != req && r in s.issues;
    }
  }

  lemma StoredRevoked(s: State, u: State, from: Option<Id>)
    requires (forall n :: n in s.tokens && !Ended(s.tokens, n) ==> n in s.revoked) && u.revoked == s.revoked
    requires EndsBut(s.tokens, u.tokens, s.nextId, from) && (from.Some? ==> from.value in s.revoked)
    ensures forall n :: n in u.tokens && !Ended(u.tokens, n) ==> n in u.revoked
  {
    hide Ended;
  }

  lemma StoredRead(s: State, u: State, req: Request, from: Option<Id>)
    requires Read(s) && u.lookups == s.lookups && u.revoked == s.revoked && u.issues == s.issues - {req}
    requires EndsBut(s.tokens, u.tokens, s.nextId, from) && forall n :: n in s.revoked ==> n in s.tokens
    ensures Read(u) && forall n :: n in u.revoked ==> n in u.tokens
  {
    hide Ended;
  }

  lemma StoredKeeps(s: State, req: Request, now: int)
    requires Inv(s) && req in s.issues
    ensures Inv(Stored(s, req, now))
  {
    var i := s.issues[req];
    var t := Token(i.user, i.rotatedFrom, now + TTL);
    var u := Stored(s, req, now);
    assert i.rotatedFrom.Some? ==> Ended(s.tokens, i.rotatedFrom.value) && i.rotatedFrom.value in s.revoked;
    assert i.rotatedFrom.Some? ==> s.tokens[i.rotatedFrom.value].user == i.user;
    assert Parented(s.tokens, s.nextId);
    hide Ended, Parented, EndsBut, Pending, Read, Tree;
    TreeGrows(s.tokens, s.nextId, t);
    NewTokenEnds(s.tokens, s.nextId, t);
    StoredPending(s, u, req);
    StoredRead(s, u, req, i.rotatedFrom);
    StoredRevoked(s, u, i.rotatedFrom);
  }

  lemma RevokedKeeps(s: State, more: set<Id>)
    requires Inv(s) && forall n :: n in more ==> n in s.tokens
    ensures Inv(s.(revoked := s.revoked + more))
  {
    hide Tree, Ended;
  }

  lemma RotatedKeeps(s: State, req: Request, now: int)
    requires Inv(s) && req in s.lookups
    ensures Inv(Rotated(s, req, now))
  {
    hide Tree, Ended;
    var l := s.lookups[req];
    var done := s.(lookups := s.lookups - {req});
    assert Inv(done);
    RevokedKeeps(done, TokensOf(s, l.user));
    assert Ended(s.tokens, l.id) || l.id in s.revoked;
    assert forall r :: r in s.issues && s.issues[r].rotatedFrom == Some(l.id) ==> l.id in s.revoked;
  }

  lemma SignInKeeps(s: State, req: Request, user: User)
    requires Inv(s) && Unused(s, req)
    ensures Inv(s.(issues := s.issues[req := Issue(user, None)]))
  {
    hide Tree, Ended;
  }

  lemma PresentedKeeps(s: State, req: Request, id: Id)
    requires Inv(s) && Unused(s, req)
    ensures Inv(Presented(s, req, id))
  {
    hide Tree, Ended;
  }

  lemma DropKeeps(s: State, req: Request)
    requires Inv(s)
    ensures Inv(s.(lookups := s.lookups - {req}, issues := s.issues - {req}))
  {
    hide Tree, Ended;
  }

  lemma StepKeeps(s: State, e: Event)
    requires Inv(s)
    ensures Inv(Step(s, e))
  {
    assert forall user, n :: n in TokensOf(s, user) ==> n in s.tokens;
    hide Inv, TokensOf, Rotated, Stored, Presented;
    match e
    case SignIn(req, user) => if Unused(s, req) { SignInKeeps(s, req, user); }
    case Present(req, id) => if Unused(s, req) { PresentedKeeps(s, req, id); }
    case Rotate(req, now) => if req in s.lookups { RotatedKeeps(s, req, now); }
    case Store(req, now) => if req in s.issues { StoredKeeps(s, req, now); }
    case Drop(req) => DropKeeps(s, req);
    case SignOut(id) => if Revocable(s, id) { RevokedKeeps(s, {id}); }
    case Disable(user) => RevokedKeeps(s, TokensOf(s, user));
    case Reset(req, user) =>
      RevokedKeeps(s, TokensOf(s, user));
      if Unused(s, req) { SignInKeeps(AllRevoked(s, user), req, user); }
  }

  lemma {:induction false} RunKeeps(events: seq<Event>)
    ensures Inv(Run(EMPTY, events))
  {
    if events != [] {
      RunKeeps(events[..|events| - 1]);
      StepKeeps(Run(EMPTY, events[..|events| - 1]), events[|events| - 1]);
    }
  }

  // --------------------------------------------------------------- theorems

  /** A token that still works, or one about to be stored. */
  datatype Holder = Held(id: Id) | InFlight(req: Request)

  predicate Works(s: State, h: Holder) {
    match h
    case Held(id) => Revocable(s, id)
    case InFlight(req) => req in s.issues && s.issues[req].rotatedFrom.Some?
  }

  /** The login a holder goes back to. */
  function Chain(s: State, h: Holder): Id
    requires Tree(s.tokens, s.nextId) && Pending(s) && Works(s, h)
  {
    match h
    case Held(id) => Root(s.tokens, s.nextId, id)
    case InFlight(req) => Root(s.tokens, s.nextId, s.issues[req].rotatedFrom.value)
  }

  /** In every reachable state a login chain has at most one token that works,
      counting the one a refresh is about to store. */
  lemma OneLivePerChain(events: seq<Event>, g: Holder, h: Holder)
    requires Works(Run(EMPTY, events), g) && Works(Run(EMPTY, events), h)
    ensures Inv(Run(EMPTY, events))
    ensures var s := Run(EMPTY, events); Chain(s, g) == Chain(s, h) ==> g == h
  {
    RunKeeps(events);
    var s := Run(EMPTY, events);
    var a := if g.Held? then g.id else s.issues[g.req].rotatedFrom.value;
    var b := if h.Held? then h.id else s.issues[h.req].rotatedFrom.value;
    assert Ended(s.tokens, a) && Ended(s.tokens, b);
    hide Run;
  }

  /** No token is ever replaced twice, not even by a refresh still under way. */
  lemma OneSuccessor(events: seq<Event>, id: Id)
    ensures var s := Run(EMPTY, events);
            && (forall m, n ::
                  m in s.tokens && n in s.tokens && s.tokens[m].rotatedFrom == Some(id) == s.tokens[n].rotatedFrom
                  ==> m == n)
            && (forall q, r ::
                  q in s.issues && r in s.issues && s.issues[q].rotatedFrom == Some(id) == s.issues[r].rotatedFrom
                  ==> q == r)
            && ((exists r :: r in s.issues && s.issues[r].rotatedFrom == Some(id)) ==> !HasSuccessor(s, id))
  {
    RunKeeps(events);
    hide Run;
  }

  /** A refresh gets a new session exactly when its token was live when looked up,
      has not expired, and is still not revoked when it comes to its turn: of
      two at once the second gets none, and is no theft either. */
  lemma RotatesExactlyWhen(s: State, req: Request, now: int)
    requires Inv(s) && req in s.lookups
    ensures var l, u := s.lookups[req], Step(s, Rotate(req, now));
            && (req in u.issues <==> !l.revoked && now <= l.expiresAt && Revocable(s, l.id))
            && (req in u.issues ==> u.issues[req] == Issue(l.user, Some(l.id)) && u.revoked == s.revoked + {l.id})
            && (req !in u.issues && !l.revoked ==> u.revoked == s.revoked)
  {
    hide Tree, Pending, Ended;
  }

  predicate LivesOn(s: State, user: User) {
    exists n :: n in s.tokens && n !in s.revoked && s.tokens[n].user == user
  }

  /** What the transaction of a replay does: whoever's lookup found the token
      revoked, the user is signed out of everything when its replacement is stored
      by then, and nothing happens when it is not. */
  lemma ReplayDecides(s: State, req: Request, now: int)
    requires Inv(s) && req in s.lookups && s.lookups[req].revoked
    ensures var l, u := s.lookups[req], Step(s, Rotate(req, now));
            && u.tokens == s.tokens && u.issues == s.issues
            && (HasSuccessor(s, l.id) ==> !LivesOn(u, l.user))
            && (!HasSuccessor(s, l.id) ==> u.revoked == s.revoked)
            && forall user :: user != l.user ==> (LivesOn(u, user) <==> LivesOn(s, user))
  {
    hide Tree, Ended, Pending, Read;
    var l, u := s.lookups[req], Step(s, Rotate(req, now));
    forall user | user != l.user ensures LivesOn(u, user) <==> LivesOn(s, user) {
      if LivesOn(s, user) {
        var n :| n in s.tokens && n !in s.revoked && s.tokens[n].user == user;
        assert n in u.tokens && n !in u.revoked && u.tokens[n].user == user;
      }
    }
  }

  /** The request's lookup, if it is of this token, found it revoked. */
  predicate Replays(s: State, req: Request, id: Id) {
    id in s.revoked && (req in s.lookups && s.lookups[req].id == id ==> s.lookups[req].revoked)
  }

  lemma {:induction false} ReplaysStill(s: State, events: seq<Event>, req: Request, id: Id)
    requires Replays(s, req, id)
    ensures Replays(Run(s, events), req, id)
  {
    if events != [] {
      ReplaysStill(s, events[..|events| - 1], req, id);
    }
  }

  /** A token presented when it is revoked already, with any steps of anyone else
      before the request comes to its transaction: what is stored by then decides
      whether the user is signed out of everything or nothing happens. */
  lemma ReplayExactly(s: State, req: Request, id: Id, events: seq<Event>, now: int)
    requires Inv(s) && Unused(s, req) && id in s.revoked
    requires var u := Run(Step(s, Present(req, id)), events); req in u.lookups && u.lookups[req].id == id
    ensures var u := Run(Step(s, Present(req, id)), events);
            var v := Step(u, Rotate(req, now));
            && id in u.tokens && v.tokens == u.tokens && v.issues == u.issues
            && (HasSuccessor(u, id) ==> !LivesOn(v, u.tokens[id].user))
            && (!HasSuccessor(u, id) ==> v.revoked == u.revoked)
            && forall user :: user != u.tokens[id].user ==> (LivesOn(v, user) <==> LivesOn(u, user))
  {
    var mid := Step(s, Present(req, id));
    StepKeeps(s, Present(req, id));
    assert Replays(mid, req, id);
    InvRun(mid, events);
    ReplaysStill(mid, events, req, id);
    var u := Run(mid, events);
    assert Read(u);
    hide Inv, Run, Step, HasSuccessor, LivesOn;
    ReplayDecides(u, req, now);
  }

  lemma {:induction false} InvRun(s: State, events: seq<Event>)
    requires Inv(s)
    ensures Inv(Run(s, events))
  {
    hide Inv, Step;
    if events != [] {
      InvRun(s, events[..|events| - 1]);
      StepKeeps(Run(s, events[..|events| - 1]), events[|events| - 1]);
    }
  }

  /** Signed out, and no refresh of it under way: nothing can succeed it now. */
  ghost predicate Settled(s: State, id: Id) {
    && id in s.revoked && Ended(s.tokens, id)
    && forall r :: r in s.issues ==> s.issues[r].rotatedFrom != Some(id)
  }

  lemma SignOutSettles(s: State, id: Id)
    requires Inv(s) && Revocable(s, id)
    ensures Settled(Step(s, SignOut(id)), id)
  {
    hide Tree;
  }

  lemma SettledStays(s: State, e: Event, id: Id)
    requires Inv(s) && Settled(s, id)
    ensures Settled(Step(s, e), id)
  {
    assert s.nextId !in s.tokens;
    hide Tree, Pending, Read;
  }

  lemma {:induction false} SettledForGood(s: State, events: seq<Event>, id: Id)
    requires Inv(s) && Settled(s, id)
    ensures Inv(Run(s, events)) && Settled(Run(s, events), id)
  {
    hide Inv, Settled, Step;
    if events != [] {
      SettledForGood(s, events[..|events| - 1], id);
      StepKeeps(Run(s, events[..|events| - 1]), events[|events| - 1]);
      SettledStays(Run(s, events[..|events| - 1]), events[|events| - 1], id);
    }
  }

  /** However long after, replaying a token that was signed out ends no session:
      a request that presents it changes no token at all. */
  lemma SignedOutReplayIsHarmless(s: State, id: Id, events: seq<Event>, req: Request, now: int)
    requires Inv(s) && Revocable(s, id)
    requires var u := Run(Step(s, SignOut(id)), events); req in u.lookups && u.lookups[req].id == id
    ensures var u := Run(Step(s, SignOut(id)), events);
            var v := Step(u, Rotate(req, now));
            v.tokens == u.tokens && v.revoked == u.revoked && v.issues == u.issues
  {
    StepKeeps(s, SignOut(id));
    SignOutSettles(s, id);
    SettledForGood(Step(s, SignOut(id)), events, id);
    var u := Run(Step(s, SignOut(id)), events);
    hide Run, Inv;
    assert !HasSuccessor(u, id);
    hide Ended;
  }

  // ------------------------------------------------------ signed out for good

  predicate Arrives(s: State, user: User) {
    exists r :: r in s.issues && s.issues[r].user == user
  }

  predicate Quiet(events: seq<Event>, user: User) {
    forall i :: 0 <= i < |events| ==>
      match events[i]
      case SignIn(_, u) => u != user
      case Reset(_, u) => u != user
      case _ => true
  }

  lemma OutStep(s: State, e: Event, user: User)
    requires Inv(s) && !LivesOn(s, user) && !Arrives(s, user) && Quiet([e], user)
    ensures !LivesOn(Step(s, e), user) && !Arrives(Step(s, e), user)
  {
    assert [e][0] == e;
    hide Tree, Pending, Ended;
    var u := Step(s, e);
    forall n | n in u.tokens && u.tokens[n].user == user ensures n in u.revoked {
      assert n in s.tokens ==> n in s.revoked;
    }
  }

  lemma {:induction false} OutForGood(s: State, events: seq<Event>, user: User)
    requires Inv(s) && !LivesOn(s, user) && !Arrives(s, user) && Quiet(events, user)
    ensures Inv(Run(s, events)) && !LivesOn(Run(s, events), user) && !Arrives(Run(s, events), user)
  {
    hide Inv, LivesOn, Arrives, Step;
    if events != [] {
      var e := events[|events| - 1];
      OutForGood(s, events[..|events| - 1], user);
      assert Quiet([e], user);
      StepKeeps(Run(s, events[..|events| - 1]), e);
      OutStep(Run(s, events[..|events| - 1]), e, user);
    }
  }

  /** Once all their tokens are revoked a user who does not sign in again stays
      out, whatever anyone presents, exactly when no session of theirs was about
      to be issued at that moment. */
  lemma StaysOutExactlyWhen(s: State, user: User)
    requires Inv(s) && !LivesOn(s, user)
    ensures (forall events :: Quiet(events, user) ==> !LivesOn(Run(s, events), user)) <==> !Arrives(s, user)
  {
    if Arrives(s, user) {
      var r :| r in s.issues && s.issues[r].user == user;
      var events := [Store(r, 0)];
      assert events[..0] == [];
      assert Quiet(events, user);
      var u := Run(s, events);
      assert Run(s, events[..0]) == s && events[0] == Store(r, 0);
      assert u == Stored(s, r, 0);
      assert s.nextId in u.tokens && s.nextId !in u.revoked && u.tokens[s.nextId].user == user;
      assert LivesOn(u, user);
    } else {
      forall events | Quiet(events, user) ensures !LivesOn(Run(s, events), user) {
        OutForGood(s, events, user);
      }
    }
  }

  lemma RunMore(s: State, events: seq<Event>, e: Event)
    ensures Run(s, events + [e]) == Step(Run(s, events), e)
  {
    hide Step;
    var more := events + [e];
    assert more[..|more| - 1] == events;
  }

  /** A user signs in and refreshes; they are disabled between the refresh's
      transaction and its issue. Nothing of theirs works, and then it does. */
  lemma DisabledAndBack()
    ensures var events := [SignIn(0, 5), Store(0, 0), Present(1, 0), Rotate(1, 0), Disable(5)];
            && !LivesOn(Run(EMPTY, events), 5) && Arrives(Run(EMPTY, events), 5)
            && LivesOn(Run(EMPTY, events + [Store(1, 0)]), 5)
  {
    var a, b := [SignIn(0, 5), Store(0, 0)], [Present(1, 0), Rotate(1, 0), Disable(5)];
    assert a[..1] == [SignIn(0, 5)] && [SignIn(0, 5)][..0] == [];
    assert Run(EMPTY, []) == EMPTY;
    assert Run(EMPTY, [SignIn(0, 5)]) == EMPTY.(issues := map[0 := Issue(5, None)]);
    var first := Token(5, None, TTL);
    var s := Run(EMPTY, a);
    assert s == State(map[0 := first], {}, 1, map[], map[]);
    RunMore(EMPTY, a, b[0]);
    RunMore(EMPTY, a + [b[0]], b[1]);
    RunMore(EMPTY, a + [b[0]] + [b[1]], b[2]);
    assert a + [b[0]] + [b[1]] + [b[2]] == a + b;
    RunMore(EMPTY, a + b, Store(1, 0));
    hide Run;
    assert Step(s, b[0]) == s.(lookups := map[1 := Lookup(0, 5, false, TTL)]);
    var t := Step(Step(s, b[0]), b[1]);
    assert t == State(map[0 := first], {0}, 1, map[], map[1 := Issue(5, Some(0))]);
    var u := Step(t, b[2]);
    assert u.tokens == t.tokens && u.issues == t.issues && 0 in u.revoked;
    assert 1 in u.issues && u.issues[1].user == 5;
    var v := Step(u, Store(1, 0));
    assert 1 in v.tokens && 1 !in v.revoked && v.tokens[1].user == 5;
    assert [SignIn(0, 5), Store(0, 0), Present(1, 0), Rotate(1, 0), Disable(5)] == a + b;
  }
}
