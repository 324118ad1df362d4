/** What ends a session and what begins one: sign-outs, resets and disabling, and where a
    token that works afterwards can have come from. */
module SessionTheorems {
  import opened Base
  import opened Sessions

  // ------------------------------------------------------- what a step ends

  /** From s to u the tokens of `ended` stopped working, and nothing else changed of
      what is stored. */
  ghost predicate Ends(s: State, u: State, ended: set<Id>) {
    && u.tokens == s.tokens && u.nextId == s.nextId && u.lookups == s.lookups
    && forall n :: n in u.revoked <==> n in s.revoked || (n in s.tokens && n in ended)
  }

  /** A reset ends every session of its user and no other's, and is about to begin one
      that replaces none. */
  lemma ResetExactly(s: State, req: Request, user: User)
    requires Inv(s) && Unused(s, req)
    ensures var u := Step(s, Reset(req, user));
            && !LivesOn(u, user) && Ends(s, u, set n | n in s.tokens && s.tokens[n].user == user)
            && (forall other :: other != user ==> (LivesOn(u, other) <==> LivesOn(s, other)))
            && u.issues == s.issues[req := Issue(user, None)]
  {
    hide Inv;
    var u := Step(s, Reset(req, user));
    OthersLive(s, u, user);
  }

  lemma OthersLive(s: State, u: State, user: User)
    requires u.tokens == s.tokens
    requires forall n :: n in u.revoked <==> n in s.revoked || (n in s.tokens && s.tokens[n].user == user)
    ensures !LivesOn(u, user)
    ensures forall other :: other != user ==> (LivesOn(u, other) <==> LivesOn(s, other))
  {
    forall other | other != user ensures LivesOn(u, other) <==> LivesOn(s, other) {
      if LivesOn(s, other) {
        var n :| n in s.tokens && n !in s.revoked && s.tokens[n].user == other;
        assert n in u.tokens && n !in u.revoked && u.tokens[n].user == other;
      }
    }
  }

  /** Disabling ends the user's sessions too, and begins none. */
  lemma DisableExactly(s: State, user: User)
    requires Inv(s)
    ensures var u := Step(s, Disable(user));
            && !LivesOn(u, user) && Ends(s, u, set n | n in s.tokens && s.tokens[n].user == user)
            && (forall other :: other != user ==> (LivesOn(u, other) <==> LivesOn(s, other)))
            && u.issues == s.issues
  {
    hide Inv;
    OthersLive(s, Step(s, Disable(user)), user);
  }

  /** Signing out ends the session of the token presented, and no other. */
  lemma SignOutExactly(s: State, id: Id)
    requires Inv(s)
    ensures var u := Step(s, SignOut(id)); Ends(s, u, {id}) && u.issues == s.issues
  {
    hide Tree, Pending, Read;
  }

  /** A session begins with a token of its user that is good for thirty days, names the
      one it replaces, if any, and is the only thing that changes. */
  lemma SessionBegins(s: State, req: Request, now: int)
    requires Inv(s) && req in s.issues
    ensures var u := Step(s, Store(req, now));
            && s.nextId !in s.tokens
            && u.tokens == s.tokens[s.nextId := Token(s.issues[req].user, s.issues[req].rotatedFrom, now + 30 * 24 * 60 * 60)]
            && u.revoked == s.revoked && s.nextId !in u.revoked && u.nextId == s.nextId + 1
            && u.issues == s.issues - {req} && u.lookups == s.lookups
  {
    hide Pending, Read;
  }

  /** What a token that is presented is taken for: what its row says at that moment. */
  lemma PresentedExactly(s: State, req: Request, id: Id, user: User)
    requires Unused(s, req)
    ensures var u := Step(s, Present(req, id));
            && u == s.(lookups := u.lookups)
            && u.lookups == if id in s.tokens
                            then s.lookups[req := Lookup(id, s.tokens[id].user, id in s.revoked, s.tokens[id].expiresAt)]
                            else s.lookups
    ensures Step(s, SignIn(req, user)) == s.(issues := s.issues[req := Issue(user, None)])
  {
  }

  // ------------------------------------------------------------ for good

  lemma StepGrows(s: State, e: Event)
    requires Inv(s)
    ensures var u := Step(s, e);
            && s.nextId <= u.nextId && s.revoked <= u.revoked
            && forall n :: n in s.tokens ==> n in u.tokens && u.tokens[n] == s.tokens[n]
  {
    assert s.nextId !in s.tokens;
    hide Tree, Pending, Read, HasSuccessor, TokensOf;
  }

  /** Tokens stay, and a token revoked stays revoked. */
  lemma {:induction false} RunGrows(s: State, events: seq<Event>)
    requires Inv(s)
    ensures var u := Run(s, events);
            && Inv(u) && s.nextId <= u.nextId && s.revoked <= u.revoked
            && forall n :: n in s.tokens ==> n in u.tokens && u.tokens[n] == s.tokens[n]
  {
    hide Inv, Step;
    if events != [] {
      RunGrows(s, events[..|events| - 1]);
      StepKeeps(Run(s, events[..|events| - 1]), events[|events| - 1]);
      StepGrows(Run(s, events[..|events| - 1]), events[|events| - 1]);
    }
  }

  // ------------------------------------------------------ where tokens come from

  /** The request was signing in, or resetting, for this user since s, or already then. */
  ghost predicate Logging(s: State, events: seq<Event>, req: Request, user: User) {
    || (req in s.issues && s.issues[req] == Issue(user, None))
    || exists i :: 0 <= i < |events| && (events[i] == SignIn(req, user) || events[i] == Reset(req, user))
  }

  /** Token n is a login of the user's, stored by the j-th event. */
  ghost predicate LoginStored(s: State, events: seq<Event>, j: nat, n: Id, user: User) {
    && j < |events| && events[j].Store?
    && var u := Run(s, events[..j]);
       && u.nextId == n && events[j].req in u.issues && u.issues[events[j].req] == Issue(user, None)
       && Logging(s, events[..j], events[j].req, user)
  }

  /** A refresh of token p, which is the user's, was under way in s. */
  predicate Refreshing(s: State, p: Id, user: User) {
    exists q :: q in s.issues && s.issues[q] == Issue(user, Some(p))
  }

  /** What is about to be issued to the user, and what has been since s. */
  ghost predicate Explained(s: State, events: seq<Event>, user: User) {
    var u := Run(s, events);
    && (forall q :: q in u.issues && u.issues[q].user == user ==>
          match u.issues[q].rotatedFrom
          case None => Logging(s, events, q, user)
          case Some(p) => p in s.tokens ==> Refreshing(s, p, user))
    && (forall n :: n in u.tokens && n !in s.tokens && u.tokens[n].user == user ==>
          match u.tokens[n].rotatedFrom
          case None => exists j: nat :: LoginStored(s, events, j, n, user)
          case Some(p) => p in s.tokens ==> Refreshing(s, p, user))
  }

  lemma LoggingMore(s: State, events: seq<Event>, e: Event, req: Request, user: User)
    ensures Logging(s, events, req, user) || e == SignIn(req, user) || e == Reset(req, user) ==> Logging(s, events + [e], req, user)
  {
    var more := events + [e];
    assert more[|events|] == e;
    assert forall i :: 0 <= i < |events| ==> more[i] == events[i];
  }

  lemma LoginStoredMore(s: State, events: seq<Event>, e: Event, j: nat, n: Id, user: User)
    requires LoginStored(s, events, j, n, user)
    ensures LoginStored(s, events + [e], j, n, user)
  {
    hide Run, Logging;
    assert (events + [e])[..j] == events[..j];
  }

  /** What a step can put under way, or store, for a user none of whose tokens work. */
  lemma StepExplains(s: State, e: Event, user: User, q: Request)
    requires Inv(s) && q in Step(s, e).issues && Step(s, e).issues[q].user == user
    ensures var i := Step(s, e).issues[q];
            || (q in s.issues && s.issues[q] == i)
            || (i.rotatedFrom.None? && (e == SignIn(q, user) || e == Reset(q, user)))
            || (i.rotatedFrom.Some? && Revocable(s, i.rotatedFrom.value) && s.tokens[i.rotatedFrom.value].user == user)
  {
    hide Tree, Pending, HasSuccessor, TokensOf;
  }

  lemma StepStores(s: State, e: Event, n: Id)
    requires n in Step(s, e).tokens && n !in s.tokens
    ensures e.Store? && e.req in s.issues && n == s.nextId
    ensures Step(s, e).tokens[n].user == s.issues[e.req].user && Step(s, e).tokens[n].rotatedFrom == s.issues[e.req].rotatedFrom
  {
    hide HasSuccessor, TokensOf;
  }

  lemma IssuesExplained(s: State, events: seq<Event>, e: Event, user: User, q: Request)
    requires Inv(s) && !LivesOn(s, user) && Explained(s, events, user)
    requires var u := Run(s, events + [e]); q in u.issues && u.issues[q].user == user
    ensures match Run(s, events + [e]).issues[q].rotatedFrom
            case None => Logging(s, events + [e], q, user)
            case Some(p) => p in s.tokens ==> Refreshing(s, p, user)
  {
    hide Inv, Run, Step, Logging, Refreshing;
    RunMore(s, events, e);
    RunGrows(s, events);
    var u := Run(s, events);
    StepExplains(u, e, user, q);
    LoggingMore(s, events, e, q, user);
  }

  lemma TokensExplained(s: State, events: seq<Event>, e: Event, user: User, n: Id)
    requires Inv(s) && Explained(s, events, user)
    requires var u := Run(s, events + [e]); n in u.tokens && n !in s.tokens && u.tokens[n].user == user
    ensures match Run(s, events + [e]).tokens[n].rotatedFrom
            case None => exists j: nat :: LoginStored(s, events + [e], j, n, user)
            case Some(p) => p in s.tokens ==> Refreshing(s, p, user)
  {
    hide Inv, Run, Step, Refreshing, Logging;
    RunMore(s, events, e);
    RunGrows(s, events);
    var u := Run(s, events);
    StepGrows(u, e);
    if n in u.tokens {
      if u.tokens[n].rotatedFrom.None? {
        var j: nat :| LoginStored(s, events, j, n, user);
        LoginStoredMore(s, events, e, j, n, user);
      }
    } else {
      StepStores(u, e, n);
      if u.issues[e.req].rotatedFrom.None? {
        assert (events + [e])[..|events|] == events && (events + [e])[|events|] == e;
        assert LoginStored(s, events + [e], |events|, n, user);
      }
    }
  }

  lemma {:induction false} AllExplained(s: State, events: seq<Event>, user: User)
    requires Inv(s) && !LivesOn(s, user)
    ensures Explained(s, events, user)
  {
    hide Inv, Logging, LoginStored, Refreshing, LivesOn;
    if events == [] {
      NothingToExplain(s, user);
    } else {
      var before, e := events[..|events| - 1], events[|events| - 1];
      AllExplained(s, before, user);
      assert before + [e] == events;
      hide Run;
      forall q | q in Run(s, events).issues && Run(s, events).issues[q].user == user
        ensures match Run(s, events).issues[q].rotatedFrom
                case None => Logging(s, events, q, user)
                case Some(p) => p in s.tokens ==> Refreshing(s, p, user)
      {
        IssuesExplained(s, before, e, user, q);
      }
      forall n | n in Run(s, events).tokens && n !in s.tokens && Run(s, events).tokens[n].user == user
        ensures match Run(s, events).tokens[n].rotatedFrom
                case None => exists j: nat :: LoginStored(s, events, j, n, user)
                case Some(p) => p in s.tokens ==> Refreshing(s, p, user)
      {
        TokensExplained(s, before, e, user, n);
      }
    }
  }

  lemma NothingToExplain(s: State, user: User)
    ensures Explained(s, [], user)
  {
    assert forall q :: q in s.issues && s.issues[q].user == user ==>
      match s.issues[q].rotatedFrom
      case None => s.issues[q] == Issue(user, None)
      case Some(p) => s.issues[q] == Issue(user, Some(p));
  }

  lemma {:induction false} RootStays(s: State, u: State, n: Id)
    requires Parented(s.tokens, s.nextId) && Parented(u.tokens, u.nextId) && n in s.tokens
    requires forall m :: m in s.tokens ==> m in u.tokens && u.tokens[m] == s.tokens[m]
    ensures Root(u.tokens, u.nextId, n) == Root(s.tokens, s.nextId, n)
    decreases n
  {
    if s.tokens[n].rotatedFrom.Some? {
      RootStays(s, u, s.tokens[n].rotatedFrom.value);
    }
  }

  /** Of a user none of whose tokens worked in s, a token stored since goes back to a login
      stored since by someone signing in or resetting, or, through a refresh that was under
      way in s, to an old one. */
  ghost predicate ComesFrom(s: State, events: seq<Event>, user: User, r: Id)
    requires Parented(s.tokens, s.nextId)
  {
    if r in s.tokens then
      exists p :: p in s.tokens && Refreshing(s, p, user) && Root(s.tokens, s.nextId, p) == r
    else exists j: nat :: LoginStored(s, events, j, r, user)
  }

  lemma {:induction false} RootExplained(s: State, events: seq<Event>, user: User, n: Id)
    requires Inv(s) && Explained(s, events, user) && Inv(Run(s, events))
    requires var u := Run(s, events); n in u.tokens && n !in s.tokens && u.tokens[n].user == user
    requires forall m :: m in s.tokens ==> m in Run(s, events).tokens && Run(s, events).tokens[m] == s.tokens[m]
    ensures ComesFrom(s, events, user, Root(Run(s, events).tokens, Run(s, events).nextId, n))
    decreases n
  {
    var u := Run(s, events);
    assert Parented(s.tokens, s.nextId) && Parented(u.tokens, u.nextId);
    hide Inv, Run, LoginStored, Refreshing;
    match u.tokens[n].rotatedFrom
    case None =>
    case Some(p) =>
      if p in s.tokens {
        RootStays(s, u, p);
        assert Refreshing(s, p, user);
      } else {
        RootExplained(s, events, user, p);
      }
  }

  /** After a reset, whatever happens: no token stored before it ever works again for its
      user; and a token of theirs that does goes back to a login stored since -- the
      reset's own, one already under way, a later one -- or, through a refresh already
      under way at the reset, to an old login. */
  lemma AfterReset(s: State, req: Request, user: User, events: seq<Event>, n: Id)
    requires Inv(s) && Unused(s, req)
    ensures Inv(Step(s, Reset(req, user))) && Inv(Run(Step(s, Reset(req, user)), events))
    ensures var u := Step(s, Reset(req, user));
            var v := Run(u, events);
            && (n in s.tokens && s.tokens[n].user == user ==> n in v.revoked)
            && (n in v.tokens && n !in v.revoked && v.tokens[n].user == user ==>
                  n !in s.tokens && ComesFrom(u, events, user, Root(v.tokens, v.nextId, n)))
  {
    var u := Step(s, Reset(req, user));
    ResetExactly(s, req, user);
    StepKeeps(s, Reset(req, user));
    RunGrows(u, events);
    AllExplained(u, events, user);
    var v := Run(u, events);
    hide Run, Step, Explained;
    if n in v.tokens && n !in v.revoked && v.tokens[n].user == user {
      RootExplained(u, events, user, n);
    }
  }
}
