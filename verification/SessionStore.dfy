/** The session service's transactions as they write the refresh_tokens rows. */
module SessionStore {
  import opened Base
  import opened Sessions

  class Service {
    var tokens: map<Id, Token>
    var revoked: set<Id>
    var nextId: Id
    /** Requests between two of their steps. */
    var lookups: map<Request, Lookup>
    var issues: map<Request, Issue>

    constructor ()
      ensures View() == EMPTY
    {
      tokens, revoked, nextId, lookups, issues := map[], {}, 0, map[], map[];
    }

    ghost function View(): State
      reads this
    {
      State(tokens, revoked, nextId, lookups, issues)
    }

    /** One token, if it is not revoked yet; says how many rows that was. */
    method RevokeRefreshToken(id: Id) returns (n: nat)
      modifies `revoked
      ensures n == if Revocable(old(View()), id) then 1 else 0
      ensures revoked == if n == 1 then old(revoked) + {id} else old(revoked)
    {
      if id in tokens && id !in revoked {
        revoked := revoked + {id};
        return 1;
      }
      return 0;
    }

    method RevokeAllUserTokens(user: User)
      modifies `revoked
      ensures View() == AllRevoked(old(View()), user)
    {
      var left := tokens.Keys;
      while left != {}
        invariant left <= tokens.Keys
        invariant revoked == old(revoked) + (TokensOf(old(View()), user) - left)
      {
        var id :| id in left;
        if tokens[id].user == user {
          revoked := revoked + {id};
        }
        left := left - {id};
      }
    }

    method CreateRefreshToken(i: Issue, now: int)
      modifies `tokens, `nextId
      ensures tokens == old(tokens)[old(nextId) := Token(i.user, i.rotatedFrom, now + TTL)]
      ensures nextId == old(nextId) + 1
    {
      tokens := tokens[nextId := Token(i.user, i.rotatedFrom, now + TTL)];
      nextId := nextId + 1;
    }

    /** Refresh, first step: LookupRefreshToken. */
    method Present(req: Request, id: Id)
      requires Unused(View(), req)
      modifies `lookups
      ensures View() == Step(old(View()), Event.Present(req, id))
    {
      if id in tokens {
        lookups := lookups[req := Lookup(id, tokens[id].user, id in revoked, tokens[id].expiresAt)];
      }
    }

    /** Refresh, second step: a replay, an expired token, or the rotation, which
        revokes before anything is issued. */
    method Rotate(req: Request, now: int)
      requires req in lookups
      modifies this
      ensures View() == Step(old(View()), Event.Rotate(req, now))
    {
      var l := lookups[req];
      lookups := lookups - {req};
      if l.revoked {
        var superseded := exists n :: n in tokens && tokens[n].rotatedFrom == Some(l.id);
        assert superseded == HasSuccessor(old(View()), l.id);
        if superseded {
          RevokeAllUserTokens(l.user);
        }
      } else if now <= l.expiresAt {
        var n := RevokeRefreshToken(l.id);
        if n > 0 {
          issues := issues[req := Issue(l.user, Some(l.id))];
        }
      }
    }

    /** issue: the last step of a refresh, a sign-in or a reset. */
    method StoreSession(req: Request, now: int)
      requires req in issues
      modifies this
      ensures View() == Step(old(View()), Event.Store(req, now))
    {
      var i := issues[req];
      CreateRefreshToken(i, now);
      issues := issues - {req};
    }

    method Logout(id: Id)
      modifies this
      ensures View() == Step(old(View()), Event.SignOut(id))
    {
      if id in tokens {
        var _ := RevokeRefreshToken(id);
      }
    }

    /** ResetPassword: everything is revoked before the new session is issued. */
    method ResetPassword(req: Request, user: User)
      requires Unused(View(), req)
      modifies this
      ensures View() == Step(old(View()), Event.Reset(req, user))
    {
      RevokeAllUserTokens(user);
      issues := issues[req := Issue(user, None)];
    }
  }
}
