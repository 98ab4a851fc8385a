/**
 Login, Refresh and Logout of the auth service, each run by itself against the in-memory
 store. Module Rotation interleaves the same store calls of any number of requests.
 */
module AuthService {
  import opened Wrappers
  import opened RefreshStore
  import opened Tokens

  datatype AuthError = InvalidCredentials | InvalidRefresh | Replayed

  /** A token whose signature checked out: its jti and its claims. */
  datatype Presented = Presented(jti: Uuid, claims: Claims)

  /**
   What one undisturbed Refresh does to the table and answers: `users` are the ids
   GetByID still finds, `next` the jti drawn for the successor.
   */
  function RefreshAlone(t: Table, p: Presented, users: set<Uuid>, now: Instant, next: Uuid, ttl: nat)
    : (Table, Result<Uuid, AuthError>)
  {
    if !ParseAccepts(p.claims, now) || p.jti !in t then (t, Err(InvalidRefresh))
    else if t[p.jti].IsUsed() then (Revoked(t, t[p.jti].userId, now), Err(Replayed))
    else if !t[p.jti].IsLive(now) then (t, Err(InvalidRefresh))
    else if p.claims.user !in users then (Marked(t, p.jti, now), Err(InvalidRefresh))
    else (Tracked(Marked(t, p.jti, now), next, p.claims.user, now + ttl), Ok(next))
  }

  class Service {
    const store: MemRefreshStore
    const refreshTTL: nat
    var users: map<Uuid, string>   // id to password

    constructor (store: MemRefreshStore, refreshTTL: nat)
      ensures this.store == store && this.refreshTTL == refreshTTL && users == map[]
    {
      this.store := store;
      this.refreshTTL := refreshTTL;
      users := map[];
    }

    method IssuePair(user: Uuid, now: Instant, next: Uuid)
      requires store.Valid()
      modifies store
      ensures store.Valid()
      ensures store.Contents() == old(store.Contents())[next := RefreshStatus(user, now + refreshTTL, None, None)]
      ensures fresh(store.tokens.Values - old(store.tokens.Values))
    {
      var claims := Issued(user, now, refreshTTL);
      store.Track(next, user, claims.expiresAt);
    }

    method Login(user: Uuid, password: string, now: Instant, next: Uuid)
      returns (r: Result<Uuid, AuthError>)
      requires store.Valid()
      modifies store
      ensures store.Valid()
      ensures r.Ok? <==> user in users && users[user] == password
      ensures r.Ok? ==> r.value == next
                        && store.Contents()
                           == old(store.Contents())[next := RefreshStatus(user, now + refreshTTL, None, None)]
      ensures r.Err? ==> r.error == InvalidCredentials && store.Contents() == old(store.Contents())
    {
      if user !in users || users[user] != password {
        return Err(InvalidCredentials);
      }
      IssuePair(user, now, next);
      r := Ok(next);
    }

    /**
     A pair is answered exactly for a token Parse accepts, whose row is there, unused, unrevoked and not expired, of
     a user who still exists; a used one burns the sessions; every other refusal leaves the table alone, but that a
     missing user costs the token.
     */
    method Refresh(p: Presented, now: Instant, next: Uuid) returns (r: Result<Uuid, AuthError>)
      requires store.Valid()
      modifies store, store.tokens.Values
      ensures store.Valid()
      ensures (store.Contents(), r)
           == RefreshAlone(old(store.Contents()), p, users.Keys, now, next, refreshTTL)
      ensures var t := old(store.Contents());
              var live := ParseAccepts(p.claims, now) && p.jti in t && t[p.jti].usedAt.None? && t[p.jti].revokedAt.None?
                          && now < t[p.jti].expiresAt;
              && (r.Ok? <==> live && p.claims.user in users)
              && (r.Ok? ==> r.value == next)
              && (r.Ok? ==> store.Contents()
                            == t[p.jti := t[p.jti].(usedAt := Some(now))]
                                [next := RefreshStatus(p.claims.user, now + refreshTTL, None, None)])
              && (r == Err(Replayed) <==> ParseAccepts(p.claims, now) && p.jti in t && t[p.jti].usedAt.Some?)
              && (r == Err(Replayed) ==> forall j :: j in store.Contents() && store.Contents()[j].userId == t[p.jti].userId ==>
                    store.Contents()[j].usedAt.Some? || store.Contents()[j].revokedAt.Some?)
              && (r == Err(InvalidRefresh) ==>
                    store.Contents() == if live then t[p.jti := t[p.jti].(usedAt := Some(now))] else t)
    {
      if !ParseAccepts(p.claims, now) {
        return Err(InvalidRefresh);
      }
      var status := store.Status(p.jti);
      if status.Err? {
        return Err(InvalidRefresh);
      }
      if status.value.IsUsed() {
        store.RevokeUser(status.value.userId, now);
        return Err(Replayed);
      }
      if !status.value.IsLive(now) {
        return Err(InvalidRefresh);
      }
      var marked := store.MarkUsed(p.jti, now);
      if marked.Err? {
        assert false;
      }
      if p.claims.user !in users {
        return Err(InvalidRefresh);
      }
      IssuePair(p.claims.user, now, next);
      r := Ok(next);
    }

    method Logout(user: Uuid, now: Instant)
      requires store.Valid()
      modifies store.tokens.Values
      ensures store.Valid()
      ensures store.Contents() == Revoked(old(store.Contents()), user, now)
    {
      store.RevokeUser(user, now);
    }
  }
}
