/**
 The refresh-token table: what one row says, what each statement of the store does to
 the table, and the in-memory store that keeps its rows as shared objects.
 Instants are milliseconds.
 */
module RefreshStore {
  import opened Wrappers

  type Uuid = nat
  type Instant = int

  const DAY: Instant := 86_400_000

  datatype RefreshStatus = RefreshStatus(
    userId: Uuid,
    expiresAt: Instant,
    usedAt: Option<Instant>,
    revokedAt: Option<Instant>)
  {
    /** Neither redeemed nor revoked; expiry aside, the token can still be redeemed. */
    predicate Spendable() {
      usedAt.None? && revokedAt.None?
    }

    predicate IsLive(now: Instant) {
      if usedAt.Some? || revokedAt.Some? then false else now < expiresAt
    }

    predicate IsUsed() {
      usedAt.Some?
    }
  }

  type Table = map<Uuid, RefreshStatus>

  function Tracked(t: Table, jti: Uuid, userId: Uuid, expiresAt: Instant): Table {
    t[jti := RefreshStatus(userId, expiresAt, None, None)]
  }

  /** UPDATE ... SET used_at WHERE jti AND used_at IS NULL AND revoked_at IS NULL. */
  function Marked(t: Table, jti: Uuid, now: Instant): Table {
    if jti in t && t[jti].Spendable() then t[jti := t[jti].(usedAt := Some(now))] else t
  }

  function RevokedRow(row: RefreshStatus, userId: Uuid, now: Instant): RefreshStatus {
    if row.userId == userId && row.Spendable() then row.(revokedAt := Some(now)) else row
  }

  /** UPDATE ... SET revoked_at WHERE user_id AND revoked_at IS NULL AND used_at IS NULL. */
  function Revoked(t: Table, userId: Uuid, now: Instant): Table {
    map jti | jti in t :: RevokedRow(t[jti], userId, now)
  }

  /** DELETE ... WHERE expires_at < now - 1 day. */
  function Purged(t: Table, now: Instant): Table {
    map jti | jti in t && t[jti].expiresAt >= now - DAY :: t[jti]
  }

  datatype StoreError = RefreshUnknown | RefreshAlreadyUsed

  /** One stored token; the store hands out copies, never the object. */
  class RefreshRow {
    var userId: Uuid
    var expiresAt: Instant
    var usedAt: Option<Instant>
    var revokedAt: Option<Instant>

    constructor (userId: Uuid, expiresAt: Instant)
      ensures Status() == RefreshStatus(userId, expiresAt, None, None)
    {
      this.userId := userId;
      this.expiresAt := expiresAt;
      usedAt := None;
      revokedAt := None;
    }

    function Status(): RefreshStatus
      reads this
    {
      RefreshStatus(userId, expiresAt, usedAt, revokedAt)
    }
  }

  class MemRefreshStore {
    var tokens: map<Uuid, RefreshRow>

    /** No two ids share a row object, so writing one row changes one token. */
    ghost predicate Valid()
      reads this
    {
      forall i, j :: i in tokens && j in tokens && tokens[i] == tokens[j] ==> i == j
    }

    ghost function Contents(): Table
      reads this, tokens.Values
    {
      map jti | jti in tokens :: tokens[jti].Status()
    }

    constructor ()
      ensures Valid() && Contents() == map[]
    {
      tokens := map[];
    }

    method Track(jti: Uuid, userId: Uuid, expiresAt: Instant)
      requires Valid()
      modifies this
      ensures Valid()
      ensures Contents() == Tracked(old(Contents()), jti, userId, expiresAt)
      ensures Contents() == old(Contents())[jti := RefreshStatus(userId, expiresAt, None, None)]
      ensures fresh(tokens.Values - old(tokens.Values))
    {
      var row := new RefreshRow(userId, expiresAt);
      tokens := tokens[jti := row];
    }

    method Status(jti: Uuid) returns (r: Result<RefreshStatus, StoreError>)
      requires Valid()
      ensures r == if jti in Contents() then Ok(Contents()[jti]) else Err(RefreshUnknown)
    {
      if jti !in tokens {
        return Err(RefreshUnknown);
      }
      r := Ok(tokens[jti].Status());
    }

    method MarkUsed(jti: Uuid, now: Instant) returns (r: Result<(), StoreError>)
      requires Valid()
      modifies tokens.Values
      ensures Valid() && tokens == old(tokens)
      ensures Contents() == Marked(old(Contents()), jti, now)
      ensures r == if jti !in old(Contents()) then Err(RefreshUnknown)
                   else if old(Contents())[jti].usedAt.Some? || old(Contents())[jti].revokedAt.Some?
                   then Err(RefreshAlreadyUsed)
                   else Ok(())
      ensures r.Ok? ==> Contents() == old(Contents())[jti := old(Contents())[jti].(usedAt := Some(now))]
      ensures r.Err? ==> Contents() == old(Contents())
    {
      if jti !in tokens {
        return Err(RefreshUnknown);
      }
      var st := tokens[jti];
      if st.usedAt.Some? || st.revokedAt.Some? {
        return Err(RefreshAlreadyUsed);
      }
      st.usedAt := Some(now);
      r := Ok(());
    }

    method RevokeUser(userId: Uuid, now: Instant)
      requires Valid()
      modifies tokens.Values
      ensures Valid() && tokens == old(tokens)
      ensures Contents() == Revoked(old(Contents()), userId, now)
      ensures forall j :: j in Contents() <==> j in old(Contents())
      ensures forall j :: j in Contents() ==>
                var row := old(Contents())[j];
                Contents()[j] == if row.userId == userId && row.usedAt.None? && row.revokedAt.None?
                                 then row.(revokedAt := Some(now)) else row
    {
      var todo := tokens.Keys;
      while todo != {}
        invariant todo <= tokens.Keys
        invariant forall j :: j in todo ==> tokens[j].Status() == old(tokens[j].Status())
        invariant forall j :: j in tokens.Keys - todo ==>
            tokens[j].Status() == RevokedRow(old(tokens[j].Status()), userId, now)
        decreases |todo|
      {
        var jti :| jti in todo;
        var st := tokens[jti];
        if st.userId == userId && st.usedAt == None && st.revokedAt == None {
          st.revokedAt := Some(now);
        }
        todo := todo - {jti};
      }
    }

    /** How many of the user's tokens are still live. */
    method CountLive(userId: Uuid, now: Instant) returns (n: nat)
      requires Valid()
      ensures n == |set jti | jti in Contents()
                           && Contents()[jti].userId == userId && now < Contents()[jti].expiresAt
                           && Contents()[jti].usedAt.None? && Contents()[jti].revokedAt.None?|
    {
      n := 0;
      var todo := tokens.Keys;
      ghost var live := {};
      while todo != {}
        invariant todo <= tokens.Keys
        invariant n == |live|
        invariant live == set jti | jti in tokens.Keys - todo
                                 && tokens[jti].userId == userId && tokens[jti].Status().IsLive(now)
        decreases |todo|
      {
        var jti :| jti in todo;
        var st := tokens[jti];
        if st.userId == userId && st.Status().IsLive(now) {
          n := n + 1;
          live := live + {jti};
        }
        todo := todo - {jti};
      }
      assert live == set jti | jti in Contents()
                            && Contents()[jti].userId == userId && now < Contents()[jti].expiresAt
                            && Contents()[jti].usedAt.None? && Contents()[jti].revokedAt.None?;
    }
  }
}
