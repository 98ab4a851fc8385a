/**
 What "replay revokes every session" is worth: a detected replay clears the user's spendable tokens at that step,
 and they stay cleared until the next login exactly when no pair was about to be tracked.
 */
module BlanketRevocation {
  import opened Wrappers
  import opened Cardinality
  import opened RefreshStore
  import opened Tokens
  import opened Rotation
  import opened RotationTheorems

  /** A redeemed token presented again ends in RevokeUser for its owner, and in a refusal. */
  lemma ReplayBurnsSessions(s: State, rid: Uuid, input: Input)
    requires Inv(s) && rid in s.reqs && s.reqs[rid].ReadStatus?
    requires s.reqs[rid].jti in s.h.redeemed && s.reqs[rid].jti in s.rows
    ensures var t := AdvanceTimes(s, rid, input, 2);
            && t.reqs[rid] == Done(ReplayRejected)
            && SpendableOf(t, s.signed[s.reqs[rid].jti].user) == {}
            && t.h == s.h
  {
    assert RequestOk(s, s.reqs[rid]);
    var t1 := AdvanceStep(s, rid, input);
    assert t1.reqs[rid] == RevokeUser(s.signed[s.reqs[rid].jti].user);
    assert AdvanceTimes(s, rid, input, 2) == AdvanceTimes(t1, rid, input, 1) == AdvanceStep(t1, rid, input);
  }

  /** So does losing the race for MarkUsed, to another refresh or to a logout in between. */
  lemma LostRaceBurnsSessions(s: State, rid: Uuid, input: Input)
    requires Inv(s) && rid in s.reqs && s.reqs[rid].MarkUsed?
    requires s.reqs[rid].jti in s.rows ==> !s.rows[s.reqs[rid].jti].Spendable()
    ensures var t := AdvanceTimes(s, rid, input, 2);
            && t.reqs[rid] == Done(ReplayRejected)
            && SpendableOf(t, s.signed[s.reqs[rid].jti].user) == {}
            && t.h == s.h
  {
    assert RequestOk(s, s.reqs[rid]);
    var t1 := AdvanceStep(s, rid, input);
    assert t1.reqs[rid] == RevokeUser(s.signed[s.reqs[rid].jti].user);
    assert AdvanceTimes(s, rid, input, 2) == AdvanceTimes(t1, rid, input, 1) == AdvanceStep(t1, rid, input);
  }

  // ------------------------------------------------------------ a session that survives

  const GO := Input(true, 9, 1000)

  /** One token presented twice: request 1 redeems it, request 2 is a replay and revokes everything. */
  const REPLAYED := [StartLogin(0, 7, 1, 1000), Advance(0, GO), StartRefresh(1, 1), StartRefresh(2, 1),
                     Advance(1, GO), Advance(1, GO), Advance(2, GO), Advance(2, GO)]

  /** Request 1 goes on: GetByID, Issue, Track. */
  const FINISHED := [Advance(1, GO), Advance(1, GO), Advance(1, GO)]

  lemma AfterPresented(s: State)
    requires s == Run(INITIAL, REPLAYED[..4])
    ensures s.rows == map[1 := RefreshStatus(7, 1000, None, None)] && s.now == 0 && s.signed == map[1 := Claims(7, 1000)]
    ensures s.reqs == map[0 := Done(Outcome.Issued(1)), 1 := ReadStatus(1, Claims(7, 1000), 0),
                          2 := ReadStatus(1, Claims(7, 1000), 0)]
  {
    var s1 := Step(INITIAL, REPLAYED[0]);
    var s2 := Step(s1, REPLAYED[1]);
    assert s2.rows == map[1 := RefreshStatus(7, 1000, None, None)] && s2.signed == map[1 := Claims(7, 1000)];
    var s3 := Step(s2, REPLAYED[2]);
    var s4 := Step(s3, REPLAYED[3]);
    var ls := REPLAYED[..4];
    RunFour(INITIAL, ls);
    assert s == s4;
    assert s4.reqs == map[0 := Done(Outcome.Issued(1)), 1 := ReadStatus(1, Claims(7, 1000), 0),
                          2 := ReadStatus(1, Claims(7, 1000), 0)];
  }

  lemma AfterReplayed(s: State)
    requires s.rows == map[1 := RefreshStatus(7, 1000, None, None)] && s.now == 0
    requires s.reqs == map[0 := Done(Outcome.Issued(1)), 1 := ReadStatus(1, Claims(7, 1000), 0),
                           2 := ReadStatus(1, Claims(7, 1000), 0)]
    ensures var t := Run(s, REPLAYED[4..]);
            && t.rows == map[1 := RefreshStatus(7, 1000, Some(0), None)] && t.now == 0 && t.signed == s.signed
            && t.reqs == s.reqs[1 := GetByID(1, Claims(7, 1000))][2 := Done(ReplayRejected)]
  {
    var s1 := Step(s, Advance(1, GO));
    assert s1.reqs == s.reqs[1 := Pc.MarkUsed(1, Claims(7, 1000), 7, 0)];
    var s2 := Step(s1, Advance(1, GO));
    assert s2.rows == map[1 := RefreshStatus(7, 1000, Some(0), None)];
    var s3 := Step(s2, Advance(2, GO));
    assert s3.reqs[2] == Pc.RevokeUser(7);
    var s4 := Step(s3, Advance(2, GO));
    assert s4.rows == map[1 := RefreshStatus(7, 1000, Some(0), None)];
    RunFour(s, REPLAYED[4..]);
    assert s4.reqs == s.reqs[1 := GetByID(1, Claims(7, 1000))][2 := Done(ReplayRejected)];
  }

  lemma AfterFinished(s: State)
    requires s.rows == map[1 := RefreshStatus(7, 1000, Some(0), None)] && s.now == 0 && 9 !in s.signed
    requires 1 in s.reqs && s.reqs[1] == GetByID(1, Claims(7, 1000))
    ensures var t := Run(s, FINISHED);
            SpendableOf(t, 7) == {9} && t.rows[9] == RefreshStatus(7, 1000, None, None)
  {
    FromGetByID(s, 1, GO, 3);
    assert FINISHED == seq(3, _ => Advance(1, GO));
    RunIsAdvanceTimes(s, 1, GO, 3);
    var t := Run(s, FINISHED);
    assert t.rows == Tracked(s.rows, 9, 7, 1000);
    assert forall j :: j in t.rows <==> j == 1 || j == 9;
  }

  /** The replay is detected, refused and answered by RevokeUser; afterwards the user has a live token all the same. */
  lemma SessionSurvivesReplay()
    ensures var s := Run(INITIAL, REPLAYED);
            && 2 in s.reqs && s.reqs[2] == Done(ReplayRejected) && SpendableOf(s, 7) == {}
            && SpendableOf(Run(s, FINISHED), 7) == {9} && Run(s, FINISHED).rows[9].IsLive(0)
  {
    AfterPresented(Run(INITIAL, REPLAYED[..4]));
    AfterReplayed(Run(INITIAL, REPLAYED[..4]));
    RunAppends(INITIAL, REPLAYED[..4], REPLAYED[4..]);
    assert REPLAYED == REPLAYED[..4] + REPLAYED[4..];
    AfterFinished(Run(INITIAL, REPLAYED));
  }

  // ------------------------------------------------------------ what can be tracked afterwards

  lemma {:induction false} Bound(keys: set<Uuid>) returns (b: Uuid)
    ensures forall k :: k in keys ==> k < b
    decreases |keys|
  {
    if keys == {} {
      b := 0;
    } else {
      var k :| k in keys;
      var rest := Bound(keys - {k});
      b := if rest <= k then k + 1 else rest;
      assert forall j :: j in keys ==> j == k || j in keys - {k};
    }
  }

  lemma {:induction false} AdvanceKeepsLogins(s: State, rid: Uuid, input: Input, n: nat)
    ensures AdvanceTimes(s, rid, input, n).h.logins == s.h.logins
    decreases n
  {
    if n > 0 && rid in s.reqs {
      AdvanceKeepsLogins(AdvanceStep(s, rid, input), rid, input, n - 1);
    }
  }

  /** How many store calls a pending pair is from its row. */
  function CallsToTrack(pc: Pc): nat {
    match pc
    case GetByID(_, _) => 3
    case Reissue(_, _) => 2
    case _ => 1
  }

  /** The request has tracked its pair under `jti`, for its own user; all other rows and requests are as before. */
  ghost predicate AddedPair(s: State, t: State, rid: Uuid, jti: Uuid)
    requires rid in s.reqs && PendingPair(s.reqs[rid])
  {
    && jti in t.rows && t.rows[jti].Spendable() && t.rows[jti].userId == s.reqs[rid].claims.user
    && (forall j :: j in s.rows && j != jti ==> j in t.rows && t.rows[j] == s.rows[j])
    && (forall r :: r in s.reqs && r != rid ==> r in t.reqs && t.reqs[r] == s.reqs[r])
  }

  lemma PendingTracks(s: State, rid: Uuid, input: Input) returns (jti: Uuid)
    requires RowsOk(s) && rid in s.reqs && PendingPair(s.reqs[rid]) && RequestOk(s, s.reqs[rid])
    requires input.userFound && input.freshJti !in s.signed
    ensures jti !in s.rows
    ensures AddedPair(s, AdvanceTimes(s, rid, input, CallsToTrack(s.reqs[rid])), rid, jti)
  {
    match s.reqs[rid] {
      case GetByID(_, _) =>
        FromGetByID(s, rid, input, 3);
        jti := input.freshJti;
      case Reissue(_, _) =>
        FromReissue(s, rid, input, 2);
        jti := input.freshJti;
      case Track(_, _, next, _) =>
        FromTrack(s, rid, input, 1);
        jti := next;
      case LoginTrack(own, _) =>
        assert AdvanceTimes(s, rid, input, 1) == AdvanceStep(s, rid, input);
        jti := own;
      case _ => assert false;
    }
  }

  /** A request holding a pending pair can finish, and then its user has a spendable token. */
  lemma PendingCanTrack(s: State, user: Uuid, rid: Uuid) returns (ls: seq<Label>)
    requires Inv(s) && rid in PendingOf(s, user)
    ensures SpendableOf(Run(s, ls), user) != {} && LoginsOf(Run(s, ls), user) == LoginsOf(s, user)
  {
    var unsigned := Bound(s.signed.Keys);
    var input := Input(true, unsigned, 0);
    var n := CallsToTrack(s.reqs[rid]);
    assert RequestOk(s, s.reqs[rid]);
    var jti := PendingTracks(s, rid, input);
    assert jti in SpendableOf(AdvanceTimes(s, rid, input, n), user);
    AdvanceKeepsLogins(s, rid, input, n);
    ls := seq(n, _ => Advance(rid, input));
    RunIsAdvanceTimes(s, rid, input, n);
  }

  // ------------------------------------------------------------ the bound is attained

  /** One pending pair is tracked: a spendable token more, a pending pair less. */
  lemma TrackOne(s: State, user: Uuid, rid: Uuid) returns (ls: seq<Label>)
    requires Inv(s) && rid in PendingOf(s, user)
    ensures var t := Run(s, ls);
            && Inv(t) && t.h.logins == s.h.logins
            && |SpendableOf(t, user)| >= |SpendableOf(s, user)| + 1
            && PendingOf(s, user) - {rid} <= PendingOf(t, user)
  {
    var unsigned := Bound(s.signed.Keys);
    var input := Input(true, unsigned, 0);
    var n := CallsToTrack(s.reqs[rid]);
    assert RequestOk(s, s.reqs[rid]);
    var jti := PendingTracks(s, rid, input);
    AdvanceKeepsLogins(s, rid, input, n);
    ls := seq(n, _ => Advance(rid, input));
    RunIsAdvanceTimes(s, rid, input, n);
    RunInv(s, ls);
    AddedCounts(s, Run(s, ls), user, rid, jti);
  }

  lemma AddedCounts(s: State, t: State, user: Uuid, rid: Uuid, jti: Uuid)
    requires rid in PendingOf(s, user) && jti !in s.rows && AddedPair(s, t, rid, jti)
    ensures |SpendableOf(t, user)| >= |SpendableOf(s, user)| + 1
    ensures PendingOf(s, user) - {rid} <= PendingOf(t, user)
  {
    assert jti !in SpendableOf(s, user);
    SubsetSize(SpendableOf(s, user) + {jti}, SpendableOf(t, user));
  }

  /** Any number of pending pairs can all be tracked without a new login. */
  lemma {:induction false} TrackAll(s: State, user: Uuid, rids: set<Uuid>) returns (ls: seq<Label>)
    requires Inv(s) && rids <= PendingOf(s, user)
    ensures var t := Run(s, ls);
            t.h.logins == s.h.logins && |SpendableOf(t, user)| >= |SpendableOf(s, user)| + |rids|
    decreases |rids|
  {
    if rids == {} {
      ls := [];
    } else {
      var rid :| rid in rids;
      var one := TrackOne(s, user, rid);
      var rest := TrackAll(Run(s, one), user, rids - {rid});
      RunAppends(s, one, rest);
      ls := one + rest;
    }
  }

  /** RevocationBound is exact: without a new login a run can leave as many spendable tokens as pairs were pending. */
  lemma RevocationBoundAttained(s: State, user: Uuid) returns (ls: seq<Label>)
    requires Inv(s) && SpendableOf(s, user) == {}
    ensures var t := Run(s, ls);
            && LoginsOf(t, user) == LoginsOf(s, user)
            && |SpendableOf(t, user)| == |RefreshesInFlight(s, user)| + |LoginsInFlight(s, user)|
  {
    ls := TrackAll(s, user, PendingOf(s, user));
    assert RefreshesInFlight(s, user) !! LoginsInFlight(s, user);
    RevocationBound(s, ls, user);
    assert LoginsOf(Run(s, ls), user) - LoginsOf(s, user) == {};
  }

  // ------------------------------------------------------------ exactly when it lasts

  /** No run without a new login gives the user a spendable token again. */
  ghost predicate StaysRevoked(s: State, user: Uuid) {
    forall ls :: LoginsOf(Run(s, ls), user) == LoginsOf(s, user) ==> SpendableOf(Run(s, ls), user) == {}
  }

  /**
   After RevokeUser (logout, replay or lost race) the sessions stay revoked if and only if, at that moment, none
   of the user's refreshes was past MarkUsed and none of their logins inside issuePair.
   */
  lemma StaysRevokedIff(s: State, user: Uuid)
    requires Inv(s) && SpendableOf(s, user) == {}
    ensures StaysRevoked(s, user) <==> RefreshesInFlight(s, user) == {} && LoginsInFlight(s, user) == {}
  {
    if PendingOf(s, user) == {} {
      forall ls | LoginsOf(Run(s, ls), user) == LoginsOf(s, user) ensures SpendableOf(Run(s, ls), user) == {} {
        RevocationBound(s, ls, user);
      }
    } else {
      var rid :| rid in PendingOf(s, user);
      var ls := PendingCanTrack(s, user, rid);
      assert !StaysRevoked(s, user);
    }
  }
  /**
   What a logout is worth, from any reachable state: whatever happens later, the user's spendable tokens are at most
   the later logins plus the pairs pending now; and the sessions stay revoked exactly when there was none.
   */
  lemma LogoutBound(s: State, user: Uuid, ls: seq<Label>)
    requires Inv(s)
    ensures SpendableOf(Step(s, Logout(user)), user) == {}
    ensures var t := Run(s, [Logout(user)] + ls);
            |SpendableOf(t, user)| <= |LoginsOf(t, user) - LoginsOf(s, user)|
                                      + |RefreshesInFlight(s, user)| + |LoginsInFlight(s, user)|
    ensures StaysRevoked(Step(s, Logout(user)), user) <==>
              RefreshesInFlight(s, user) == {} && LoginsInFlight(s, user) == {}
  {
    var out := Step(s, Logout(user));
    RevokeUserClears(s, user, user);
    StepInv(s, Logout(user));
    assert RefreshesInFlight(out, user) == RefreshesInFlight(s, user) && LoginsInFlight(out, user) == LoginsInFlight(s, user);
    assert ([Logout(user)] + ls)[1..] == ls;
    RevocationBound(out, ls, user);
    StaysRevokedIff(out, user);
  }
}
