/**
 What a step on the replay counter is evidence of. Refresh counts a replay whenever it goes on to RevokeUser; that
 is a replay unless a logout, or another revocation, overtook an honest refresh between its Status and its MarkUsed.
 */
module ReplayAlarms {
  import opened Wrappers
  import opened RefreshStore
  import opened Tokens
  import opened Rotation

  /** A row marked used belongs to a token that was redeemed. */
  ghost predicate UsedOk(s: State) {
    forall j :: j in s.rows && s.rows[j].IsUsed() ==> j in s.h.redeemed
  }

  lemma StepUsedOk(s: State, l: Label)
    requires UsedOk(s)
    ensures UsedOk(Step(s, l))
  {
    match l
    case Advance(rid, input) => if rid in s.reqs { AdvanceUsedOk(s, rid, input); }
    case _ =>
  }

  lemma AdvanceUsedOk(s: State, rid: Uuid, input: Input)
    requires UsedOk(s) && rid in s.reqs
    ensures UsedOk(AdvanceStep(s, rid, input))
  {
  }

  lemma {:induction false} RunUsedOk(s: State, ls: seq<Label>)
    requires UsedOk(s)
    ensures UsedOk(Run(s, ls))
    decreases |ls|
  {
    if ls != [] {
      StepUsedOk(s, ls[0]);
      RunUsedOk(Step(s, ls[0]), ls[1..]);
    }
  }

  /** The step on which a request turns to RevokeUser, and so to the replay counter. */
  predicate Alarm(s: State, l: Label) {
    l.Advance? && l.rid in s.reqs && (s.reqs[l.rid].ReadStatus? || s.reqs[l.rid].MarkUsed?)
    && AdvanceStep(s, l.rid, l.input).reqs[l.rid].RevokeUser?
  }

  /** The token was never redeemed: nobody is replaying anything. */
  predicate FalseAlarm(s: State, l: Label) {
    Alarm(s, l) && s.reqs[l.rid].jti !in s.h.redeemed
  }

  /** The refresh passed Status, and before its MarkUsed the row was revoked, or purged unredeemed. */
  predicate Overtaken(s: State, l: Label) {
    && l.Advance? && l.rid in s.reqs && s.reqs[l.rid].MarkUsed?
    && var jti := s.reqs[l.rid].jti;
       if jti in s.rows then s.rows[jti].revokedAt.Some? else jti !in s.h.redeemed
  }

  lemma FalseAlarmIff(s: State, l: Label)
    requires RowsOk(s) && RedeemedOk(s) && UsedOk(s)
    ensures FalseAlarm(s, l) <==> Overtaken(s, l)
  {
    if l.Advance? && l.rid in s.reqs && (s.reqs[l.rid].ReadStatus? || s.reqs[l.rid].MarkUsed?) {
      var jti := s.reqs[l.rid].jti;
      assert jti in s.rows ==> (s.rows[jti].IsUsed() <==> jti in s.h.redeemed);
      assert jti in s.rows ==> s.rows[jti].usedAt.None? || s.rows[jti].revokedAt.None?;
    }
  }

  ghost predicate AlarmsAreReplays(ls: seq<Label>) {
    forall i :: 0 <= i < |ls| ==> !FalseAlarm(Run(INITIAL, ls[..i]), ls[i])
  }

  ghost predicate NobodyOvertaken(ls: seq<Label>) {
    forall i :: 0 <= i < |ls| ==> !Overtaken(Run(INITIAL, ls[..i]), ls[i])
  }

  /** Every alarm of a run is a replay if and only if no refresh of the run is overtaken. */
  lemma AlarmsAreReplaysIff(ls: seq<Label>)
    ensures AlarmsAreReplays(ls) <==> NobodyOvertaken(ls)
  {
    forall i | 0 <= i < |ls|
      ensures FalseAlarm(Run(INITIAL, ls[..i]), ls[i]) <==> Overtaken(Run(INITIAL, ls[..i]), ls[i])
    {
      InitialInv();
      RunInv(INITIAL, ls[..i]);
      RunUsedOk(INITIAL, ls[..i]);
      FalseAlarmIff(Run(INITIAL, ls[..i]), ls[i]);
    }
  }

  // ------------------------------------------------------------ a logout counted as a replay

  const GO := Input(true, 9, 1000)

  /** A login, and a refresh of its token as far as MarkUsed. */
  const PAST_STATUS := [StartLogin(0, 7, 1, 1000), Advance(0, GO), StartRefresh(1, 1), Advance(1, GO)]

  /** The user logs out, and the refresh goes on. */
  const OVERTAKEN := [Logout(7), Advance(1, GO), Advance(1, GO)]

  lemma AfterPastStatus()
    ensures var s := Run(INITIAL, PAST_STATUS);
            && s.now == 0 && s.h.redeemed == [] && s.rows == map[1 := RefreshStatus(7, 1000, None, None)]
            && 1 in s.reqs && s.reqs[1] == Pc.MarkUsed(1, Claims(7, 1000), 7, 0)
  {
    var a := Step(INITIAL, PAST_STATUS[0]);
    var b := Step(a, PAST_STATUS[1]);
    assert b.rows == map[1 := RefreshStatus(7, 1000, None, None)] && b.signed == map[1 := Claims(7, 1000)];
    var c := Step(b, PAST_STATUS[2]);
    assert c.reqs[1] == Pc.ReadStatus(1, Claims(7, 1000), 0);
    RunFour(INITIAL, PAST_STATUS);
  }

  lemma AfterOvertaken(s: State)
    requires s.now == 0 && s.h.redeemed == [] && s.rows == map[1 := RefreshStatus(7, 1000, None, None)]
    requires 1 in s.reqs && s.reqs[1] == Pc.MarkUsed(1, Claims(7, 1000), 7, 0)
    ensures FalseAlarm(Step(s, Logout(7)), Advance(1, GO))
    ensures var t := Run(s, OVERTAKEN); 1 in t.reqs && t.reqs[1] == Done(ReplayRejected) && t.h.redeemed == []
  {
    var a := Step(s, OVERTAKEN[0]);
    assert 1 in a.rows && a.rows[1].revokedAt.Some?;
    var b := Step(a, OVERTAKEN[1]);
    assert b.reqs[1] == Pc.RevokeUser(7);
    var c := Step(b, OVERTAKEN[2]);
    assert OVERTAKEN[1..][1..] == OVERTAKEN[2..] && OVERTAKEN[2..][1..] == [];
    assert Run(b, OVERTAKEN[2..]) == Run(c, []);
    assert Run(a, OVERTAKEN[1..]) == Run(b, OVERTAKEN[2..]);
  }

  /** The refresh is refused and counted as a replay, and no token was ever redeemed, let alone twice. */
  lemma LogoutCountsAsReplay()
    ensures var s := Run(INITIAL, PAST_STATUS);
            && FalseAlarm(Step(s, Logout(7)), Advance(1, GO))
            && 1 in Run(s, OVERTAKEN).reqs && Run(s, OVERTAKEN).reqs[1] == Done(ReplayRejected)
            && Run(s, OVERTAKEN).h.redeemed == []
  {
    AfterPastStatus();
    AfterOvertaken(Run(INITIAL, PAST_STATUS));
  }
}
