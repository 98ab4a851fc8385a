/**
 The hourly purge of expired rows cannot be observed by refreshes that take less than a day: a purged row belongs
 to a token that Parse has long refused. A slower one can miss its row, in exactly two ways.
 */
module PurgeInvisibility {
  import opened Wrappers
  import opened RefreshStore
  import opened Tokens
  import opened Rotation

  /** The schedule with the purges taken out. */
  function WithoutPurges(ls: seq<Label>): seq<Label> {
    if ls == [] then []
    else (if ls[0].Purge? then [] else [ls[0]]) + WithoutPurges(ls[1..])
  }

  /** No refresh sits between Parse and MarkUsed for a day (less the leeway). */
  ghost predicate Prompt(s: State) {
    forall r :: r in s.reqs && (s.reqs[r].ReadStatus? || s.reqs[r].MarkUsed?) ==>
      s.now - s.reqs[r].parsedAt <= DAY - LEEWAY
  }

  ghost predicate PromptRun(s: State, ls: seq<Label>)
    decreases |ls|
  {
    ls == [] || (Prompt(s) && PromptRun(Step(s, ls[0]), ls[1..]))
  }

  /** Same requests, same answers, same rows, but for rows expired for over a day. */
  ghost predicate Agree(purging: State, keeping: State) {
    && purging.now == keeping.now
    && purging.signed == keeping.signed
    && purging.reqs == keeping.reqs
    && purging.h == keeping.h
    && (forall j :: j in purging.rows ==> j in keeping.rows && purging.rows[j] == keeping.rows[j])
    && (forall j :: j in keeping.rows && j !in purging.rows ==>
          keeping.rows[j].expiresAt < keeping.now - DAY)
  }

  /** A row a prompt request asks for has not been purged. */
  lemma PromptRowIsThere(a: State, b: State, rid: Uuid)
    requires Agree(a, b) && RowsOk(b) && Prompt(a) && rid in b.reqs && RequestOk(b, b.reqs[rid])
    requires b.reqs[rid].ReadStatus? || b.reqs[rid].MarkUsed?
    ensures b.reqs[rid].jti in b.rows ==> b.reqs[rid].jti in a.rows
  {
    var pc := b.reqs[rid];
    if pc.jti in b.rows && pc.jti !in a.rows {
      PurgedTokenIsRefused(pc.claims, b.now, pc.parsedAt);
      assert false;
    }
  }

  /** The purge removes a row exactly when its token expired more than 24 hours ago, and changes no other. */
  lemma PurgeRemovesExactly(s: State, j: Uuid)
    requires j in s.rows
    ensures j in Step(s, Purge).rows <==> s.now - s.rows[j].expiresAt <= 24 * 60 * 60 * 1000
    ensures j in Step(s, Purge).rows ==> Step(s, Purge).rows[j] == s.rows[j]
  {
  }

  // ------------------------------------------------------------ exactly when a purge is seen

  /**
   The step asks for a row that was purged and that would have mattered: a used one at Status, where its absence
   hides a replay, or a spendable one at MarkUsed, where its absence looks like a lost race and burns the sessions.
   */
  predicate Misses(purging: State, keeping: State, l: Label) {
    && l.Advance? && l.rid in keeping.reqs
    && (keeping.reqs[l.rid].ReadStatus? || keeping.reqs[l.rid].MarkUsed?)
    && var pc := keeping.reqs[l.rid];
       && pc.jti in keeping.rows && pc.jti !in purging.rows
       && (if pc.ReadStatus? then keeping.rows[pc.jti].IsUsed() else keeping.rows[pc.jti].Spendable())
  }

  /** One step of the run with purges, and of the run without. */
  function Kept(keeping: State, l: Label): State {
    if l.Purge? then keeping else Step(keeping, l)
  }

  lemma AdvanceSeesIff(a: State, b: State, rid: Uuid, input: Input)
    requires Agree(a, b) && rid in b.reqs
    ensures Misses(a, b, Advance(rid, input)) ==> AdvanceStep(a, rid, input).reqs != AdvanceStep(b, rid, input).reqs
    ensures !Misses(a, b, Advance(rid, input)) ==> Agree(AdvanceStep(a, rid, input), AdvanceStep(b, rid, input))
  {
    match b.reqs[rid]
    case ReadStatus(jti, claims, at) =>
      var pa, pb := AfterStatus(a, jti, claims, at), AfterStatus(b, jti, claims, at);
      assert AdvanceStep(a, rid, input).reqs[rid] == pa && AdvanceStep(b, rid, input).reqs[rid] == pb;
    case MarkUsed(jti, claims, owner, _) =>
      assert AdvanceStep(a, rid, input).reqs[rid].RevokeUser? <==> !(jti in a.rows && a.rows[jti].Spendable());
      assert AdvanceStep(b, rid, input).reqs[rid].RevokeUser? <==> !(jti in b.rows && b.rows[jti].Spendable());
    case _ =>
  }

  /** One step of agreeing runs: either everything agrees again, or a request has already gone another way. */
  lemma StepSeesIff(a: State, b: State, l: Label)
    requires Agree(a, b) && RowsOk(b) && RequestsOk(b)
    ensures Misses(a, b, l) ==> Step(a, l).reqs != Kept(b, l).reqs
    ensures !Misses(a, b, l) ==> Agree(Step(a, l), Kept(b, l))
  {
    match l
    case Advance(rid, input) => if rid in a.reqs { AdvanceSeesIff(a, b, rid, input); }
    case _ =>
  }

  /** At every point of the run all requests stand where they stand without the purges. */
  ghost predicate Unseen(a: State, b: State, ls: seq<Label>)
    decreases |ls|
  {
    a.reqs == b.reqs && (ls == [] || Unseen(Step(a, ls[0]), Kept(b, ls[0]), ls[1..]))
  }

  predicate NoneMissed(a: State, b: State, ls: seq<Label>)
    decreases |ls|
  {
    ls == [] || (!Misses(a, b, ls[0]) && NoneMissed(Step(a, ls[0]), Kept(b, ls[0]), ls[1..]))
  }

  lemma {:induction false} UnseenIff(a: State, b: State, ls: seq<Label>)
    requires Agree(a, b) && Inv(b)
    ensures Unseen(a, b, ls) <==> NoneMissed(a, b, ls)
    ensures NoneMissed(a, b, ls) ==> Agree(Run(a, ls), Run(b, WithoutPurges(ls)))
    decreases |ls|
  {
    if ls != [] {
      var l := ls[0];
      StepSeesIff(a, b, l);
      if !Misses(a, b, l) {
        if !l.Purge? {
          StepInv(b, l);
        }
        UnseenIff(Step(a, l), Kept(b, l), ls[1..]);
        KeptRun(b, ls);
      }
    }
  }

  lemma KeptRun(b: State, ls: seq<Label>)
    requires ls != []
    ensures Run(b, WithoutPurges(ls)) == Run(Kept(b, ls[0]), WithoutPurges(ls[1..]))
  {
    var rest := WithoutPurges(ls[1..]);
    if ls[0].Purge? {
      assert WithoutPurges(ls) == rest;
    } else {
      assert WithoutPurges(ls) == [ls[0]] + rest;
      assert WithoutPurges(ls)[0] == ls[0] && WithoutPurges(ls)[1..] == rest;
    }
  }

  /**
   The exact condition: in a run with purges every request does what it does in the run without them if and only if
   no request ever misses a purged row.
   */
  lemma PurgeIsUnseenIff(ls: seq<Label>)
    ensures Unseen(INITIAL, INITIAL, ls) <==> NoneMissed(INITIAL, INITIAL, ls)
  {
    InitialInv();
    UnseenIff(INITIAL, INITIAL, ls);
  }

  lemma {:induction false} PromptMissesNothing(a: State, b: State, ls: seq<Label>)
    requires Agree(a, b) && Inv(b) && PromptRun(a, ls)
    ensures NoneMissed(a, b, ls)
    decreases |ls|
  {
    if ls != [] {
      var l := ls[0];
      if l.Advance? && l.rid in b.reqs && (b.reqs[l.rid].ReadStatus? || b.reqs[l.rid].MarkUsed?) {
        assert RequestOk(b, b.reqs[l.rid]);
        PromptRowIsThere(a, b, l.rid);
      }
      StepSeesIff(a, b, l);
      if !l.Purge? {
        StepInv(b, l);
      }
      PromptMissesNothing(Step(a, l), Kept(b, l), ls[1..]);
    }
  }

  /**
   For prompt refreshes purging changes no answer, no redemption and no revocation, and every
   row it removed belongs to a token that Parse refuses from now on.
   */
  lemma PurgeIsInvisible(ls: seq<Label>)
    requires PromptRun(INITIAL, ls)
    ensures var a, b := Run(INITIAL, ls), Run(INITIAL, WithoutPurges(ls));
            && a.reqs == b.reqs && a.h == b.h
            && (forall j :: j in a.rows ==> j in b.rows && a.rows[j] == b.rows[j])
            && (forall j, later :: j in b.rows && j !in a.rows && later >= a.now ==>
                  j in b.signed && !ParseAccepts(b.signed[j], later))
  {
    InitialInv();
    PromptMissesNothing(INITIAL, INITIAL, ls);
    UnseenIff(INITIAL, INITIAL, ls);
    RunInv(INITIAL, WithoutPurges(ls));
  }

  const ANY := Input(true, 0, 0)

  /** A login and two refreshes of its token, both past Parse. */
  const PRESENTED_TWICE := [StartLogin(0, 7, 1, 1000), Advance(0, ANY), StartRefresh(1, 1), StartRefresh(2, 1)]

  /** The first redeems it; a day and two seconds go by. */
  const FIRST_REDEEMS := [Advance(1, ANY), Advance(1, ANY), Tick(DAY + 2000)]

  lemma RunTwo(s: State, k: Label, l: Label)
    ensures Run(s, [k, l]) == Step(Step(s, k), l)
  {
    assert [k, l][1..] == [l];
    RunOne(Step(s, k), l);
  }

  lemma RunOne(s: State, l: Label)
    ensures Run(s, [l]) == Step(s, l)
  {
    assert Run(Step(s, l), []) == Step(s, l);
    assert [l][1..] == [];
  }

  lemma AfterPresentedTwice()
    ensures var s := Run(INITIAL, PRESENTED_TWICE);
            && s.now == 0
            && 1 in s.reqs && s.reqs[1].ReadStatus? && s.reqs[1].jti == 1
            && 2 in s.reqs && s.reqs[2].ReadStatus? && s.reqs[2].jti == 1
            && 1 in s.rows && s.rows[1] == RefreshStatus(7, 1000, None, None)
  {
    var s1 := Step(INITIAL, PRESENTED_TWICE[0]);
    var s2 := Step(s1, PRESENTED_TWICE[1]);
    assert s2.rows == map[1 := RefreshStatus(7, 1000, None, None)] && s2.signed == map[1 := Claims(7, 1000)];
    RunTwo(INITIAL, PRESENTED_TWICE[0], PRESENTED_TWICE[1]);
    RunTwo(s2, PRESENTED_TWICE[2], PRESENTED_TWICE[3]);
    RunAppends(INITIAL, PRESENTED_TWICE[..2], PRESENTED_TWICE[2..]);
    assert PRESENTED_TWICE == PRESENTED_TWICE[..2] + PRESENTED_TWICE[2..];
    assert PRESENTED_TWICE[..2] == [PRESENTED_TWICE[0], PRESENTED_TWICE[1]];
    assert PRESENTED_TWICE[2..] == [PRESENTED_TWICE[2], PRESENTED_TWICE[3]];
  }

  lemma AfterFirstRedeems(s: State)
    requires s.now == 0 && 1 in s.reqs && s.reqs[1].ReadStatus? && s.reqs[1].jti == 1
    requires 1 in s.rows && s.rows[1] == RefreshStatus(7, 1000, None, None)
    ensures var t := Run(s, FIRST_REDEEMS);
            && t.now == DAY + 2000
            && (2 in s.reqs ==> 2 in t.reqs && t.reqs[2] == s.reqs[2])
            && 1 in t.rows && t.rows[1] == RefreshStatus(7, 1000, Some(0), None)
  {
    var s1 := Step(s, FIRST_REDEEMS[0]);
    var s2 := Step(s1, FIRST_REDEEMS[1]);
    assert s1.reqs[1].MarkUsed?;
    RunTwo(s, FIRST_REDEEMS[0], FIRST_REDEEMS[1]);
    RunOne(s2, FIRST_REDEEMS[2]);
    RunAppends(s, [FIRST_REDEEMS[0], FIRST_REDEEMS[1]], [FIRST_REDEEMS[2]]);
    assert FIRST_REDEEMS == [FIRST_REDEEMS[0], FIRST_REDEEMS[1]] + [FIRST_REDEEMS[2]];
  }

  /**
   The day matters: held between Parse and Status for longer, a replay looks merely invalid
   once the row is purged, and the sessions it would burn survive.
   */
  lemma PurgeIsVisibleToASlowRefresh()
    ensures var s := Run(Run(INITIAL, PRESENTED_TWICE), FIRST_REDEEMS);
            && 2 in s.reqs
            && Run(s, [Purge, Advance(2, ANY)]).reqs == s.reqs[2 := Done(Invalid)]
            && Run(s, WithoutPurges([Purge, Advance(2, ANY)])).reqs == s.reqs[2 := RevokeUser(7)]
  {
    AfterPresentedTwice();
    AfterFirstRedeems(Run(INITIAL, PRESENTED_TWICE));
    var s := Run(Run(INITIAL, PRESENTED_TWICE), FIRST_REDEEMS);
    RunTwo(s, Purge, Advance(2, ANY));
    assert WithoutPurges([Advance(2, ANY)]) == [Advance(2, ANY)];
    assert WithoutPurges([Purge, Advance(2, ANY)]) == [Advance(2, ANY)];
    RunOne(s, Advance(2, ANY));
    assert [Purge, Advance(2, ANY)][1..] == [Advance(2, ANY)] && [Advance(2, ANY)][1..] == [];
  }

  /** A login and a refresh of its token, past Status, held until the row is old enough to be purged. */
  const HELD := [StartLogin(0, 7, 1, 1000), Advance(0, ANY), StartRefresh(1, 1), Advance(1, ANY)]

  lemma AfterHeld()
    ensures var s := Run(Run(INITIAL, HELD), [Tick(DAY + 2000)]);
            && s.now == DAY + 2000
            && 1 in s.reqs && s.reqs[1].MarkUsed? && s.reqs[1].jti == 1 && s.reqs[1].owner == 7
            && 1 in s.rows && s.rows[1] == RefreshStatus(7, 1000, None, None)
  {
    var s1 := Step(INITIAL, HELD[0]);
    var s2 := Step(s1, HELD[1]);
    assert s2.rows == map[1 := RefreshStatus(7, 1000, None, None)] && s2.signed == map[1 := Claims(7, 1000)];
    var s3 := Step(s2, HELD[2]);
    var s4 := Step(s3, HELD[3]);
    assert s3.reqs[1].ReadStatus? && s4.reqs[1].MarkUsed?;
    RunTwo(INITIAL, HELD[0], HELD[1]);
    RunTwo(s2, HELD[2], HELD[3]);
    RunAppends(INITIAL, HELD[..2], HELD[2..]);
    assert HELD == HELD[..2] + HELD[2..];
    assert HELD[..2] == [HELD[0], HELD[1]] && HELD[2..] == [HELD[2], HELD[3]];
    RunOne(s4, Tick(DAY + 2000));
  }

  /** The other case: held between Status and MarkUsed, an honest refresh burns the sessions instead of rotating. */
  lemma PurgeBurnsASlowRefresh()
    ensures var s := Run(Run(INITIAL, HELD), [Tick(DAY + 2000)]);
            && 1 in s.reqs && s.reqs[1].MarkUsed?
            && Run(s, [Purge, Advance(1, ANY)]).reqs == s.reqs[1 := RevokeUser(7)]
            && Run(s, WithoutPurges([Purge, Advance(1, ANY)])).reqs == s.reqs[1 := GetByID(1, s.reqs[1].claims)]
            && Run(s, WithoutPurges([Purge, Advance(1, ANY)])).h.redeemed == s.h.redeemed + [1]
  {
    AfterHeld();
    var s := Run(Run(INITIAL, HELD), [Tick(DAY + 2000)]);
    RunTwo(s, Purge, Advance(1, ANY));
    assert WithoutPurges([Advance(1, ANY)]) == [Advance(1, ANY)];
    assert WithoutPurges([Purge, Advance(1, ANY)]) == [Advance(1, ANY)];
    RunOne(s, Advance(1, ANY));
    assert [Purge, Advance(1, ANY)][1..] == [Advance(1, ANY)] && [Advance(1, ANY)][1..] == [];
  }
}
