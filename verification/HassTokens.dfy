/** How long tokens live: refresh tokens across restarts, and a manually set token against refreshes under way. */
module HassTokens {
  import opened Wrappers
  import opened HassCredentials

  // ------------------------------------------------------------ the refresh token, in the row and in the cache

  predicate Renewable(c: Credentials) {
    c.refreshToken != ""
  }

  /** This call will store no credentials without a refresh token: a Bootstrap finds the row and stops there. */
  predicate KeepsRenewable(pc: Pc) {
    match pc
    case Cred(c) =>
      && (c.StoreTokens? ==> c.tokens.refreshToken != "")
      && (c.SaveTokens? || c.NoteSaveError? ==> Renewable(c.snapshot))
      && (c.Trip? ==> c.refresh != "")
    case Boot(_, b) => b.WantMu? || b.Load? || b.Resume?
    case Manual(_, _) => false
    case Done(_) => true
  }

  ghost predicate Lasting(s: State) {
    && s.row.Some? && Renewable(s.row.value)
    && (s.creds.Some? ==> Renewable(s.creds.value))
    && forall t {:trigger s.threads[t]} :: t in s.threads ==> KeepsRenewable(s.threads[t])
  }

  lemma LastingStep(s: State, l: Label)
    requires Lasting(s) && !l.CallSetToken?
    ensures Lasting(Step(s, l))
  {
    match l
    case Advance(tid, input) =>
      if CanAdvance(s, tid) {
        assert KeepsRenewable(s.threads[tid]);
        match s.threads[tid] {
          case Cred(c) => LastingCred(s, tid, c, input);
          case Boot(nested, b) => LastingBoot(s, tid, nested, b, input);
          case _ => assert false;
        }
      }
    case _ =>
  }

  lemma LastingCred(s: State, tid: nat, c: CredPc, input: Input)
    requires Lasting(s) && tid in s.threads && s.threads[tid] == Cred(c) && KeepsRenewable(Cred(c))
    ensures Lasting(CredStep(s, tid, c, input))
  {
    if c.Recheck? && Usable(s.creds) {
      assert Renewable(s.creds.value);
    }
  }

  lemma LastingBoot(s: State, tid: nat, nested: bool, b: BootPc, input: Input)
    requires Lasting(s) && tid in s.threads && s.threads[tid] == Boot(nested, b) && KeepsRenewable(Boot(nested, b))
    ensures Lasting(BootStep(s, tid, nested, b, input))
  {
  }

  /**
   Without SetToken, row and cache carry a refresh token for good: through failed Saves, restarts and the reload
   of a row that those Saves left stale.
   */
  lemma {:induction false} RefreshTokenOutlivesRestarts(s: State, ls: seq<Label>)
    requires Lasting(s) && forall l :: l in ls ==> !l.CallSetToken?
    ensures var t := Run(s, ls);
            && t.row.Some? && t.row.value.refreshToken != ""
            && (t.creds.Some? ==> t.creds.value.refreshToken != "")
    decreases |ls|
  {
    if ls != [] {
      assert ls[0] in ls && forall l :: l in ls[1..] ==> l in ls;
      LastingStep(s, ls[0]);
      RefreshTokenOutlivesRestarts(Step(s, ls[0]), ls[1..]);
    }
  }

  // ------------------------------------------------------------ the manual token

  /** The cache, or the row, holds a token set by hand; no SetToken is under way. */
  ghost predicate HoldsManual(s: State, c: Credentials) {
    c.token != "" && c.expiresAt.None? && s.creds == Some(c) && NoManual(s)
  }

  /** A call that will write the cache: its round trip is out, or back. */
  predicate Overwrites(pc: Pc) {
    pc.Cred? && (pc.c.Trip? || pc.c.StoreTokens?)
  }

  /** A call that will write the row: the same, or already saving. */
  predicate OverwritesRow(pc: Pc) {
    Overwrites(pc) || (pc.Cred? && pc.c.SaveTokens?)
  }

  ghost predicate Nobody(s: State, p: Pc -> bool) {
    forall t :: t in s.threads ==> !p(s.threads[t])
  }

  /** No further SetToken, and the process goes on running. */
  predicate Undisturbed(ls: seq<Label>) {
    forall l :: l in ls ==> !l.CallSetToken? && !l.Restart?
  }

  ghost predicate CacheKept(s: State) {
    forall ls :: Undisturbed(ls) ==> Run(s, ls).creds == s.creds
  }

  ghost predicate RowKept(s: State) {
    forall ls :: Undisturbed(ls) ==> Run(s, ls).row == s.row
  }

  /** With a token that never expires in the cache nobody starts a refresh, and no Bootstrap gets past the cache. */
  lemma ManualStepKeeps(s: State, c: Credentials, l: Label)
    requires Inv(s) && HoldsManual(s, c) && Nobody(s, Overwrites) && !l.CallSetToken? && !l.Restart?
    ensures HoldsManual(Step(s, l), c) && Nobody(Step(s, l), Overwrites)
    ensures Nobody(s, OverwritesRow) ==> Nobody(Step(s, l), OverwritesRow) && Step(s, l).row == s.row
  {
    match l
    case Advance(tid, input) =>
      if CanAdvance(s, tid) {
        assert PcOk(s, s.threads[tid]) && !Overwrites(s.threads[tid]);
        match s.threads[tid] {
          case Cred(cp) => ManualCred(s, c, tid, cp, input);
          case Boot(nested, b) => ManualBoot(s, c, tid, nested, b, input);
          case _ => assert false;
        }
      }
    case _ =>
  }

  /** What one caller's step leaves alone. */
  ghost predicate Untouched(s: State, t: State, tid: nat) {
    && tid in s.threads && tid in t.threads && t.threads == s.threads[tid := t.threads[tid]]
    && t.creds == s.creds && !Overwrites(t.threads[tid]) && !t.threads[tid].Manual?
    && (!OverwritesRow(s.threads[tid]) ==> !OverwritesRow(t.threads[tid]) && t.row == s.row)
  }

  lemma ManualCred(s: State, c: Credentials, tid: nat, cp: CredPc, input: Input)
    requires s.creds == Some(c) && c.token != "" && c.expiresAt.None?
    requires tid in s.threads && s.threads[tid] == Cred(cp) && !Overwrites(Cred(cp))
    ensures Untouched(s, CredStep(s, tid, cp, input), tid)
  {
  }

  lemma ManualBoot(s: State, c: Credentials, tid: nat, nested: bool, b: BootPc, input: Input)
    requires s.creds == Some(c) && c.token != "" && BootOk(s, b)
    requires tid in s.threads && s.threads[tid] == Boot(nested, b)
    ensures Untouched(s, BootStep(s, tid, nested, b, input), tid)
  {
  }

  lemma {:induction false} ManualRunKeeps(s: State, c: Credentials, ls: seq<Label>)
    requires Inv(s) && HoldsManual(s, c) && Nobody(s, Overwrites) && Undisturbed(ls)
    ensures Run(s, ls).creds == s.creds
    ensures Nobody(s, OverwritesRow) ==> Run(s, ls).row == s.row
    decreases |ls|
  {
    if ls != [] {
      assert ls[0] in ls && forall l :: l in ls[1..] ==> l in ls;
      ManualStepKeeps(s, c, ls[0]);
      StepInv(s, ls[0]);
      ManualRunKeeps(Step(s, ls[0]), c, ls[1..]);
    }
  }

  /** An answer that works, with a token that expires. */
  const ANSWER := Input(true, false, false, TokenSet("a", "r", 0))

  /** Whoever holds `mu` while credentials are cached is a Bootstrap about to return. */
  lemma FreeMu(s: State) returns (ls: seq<Label>)
    requires Inv(s) && s.creds.Some?
    ensures Undisturbed(ls) && |ls| <= 1
    ensures var t := Run(s, ls);
            && t.mu.None? && t.creds == s.creds && t.row == s.row
            && forall r :: r in s.threads && s.threads[r].Cred? ==> r in t.threads && t.threads[r] == s.threads[r]
  {
    if s.mu.None? {
      ls := [];
    } else {
      var h := s.mu.value;
      assert PcOk(s, s.threads[h]);
      assert s.threads[h].b.Resume?;
      ls := [Advance(h, ANSWER)];
      assert Run(s, ls) == Run(Step(s, ls[0]), []);
    }
  }

  lemma {:induction false} RunJoins(s: State, xs: seq<Label>, ys: seq<Label>)
    ensures Run(s, xs + ys) == Run(Run(s, xs), ys)
    decreases |xs|
  {
    if xs == [] {
      assert xs + ys == ys;
    } else {
      assert (xs + ys)[1..] == xs[1..] + ys;
      RunJoins(Step(s, xs[0]), xs[1..], ys);
    }
  }

  lemma StoreOverwrites(s: State, tid: nat) returns (ls: seq<Label>)
    requires Inv(s) && s.creds.Some? && tid in s.threads && s.threads[tid].Cred? && s.threads[tid].c.StoreTokens?
    ensures Undisturbed(ls)
    ensures var t := Run(s, ls);
            && t.creds.Some? && t.creds.value.expiresAt.Some? && t.row == s.row
            && tid in t.threads && t.threads[tid] == Cred(SaveTokens(t.creds.value, 1))
  {
    var free := FreeMu(s);
    var t := Run(s, free);
    assert CanAdvance(t, tid);
    RunJoins(s, free, [Advance(tid, ANSWER)]);
    assert Run(t, [Advance(tid, ANSWER)]) == Run(Step(t, Advance(tid, ANSWER)), []);
    ls := free + [Advance(tid, ANSWER)];
  }

  lemma RoundTripOverwrites(s: State, tid: nat) returns (ls: seq<Label>)
    requires Inv(s) && s.creds.Some? && tid in s.threads && Overwrites(s.threads[tid])
    ensures Undisturbed(ls)
    ensures var t := Run(s, ls);
            && t.creds.Some? && t.creds.value.expiresAt.Some? && t.row == s.row
            && tid in t.threads && t.threads[tid] == Cred(SaveTokens(t.creds.value, 1))
  {
    if s.threads[tid].c.StoreTokens? {
      ls := StoreOverwrites(s, tid);
    } else {
      var t := Step(s, Advance(tid, ANSWER));
      StepInv(s, Advance(tid, ANSWER));
      var rest := StoreOverwrites(t, tid);
      ls := [Advance(tid, ANSWER)] + rest;
      assert ls[1..] == rest;
    }
  }

  lemma SaveOverwrites(s: State, tid: nat)
    requires tid in s.threads && s.threads[tid].Cred? && s.threads[tid].c.SaveTokens?
    ensures Run(s, [Advance(tid, ANSWER)]).row == Some(s.threads[tid].c.snapshot)
  {
    assert CanAdvance(s, tid);
    assert Run(s, [Advance(tid, ANSWER)]) == Run(Step(s, Advance(tid, ANSWER)), []);
  }

  /**
   When a token set by hand stays: in the cache exactly when no refresh round trip was out or just back, and in the
   row exactly when, besides, nobody was still saving a refreshed token.
   */
  lemma ManualTokenKeptIff(s: State, c: Credentials)
    requires Inv(s) && HoldsManual(s, c)
    ensures CacheKept(s) <==> Nobody(s, Overwrites)
    ensures s.row == Some(c) ==> (RowKept(s) <==> Nobody(s, OverwritesRow))
  {
    if Nobody(s, Overwrites) {
      forall ls | Undisturbed(ls) ensures Run(s, ls).creds == s.creds {
        ManualRunKeeps(s, c, ls);
      }
    } else {
      var tid :| tid in s.threads && Overwrites(s.threads[tid]);
      var ls := RoundTripOverwrites(s, tid);
      assert Run(s, ls).creds != s.creds;
    }
    if s.row == Some(c) {
      ManualRowKeptIff(s, c);
    }
  }

  lemma ManualRowKeptIff(s: State, c: Credentials)
    requires Inv(s) && HoldsManual(s, c) && s.row == Some(c)
    ensures RowKept(s) <==> Nobody(s, OverwritesRow)
  {
    if Nobody(s, OverwritesRow) {
      assert Nobody(s, Overwrites);
      forall ls | Undisturbed(ls) ensures Run(s, ls).row == s.row {
        ManualRunKeeps(s, c, ls);
      }
    } else {
      var tid :| tid in s.threads && OverwritesRow(s.threads[tid]);
      var ls: seq<Label> := [];
      if Overwrites(s.threads[tid]) {
        ls := RoundTripOverwrites(s, tid);
      }
      var t := Run(s, ls);
      RunInv(s, ls);
      assert PcOk(t, t.threads[tid]);
      SaveOverwrites(t, tid);
      RunJoins(s, ls, [Advance(tid, ANSWER)]);
      assert Undisturbed(ls + [Advance(tid, ANSWER)]) && Run(s, ls + [Advance(tid, ANSWER)]).row != s.row;
    }
  }

  // ------------------------------------------------------------ a manual token that is overwritten

  const OLD := Credentials("a", "r", Some(0))

  const MANUAL := Credentials("m", "", None)

  /** Caller 1 onboards; the token it gets is about to expire. */
  const ONBOARDING := [CallBootstrap(1), Advance(1, ANSWER), Advance(1, ANSWER), Advance(1, ANSWER),
                       Advance(1, ANSWER), Advance(1, ANSWER), Advance(1, ANSWER), Advance(1, ANSWER)]

  /** Caller 2 goes out to refresh it. */
  const REFRESHING := [CallCredentials(2), Advance(2, ANSWER), Advance(2, ANSWER), Advance(2, ANSWER)]

  /** Meanwhile caller 3 sets a token by hand. */
  const SETTING := [CallSetToken(3, "m"), Advance(3, ANSWER), Advance(3, ANSWER), Advance(3, ANSWER)]

  /** Caller 2 comes back. */
  const COMING_BACK := [Advance(2, ANSWER), Advance(2, ANSWER)]

  lemma RunFour(s: State, ls: seq<Label>)
    requires |ls| == 4
    ensures Run(s, ls) == Step(Step(Step(Step(s, ls[0]), ls[1]), ls[2]), ls[3])
  {
    var a := Step(s, ls[0]);
    var b := Step(a, ls[1]);
    var c := Step(b, ls[2]);
    var d := Step(c, ls[3]);
    assert ls[1..][1..] == ls[2..] && ls[2..][1..] == ls[3..] && ls[3..][1..] == [];
    assert Run(d, []) == d;
    assert Run(c, ls[3..]) == d;
    assert Run(b, ls[2..]) == Run(c, ls[3..]);
    assert Run(a, ls[1..]) == Run(b, ls[2..]);
  }

  lemma HalfOnboarded()
    ensures Run(INITIAL, ONBOARDING[..4])
         == INITIAL.(threads := map[1 := Boot(false, CreateOwner)], mu := Some(1))
  {
    var a := Step(INITIAL, CallBootstrap(1));
    assert a == INITIAL.(threads := map[1 := Boot(false, WantMu)]);
    var b := Step(a, Advance(1, ANSWER));
    assert b == INITIAL.(threads := map[1 := Boot(false, Load)], mu := Some(1));
    var c := Step(b, Advance(1, ANSWER));
    assert c == INITIAL.(threads := map[1 := Boot(false, Status)], mu := Some(1));
    RunFour(INITIAL, ONBOARDING[..4]);
  }

  lemma Onboarded(s: State)
    requires s == INITIAL.(threads := map[1 := Boot(false, CreateOwner)], mu := Some(1))
    ensures Run(s, ONBOARDING[4..])
         == INITIAL.(threads := map[1 := Done(Some(OLD))], creds := Some(OLD), row := Some(OLD), ownerDone := true,
                     ownersCreated := 1, saved := {"a"})
  {
    var base := s.(ownerDone := true, ownersCreated := 1);
    var a := Step(s, Advance(1, ANSWER));
    assert a == base.(threads := map[1 := Boot(false, Exchange)]);
    var b := Step(a, Advance(1, ANSWER));
    assert b == base.(threads := map[1 := Boot(false, Finish(ANSWER.tokens))]);
    var c := Step(b, Advance(1, ANSWER));
    assert c == base.(threads := map[1 := Boot(false, SaveFirst(ANSWER.tokens))]);
    RunFour(s, ONBOARDING[4..]);
  }

  lemma RefreshIsOut(s: State)
    requires s.now == 0 && s.creds == Some(OLD) && s.mu.None? && s.refreshMu.None?
    requires s.threads == map[1 := Done(Some(OLD))]
    ensures Run(s, REFRESHING)
         == s.(threads := s.threads[2 := Cred(Trip("r", 0))], refreshMu := Some(2))
  {
    var a := Step(s, CallCredentials(2));
    assert a == s.(threads := s.threads[2 := Cred(Enter)]);
    var b := Step(a, Advance(2, ANSWER));
    assert b == s.(threads := s.threads[2 := Cred(WantRefreshMu)]);
    var c := Step(b, Advance(2, ANSWER));
    assert c == s.(threads := s.threads[2 := Cred(Recheck)], refreshMu := Some(2));
    RunFour(s, REFRESHING);
  }

  lemma TokenIsSet(s: State)
    requires s.mu.None? && 3 !in s.threads
    ensures var t := Run(s, SETTING);
            && t.creds == Some(MANUAL) && t.row == Some(MANUAL) && t.mu.None?
            && t.threads == s.threads[3 := Done(Some(MANUAL))]
  {
    var a := Step(s, CallSetToken(3, "m"));
    assert a == s.(threads := s.threads[3 := Manual(Probe, "m")]);
    var b := Step(a, Advance(3, ANSWER));
    assert b == s.(threads := s.threads[3 := Manual(SaveManual, "m")]);
    var c := Step(b, Advance(3, ANSWER));
    assert c.threads == s.threads[3 := Manual(StoreManual, "m")] && c.row == Some(MANUAL);
    RunFour(s, SETTING);
  }

  /** SetToken has answered that the token is kept; then the refresh that was out puts the old kind back. */
  lemma ManualTokenIsOverwritten()
    ensures var s := Run(Run(Run(INITIAL, ONBOARDING), REFRESHING), SETTING);
            && 3 in s.threads && s.threads[3] == Done(Some(MANUAL)) && s.creds == Some(MANUAL)
            && Run(s, COMING_BACK).creds == Some(OLD)
  {
    HalfOnboarded();
    Onboarded(Run(INITIAL, ONBOARDING[..4]));
    RunJoins(INITIAL, ONBOARDING[..4], ONBOARDING[4..]);
    assert ONBOARDING == ONBOARDING[..4] + ONBOARDING[4..];
    var booted := Run(INITIAL, ONBOARDING);
    RefreshIsOut(booted);
    var out := Run(booted, REFRESHING);
    TokenIsSet(out);
    ComesBack(Run(out, SETTING));
  }

  lemma ComesBack(s: State)
    requires s.mu.None? && 2 in s.threads && s.threads[2] == Cred(Trip("r", 0))
    ensures Run(s, COMING_BACK).creds == Some(OLD)
  {
    var a := Step(s, Advance(2, ANSWER));
    assert a.threads == s.threads[2 := Cred(StoreTokens(ANSWER.tokens, 0))] && a.mu.None?;
    var b := Step(a, Advance(2, ANSWER));
    assert COMING_BACK[1..] == [Advance(2, ANSWER)] && [Advance(2, ANSWER)][1..] == [];
    assert Run(a, COMING_BACK[1..]) == Run(b, []);
  }
}
