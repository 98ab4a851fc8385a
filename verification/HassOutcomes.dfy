/** What single calls of the credentials service come to when they take their steps undisturbed. */
module HassOutcomes {
  import opened Wrappers
  import opened HassCredentials

  function Steps(s: State, tid: nat, input: Input, n: nat): State
    decreases n
  {
    if n == 0 then s else Steps(Step(s, Advance(tid, input)), tid, input, n - 1)
  }

  lemma {:induction false} StepsAreARun(s: State, tid: nat, input: Input, n: nat)
    ensures Run(s, seq(n, _ => Advance(tid, input))) == Steps(s, tid, input, n)
    decreases n
  {
    if n > 0 {
      assert seq(n, _ => Advance(tid, input))[1..] == seq(n - 1, _ => Advance(tid, input));
      StepsAreARun(Step(s, Advance(tid, input)), tid, input, n - 1);
    }
  }

  /** Good credentials, and a manual token whatever its age, are answered at once. */
  lemma GoodCredentialsAtOnce(s: State, tid: nat, input: Input)
    requires tid in s.threads && s.threads[tid] == Cred(Enter) && s.mu.None? && Usable(s.creds)
    requires var c := s.creds.value;
             c.expiresAt.None? || c.expiresAt.value - s.now >= 60_000 || c.refreshToken == ""
    ensures Step(s, Advance(tid, input)) == s.(threads := s.threads[tid := Done(s.creds)])
  {
  }

  /** A token Home Assistant refuses, or a Save that fails, leaves row and cache alone. */
  lemma RefusedTokenChangesNothing(s: State, tid: nat, token: string, m: ManualPc, input: Input)
    requires tid in s.threads && s.threads[tid] == Manual(m, token) && (m.Probe? || m.SaveManual?) && !input.ok
    ensures Step(s, Advance(tid, input)) == s.(threads := s.threads[tid := Done(None)])
  {
  }

  /** A refresh caches exactly what Home Assistant answered, with the old refresh token only if it sent none. */
  lemma RefreshStoresAnswer(s: State, tid: nat, input: Input)
    requires tid in s.threads && s.threads[tid].Cred? && s.threads[tid].c.Trip? && s.mu.None?
    requires input.ok && input.tokens.accessToken != ""
    ensures var t := Steps(s, tid, input, 2);
            && t.creds.Some? && t.row == s.row
            && t.creds.value.token == input.tokens.accessToken
            && t.creds.value.expiresAt == Some(input.tokens.expiresAt)
            && t.creds.value.refreshToken == (if input.tokens.refreshToken != "" then input.tokens.refreshToken
                                              else s.threads[tid].c.refresh)
            && tid in t.threads && t.threads[tid] == Cred(SaveTokens(t.creds.value, 1))
  {
    var a := Step(s, Advance(tid, input));
    assert a.threads[tid].c.StoreTokens? && a.mu.None?;
    assert Steps(s, tid, input, 2) == Steps(Step(a, Advance(tid, input)), tid, input, 0);
  }

  /** The Save is tried four times; the caller gets the token all the same, and the row stays as it was. */
  lemma FailedSavesKeepToken(s: State, tid: nat, input: Input, c: Credentials)
    requires tid in s.threads && s.threads[tid] == Cred(SaveTokens(c, 1)) && s.mu.None?
    requires !input.ok && !input.cancelled
    ensures var before, t := Steps(s, tid, input, 4), Steps(s, tid, input, 5);
            && before.threads[tid] == Cred(NoteSaveError(c))
            && t.threads[tid] == Done(Some(c)) && t.row == s.row && t.creds == s.creds
  {
    var a := Step(s, Advance(tid, input));
    assert a.threads[tid] == Cred(SaveTokens(c, 2)) && a.mu.None?;
    var b := Step(a, Advance(tid, input));
    assert b.threads[tid] == Cred(SaveTokens(c, 3)) && b.mu.None?;
    var d := Step(b, Advance(tid, input));
    assert d.threads[tid] == Cred(SaveTokens(c, 4)) && d.mu.None?;
    var e := Step(d, Advance(tid, input));
    assert e.threads[tid] == Cred(NoteSaveError(c)) && e.mu.None?;
    var f := Step(e, Advance(tid, input));
    assert Steps(e, tid, input, 0) == e && Steps(f, tid, input, 0) == f;
    assert Steps(d, tid, input, 1) == e && Steps(e, tid, input, 1) == f;
    assert Steps(b, tid, input, 2) == e && Steps(d, tid, input, 2) == f;
    assert Steps(a, tid, input, 3) == e && Steps(b, tid, input, 3) == f;
    assert Steps(a, tid, input, 4) == f;
  }

  /** After a restart nothing is cached; the stored row is what the next Bootstrap caches and answers. */
  lemma RestartReloadsRow(s: State, tid: nat, input: Input)
    requires s.row.Some? && s.row.value.token != "" && input.ok
    ensures var started := Step(s, Restart);
            && started.creds == None && started.row == s.row && started.threads == map[] && started.ownerDone == s.ownerDone
            && var t := Steps(Step(started, CallBootstrap(tid)), tid, input, 3);
               tid in t.threads && t.threads[tid] == Done(s.row) && t.creds == s.row && t.row == s.row && t.mu.None?
  {
    var a := Step(Step(s, Restart), CallBootstrap(tid));
    assert a.threads == map[tid := Boot(false, WantMu)] && a.mu.None? && a.refreshMu.None?;
    var b := Step(a, Advance(tid, input));
    assert b.threads[tid] == Boot(false, Load) && b.mu == Some(tid);
    var c := Step(b, Advance(tid, input));
    assert c.threads[tid] == Boot(false, Resume(s.row.value)) && c.creds == s.row;
    var d := Step(c, Advance(tid, input));
    assert Steps(d, tid, input, 0) == d;
    assert Steps(c, tid, input, 1) == d;
    assert Steps(b, tid, input, 2) == d;
  }

  /** An owner that is there already is logged in as, not created again; its tokens are stored, then cached. */
  lemma LoginRecovers(s: State, tid: nat, input: Input)
    requires tid in s.threads && s.threads[tid] == Boot(false, Status) && s.mu == Some(tid)
    requires s.ownerDone && input.ok && input.tokens.accessToken != ""
    ensures var t := Steps(s, tid, input, 4);
            var c := HassCredentials.Credentials(input.tokens.accessToken, input.tokens.refreshToken,
                                                 Some(input.tokens.expiresAt));
            && tid in t.threads && t.threads[tid] == Done(Some(c))
            && t.creds == Some(c) && t.row == Some(c) && t.ownersCreated == s.ownersCreated
  {
    var a := Step(s, Advance(tid, input));
    assert a.threads[tid] == Boot(false, Login);
    var b := Step(a, Advance(tid, input));
    assert b.threads[tid] == Boot(false, Finish(input.tokens));
    var c := Step(b, Advance(tid, input));
    assert c.threads[tid] == Boot(false, SaveFirst(input.tokens));
    var d := Step(c, Advance(tid, input));
    assert Steps(d, tid, input, 0) == d;
    assert Steps(c, tid, input, 1) == d;
    assert Steps(b, tid, input, 2) == d;
    assert Steps(a, tid, input, 3) == d;
  }
}
