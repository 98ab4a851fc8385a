/**
 The Home Assistant credentials service: Bootstrap, Credentials and SetToken of any number of
 callers, two mutexes, a refresh round trip outside the inner one, Saves that fail, restarts.
 A section under `mu` that makes no call is one atomic step; Bootstrap keeps `mu` across its
 calls, each of which is a step. Instants are milliseconds.
 */
module HassCredentials {
  import opened Wrappers

  type Instant = int

  const REFRESH_MARGIN: Instant := 60_000

  /** Saves of a refreshed token: the first attempt and one after each backoff. */
  const SAVE_ATTEMPTS: nat := 4

  /** No expiry means a manually set long-lived token. */
  datatype Credentials = Credentials(token: string, refreshToken: string, expiresAt: Option<Instant>) {
    predicate NeedsRefresh(now: Instant) {
      expiresAt.Some? && expiresAt.value - now < REFRESH_MARGIN
    }
  }

  /** An answer of /auth/token; the client refuses an empty access token. */
  datatype TokenSet = TokenSet(accessToken: string, refreshToken: string, expiresAt: Instant)

  /** RefreshAccessToken keeps the old refresh token when the answer carries none. */
  function CarriedOver(answer: TokenSet, refresh: string): TokenSet {
    if answer.refreshToken == "" then answer.(refreshToken := refresh) else answer
  }

  function ToCredentials(t: TokenSet): Credentials {
    Credentials(t.accessToken, t.refreshToken, Some(t.expiresAt))
  }

  /** Where a Credentials call stands; from Recheck on it holds refreshMu. */
  datatype CredPc =
    | Enter
    | WantRefreshMu
    | Recheck
    | Trip(refresh: string, checkedAt: Instant)          // the refresh round trip
    | StoreTokens(tokens: TokenSet, checkedAt: Instant)
    | SaveTokens(snapshot: Credentials, attempt: nat)
    | NoteSaveError(snapshot: Credentials)

  /** Where a Bootstrap stands; after WantMu it holds mu. */
  datatype BootPc =
    | WantMu
    | Load
    | Resume(stored: Credentials)
    | Status
    | Login
    | CreateOwner
    | Exchange
    | Finish(tokens: TokenSet)
    | SaveFirst(tokens: TokenSet)

  /** Where a SetToken stands. */
  datatype ManualPc = Probe | SaveManual | StoreManual

  datatype Pc =
    | Cred(c: CredPc)
    | Boot(nested: bool, b: BootPc)                      // nested: called under refreshMu
    | Manual(m: ManualPc, token: string)
    | Done(result: Option<Credentials>)

  predicate HoldsMu(pc: Pc) {
    pc.Boot? && !pc.b.WantMu?
  }

  predicate HoldsRefreshMu(pc: Pc) {
    if pc.Cred? then !pc.c.Enter? && !pc.c.WantRefreshMu? else pc.Boot? && pc.nested
  }

  /** The next step needs `mu`. */
  predicate NeedsMu(pc: Pc) {
    match pc
    case Cred(c) => c.Enter? || c.Recheck? || c.StoreTokens? || c.NoteSaveError?
    case Boot(_, b) => b.WantMu?
    case Manual(m, _) => m.StoreManual?
    case Done(_) => false
  }

  /** A completed refresh: when NeedsRefresh was found true and how long the new token lives. */
  datatype Refresh = Refresh(checkedAt: Instant, until: Instant)

  datatype State = State(
    now: Instant,
    creds: Option<Credentials>,
    row: Option<Credentials>,
    mu: Option<nat>,
    refreshMu: Option<nat>,
    threads: map<nat, Pc>,
    ownerDone: bool,               // at Home Assistant
    ownersCreated: nat,            // by this backend, over all its lives
    saved: set<string>,            // tokens a Save put in the row
    refreshed: set<string>,        // tokens a round trip returned
    refreshes: seq<Refresh>)       // completed since the process started

  /** What the database and Home Assistant answer to a step's call. */
  datatype Input = Input(ok: bool, lost: bool, cancelled: bool, tokens: TokenSet)

  datatype Label =
    | Tick(elapsed: nat)
    | CallCredentials(tid: nat)
    | CallBootstrap(tid: nat)
    | CallSetToken(tid: nat, token: string)
    | Advance(tid: nat, input: Input)
    | OwnerMadeElsewhere
    | Restart

  const INITIAL := State(0, None, None, None, None, map[], false, 0, {}, {}, [])

  function Step(s: State, l: Label): State {
    match l
    case Tick(elapsed) => s.(now := s.now + elapsed)
    case CallCredentials(tid) => if tid in s.threads then s else SetPc(s, tid, Cred(Enter))
    case CallBootstrap(tid) => if tid in s.threads then s else SetPc(s, tid, Boot(false, WantMu))
    case CallSetToken(tid, token) =>
      if tid in s.threads then s
      else SetPc(s, tid, if token == "" then Done(None) else Manual(Probe, token))
    case Advance(tid, input) => if CanAdvance(s, tid) then AdvanceStep(s, tid, input) else s
    case OwnerMadeElsewhere => s.(ownerDone := true)
    case Restart =>
      s.(creds := None, mu := None, refreshMu := None, threads := map[], refreshes := [])
  }

  function SetPc(s: State, tid: nat, pc: Pc): State {
    s.(threads := s.threads[tid := pc])
  }

  predicate CanAdvance(s: State, tid: nat) {
    && tid in s.threads && !s.threads[tid].Done?
    && (NeedsMu(s.threads[tid]) ==> s.mu.None?)
    && (s.threads[tid] == Cred(WantRefreshMu) ==> s.refreshMu.None?)
  }

  predicate Usable(c: Option<Credentials>) {
    c.Some? && c.value.token != ""
  }

  function AdvanceStep(s: State, tid: nat, input: Input): State
    requires CanAdvance(s, tid)
  {
    match s.threads[tid]
    case Cred(c) => CredStep(s, tid, c, input)
    case Boot(nested, b) => BootStep(s, tid, nested, b, input)
    case Manual(m, token) => ManualStep(s, tid, m, token, input)
  }

  function CredStep(s: State, tid: nat, c: CredPc, input: Input): State {
    match c
    case Enter => SetPc(s, tid, AfterEnter(s))
    case WantRefreshMu => SetPc(s, tid, Cred(Recheck)).(refreshMu := Some(tid))
    case Recheck => RecheckStep(s, tid)
    case Trip(refresh, checkedAt) => TripStep(s, tid, refresh, checkedAt, input)
    case StoreTokens(tokens, checkedAt) =>
      SetPc(s, tid, Cred(SaveTokens(ToCredentials(tokens), 1))).(
        creds := Some(ToCredentials(tokens)),
        refreshes := s.refreshes + [Refresh(checkedAt, tokens.expiresAt)])
    case SaveTokens(snapshot, attempt) =>
      if input.ok then Return(Saved(s, snapshot), tid, Some(snapshot))
      else if attempt >= SAVE_ATTEMPTS then SetPc(s, tid, Cred(NoteSaveError(snapshot)))
      else if input.cancelled then Return(s, tid, Some(snapshot))
      else SetPc(s, tid, Cred(SaveTokens(snapshot, attempt + 1)))
    case NoteSaveError(snapshot) => Return(s, tid, Some(snapshot))
  }

  /** The first section of Credentials. */
  function AfterEnter(s: State): Pc {
    if !Usable(s.creds) then Boot(false, WantMu)
    else if !s.creds.value.NeedsRefresh(s.now) || s.creds.value.refreshToken == "" then Done(s.creds)
    else Cred(WantRefreshMu)
  }

  /** The second look, under both mutexes. */
  function RecheckStep(s: State, tid: nat): State {
    if !Usable(s.creds) then SetPc(s, tid, Boot(true, WantMu))
    else if !s.creds.value.NeedsRefresh(s.now) then Return(s, tid, s.creds)
    else SetPc(s, tid, Cred(Trip(s.creds.value.refreshToken, s.now)))
  }

  function TripStep(s: State, tid: nat, refresh: string, checkedAt: Instant, input: Input): State {
    if !input.ok || input.tokens.accessToken == "" then Return(s, tid, None)
    else
      var tokens := CarriedOver(input.tokens, refresh);
      SetPc(s, tid, Cred(StoreTokens(tokens, checkedAt))).(refreshed := s.refreshed + {tokens.accessToken})
  }

  function BootStep(s: State, tid: nat, nested: bool, b: BootPc, input: Input): State {
    match b
    case WantMu =>
      if Usable(s.creds) then Return(s, tid, s.creds) else SetPc(s, tid, Boot(nested, Load)).(mu := Some(tid))
    case Load =>
      if !input.ok then Return(s, tid, None)
      else if s.row.None? then SetPc(s, tid, Boot(nested, Status))
      else SetPc(s, tid, Boot(nested, Resume(s.row.value))).(creds := s.row)
    case Resume(stored) => Return(s, tid, Some(stored))
    case Status =>
      if !input.ok then Return(s, tid, None)
      else SetPc(s, tid, Boot(nested, if s.ownerDone then Login else CreateOwner))
    case Login => AfterTokens(s, tid, nested, input)
    case CreateOwner => CreateOwnerStep(s, tid, nested, input)
    case Exchange => AfterTokens(s, tid, nested, input)
    case Finish(tokens) => SetPc(s, tid, Boot(nested, SaveFirst(tokens)))
    case SaveFirst(tokens) =>
      if !input.ok then Return(s, tid, None)
      else Return(Saved(s, ToCredentials(tokens)).(creds := Some(ToCredentials(tokens))), tid,
                  Some(ToCredentials(tokens)))
  }

  /** /auth/token answered, or did not. */
  function AfterTokens(s: State, tid: nat, nested: bool, input: Input): State {
    if !input.ok || input.tokens.accessToken == "" then Return(s, tid, None)
    else SetPc(s, tid, Boot(nested, Finish(input.tokens)))
  }

  /** Home Assistant may create the owner and the answer still get lost. */
  function CreateOwnerStep(s: State, tid: nat, nested: bool, input: Input): State {
    if !input.ok then Return(s, tid, None)
    else
      var t := s.(ownerDone := true, ownersCreated := s.ownersCreated + 1);
      if input.lost then Return(t, tid, None) else SetPc(t, tid, Boot(nested, Exchange))
  }

  function ManualStep(s: State, tid: nat, m: ManualPc, token: string, input: Input): State {
    var c := Credentials(token, "", None);
    match m
    case Probe => SetPc(s, tid, if input.ok then Manual(SaveManual, token) else Done(None))
    case SaveManual =>
      if input.ok then SetPc(Saved(s, c), tid, Manual(StoreManual, token)) else SetPc(s, tid, Done(None))
    case StoreManual => SetPc(s, tid, Done(Some(c))).(creds := Some(c))
  }

  function Saved(s: State, c: Credentials): State {
    s.(row := Some(c), saved := s.saved + {c.token})
  }

  /** The call returns and its deferred unlocks run. */
  function Return(s: State, tid: nat, result: Option<Credentials>): State {
    SetPc(s, tid, Done(result)).(
      mu := Released(s.mu, tid),
      refreshMu := Released(s.refreshMu, tid))
  }

  function Released(mutex: Option<nat>, tid: nat): Option<nat> {
    if mutex == Some(tid) then None else mutex
  }

  function Run(s: State, ls: seq<Label>): State
    decreases |ls|
  {
    if ls == [] then s else Run(Step(s, ls[0]), ls[1..])
  }

  // ------------------------------------------------------------ invariants

  /** Each mutex is held by the one thread whose place says so. */
  ghost predicate LocksOk(threads: map<nat, Pc>, mu: Option<nat>, refreshMu: Option<nat>) {
    && (forall t :: t in threads && HoldsMu(threads[t]) ==> mu == Some(t))
    && (forall t :: t in threads && HoldsRefreshMu(threads[t]) ==> refreshMu == Some(t))
    && (mu.Some? ==> mu.value in threads && HoldsMu(threads[mu.value]))
    && (refreshMu.Some? ==> refreshMu.value in threads && HoldsRefreshMu(threads[refreshMu.value]))
  }

  /** Usable credentials stay usable, and those that expire can be refreshed once anyone wants to. */
  ghost predicate CredsOk(s: State) {
    && (s.creds.Some? ==> s.creds.value.token != "")
    && (s.row.Some? ==> s.row.value.token != "")
    && (forall t {:trigger s.threads[t]} :: t in s.threads ==> PcOk(s, s.threads[t]))
  }

  ghost predicate Refreshable(s: State) {
    s.creds.Some? && (s.creds.value.expiresAt.Some? ==> s.creds.value.refreshToken != "")
  }

  ghost predicate PcOk(s: State, pc: Pc) {
    match pc
    case Cred(c) => c.Enter? || (Refreshable(s) && CredOk(s, c))
    case Boot(_, b) => BootOk(s, b)
    case Manual(m, token) => token != "" && (m.StoreManual? ==> token in s.saved)
    case Done(_) => true
  }

  ghost predicate CredOk(s: State, c: CredPc) {
    match c
    case Trip(refresh, at) => refresh != "" && Due(s.refreshes, at)
    case StoreTokens(tokens, at) =>
      && tokens.accessToken != "" && tokens.refreshToken != "" && tokens.accessToken in s.refreshed
      && Due(s.refreshes, at)
    case SaveTokens(snapshot, attempt) =>
      snapshot.token != "" && snapshot.expiresAt.Some? && 1 <= attempt <= SAVE_ATTEMPTS
    case _ => true
  }

  ghost predicate BootOk(s: State, b: BootPc) {
    match b
    case WantMu => true
    case Resume(stored) => true
    case CreateOwner => s.creds.None? && s.ownersCreated == 0
    case Finish(tokens) => s.creds.None? && tokens.accessToken != ""
    case SaveFirst(tokens) => s.creds.None? && tokens.accessToken != ""
    case _ => s.creds.None?
  }

  /** The latest refresh's token was within the margin of its end at that time. */
  predicate Due(refreshes: seq<Refresh>, at: Instant) {
    refreshes != [] ==> refreshes[|refreshes| - 1].until - at < REFRESH_MARGIN
  }

  ghost predicate HistoryOk(s: State) {
    && (s.ownersCreated > 0 ==> s.ownerDone)
    && s.ownersCreated <= 1
    && (s.row.Some? ==> s.row.value.token in s.saved)
    && (s.creds.Some? ==> s.creds.value.token in s.saved || s.creds.value.token in s.refreshed)
    && (s.creds.None? ==> s.refreshes == [])
    && (s.refreshes != [] && s.creds.Some? && s.creds.value.expiresAt.Some? ==>
          s.creds.value.expiresAt.value == s.refreshes[|s.refreshes| - 1].until)
    && (forall i :: 0 <= i < |s.refreshes| - 1 ==>
          s.refreshes[i].until - s.refreshes[i + 1].checkedAt < REFRESH_MARGIN)
  }

  ghost predicate Inv(s: State) {
    LocksOk(s.threads, s.mu, s.refreshMu) && CredsOk(s) && HistoryOk(s)
  }

  lemma InitialInv()
    ensures Inv(INITIAL)
  {
  }

  lemma StepInv(s: State, l: Label)
    requires Inv(s)
    ensures Inv(Step(s, l))
  {
    match l
    case Advance(tid, input) =>
      if CanAdvance(s, tid) {
        AdvanceLocks(s, tid, input);
        AdvanceCreds(s, tid, input);
      }
    case Restart =>
    case _ => CallInv(s, l);
  }

  lemma CallInv(s: State, l: Label)
    requires Inv(s) && !l.Advance? && !l.Restart?
    ensures Inv(Step(s, l))
  {
    forall t | t in s.threads ensures PcOk(Step(s, l), s.threads[t]) {
      PcOkFrame(s, Step(s, l), s.threads[t]);
    }
  }

  // locks

  lemma MoveLocks(threads: map<nat, Pc>, mu: Option<nat>, refreshMu: Option<nat>, tid: nat, pc: Pc)
    requires LocksOk(threads, mu, refreshMu) && tid in threads
    requires HoldsMu(pc) == HoldsMu(threads[tid]) && HoldsRefreshMu(pc) == HoldsRefreshMu(threads[tid])
    ensures LocksOk(threads[tid := pc], mu, refreshMu)
  {
  }

  lemma TakeMu(threads: map<nat, Pc>, refreshMu: Option<nat>, tid: nat, pc: Pc)
    requires LocksOk(threads, None, refreshMu) && tid in threads
    requires HoldsMu(pc) && HoldsRefreshMu(pc) == HoldsRefreshMu(threads[tid])
    ensures LocksOk(threads[tid := pc], Some(tid), refreshMu)
  {
  }

  lemma TakeRefreshMu(threads: map<nat, Pc>, mu: Option<nat>, tid: nat, pc: Pc)
    requires LocksOk(threads, mu, None) && tid in threads
    requires HoldsRefreshMu(pc) && HoldsMu(pc) == HoldsMu(threads[tid])
    ensures LocksOk(threads[tid := pc], mu, Some(tid))
  {
  }

  lemma ReturnLocks(s: State, tid: nat, result: Option<Credentials>)
    requires LocksOk(s.threads, s.mu, s.refreshMu) && tid in s.threads
    ensures var t := Return(s, tid, result); LocksOk(t.threads, t.mu, t.refreshMu)
  {
  }

  /** What a step does to the mutexes: it lets go of what it holds and ends, takes one that is free, or neither. */
  ghost predicate LockMove(s: State, t: State, tid: nat) {
    && tid in s.threads && tid in t.threads && t.threads == s.threads[tid := t.threads[tid]]
    && var pc, pc' := s.threads[tid], t.threads[tid];
       || (pc'.Done? && t.mu == Released(s.mu, tid) && t.refreshMu == Released(s.refreshMu, tid))
       || (s.mu.None? && t.mu == Some(tid) && t.refreshMu == s.refreshMu
           && HoldsMu(pc') && HoldsRefreshMu(pc') == HoldsRefreshMu(pc))
       || (s.refreshMu.None? && t.refreshMu == Some(tid) && t.mu == s.mu
           && HoldsRefreshMu(pc') && HoldsMu(pc') == HoldsMu(pc))
       || (t.mu == s.mu && t.refreshMu == s.refreshMu
           && HoldsMu(pc') == HoldsMu(pc) && HoldsRefreshMu(pc') == HoldsRefreshMu(pc))
  }

  lemma LockMoveKeeps(s: State, t: State, tid: nat)
    requires LocksOk(s.threads, s.mu, s.refreshMu) && LockMove(s, t, tid)
    ensures LocksOk(t.threads, t.mu, t.refreshMu)
  {
    var pc, pc' := s.threads[tid], t.threads[tid];
    if t.mu == s.mu && t.refreshMu == s.refreshMu && HoldsMu(pc') == HoldsMu(pc) && HoldsRefreshMu(pc') == HoldsRefreshMu(pc) {
      MoveLocks(s.threads, s.mu, s.refreshMu, tid, pc');
    } else if pc'.Done? && t.mu == Released(s.mu, tid) && t.refreshMu == Released(s.refreshMu, tid) {
      ReturnLocks(s, tid, pc'.result);
    } else if t.mu == Some(tid) && s.mu.None? && t.refreshMu == s.refreshMu {
      TakeMu(s.threads, s.refreshMu, tid, pc');
    } else {
      TakeRefreshMu(s.threads, s.mu, tid, pc');
    }
  }

  lemma AdvanceLocks(s: State, tid: nat, input: Input)
    requires LocksOk(s.threads, s.mu, s.refreshMu) && CanAdvance(s, tid)
    ensures var t := AdvanceStep(s, tid, input); LocksOk(t.threads, t.mu, t.refreshMu)
  {
    match s.threads[tid] {
      case Cred(c) => CredLocks(s, tid, c, input);
      case Boot(nested, b) => BootLocks(s, tid, nested, b, input);
      case Manual(m, token) => ManualLocks(s, tid, m, token, input);
    }
    LockMoveKeeps(s, AdvanceStep(s, tid, input), tid);
  }

  lemma CredLocks(s: State, tid: nat, c: CredPc, input: Input)
    requires CanAdvance(s, tid) && s.threads[tid] == Cred(c)
    ensures LockMove(s, CredStep(s, tid, c, input), tid)
  {
  }

  lemma BootLocks(s: State, tid: nat, nested: bool, b: BootPc, input: Input)
    requires CanAdvance(s, tid) && s.threads[tid] == Boot(nested, b)
    ensures LockMove(s, BootStep(s, tid, nested, b, input), tid)
  {
    if b.WantMu? || b.Load? || b.Resume? || b.Status? {
      BootStartLocks(s, tid, nested, b, input);
    } else {
      BootRestLocks(s, tid, nested, b, input);
    }
  }

  lemma BootStartLocks(s: State, tid: nat, nested: bool, b: BootPc, input: Input)
    requires CanAdvance(s, tid) && s.threads[tid] == Boot(nested, b)
    requires b.WantMu? || b.Load? || b.Resume? || b.Status?
    ensures LockMove(s, BootStep(s, tid, nested, b, input), tid)
  {
  }

  lemma BootRestLocks(s: State, tid: nat, nested: bool, b: BootPc, input: Input)
    requires CanAdvance(s, tid) && s.threads[tid] == Boot(nested, b)
    requires !b.WantMu? && !b.Load? && !b.Resume? && !b.Status?
    ensures LockMove(s, BootStep(s, tid, nested, b, input), tid)
  {
  }

  lemma ManualLocks(s: State, tid: nat, m: ManualPc, token: string, input: Input)
    requires LocksOk(s.threads, s.mu, s.refreshMu) && CanAdvance(s, tid) && s.threads[tid] == Manual(m, token)
    ensures LockMove(s, ManualStep(s, tid, m, token, input), tid)
  {
  }

  // credentials and history

  /** A step that leaves the credentials and the refreshes alone leaves other callers alone. */
  lemma PcOkFrame(s: State, t: State, pc: Pc)
    requires PcOk(s, pc) && t.creds == s.creds && t.refreshes == s.refreshes
    requires t.ownersCreated == s.ownersCreated || !HoldsMu(pc)
    requires forall x :: x in s.saved ==> x in t.saved
    requires forall x :: x in s.refreshed ==> x in t.refreshed
    ensures PcOk(t, pc)
  {
  }

  /** One caller moved, nobody's view changed. */
  ghost predicate Quiet(s: State, t: State, tid: nat) {
    && tid in t.threads && PcOk(t, t.threads[tid])
    && t.threads == s.threads[tid := t.threads[tid]]
    && t.creds == s.creds && t.refreshes == s.refreshes
    && t.ownersCreated == s.ownersCreated && t.ownerDone == s.ownerDone
    && (t.row == s.row || (t.row.Some? && t.row.value.token != "" && t.row.value.token in t.saved))
    && (forall x :: x in s.saved ==> x in t.saved)
    && (forall x :: x in s.refreshed ==> x in t.refreshed)
  }

  lemma QuietInv(s: State, t: State, tid: nat)
    requires CredsOk(s) && HistoryOk(s) && Quiet(s, t, tid)
    ensures CredsOk(t) && HistoryOk(t)
  {
    forall r | r in s.threads && r != tid ensures PcOk(t, s.threads[r]) {
      PcOkFrame(s, t, s.threads[r]);
    }
  }

  lemma AdvanceCreds(s: State, tid: nat, input: Input)
    requires Inv(s) && CanAdvance(s, tid)
    ensures CredsOk(AdvanceStep(s, tid, input)) && HistoryOk(AdvanceStep(s, tid, input))
  {
    match s.threads[tid]
    case Cred(c) => CredInv(s, tid, c, input);
    case Boot(nested, b) => BootInv(s, tid, nested, b, input);
    case Manual(m, token) => ManualInv(s, tid, m, token, input);
  }

  lemma CredInv(s: State, tid: nat, c: CredPc, input: Input)
    requires Inv(s) && CanAdvance(s, tid) && s.threads[tid] == Cred(c)
    ensures CredsOk(AdvanceStep(s, tid, input)) && HistoryOk(AdvanceStep(s, tid, input))
  {
    hide CredStep;
    assert PcOk(s, s.threads[tid]);
    if c.StoreTokens? {
      StoreTokensInv(s, tid, c.tokens, c.checkedAt, input);
    } else {
      CredQuiet(s, tid, c, input);
      QuietInv(s, CredStep(s, tid, c, input), tid);
    }
  }

  lemma BootInv(s: State, tid: nat, nested: bool, b: BootPc, input: Input)
    requires Inv(s) && CanAdvance(s, tid) && s.threads[tid] == Boot(nested, b)
    ensures CredsOk(AdvanceStep(s, tid, input)) && HistoryOk(AdvanceStep(s, tid, input))
  {
    hide BootStep;
    assert PcOk(s, s.threads[tid]);
    if b.Load? {
      LoadInv(s, tid, nested, input);
    } else if b.SaveFirst? {
      SaveFirstInv(s, tid, nested, b.tokens, input);
    } else if b.CreateOwner? {
      CreateOwnerInv(s, tid, nested, input);
    } else {
      BootQuiet(s, tid, nested, b, input);
      QuietInv(s, BootStep(s, tid, nested, b, input), tid);
    }
  }

  lemma ManualInv(s: State, tid: nat, m: ManualPc, token: string, input: Input)
    requires Inv(s) && CanAdvance(s, tid) && s.threads[tid] == Manual(m, token)
    ensures CredsOk(AdvanceStep(s, tid, input)) && HistoryOk(AdvanceStep(s, tid, input))
  {
    assert PcOk(s, s.threads[tid]);
    if m.StoreManual? {
      StoreManualInv(s, tid, token, input);
    } else {
      QuietInv(s, ManualStep(s, tid, m, token, input), tid);
    }
  }

  lemma CredQuiet(s: State, tid: nat, c: CredPc, input: Input)
    requires CredsOk(s) && HistoryOk(s) && tid in s.threads && s.threads[tid] == Cred(c) && PcOk(s, Cred(c))
    requires !c.StoreTokens?
    ensures Quiet(s, CredStep(s, tid, c, input), tid)
  {
  }

  lemma BootQuiet(s: State, tid: nat, nested: bool, b: BootPc, input: Input)
    requires CredsOk(s) && HistoryOk(s) && tid in s.threads && s.threads[tid] == Boot(nested, b) && BootOk(s, b)
    requires !b.Load? && !b.SaveFirst? && !b.CreateOwner?
    ensures Quiet(s, BootStep(s, tid, nested, b, input), tid)
  {
  }

  /** While a thread holds mu no other thread is past taking it. */
  lemma StoreTokensInv(s: State, tid: nat, tokens: TokenSet, checkedAt: Instant, input: Input)
    requires Inv(s) && CanAdvance(s, tid) && s.threads[tid] == Cred(StoreTokens(tokens, checkedAt))
    ensures var t := AdvanceStep(s, tid, input); CredsOk(t) && HistoryOk(t)
  {
    var t := AdvanceStep(s, tid, input);
    assert PcOk(s, s.threads[tid]);
    forall r | r in s.threads && r != tid ensures PcOk(t, s.threads[r]) {
      assert PcOk(s, s.threads[r]) && !HoldsMu(s.threads[r]) && !HoldsRefreshMu(s.threads[r]);
    }
  }

  lemma LoadInv(s: State, tid: nat, nested: bool, input: Input)
    requires Inv(s) && CanAdvance(s, tid) && s.threads[tid] == Boot(nested, Load)
    ensures var t := AdvanceStep(s, tid, input); CredsOk(t) && HistoryOk(t)
  {
    var t := AdvanceStep(s, tid, input);
    assert PcOk(s, s.threads[tid]);
    forall r | r in s.threads && r != tid ensures PcOk(t, s.threads[r]) {
      assert PcOk(s, s.threads[r]) && !HoldsMu(s.threads[r]);
    }
  }

  lemma SaveFirstInv(s: State, tid: nat, nested: bool, tokens: TokenSet, input: Input)
    requires Inv(s) && CanAdvance(s, tid) && s.threads[tid] == Boot(nested, SaveFirst(tokens))
    ensures var t := AdvanceStep(s, tid, input); CredsOk(t) && HistoryOk(t)
  {
    var t := AdvanceStep(s, tid, input);
    assert PcOk(s, s.threads[tid]);
    forall r | r in s.threads && r != tid ensures PcOk(t, s.threads[r]) {
      assert PcOk(s, s.threads[r]) && !HoldsMu(s.threads[r]);
    }
  }

  lemma CreateOwnerInv(s: State, tid: nat, nested: bool, input: Input)
    requires Inv(s) && CanAdvance(s, tid) && s.threads[tid] == Boot(nested, CreateOwner)
    ensures var t := AdvanceStep(s, tid, input); CredsOk(t) && HistoryOk(t)
  {
    var t := AdvanceStep(s, tid, input);
    assert PcOk(s, s.threads[tid]);
    forall r | r in s.threads && r != tid ensures PcOk(t, s.threads[r]) {
      assert PcOk(s, s.threads[r]) && !HoldsMu(s.threads[r]);
    }
  }

  lemma StoreManualInv(s: State, tid: nat, token: string, input: Input)
    requires Inv(s) && CanAdvance(s, tid) && s.threads[tid] == Manual(StoreManual, token)
    ensures var t := AdvanceStep(s, tid, input); CredsOk(t) && HistoryOk(t)
  {
    var t := AdvanceStep(s, tid, input);
    assert PcOk(s, s.threads[tid]);
    forall r | r in s.threads && r != tid ensures PcOk(t, s.threads[r]) {
      assert PcOk(s, s.threads[r]) && !HoldsMu(s.threads[r]);
    }
  }

  lemma {:induction false} RunInv(s: State, ls: seq<Label>)
    requires Inv(s)
    ensures Inv(Run(s, ls))
    decreases |ls|
  {
    if ls != [] {
      StepInv(s, ls[0]);
      RunInv(Step(s, ls[0]), ls[1..]);
    }
  }

  // ------------------------------------------------------------ theorems over every run

  /** However many callers: at most one refresh round trip is in flight. */
  lemma RoundTripsNeverOverlap(ls: seq<Label>, a: nat, b: nat)
    requires var s := Run(INITIAL, ls);
             && a in s.threads && s.threads[a].Cred? && s.threads[a].c.Trip?
             && b in s.threads && s.threads[b].Cred? && s.threads[b].c.Trip?
    ensures a == b && Run(INITIAL, ls).refreshMu == Some(a)
  {
    InitialInv();
    RunInv(INITIAL, ls);
  }

  /** A refresh after another happens only once the first one's token was within 60 s of its end. */
  lemma RefreshesAreDue(ls: seq<Label>, i: nat)
    requires i + 1 < |Run(INITIAL, ls).refreshes|
    ensures var r := Run(INITIAL, ls).refreshes; r[i].until - r[i + 1].checkedAt < 60_000
  {
    InitialInv();
    RunInv(INITIAL, ls);
  }

  /** Home Assistant's owner is created at most once, across lost answers, failed Saves and restarts. */
  lemma OwnerCreatedOnce(ls: seq<Label>)
    ensures Run(INITIAL, ls).ownersCreated <= 1
  {
    InitialInv();
    RunInv(INITIAL, ls);
  }

  /** Cached credentials were stored by a successful Save or returned by a refresh; they carry a token. */
  lemma CachedCredentialsHaveASource(ls: seq<Label>)
    requires Run(INITIAL, ls).creds.Some?
    ensures var s := Run(INITIAL, ls);
            s.creds.value.token != "" && (s.creds.value.token in s.saved || s.creds.value.token in s.refreshed)
  {
    InitialInv();
    RunInv(INITIAL, ls);
  }

  // ------------------------------------------------------------ the refresh token survives

  /** No SetToken is under way. */
  ghost predicate NoManual(s: State) {
    forall t {:trigger s.threads[t]} :: t in s.threads ==> !s.threads[t].Manual?
  }

  ghost predicate HasRefreshToken(s: State) {
    s.creds.Some? && s.creds.value.refreshToken != ""
  }

  lemma StepKeepsRefreshToken(s: State, l: Label)
    requires Inv(s) && NoManual(s) && HasRefreshToken(s) && !l.CallSetToken? && !l.Restart?
    ensures NoManual(Step(s, l)) && HasRefreshToken(Step(s, l))
  {
    match l
    case Advance(tid, input) =>
      if CanAdvance(s, tid) {
        assert PcOk(s, s.threads[tid]);
        match s.threads[tid]
        case Cred(c) => CredKeeps(s, tid, c, input);
        case Boot(nested, b) => BootKeeps(s, tid, nested, b, input);
        case Manual(_, _) => assert false;
      }
    case _ =>
  }

  lemma CredKeeps(s: State, tid: nat, c: CredPc, input: Input)
    requires tid in s.threads && s.threads[tid] == Cred(c) && PcOk(s, Cred(c)) && NoManual(s) && HasRefreshToken(s)
    ensures NoManual(CredStep(s, tid, c, input)) && HasRefreshToken(CredStep(s, tid, c, input))
  {
  }

  lemma BootKeeps(s: State, tid: nat, nested: bool, b: BootPc, input: Input)
    requires tid in s.threads && s.threads[tid] == Boot(nested, b) && BootOk(s, b) && NoManual(s) && HasRefreshToken(s)
    ensures NoManual(BootStep(s, tid, nested, b, input)) && HasRefreshToken(BootStep(s, tid, nested, b, input))
  {
  }

  /** Without SetToken, credentials that can be refreshed stay so for the life of the process. */
  lemma {:induction false} RefreshTokenSurvives(s: State, ls: seq<Label>)
    requires Inv(s) && NoManual(s) && HasRefreshToken(s)
    requires forall l :: l in ls ==> !l.CallSetToken? && !l.Restart?
    ensures HasRefreshToken(Run(s, ls))
    decreases |ls|
  {
    if ls != [] {
      assert ls[0] in ls && forall l :: l in ls[1..] ==> l in ls;
      StepInv(s, ls[0]);
      StepKeepsRefreshToken(s, ls[0]);
      RefreshTokenSurvives(Step(s, ls[0]), ls[1..]);
    }
  }
}
