/**
 The rotation protocol: every store call of every request is one atomic step, and any
 number of logins, refreshes, logouts and purges interleave. A label that is not enabled
 leaves the state alone, so a list of labels is a schedule and every list is a run.
 */
module Rotation {
  import opened RefreshStore
  import opened Tokens

  datatype Outcome = Issued(jti: Uuid) | Invalid | ReplayRejected | Failed

  /** Where a request stands: the store call it makes next. */
  datatype Pc =
    | LoginTrack(jti: Uuid, claims: Claims)                           // Register/Login, pair signed
    | ReadStatus(jti: Uuid, claims: Claims, parsedAt: Instant)
    | MarkUsed(jti: Uuid, claims: Claims, owner: Uuid, parsedAt: Instant)
    | RevokeUser(owner: Uuid)                                         // replay or lost race
    | GetByID(jti: Uuid, claims: Claims)                              // past MarkUsed
    | Reissue(jti: Uuid, claims: Claims)
    | Track(jti: Uuid, claims: Claims, next: Uuid, nextClaims: Claims)
    | Done(outcome: Outcome)

  /**
   What the proofs remember: login roots, each token's chain, generation and parent,
   which tokens have a successor, and the order of redemptions.
   */
  datatype History = History(
    logins: map<Uuid, Uuid>,
    chain: map<Uuid, Uuid>,
    generation: map<Uuid, nat>,
    parent: map<Uuid, Uuid>,
    succeeded: set<Uuid>,
    redeemed: seq<Uuid>)

  datatype State = State(
    now: Instant,
    signed: map<Uuid, Claims>,
    rows: Table,
    reqs: map<Uuid, Pc>,
    h: History)

  /** What the environment chooses when a request takes its next step. */
  datatype Input = Input(userFound: bool, freshJti: Uuid, ttl: nat)

  datatype Label =
    | Tick(elapsed: nat)
    | StartLogin(rid: Uuid, user: Uuid, jti: Uuid, ttl: nat)
    | StartRefresh(rid: Uuid, jti: Uuid)
    | Advance(rid: Uuid, input: Input)
    | Fail(rid: Uuid)                    // a store or user lookup error ends the request
    | Logout(user: Uuid)
    | Purge

  const INITIAL := State(0, map[], map[], map[], History(map[], map[], map[], map[], {}, []))

  function Step(s: State, l: Label): State {
    match l
    case Tick(elapsed) => s.(now := s.now + elapsed)
    case StartLogin(rid, user, jti, ttl) => StartLoginStep(s, rid, user, jti, ttl)
    case StartRefresh(rid, jti) => StartRefreshStep(s, rid, jti)
    case Advance(rid, input) => if rid in s.reqs then AdvanceStep(s, rid, input) else s
    case Fail(rid) =>
      if rid in s.reqs && !s.reqs[rid].Done? then SetPc(s, rid, Done(Failed)) else s
    case Logout(user) => s.(rows := Revoked(s.rows, user, s.now))
    case Purge => s.(rows := Purged(s.rows, s.now))
  }

  function SetPc(s: State, rid: Uuid, pc: Pc): State {
    s.(reqs := s.reqs[rid := pc])
  }

  /** Credentials were accepted and the pair is signed; Track comes next. */
  function StartLoginStep(s: State, rid: Uuid, user: Uuid, jti: Uuid, ttl: nat): State {
    if rid in s.reqs || jti in s.signed then s
    else
      var claims := Tokens.Issued(user, s.now, ttl);
      SetPc(s, rid, LoginTrack(jti, claims)).(
        signed := s.signed[jti := claims],
        h := s.h.(logins := s.h.logins[jti := user],
                  chain := s.h.chain[jti := jti],
                  generation := s.h.generation[jti := 0]))
  }

  /** Any signed token may be presented; Parse refuses expired ones. */
  function StartRefreshStep(s: State, rid: Uuid, jti: Uuid): State {
    if rid in s.reqs || jti !in s.signed || !ParseAccepts(s.signed[jti], s.now) then s
    else SetPc(s, rid, ReadStatus(jti, s.signed[jti], s.now))
  }

  function AdvanceStep(s: State, rid: Uuid, input: Input): State
    requires rid in s.reqs
  {
    match s.reqs[rid]
    case LoginTrack(jti, claims) =>
      SetPc(s, rid, Done(Outcome.Issued(jti))).(
        rows := Tracked(s.rows, jti, claims.user, claims.expiresAt))
    case ReadStatus(jti, claims, at) => SetPc(s, rid, AfterStatus(s, jti, claims, at))
    case MarkUsed(jti, claims, owner, _) =>
      if jti in s.rows && s.rows[jti].Spendable() then
        SetPc(s, rid, GetByID(jti, claims)).(
          rows := Marked(s.rows, jti, s.now),
          h := s.h.(redeemed := s.h.redeemed + [jti]))
      else SetPc(s, rid, RevokeUser(owner))
    case RevokeUser(owner) =>
      SetPc(s, rid, Done(ReplayRejected)).(rows := Revoked(s.rows, owner, s.now))
    case GetByID(jti, claims) =>
      SetPc(s, rid, if input.userFound then Reissue(jti, claims) else Done(Invalid))
    case Reissue(jti, claims) =>
      if input.freshJti in s.signed then s
      else
        var nextClaims := Tokens.Issued(claims.user, s.now, input.ttl);
        SetPc(s, rid, Track(jti, claims, input.freshJti, nextClaims)).(
          signed := s.signed[input.freshJti := nextClaims],
          h := s.h.(chain := s.h.chain[input.freshJti := Root(s.h.chain, jti)],
                    generation := s.h.generation[input.freshJti := Generation(s.h.generation, jti) + 1],
                    parent := s.h.parent[input.freshJti := jti],
                    succeeded := s.h.succeeded + {jti}))
    case Track(_, _, next, nextClaims) =>
      SetPc(s, rid, Done(Outcome.Issued(next))).(
        rows := Tracked(s.rows, next, nextClaims.user, nextClaims.expiresAt))
    case Done(_) => s
  }

  /** The branches between the Status call and MarkUsed. */
  function AfterStatus(s: State, jti: Uuid, claims: Claims, at: Instant): Pc {
    if jti !in s.rows then Done(Invalid)
    else if s.rows[jti].IsUsed() then RevokeUser(s.rows[jti].userId)
    else if !s.rows[jti].IsLive(s.now) then Done(Invalid)
    else MarkUsed(jti, claims, s.rows[jti].userId, at)
  }

  function Root(chain: map<Uuid, Uuid>, jti: Uuid): Uuid {
    if jti in chain then chain[jti] else jti
  }

  function Generation(generation: map<Uuid, nat>, jti: Uuid): nat {
    if jti in generation then generation[jti] else 0
  }

  function Run(s: State, ls: seq<Label>): State
    decreases |ls|
  {
    if ls == [] then s else Run(Step(s, ls[0]), ls[1..])
  }

  lemma {:induction false} RunAppends(s: State, xs: seq<Label>, ys: seq<Label>)
    ensures Run(s, xs + ys) == Run(Run(s, xs), ys)
    decreases |xs|
  {
    if xs == [] {
      assert xs + ys == ys;
    } else {
      assert (xs + ys)[1..] == xs[1..] + ys;
      RunAppends(Step(s, xs[0]), xs[1..], ys);
    }
  }

  lemma RunFour(s: State, ls: seq<Label>)
    requires |ls| == 4
    ensures Run(s, ls) == Step(Step(Step(Step(s, ls[0]), ls[1]), ls[2]), ls[3])
  {
    var a := Step(s, ls[0]);
    var b := Step(a, ls[1]);
    var c := Step(b, ls[2]);
    var d := Step(c, ls[3]);
    assert ls[1..][1..] == ls[2..] && ls[2..][1..] == ls[3..] && ls[3..][1..] == [];
    assert Run(d, []) == d;
    assert Run(c, ls[3..]) == d;
    assert Run(b, ls[2..]) == Run(c, ls[3..]);
    assert Run(a, ls[1..]) == Run(b, ls[2..]);
  }

  // ---------------------------------------------------------------- invariants

  /** Who can still turn a chain into a session: a spendable token or a request about to track one. */
  datatype Holder = Token(jti: Uuid) | Request(rid: Uuid)

  ghost predicate Holds(s: State, h: Holder) {
    match h
    case Token(jti) => jti in s.rows && s.rows[jti].Spendable()
    case Request(rid) => rid in s.reqs && PendingPair(s.reqs[rid])
  }

  /** Inside a login's issuePair, or a refresh past MarkUsed whose Track is still to come. */
  predicate PendingPair(pc: Pc) {
    pc.LoginTrack? || PastMarkUsed(pc)
  }

  predicate PastMarkUsed(pc: Pc) {
    pc.GetByID? || pc.Reissue? || pc.Track?
  }

  ghost function ChainOf(s: State, h: Holder): Uuid {
    match h
    case Token(jti) => Root(s.h.chain, jti)
    case Request(rid) =>
      if rid in s.reqs && PendingPair(s.reqs[rid]) then Root(s.h.chain, s.reqs[rid].jti) else 0
  }

  /** Every signed token belongs to the chain of a login by its own user. */
  ghost predicate SignedOk(s: State) {
    && (forall r :: r in s.h.logins ==> r in s.signed)
    && (forall j {:trigger Root(s.h.chain, j)} :: j in s.signed ==>
          Root(s.h.chain, j) in s.h.logins && s.h.logins[Root(s.h.chain, j)] == s.signed[j].user)
  }

  ghost predicate RowsOk(s: State) {
    forall j :: j in s.rows ==>
      && j in s.signed
      && s.rows[j].userId == s.signed[j].user
      && s.rows[j].expiresAt == s.signed[j].expiresAt
      && (s.rows[j].usedAt.None? || s.rows[j].revokedAt.None?)
  }

  /** The jti was signed, belongs to nobody's row yet and was never redeemed. */
  ghost predicate Untracked(s: State, jti: Uuid) {
    jti in s.signed && jti !in s.rows && jti !in s.h.redeemed
  }

  ghost predicate RequestOk(s: State, pc: Pc) {
    match pc
    case LoginTrack(j, c) => Untracked(s, j) && s.signed[j] == c
    case ReadStatus(j, c, at) =>
      j in s.signed && s.signed[j] == c && at <= s.now && ParseAccepts(c, at)
    case MarkUsed(j, c, owner, at) =>
      j in s.signed && s.signed[j] == c && owner == c.user && at <= s.now && ParseAccepts(c, at)
    case RevokeUser(_) => true
    case GetByID(j, c) => RedeemedChildless(s, j) && s.signed[j] == c
    case Reissue(j, c) => RedeemedChildless(s, j) && s.signed[j] == c
    case Track(j, c, n, nc) =>
      && j in s.signed && s.signed[j] == c && Untracked(s, n) && s.signed[n] == nc
      && nc.user == c.user && Root(s.h.chain, n) == Root(s.h.chain, j)
    case Done(_) => true
  }

  ghost predicate RedeemedChildless(s: State, j: Uuid) {
    j in s.signed && j in s.h.redeemed && j !in s.h.succeeded
  }

  ghost predicate RequestsOk(s: State) {
    forall rid :: rid in s.reqs ==> RequestOk(s, s.reqs[rid])
  }

  /** A redeemed jti was redeemed once and is not spendable. */
  ghost predicate RedeemedOk(s: State) {
    && (forall i, k :: 0 <= i < k < |s.h.redeemed| ==> s.h.redeemed[i] != s.h.redeemed[k])
    && forall j :: j in s.h.redeemed ==> j in s.signed && (j in s.rows ==> s.rows[j].IsUsed())
  }

  /** Every chain has at most one holder. */
  ghost predicate OneHolder(s: State) {
    forall g, h :: Holds(s, g) && Holds(s, h) && ChainOf(s, g) == ChainOf(s, h) ==> g == h
  }

  /** Roots are logins; every other token has one redeemed parent, shared with no sibling. */
  ghost predicate ForestOk(s: State) {
    && (forall c {:trigger s.h.parent[c]} :: c in s.h.parent ==>
          && c in s.signed && s.h.parent[c] in s.h.succeeded
          && Root(s.h.chain, c) == Root(s.h.chain, s.h.parent[c])
          && Generation(s.h.generation, c) == Generation(s.h.generation, s.h.parent[c]) + 1)
    && (forall j :: j in s.h.succeeded ==> j in s.signed && j in s.h.redeemed)
    && (forall b, c :: b in s.h.parent && c in s.h.parent && s.h.parent[b] == s.h.parent[c] ==> b == c)
    && (forall j {:trigger j in s.h.parent} :: j in s.signed && j !in s.h.parent ==>
          j in s.h.logins && Root(s.h.chain, j) == j && Generation(s.h.generation, j) == 0)
  }

  ghost predicate Inv(s: State) {
    && SignedOk(s) && RowsOk(s) && RequestsOk(s) && RedeemedOk(s) && ForestOk(s) && OneHolder(s)
  }

  lemma InitialInv()
    ensures Inv(INITIAL)
  {
  }

  // ------------------------------------------------- how a step may change the holders

  lemma HoldersShrink(s: State, t: State)
    requires OneHolder(s)
    requires forall h :: Holds(t, h) ==> Holds(s, h) && ChainOf(t, h) == ChainOf(s, h)
    ensures OneHolder(t)
  {
  }

  /** One holder hands its chain to another. */
  lemma HolderMoves(s: State, t: State, from: Holder, to: Holder)
    requires OneHolder(s) && Holds(s, from)
    requires forall h :: Holds(t, h) ==>
               if h == to then ChainOf(t, h) == ChainOf(s, from)
               else h != from && Holds(s, h) && ChainOf(t, h) == ChainOf(s, h)
    ensures OneHolder(t)
  {
  }

  /** A login opens a chain nobody holds. */
  lemma HolderAppears(s: State, t: State, newcomer: Holder)
    requires OneHolder(s)
    requires forall h :: Holds(s, h) ==> ChainOf(s, h) != ChainOf(t, newcomer)
    requires forall h :: Holds(t, h) && h != newcomer ==> Holds(s, h) && ChainOf(t, h) == ChainOf(s, h)
    ensures OneHolder(t)
  {
  }

  // ------------------------------------------------- each label keeps the invariant

  lemma StepInv(s: State, l: Label)
    requires Inv(s)
    ensures Inv(Step(s, l))
  {
    match l
    case Tick(elapsed) => TickInv(s, elapsed);
    case StartLogin(rid, user, jti, ttl) => StartLoginInv(s, rid, user, jti, ttl);
    case StartRefresh(rid, jti) => StartRefreshInv(s, rid, jti);
    case Advance(rid, input) => if rid in s.reqs { AdvanceInv(s, rid, input); }
    case Fail(rid) => if rid in s.reqs && !s.reqs[rid].Done? { SetPcInv(s, rid, Done(Failed)); }
    case Logout(user) => RevokedInv(s, user);
    case Purge => PurgeInv(s);
  }

  lemma TickInv(s: State, elapsed: nat)
    requires Inv(s)
    ensures Inv(Step(s, Tick(elapsed)))
  {
    HoldersShrink(s, Step(s, Tick(elapsed)));
  }

  lemma StartRefreshInv(s: State, rid: Uuid, jti: Uuid)
    requires Inv(s)
    ensures Inv(StartRefreshStep(s, rid, jti))
  {
    HoldersShrink(s, StartRefreshStep(s, rid, jti));
  }

  lemma PurgeInv(s: State)
    requires Inv(s)
    ensures Inv(Step(s, Purge))
  {
    HoldersShrink(s, Step(s, Purge));
  }

  lemma StartLoginInv(s: State, rid: Uuid, user: Uuid, jti: Uuid, ttl: nat)
    requires Inv(s)
    ensures Inv(StartLoginStep(s, rid, user, jti, ttl))
  {
    if rid !in s.reqs && jti !in s.signed {
      StartLoginTables(s, rid, user, jti, ttl);
      StartLoginForest(s, rid, user, jti, ttl);
      StartLoginRequests(s, rid, user, jti, ttl);
      StartLoginHolders(s, rid, user, jti, ttl);
    }
  }

  lemma StartLoginTables(s: State, rid: Uuid, user: Uuid, jti: Uuid, ttl: nat)
    requires SignedOk(s) && RowsOk(s)
    requires rid !in s.reqs && jti !in s.signed
    ensures var t := StartLoginStep(s, rid, user, jti, ttl); SignedOk(t) && RowsOk(t)
  {
    var t := StartLoginStep(s, rid, user, jti, ttl);
    assert forall j :: j in s.signed ==> Root(t.h.chain, j) == Root(s.h.chain, j);
  }

  lemma StartLoginForest(s: State, rid: Uuid, user: Uuid, jti: Uuid, ttl: nat)
    requires RedeemedOk(s) && RowsOk(s) && ForestOk(s)
    requires rid !in s.reqs && jti !in s.signed
    ensures var t := StartLoginStep(s, rid, user, jti, ttl); RedeemedOk(t) && ForestOk(t)
  {
    var t := StartLoginStep(s, rid, user, jti, ttl);
    assert forall j :: j in s.signed ==>
      Root(t.h.chain, j) == Root(s.h.chain, j) && Generation(t.h.generation, j) == Generation(s.h.generation, j);
  }

  lemma StartLoginRequests(s: State, rid: Uuid, user: Uuid, jti: Uuid, ttl: nat)
    requires RequestsOk(s) && RowsOk(s) && RedeemedOk(s)
    requires rid !in s.reqs && jti !in s.signed
    ensures RequestsOk(StartLoginStep(s, rid, user, jti, ttl))
  {
    var t := StartLoginStep(s, rid, user, jti, ttl);
    forall r | r in s.reqs ensures RequestOk(t, s.reqs[r]) {
      assert RequestOk(s, s.reqs[r]);
    }
  }

  lemma StartLoginHolders(s: State, rid: Uuid, user: Uuid, jti: Uuid, ttl: nat)
    requires SignedOk(s) && RowsOk(s) && RequestsOk(s) && OneHolder(s)
    requires rid !in s.reqs && jti !in s.signed
    ensures OneHolder(StartLoginStep(s, rid, user, jti, ttl))
  {
    var t := StartLoginStep(s, rid, user, jti, ttl);
    forall h | Holds(s, h) ensures ChainOf(t, h) == ChainOf(s, h) && ChainOf(s, h) in s.signed {
      HeldChainIsSigned(s, h);
    }
    HolderAppears(s, t, Request(rid));
  }

  lemma HeldChainIsSigned(s: State, h: Holder)
    requires SignedOk(s) && RowsOk(s) && RequestsOk(s) && Holds(s, h)
    ensures ChainOf(s, h) in s.h.logins && ChainOf(s, h) in s.signed
  {
    match h
    case Token(jti) =>
    case Request(rid) => assert RequestOk(s, s.reqs[rid]);
  }

  lemma RevokedInv(s: State, user: Uuid)
    requires Inv(s)
    ensures Inv(s.(rows := Revoked(s.rows, user, s.now)))
  {
    HoldersShrink(s, s.(rows := Revoked(s.rows, user, s.now)));
  }

  /** A request that only moves on, to a place that holds no more than before. */
  lemma SetPcInv(s: State, rid: Uuid, pc: Pc)
    requires Inv(s) && rid in s.reqs && RequestOk(s, pc)
    requires PendingPair(pc) ==> PendingPair(s.reqs[rid]) && pc.jti == s.reqs[rid].jti
    ensures Inv(SetPc(s, rid, pc))
  {
    HoldersShrink(s, SetPc(s, rid, pc));
  }

  lemma AdvanceInv(s: State, rid: Uuid, input: Input)
    requires Inv(s) && rid in s.reqs
    ensures Inv(AdvanceStep(s, rid, input))
  {
    match s.reqs[rid]
    case LoginTrack(jti, claims) => TrackInv(s, rid, jti, claims);
    case ReadStatus(jti, claims, at) => SetPcInv(s, rid, AfterStatus(s, jti, claims, at));
    case MarkUsed(jti, claims, owner, _) =>
      if jti in s.rows && s.rows[jti].Spendable() {
        MarkUsedInv(s, rid);
      } else {
        SetPcInv(s, rid, RevokeUser(owner));
      }
    case RevokeUser(owner) =>
      SetPcInv(s, rid, Done(ReplayRejected));
      RevokedInv(SetPc(s, rid, Done(ReplayRejected)), owner);
    case GetByID(jti, claims) =>
      SetPcInv(s, rid, if input.userFound then Reissue(jti, claims) else Done(Invalid));
    case Reissue(jti, claims) => if input.freshJti !in s.signed { ReissueInv(s, rid, input); }
    case Track(_, _, next, nextClaims) => TrackInv(s, rid, next, nextClaims);
    case Done(_) => 
  }

  /** Two requests with a pending pair work on different chains. */
  lemma SoleHolder(s: State, rid: Uuid, other: Uuid)
    requires OneHolder(s) && rid in s.reqs && other in s.reqs && rid != other
    requires PendingPair(s.reqs[rid]) && PendingPair(s.reqs[other])
    ensures Root(s.h.chain, s.reqs[rid].jti) != Root(s.h.chain, s.reqs[other].jti)
  {
    assert Holds(s, Request(rid)) && Holds(s, Request(other));
    if ChainOf(s, Request(rid)) == ChainOf(s, Request(other)) {
      assert false;
    }
  }

  lemma TrackInv(s: State, rid: Uuid, jti: Uuid, claims: Claims)
    requires Inv(s) && rid in s.reqs
    requires s.reqs[rid] == LoginTrack(jti, claims)
          || (s.reqs[rid].Track? && s.reqs[rid].next == jti && s.reqs[rid].nextClaims == claims)
    ensures Inv(SetPc(s, rid, Done(Outcome.Issued(jti))).(
                  rows := Tracked(s.rows, jti, claims.user, claims.expiresAt)))
  {
    var t := SetPc(s, rid, Done(Outcome.Issued(jti))).(
               rows := Tracked(s.rows, jti, claims.user, claims.expiresAt));
    HolderMoves(s, t, Request(rid), Token(jti));
    forall other | other in s.reqs && other != rid && PendingPair(s.reqs[other]) ensures RequestOk(t, s.reqs[other]) {
      SoleHolder(s, rid, other);
    }
  }

  lemma MarkUsedInv(s: State, rid: Uuid)
    requires Inv(s) && rid in s.reqs && s.reqs[rid].MarkUsed?
    requires s.reqs[rid].jti in s.rows && s.rows[s.reqs[rid].jti].Spendable()
    ensures Inv(AdvanceStep(s, rid, Input(true, 0, 0)))
  {
    var t := AdvanceStep(s, rid, Input(true, 0, 0));
    HolderMoves(s, t, Token(s.reqs[rid].jti), Request(rid));
  }

  lemma ReissueInv(s: State, rid: Uuid, input: Input)
    requires Inv(s) && rid in s.reqs && s.reqs[rid].Reissue? && input.freshJti !in s.signed
    ensures Inv(AdvanceStep(s, rid, input))
  {
    assert RequestOk(s, s.reqs[rid]);
    ReissueTables(s, rid, input);
    ReissueForest(s, rid, input);
    ReissueRequests(s, rid, input);
    ReissueHolders(s, rid, input);
  }

  lemma ReissueTables(s: State, rid: Uuid, input: Input)
    requires SignedOk(s) && RowsOk(s)
    requires rid in s.reqs && s.reqs[rid].Reissue? && RequestOk(s, s.reqs[rid])
    requires input.freshJti !in s.signed
    ensures var t := AdvanceStep(s, rid, input); SignedOk(t) && RowsOk(t)
  {
    var t := AdvanceStep(s, rid, input);
    var jti := s.reqs[rid].jti;
    assert Root(t.h.chain, input.freshJti) == Root(s.h.chain, jti) && t.signed[input.freshJti].user == s.signed[jti].user;
    forall j | j in s.signed ensures Root(t.h.chain, j) == Root(s.h.chain, j) && t.signed[j] == s.signed[j] {
    }
    ReissueRows(s, rid, input);
  }

  lemma ReissueRows(s: State, rid: Uuid, input: Input)
    requires RowsOk(s)
    requires rid in s.reqs && s.reqs[rid].Reissue? && input.freshJti !in s.signed
    ensures RowsOk(AdvanceStep(s, rid, input))
  {
  }

  lemma ReissueForest(s: State, rid: Uuid, input: Input)
    requires RedeemedOk(s) && RowsOk(s) && ForestOk(s)
    requires rid in s.reqs && s.reqs[rid].Reissue? && RequestOk(s, s.reqs[rid])
    requires input.freshJti !in s.signed
    ensures var t := AdvanceStep(s, rid, input); RedeemedOk(t) && ForestOk(t)
  {
    ReissueRedeemed(s, rid, input);
    ReissueParents(s, rid, input);
  }

  lemma ReissueParents(s: State, rid: Uuid, input: Input)
    requires ForestOk(s)
    requires rid in s.reqs && s.reqs[rid].Reissue? && RedeemedChildless(s, s.reqs[rid].jti)
    requires input.freshJti !in s.signed
    ensures ForestOk(AdvanceStep(s, rid, input))
  {
    var t := AdvanceStep(s, rid, input);
    forall c | c in s.h.parent
      ensures c in s.signed && s.h.parent[c] in s.signed
      ensures Root(t.h.chain, c) == Root(s.h.chain, c) && Generation(t.h.generation, c) == Generation(s.h.generation, c)
    {
      assert s.h.parent[c] in s.h.succeeded;
    }
    ReissueRoots(s, rid, input);
    ReissueSiblings(s, rid, input);
  }

  /** Only a childless token gets a child. */
  lemma ReissueSiblings(s: State, rid: Uuid, input: Input)
    requires ForestOk(s)
    requires rid in s.reqs && s.reqs[rid].Reissue? && s.reqs[rid].jti !in s.h.succeeded && input.freshJti !in s.signed
    ensures var p := AdvanceStep(s, rid, input).h.parent;
            forall b, c :: b in p && c in p && p[b] == p[c] ==> b == c
  {
  }

  lemma ReissueRoots(s: State, rid: Uuid, input: Input)
    requires ForestOk(s)
    requires rid in s.reqs && s.reqs[rid].Reissue? && input.freshJti !in s.signed
    ensures var t := AdvanceStep(s, rid, input);
            forall j {:trigger j in t.h.parent} :: j in t.signed && j !in t.h.parent ==>
              j in t.h.logins && Root(t.h.chain, j) == j && Generation(t.h.generation, j) == 0
  {
    var t := AdvanceStep(s, rid, input);
    forall j | j in t.signed && j !in t.h.parent
      ensures j in t.h.logins && Root(t.h.chain, j) == j && Generation(t.h.generation, j) == 0
    {
      assert j in s.signed && j !in s.h.parent;
    }
  }

  lemma ReissueRedeemed(s: State, rid: Uuid, input: Input)
    requires RedeemedOk(s)
    requires rid in s.reqs && s.reqs[rid].Reissue? && input.freshJti !in s.signed
    ensures RedeemedOk(AdvanceStep(s, rid, input))
  {
  }

  lemma ReissueRequests(s: State, rid: Uuid, input: Input)
    requires RequestsOk(s) && RowsOk(s) && RedeemedOk(s) && OneHolder(s)
    requires rid in s.reqs && s.reqs[rid].Reissue? && input.freshJti !in s.signed
    ensures RequestsOk(AdvanceStep(s, rid, input))
  {
    var t := AdvanceStep(s, rid, input);
    assert RequestOk(s, s.reqs[rid]);
    forall other | other in s.reqs && other != rid ensures RequestOk(t, s.reqs[other]) {
      assert RequestOk(s, s.reqs[other]);
      if PendingPair(s.reqs[other]) {
        SoleHolder(s, rid, other);
      }
    }
  }

  lemma ReissueHolders(s: State, rid: Uuid, input: Input)
    requires SignedOk(s) && RowsOk(s) && RequestsOk(s) && OneHolder(s)
    requires rid in s.reqs && s.reqs[rid].Reissue? && input.freshJti !in s.signed
    ensures OneHolder(AdvanceStep(s, rid, input))
  {
    var t := AdvanceStep(s, rid, input);
    forall h | Holds(t, h) ensures Holds(s, h) && ChainOf(t, h) == ChainOf(s, h) {
      match h
      case Token(jti) =>
      case Request(r) => assert RequestOk(s, s.reqs[r]);
    }
    HoldersShrink(s, t);
  }

  lemma {:induction false} RunInv(s: State, ls: seq<Label>)
    requires Inv(s)
    ensures Inv(Run(s, ls))
    decreases |ls|
  {
    if ls != [] {
      StepInv(s, ls[0]);
      RunInv(Step(s, ls[0]), ls[1..]);
    }
  }
}
