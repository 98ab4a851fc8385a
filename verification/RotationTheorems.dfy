/** What the rotation protocol guarantees over every run, for any interleaving. */
module RotationTheorems {
  import opened Wrappers
  import opened Cardinality
  import opened RefreshStore
  import opened Tokens
  import opened Rotation
  import AuthService

  // ------------------------------------------------------------ chains are paths

  /** The token `n` rotations before `jti`. */
  function Ancestor(s: State, jti: Uuid, n: nat): Uuid
    decreases n
  {
    if n == 0 || jti !in s.h.parent then jti else Ancestor(s, s.h.parent[jti], n - 1)
  }

  /** Following parents for `generation` steps ends at a login of the same user. */
  lemma {:induction false} AncestryEndsAtLogin(s: State, jti: Uuid)
    requires Inv(s) && jti in s.signed
    ensures var root := Ancestor(s, jti, Generation(s.h.generation, jti));
            root == Root(s.h.chain, jti) && root in s.h.logins && s.h.logins[root] == s.signed[jti].user
    decreases Generation(s.h.generation, jti)
  {
    if jti in s.h.parent {
      AncestryEndsAtLogin(s, s.h.parent[jti]);
    }
  }

  /** A chain never forks: each generation of a login has one token. */
  lemma {:induction false} ChainNeverForks(s: State, a: Uuid, b: Uuid)
    requires Inv(s) && a in s.signed && b in s.signed
    requires Root(s.h.chain, a) == Root(s.h.chain, b)
    requires Generation(s.h.generation, a) == Generation(s.h.generation, b)
    ensures a == b
    decreases Generation(s.h.generation, a)
  {
    if a in s.h.parent {
      ChildIsLater(s, a);
    }
    if b in s.h.parent {
      ChildIsLater(s, b);
    }
    if a in s.h.parent && b in s.h.parent {
      ChainNeverForks(s, s.h.parent[a], s.h.parent[b]);
    }
  }

  lemma ChildIsLater(s: State, c: Uuid)
    requires Inv(s) && c in s.h.parent
    ensures c in s.signed && s.h.parent[c] in s.signed
    ensures Generation(s.h.generation, c) == Generation(s.h.generation, s.h.parent[c]) + 1
    ensures Root(s.h.chain, c) == Root(s.h.chain, s.h.parent[c])
  {
  }

  lemma RedeemedAtMostOnce(ls: seq<Label>, i: nat, k: nat)
    requires i < k < |Run(INITIAL, ls).h.redeemed|
    ensures Run(INITIAL, ls).h.redeemed[i] != Run(INITIAL, ls).h.redeemed[k]
  {
    InitialInv();
    RunInv(INITIAL, ls);
  }

  lemma SuccessorIsUnique(ls: seq<Label>, a: Uuid, b: Uuid)
    requires var s := Run(INITIAL, ls);
             a in s.h.parent && b in s.h.parent && s.h.parent[a] == s.h.parent[b]
    ensures a == b && Run(INITIAL, ls).h.parent[a] in Run(INITIAL, ls).h.redeemed
  {
    InitialInv();
    RunInv(INITIAL, ls);
  }

  // ------------------------------------------------------------ conservation

  function SpendableOf(s: State, user: Uuid): set<Uuid> {
    set j | j in s.rows && s.rows[j].Spendable() && s.rows[j].userId == user
  }

  /** Refreshes past MarkUsed that have not tracked their new pair. */
  function RefreshesInFlight(s: State, user: Uuid): set<Uuid> {
    set r | r in s.reqs && PastMarkUsed(s.reqs[r]) && s.reqs[r].claims.user == user
  }

  /** Logins between Issue and Track. */
  function LoginsInFlight(s: State, user: Uuid): set<Uuid> {
    set r | r in s.reqs && s.reqs[r].LoginTrack? && s.reqs[r].claims.user == user
  }

  function LoginsOf(s: State, user: Uuid): set<Uuid> {
    set r | r in s.h.logins && s.h.logins[r] == user
  }

  function TokenChains(s: State, user: Uuid): set<Uuid> {
    set j | j in SpendableOf(s, user) :: Root(s.h.chain, j)
  }

  function PendingOf(s: State, user: Uuid): set<Uuid> {
    RefreshesInFlight(s, user) + LoginsInFlight(s, user)
  }

  function RequestRoot(s: State, rid: Uuid): Uuid {
    if rid in s.reqs && PendingPair(s.reqs[rid]) then Root(s.h.chain, s.reqs[rid].jti) else 0
  }

  function RequestChains(s: State, user: Uuid): set<Uuid> {
    set r | r in PendingOf(s, user) :: RequestRoot(s, r)
  }

  lemma TokenChainsFacts(s: State, user: Uuid)
    requires Inv(s)
    ensures |TokenChains(s, user)| == |SpendableOf(s, user)|
    ensures TokenChains(s, user) <= LoginsOf(s, user)
  {
    forall a, b | a in SpendableOf(s, user) && b in SpendableOf(s, user)
                  && Root(s.h.chain, a) == Root(s.h.chain, b)
      ensures a == b
    {
      assert Holds(s, Token(a)) && Holds(s, Token(b));
      assert ChainOf(s, Token(a)) == ChainOf(s, Token(b));
    }
    ImageSize(SpendableOf(s, user), j => Root(s.h.chain, j), TokenChains(s, user));
  }

  lemma RequestChainsFacts(s: State, user: Uuid)
    requires Inv(s)
    ensures |RequestChains(s, user)| == |RefreshesInFlight(s, user)| + |LoginsInFlight(s, user)|
    ensures RequestChains(s, user) <= LoginsOf(s, user)
  {
    RequestChainsSize(s, user);
    forall r | r in PendingOf(s, user) ensures RequestRoot(s, r) in LoginsOf(s, user) {
      PendingRoot(s, r);
    }
  }

  lemma PendingRoot(s: State, rid: Uuid)
    requires SignedOk(s) && RequestsOk(s) && rid in s.reqs && PendingPair(s.reqs[rid])
    ensures RequestRoot(s, rid) in LoginsOf(s, s.reqs[rid].claims.user)
  {
    assert RequestOk(s, s.reqs[rid]);
  }

  lemma RequestChainsSize(s: State, user: Uuid)
    requires OneHolder(s)
    ensures |RequestChains(s, user)| == |RefreshesInFlight(s, user)| + |LoginsInFlight(s, user)|
  {
    var pending := PendingOf(s, user);
    forall a, b | a in pending && b in pending && RequestRoot(s, a) == RequestRoot(s, b)
      ensures a == b
    {
      if a != b {
        SoleHolder(s, a, b);
      }
    }
    ImageSize(pending, r => RequestRoot(s, r), RequestChains(s, user));
    assert RefreshesInFlight(s, user) !! LoginsInFlight(s, user);
  }

  lemma TokenAndRequestChainsDisjoint(s: State, user: Uuid)
    requires Inv(s)
    ensures TokenChains(s, user) !! RequestChains(s, user)
  {
    forall j, r | j in SpendableOf(s, user) && r in PendingOf(s, user)
      ensures Root(s.h.chain, j) != RequestRoot(s, r)
    {
      assert Holds(s, Token(j)) && Holds(s, Request(r));
      if ChainOf(s, Token(j)) == ChainOf(s, Request(r)) {
        assert false;
      }
    }
  }

  /**
   Sessions are conserved: whatever interleaving led here, a user's spendable tokens plus
   the pairs about to be tracked for them never outnumber the logins they made.
   */
  lemma RotationConservation(ls: seq<Label>, user: Uuid)
    ensures var s := Run(INITIAL, ls);
            |SpendableOf(s, user)| + |RefreshesInFlight(s, user)| + |LoginsInFlight(s, user)|
            <= |LoginsOf(s, user)|
  {
    InitialInv();
    RunInv(INITIAL, ls);
    var s := Run(INITIAL, ls);
    TokenChainsFacts(s, user);
    RequestChainsFacts(s, user);
    TokenAndRequestChainsDisjoint(s, user);
    SubsetSize(TokenChains(s, user) + RequestChains(s, user), LoginsOf(s, user));
  }

  // ------------------------------------------------------------ revocation bound

  ghost predicate IsHeld(s: State, chain: Uuid) {
    exists h :: Holds(s, h) && ChainOf(s, h) == chain
  }

  /** A chain that lost its holder never gets one again; only a login opens a chain. */
  lemma StepHolders(s: State, l: Label, chain: Uuid)
    requires Inv(s) && IsHeld(Step(s, l), chain)
    ensures IsHeld(s, chain) || chain !in s.h.logins
  {
    var h :| Holds(Step(s, l), h) && ChainOf(Step(s, l), h) == chain;
    match l
    case Advance(rid, input) =>
      if rid in s.reqs { AdvanceHolders(s, rid, input, h); }
    case StartLogin(rid, user, jti, ttl) =>
      if h != Request(rid) { StartLoginHolder(s, rid, user, jti, ttl, h); }
    case _ => SameHolder(s, l, h);
  }

  lemma SameHolder(s: State, l: Label, h: Holder)
    requires !l.Advance? && !l.StartLogin? && Holds(Step(s, l), h)
    ensures Holds(s, h) && ChainOf(s, h) == ChainOf(Step(s, l), h)
  {
  }

  lemma StartLoginHolder(s: State, rid: Uuid, user: Uuid, jti: Uuid, ttl: nat, h: Holder)
    requires RowsOk(s) && RequestsOk(s)
    requires h != Request(rid) && Holds(StartLoginStep(s, rid, user, jti, ttl), h)
    ensures Holds(s, h) && ChainOf(s, h) == ChainOf(StartLoginStep(s, rid, user, jti, ttl), h)
  {
    match h
    case Token(_) =>
    case Request(r) => assert RequestOk(s, s.reqs[r]);
  }

  /** The holder that handed its chain to `h`. */
  function Predecessor(pc: Pc, rid: Uuid, h: Holder): Holder {
    if (pc.LoginTrack? && h == Token(pc.jti)) || (pc.Track? && h == Token(pc.next)) then Request(rid)
    else if pc.MarkUsed? && h == Request(rid) then Token(pc.jti)
    else h
  }

  lemma AdvanceHolders(s: State, rid: Uuid, input: Input, h: Holder)
    requires RowsOk(s) && RequestsOk(s)
    requires rid in s.reqs && Holds(AdvanceStep(s, rid, input), h)
    ensures IsHeld(s, ChainOf(AdvanceStep(s, rid, input), h))
  {
    var before := Predecessor(s.reqs[rid], rid, h);
    if s.reqs[rid].Reissue? {
      ReissueHolder(s, rid, input, h);
    } else if s.reqs[rid].Track? {
      assert RequestOk(s, s.reqs[rid]);
    }
    assert Holds(s, before) && ChainOf(s, before) == ChainOf(AdvanceStep(s, rid, input), h);
  }

  lemma ReissueHolder(s: State, rid: Uuid, input: Input, h: Holder)
    requires RowsOk(s) && RequestsOk(s)
    requires rid in s.reqs && s.reqs[rid].Reissue? && Holds(AdvanceStep(s, rid, input), h)
    ensures Holds(s, h) && ChainOf(s, h) == ChainOf(AdvanceStep(s, rid, input), h)
  {
    match h
    case Token(_) =>
    case Request(r) => assert RequestOk(s, s.reqs[r]);
  }

  lemma {:induction false} RunHolders(s: State, ls: seq<Label>, chain: Uuid)
    requires Inv(s)
    ensures IsHeld(Run(s, ls), chain) ==> IsHeld(s, chain) || chain !in s.h.logins
    ensures forall r :: r in s.h.logins ==>
              r in Run(s, ls).h.logins && Run(s, ls).h.logins[r] == s.h.logins[r]
    decreases |ls|
  {
    if ls != [] {
      var t := Step(s, ls[0]);
      StepInv(s, ls[0]);
      RunHolders(t, ls[1..], chain);
      LoginsKept(s, ls[0]);
      if IsHeld(t, chain) {
        StepHolders(s, ls[0], chain);
      }
    }
  }

  lemma LoginsKept(s: State, l: Label)
    requires Inv(s)
    ensures forall r :: r in s.h.logins ==>
              r in Step(s, l).h.logins && Step(s, l).h.logins[r] == s.h.logins[r]
  {
  }

  /** RevokeUser leaves the user without a spendable token and touches nobody else's. */
  lemma RevokeUserClears(s: State, user: Uuid, other: Uuid)
    ensures SpendableOf(Step(s, Logout(user)), user) == {}
    ensures other != user ==> SpendableOf(Step(s, Logout(user)), other) == SpendableOf(s, other)
    ensures Step(s, Logout(user)).reqs == s.reqs && Step(s, Logout(user)).h == s.h
  {
  }

  /**
   How far a revocation reaches. If the user has no spendable token now (RevokeUser has
   just run: logout, replay or lost race), then in every later state each spendable token
   descends from a login made since or from a request that was already past MarkUsed or
   inside a login's issuePair, one token for each at most.
   */
  lemma RevocationBound(s: State, ls: seq<Label>, user: Uuid)
    requires Inv(s) && SpendableOf(s, user) == {}
    ensures var t := Run(s, ls);
            && TokenChains(t, user) <= RequestChains(s, user) + (LoginsOf(t, user) - LoginsOf(s, user))
            && |SpendableOf(t, user)|
               <= |LoginsOf(t, user) - LoginsOf(s, user)|
                  + |RefreshesInFlight(s, user)| + |LoginsInFlight(s, user)|
  {
    var t := Run(s, ls);
    RunInv(s, ls);
    TokenChainsFacts(t, user);
    RequestChainsFacts(s, user);
    forall c | c in TokenChains(t, user)
      ensures c in RequestChains(s, user) + (LoginsOf(t, user) - LoginsOf(s, user))
    {
      var j :| j in SpendableOf(t, user) && Root(t.h.chain, j) == c;
      assert Holds(t, Token(j)) && ChainOf(t, Token(j)) == c;
      RunHolders(s, ls, c);
      if c in s.h.logins {
        var h :| Holds(s, h) && ChainOf(s, h) == c;
        HeldBelongsTo(s, h, user);
      }
    }
    SubsetSize(TokenChains(t, user), RequestChains(s, user) + (LoginsOf(t, user) - LoginsOf(s, user)));
  }

  lemma HeldBelongsTo(s: State, h: Holder, user: Uuid)
    requires Inv(s) && Holds(s, h)
    requires ChainOf(s, h) in s.h.logins && s.h.logins[ChainOf(s, h)] == user
    ensures h.Token? ==> h.jti in SpendableOf(s, user)
    ensures h.Request? ==> ChainOf(s, h) in RequestChains(s, user)
  {
    match h
    case Token(jti) => 
    case Request(rid) =>
      assert RequestOk(s, s.reqs[rid]);
      assert rid in PendingOf(s, user);
  }

  // ------------------------------------------------------------ expired tokens are not rotated

  /** In every run a request passes the checks after Status only while its row is unused, unrevoked and unexpired. */
  lemma PassesOnlyWhileLive(ls: seq<Label>, i: nat)
    requires i < |ls| && ls[i].Advance?
    requires var s, rid := Run(INITIAL, ls[..i]), ls[i].rid;
             rid in s.reqs && s.reqs[rid].ReadStatus? && Step(s, ls[i]).reqs[rid].MarkUsed?
    ensures var s, jti := Run(INITIAL, ls[..i]), Run(INITIAL, ls[..i]).reqs[ls[i].rid].jti;
            && jti in s.rows && s.rows[jti].usedAt.None? && s.rows[jti].revokedAt.None?
            && s.now < s.rows[jti].expiresAt && jti in s.signed && s.rows[jti].expiresAt == s.signed[jti].expiresAt
  {
    InitialInv();
    RunInv(INITIAL, ls[..i]);
    var s := Run(INITIAL, ls[..i]);
    assert RequestOk(s, s.reqs[ls[i].rid]);
  }

  /** And it does pass then: a live token whose turn it is gets to MarkUsed. */
  lemma LiveTokenPasses(s: State, rid: Uuid, input: Input)
    requires rid in s.reqs && s.reqs[rid].ReadStatus? && s.reqs[rid].jti in s.rows
    requires var row := s.rows[s.reqs[rid].jti];
             row.usedAt.None? && row.revokedAt.None? && s.now < row.expiresAt
    ensures Step(s, Advance(rid, input)).reqs[rid].MarkUsed?
  {
  }

  // ------------------------------------------------------------ marks are permanent

  /** The token was signed and no request is still to write its row. */
  ghost predicate Settled(s: State, jti: Uuid) {
    && jti in s.signed
    && forall r :: r in s.reqs ==>
         (s.reqs[r].LoginTrack? ==> s.reqs[r].jti != jti) && (s.reqs[r].Track? ==> s.reqs[r].next != jti)
  }

  /** The row only ages: owner and expiry stay, a set mark stays as it was, a deleted row stays deleted. */
  ghost predicate Ages(before: Table, after: Table, jti: Uuid) {
    jti in after ==>
      && jti in before
      && after[jti].userId == before[jti].userId && after[jti].expiresAt == before[jti].expiresAt
      && (before[jti].usedAt.Some? ==> after[jti].usedAt == before[jti].usedAt)
      && (before[jti].revokedAt.Some? ==> after[jti].revokedAt == before[jti].revokedAt)
  }

  lemma StepAges(s: State, l: Label, jti: Uuid)
    requires Settled(s, jti)
    ensures Settled(Step(s, l), jti) && Ages(s.rows, Step(s, l).rows, jti)
  {
    match l
    case Advance(rid, input) =>
      if rid in s.reqs {
        AdvanceAges(s, rid, input, jti);
        AdvanceSettled(s, rid, input, jti);
      }
    case _ => OtherAges(s, l, jti);
  }

  lemma AdvanceAges(s: State, rid: Uuid, input: Input, jti: Uuid)
    requires Settled(s, jti) && rid in s.reqs
    ensures Ages(s.rows, AdvanceStep(s, rid, input).rows, jti)
  {
  }

  lemma AdvanceSettled(s: State, rid: Uuid, input: Input, jti: Uuid)
    requires Settled(s, jti) && rid in s.reqs
    ensures Settled(AdvanceStep(s, rid, input), jti)
  {
    assert AdvanceStep(s, rid, input).reqs == s.reqs
           || AdvanceStep(s, rid, input).reqs == s.reqs[rid := AdvanceStep(s, rid, input).reqs[rid]];
  }

  lemma OtherAges(s: State, l: Label, jti: Uuid)
    requires Settled(s, jti) && !l.Advance?
    ensures Settled(Step(s, l), jti) && Ages(s.rows, Step(s, l).rows, jti)
  {
  }

  lemma {:induction false} RunAges(s: State, ls: seq<Label>, jti: Uuid)
    requires Settled(s, jti)
    ensures Settled(Run(s, ls), jti) && Ages(s.rows, Run(s, ls).rows, jti)
    decreases |ls|
  {
    if ls != [] {
      StepAges(s, ls[0], jti);
      RunAges(Step(s, ls[0]), ls[1..], jti);
    }
  }

  /** Marks never clear, and no row ever carries both. */
  lemma MarksArePermanent(s: State, ls: seq<Label>, jti: Uuid)
    requires Inv(s) && jti in s.rows
    ensures Ages(s.rows, Run(s, ls).rows, jti)
    ensures jti in Run(s, ls).rows ==>
              Run(s, ls).rows[jti].usedAt.None? || Run(s, ls).rows[jti].revokedAt.None?
  {
    forall r | r in s.reqs
      ensures (s.reqs[r].LoginTrack? ==> s.reqs[r].jti != jti) && (s.reqs[r].Track? ==> s.reqs[r].next != jti)
    {
      assert RequestOk(s, s.reqs[r]);
    }
    RunAges(s, ls, jti);
    RunInv(s, ls);
  }

  // ------------------------------------------------------------ one request alone

  /** The labels of one refresh with nothing in between. */
  function Alone(rid: Uuid, jti: Uuid, input: Input): seq<Label> {
    [StartRefresh(rid, jti)] + seq(5, _ => Advance(rid, input))
  }

  /** How a request that got this answer from Refresh is recorded. */
  function OutcomeOf(answer: Result<Uuid, AuthService.AuthError>): Outcome {
    match answer
    case Ok(jti) => Outcome.Issued(jti)
    case Err(Replayed) => ReplayRejected
    case Err(_) => Invalid
  }

  function AdvanceTimes(s: State, rid: Uuid, input: Input, n: nat): State
    decreases n
  {
    if n == 0 || rid !in s.reqs then s else AdvanceTimes(AdvanceStep(s, rid, input), rid, input, n - 1)
  }

  lemma {:induction false} RunIsAdvanceTimes(s: State, rid: Uuid, input: Input, n: nat)
    requires rid in s.reqs
    ensures Run(s, seq(n, _ => Advance(rid, input))) == AdvanceTimes(s, rid, input, n)
    decreases n
  {
    if n > 0 {
      assert seq(n, _ => Advance(rid, input))[1..] == seq(n - 1, _ => Advance(rid, input));
      RunIsAdvanceTimes(AdvanceStep(s, rid, input), rid, input, n - 1);
    }
  }

  /** The request ended with this outcome, leaving this table and every other request as it was. */
  ghost predicate EndsWith(s: State, t: State, rid: Uuid, outcome: Outcome, rows: Table) {
    && t.rows == rows && rid in t.reqs && t.reqs[rid] == Done(outcome)
    && forall r :: r in s.reqs && r != rid ==> r in t.reqs && t.reqs[r] == s.reqs[r]
  }

  lemma {:induction false} FromDone(s: State, rid: Uuid, input: Input, n: nat)
    requires rid in s.reqs && s.reqs[rid].Done?
    ensures AdvanceTimes(s, rid, input, n) == s
    decreases n
  {
    if n > 0 {
      FromDone(s, rid, input, n - 1);
    }
  }

  lemma FromTrack(s: State, rid: Uuid, input: Input, n: nat)
    requires n >= 1 && rid in s.reqs && s.reqs[rid].Track?
    ensures var pc := s.reqs[rid];
            EndsWith(s, AdvanceTimes(s, rid, input, n), rid, Outcome.Issued(pc.next),
              Tracked(s.rows, pc.next, pc.nextClaims.user, pc.nextClaims.expiresAt))
  {
    FromDone(AdvanceStep(s, rid, input), rid, input, n - 1);
  }

  lemma FromReissue(s: State, rid: Uuid, input: Input, n: nat)
    requires n >= 2 && rid in s.reqs && s.reqs[rid].Reissue? && input.freshJti !in s.signed
    ensures EndsWith(s, AdvanceTimes(s, rid, input, n), rid, Outcome.Issued(input.freshJti),
              Tracked(s.rows, input.freshJti, s.reqs[rid].claims.user, s.now + input.ttl))
  {
    FromTrack(AdvanceStep(s, rid, input), rid, input, n - 1);
  }

  lemma FromGetByID(s: State, rid: Uuid, input: Input, n: nat)
    requires n >= 3 && rid in s.reqs && s.reqs[rid].GetByID? && input.freshJti !in s.signed
    ensures input.userFound ==>
              EndsWith(s, AdvanceTimes(s, rid, input, n), rid, Outcome.Issued(input.freshJti),
                Tracked(s.rows, input.freshJti, s.reqs[rid].claims.user, s.now + input.ttl))
    ensures !input.userFound ==> EndsWith(s, AdvanceTimes(s, rid, input, n), rid, Invalid, s.rows)
  {
    var t := AdvanceStep(s, rid, input);
    if input.userFound {
      FromReissue(t, rid, input, n - 1);
    } else {
      FromDone(t, rid, input, n - 1);
    }
  }

  lemma FromRevokeUser(s: State, rid: Uuid, input: Input, n: nat)
    requires n >= 1 && rid in s.reqs && s.reqs[rid].RevokeUser?
    ensures EndsWith(s, AdvanceTimes(s, rid, input, n), rid, ReplayRejected,
              Revoked(s.rows, s.reqs[rid].owner, s.now))
  {
    FromDone(AdvanceStep(s, rid, input), rid, input, n - 1);
  }

  lemma FromMarkUsed(s: State, rid: Uuid, input: Input, n: nat)
    requires n >= 4 && rid in s.reqs && s.reqs[rid].MarkUsed? && input.freshJti !in s.signed
    requires s.reqs[rid].jti in s.rows && s.rows[s.reqs[rid].jti].Spendable()
    ensures var marked := Marked(s.rows, s.reqs[rid].jti, s.now);
            && (input.userFound ==>
                  EndsWith(s, AdvanceTimes(s, rid, input, n), rid, Outcome.Issued(input.freshJti),
                    Tracked(marked, input.freshJti, s.reqs[rid].claims.user, s.now + input.ttl)))
            && (!input.userFound ==> EndsWith(s, AdvanceTimes(s, rid, input, n), rid, Invalid, marked))
  {
    FromGetByID(AdvanceStep(s, rid, input), rid, input, n - 1);
  }

  lemma FromReadStatus(s: State, rid: Uuid, input: Input, users: set<Uuid>)
    requires rid in s.reqs && s.reqs[rid].ReadStatus? && input.freshJti !in s.signed
    requires input.userFound <==> s.reqs[rid].claims.user in users
    requires ParseAccepts(s.reqs[rid].claims, s.now)
    ensures var pc := s.reqs[rid];
            var (table, answer) := AuthService.RefreshAlone(
              s.rows, AuthService.Presented(pc.jti, pc.claims), users, s.now, input.freshJti, input.ttl);
            EndsWith(s, AdvanceTimes(s, rid, input, 5), rid, OutcomeOf(answer), table)
  {
    var t := AdvanceStep(s, rid, input);
    if t.reqs[rid].MarkUsed? {
      FromMarkUsed(t, rid, input, 4);
    } else if t.reqs[rid].RevokeUser? {
      FromRevokeUser(t, rid, input, 4);
    } else {
      FromDone(t, rid, input, 4);
    }
  }

  /**
   Run with nothing in between, the protocol is the service's own Refresh: same table, same
   answer. It ends within five store calls; further steps change nothing.
   */
  lemma AloneIsRefresh(s: State, rid: Uuid, jti: Uuid, input: Input, users: set<Uuid>)
    requires jti in s.signed && rid !in s.reqs && input.freshJti !in s.signed
    requires input.userFound <==> s.signed[jti].user in users
    requires ParseAccepts(s.signed[jti], s.now)
    ensures var (table, answer) := AuthService.RefreshAlone(
              s.rows, AuthService.Presented(jti, s.signed[jti]), users, s.now, input.freshJti, input.ttl);
            EndsWith(s, Run(s, Alone(rid, jti, input)), rid, OutcomeOf(answer), table)
  {
    var s1 := StartRefreshStep(s, rid, jti);
    FromReadStatus(s1, rid, input, users);
    RunIsAdvanceTimes(s1, rid, input, 5);
    assert Alone(rid, jti, input)[1..] == seq(5, _ => Advance(rid, input));
    assert Run(s, Alone(rid, jti, input)) == Run(s1, Alone(rid, jti, input)[1..]);
  }
}
