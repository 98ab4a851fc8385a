/**
 Concurrent ticket redemption. Load, expiry check, CompareAndSwap and Delete of any number
 of Consumes interleave with Issue and with the pruner's per-key check and delete. The goal:
 it looks like one atomic set from which each ticket can be taken once.
 */
module TicketProtocol {
  import opened Wrappers
  import opened TicketStore

  /** Where a Consume stands: the shared access it makes next. */
  datatype Pc =
    | Load(raw: string)
    | CheckExpiry(raw: string)
    | Swap(raw: string, checkedAt: int)
    | DeleteExpired(raw: string)
    | DeleteUsed(raw: string)
    | Answered(raw: string, answer: Option<Ticket>)

  datatype Pruner = Idle | Ranging(at: int) | Deleting(at: int, raw: string)

  datatype State = State(
    now: int,
    issued: map<string, Ticket>,      // every entry ever stored; raws are never reused
    present: set<string>,             // keys of the concurrent map
    used: set<string>,                // entries whose flag is set
    calls: map<nat, Pc>,
    pruner: Pruner,
    winner: map<string, nat>)         // which call set the flag

  datatype Label =
    | Tick(elapsed: nat)
    | Issue(raw: string, user: Uuid, role: string, ttl: nat)
    | Invoke(cid: nat, raw: string)
    | Advance(cid: nat)
    | CleanupStarts
    | CleanupVisits(raw: string)
    | CleanupDeletes
    | CleanupEnds

  const INITIAL := State(0, map[], {}, {}, map[], Idle, map[])

  function Step(s: State, l: Label): State {
    match l
    case Tick(elapsed) => s.(now := s.now + elapsed)
    case Issue(raw, user, role, ttl) =>
      if raw in s.issued then s
      else s.(issued := s.issued[raw := Ticket(user, role, s.now + ttl)], present := s.present + {raw})
    case Invoke(cid, raw) => if cid in s.calls then s else s.(calls := s.calls[cid := Load(raw)])
    case Advance(cid) => if cid in s.calls then AdvanceStep(s, cid) else s
    case CleanupStarts => if s.pruner.Idle? then s.(pruner := Ranging(s.now)) else s
    case CleanupVisits(raw) =>
      if s.pruner.Ranging? && raw in s.present && raw in s.issued && s.pruner.at > s.issued[raw].expiresAt
      then s.(pruner := Deleting(s.pruner.at, raw)) else s
    case CleanupDeletes =>
      if s.pruner.Deleting?
      then s.(pruner := Ranging(s.pruner.at), present := s.present - {s.pruner.raw}) else s
    case CleanupEnds => if s.pruner.Ranging? then s.(pruner := Idle) else s
  }

  function AdvanceStep(s: State, cid: nat): State
    requires cid in s.calls
  {
    match s.calls[cid]
    case Load(raw) =>
      SetPc(s, cid, if raw in s.present then CheckExpiry(raw) else Answered(raw, None))
    case CheckExpiry(raw) =>
      if raw !in s.issued then s
      else SetPc(s, cid, if s.now > s.issued[raw].expiresAt then DeleteExpired(raw) else Swap(raw, s.now))
    case Swap(raw, _) =>
      if raw in s.used then SetPc(s, cid, Answered(raw, None))
      else SetPc(s, cid, DeleteUsed(raw)).(used := s.used + {raw}, winner := s.winner[raw := cid])
    case DeleteExpired(raw) => SetPc(s, cid, Answered(raw, None)).(present := s.present - {raw})
    case DeleteUsed(raw) =>
      if raw !in s.issued then s
      else SetPc(s, cid, Answered(raw, Some(s.issued[raw]))).(present := s.present - {raw})
    case Answered(_, _) => s
  }

  function SetPc(s: State, cid: nat, pc: Pc): State {
    s.(calls := s.calls[cid := pc])
  }

  function Run(s: State, ls: seq<Label>): State
    decreases |ls|
  {
    if ls == [] then s else Run(Step(s, ls[0]), ls[1..])
  }

  // ------------------------------------------------------------ invariant

  ghost predicate CallOk(s: State, cid: nat, pc: Pc) {
    match pc
    case Load(_) => true
    case CheckExpiry(raw) => raw in s.issued
    case Swap(raw, at) => raw in s.issued && at <= s.issued[raw].expiresAt && at <= s.now
    case DeleteExpired(raw) => raw in s.issued && s.now > s.issued[raw].expiresAt
    case DeleteUsed(raw) => raw in s.issued && raw in s.winner && s.winner[raw] == cid
    case Answered(raw, answer) =>
      answer.Some? ==>
        raw in s.issued && answer.value == s.issued[raw] && raw in s.winner && s.winner[raw] == cid
  }

  /** The call set the flag of `raw`: it has the ticket or only its Delete is left. */
  predicate Won(pc: Pc, raw: string) {
    pc.raw == raw && (pc.DeleteUsed? || (pc.Answered? && pc.answer.Some?))
  }

  ghost predicate Inv(s: State) {
    && (forall r :: r in s.present ==> r in s.issued)
    && (forall r :: r in s.used <==> r in s.winner)
    && (forall r :: r in s.used ==> r in s.issued)
    && (forall r :: r in s.winner ==> s.winner[r] in s.calls && Won(s.calls[s.winner[r]], r))
    && (forall r :: r in s.issued && r !in s.present ==> r in s.used || s.now > s.issued[r].expiresAt)
    && (forall c :: c in s.calls ==> CallOk(s, c, s.calls[c]))
    && (!s.pruner.Idle? ==> s.pruner.at <= s.now)
    && (s.pruner.Deleting? ==>
          s.pruner.raw in s.issued && s.pruner.at > s.issued[s.pruner.raw].expiresAt)
  }

  lemma InitialInv()
    ensures Inv(INITIAL)
  {
  }

  lemma StepInv(s: State, l: Label)
    requires Inv(s)
    ensures Inv(Step(s, l))
  {
    match l
    case Advance(cid) => if cid in s.calls { AdvanceInv(s, cid); }
    case Issue(_, _, _, _) => IssueInv(s, l);
    case Invoke(_, _) => InvokeInv(s, l);
    case _ => OtherInv(s, l);
  }

  lemma IssueInv(s: State, l: Label)
    requires Inv(s) && l.Issue?
    ensures Inv(Step(s, l))
  {
    forall c | c in s.calls ensures CallOk(Step(s, l), c, s.calls[c]) {
      assert CallOk(s, c, s.calls[c]);
    }
  }

  lemma InvokeInv(s: State, l: Label)
    requires Inv(s) && l.Invoke?
    ensures Inv(Step(s, l))
  {
    forall c | c in s.calls ensures CallOk(Step(s, l), c, s.calls[c]) {
      assert CallOk(s, c, s.calls[c]);
    }
  }

  lemma OtherInv(s: State, l: Label)
    requires Inv(s) && !l.Issue? && !l.Invoke? && !l.Advance?
    ensures Inv(Step(s, l))
  {
    forall c | c in s.calls ensures CallOk(Step(s, l), c, s.calls[c]) {
      assert CallOk(s, c, s.calls[c]);
    }
  }

  lemma AdvanceInv(s: State, cid: nat)
    requires Inv(s) && cid in s.calls
    ensures Inv(AdvanceStep(s, cid))
  {
    assert CallOk(s, cid, s.calls[cid]);
    AdvanceCalls(s, cid);
  }

  lemma AdvanceCalls(s: State, cid: nat)
    requires Inv(s) && cid in s.calls
    ensures var t := AdvanceStep(s, cid); forall c :: c in t.calls ==> CallOk(t, c, t.calls[c])
  {
    var t := AdvanceStep(s, cid);
    assert CallOk(s, cid, s.calls[cid]);
    forall c | c in t.calls ensures CallOk(t, c, t.calls[c]) {
      if c != cid {
        assert CallOk(s, c, s.calls[c]);
      }
    }
  }

  lemma {:induction false} RunInv(s: State, ls: seq<Label>)
    requires Inv(s)
    ensures Inv(Run(s, ls))
    decreases |ls|
  {
    if ls != [] {
      StepInv(s, ls[0]);
      RunInv(Step(s, ls[0]), ls[1..]);
    }
  }

  // ------------------------------------------------------------ the atomic specification

  datatype Call = Pending(raw: string) | Taken(raw: string, answer: Option<Ticket>)

  /** One set of tickets; each call takes effect at one instant. */
  datatype Spec = Spec(now: int, issued: map<string, Ticket>, taken: set<string>, calls: map<nat, Call>)

  datatype Act = Stutter | Elapse(elapsed: nat) | Add(raw: string, ticket: Ticket)
               | Begin(cid: nat, raw: string) | Take(cid: nat)

  ghost predicate SpecNext(a: Spec, b: Spec, act: Act) {
    match act
    case Stutter => b == a
    case Elapse(elapsed) => b == a.(now := a.now + elapsed)
    case Add(raw, ticket) => raw !in a.issued && b == a.(issued := a.issued[raw := ticket])
    case Begin(cid, raw) => cid !in a.calls && b == a.(calls := a.calls[cid := Pending(raw)])
    case Take(cid) => TakeNext(a, b, cid)
  }

  /**
   The whole of a Consume at one instant. A ticket still there and not expired is taken; a
   ticket never issued or already taken is refused; once expired it may go either way.
   */
  ghost predicate TakeNext(a: Spec, b: Spec, cid: nat) {
    && cid in a.calls && a.calls[cid].Pending?
    && var raw := a.calls[cid].raw;
    if raw in a.issued && raw !in a.taken && (a.now <= a.issued[raw].expiresAt || raw in b.taken) then
      b == a.(calls := a.calls[cid := Taken(raw, Some(a.issued[raw]))], taken := a.taken + {raw})
    else
      b == a.(calls := a.calls[cid := Taken(raw, None)])
  }

  ghost function AbstractCall(s: State, pc: Pc): Call {
    match pc
    case DeleteExpired(raw) => Taken(raw, None)
    case DeleteUsed(raw) => Taken(raw, if raw in s.issued then Some(s.issued[raw]) else None)
    case Answered(raw, answer) => Taken(raw, answer)
    case _ => Pending(pc.raw)
  }

  ghost function Abstract(s: State): Spec {
    Spec(s.now, s.issued, s.used, map c | c in s.calls :: AbstractCall(s, s.calls[c]))
  }

  /** The atomic action a step amounts to; a Consume takes effect once, between its first access and its answer. */
  ghost function ActOf(s: State, l: Label): Act {
    match l
    case Tick(elapsed) => Elapse(elapsed)
    case Issue(raw, user, role, ttl) =>
      if raw in s.issued then Stutter else Add(raw, Ticket(user, role, s.now + ttl))
    case Invoke(cid, raw) => if cid in s.calls then Stutter else Begin(cid, raw)
    case Advance(cid) =>
      if cid !in s.calls then Stutter
      else (match s.calls[cid]
            case Load(raw) => if raw in s.present then Stutter else Take(cid)
            case CheckExpiry(raw) =>
              if raw in s.issued && s.now > s.issued[raw].expiresAt then Take(cid) else Stutter
            case Swap(_, _) => Take(cid)
            case _ => Stutter)
    case _ => Stutter
  }

  lemma StepRefines(s: State, l: Label)
    requires Inv(s)
    ensures SpecNext(Abstract(s), Abstract(Step(s, l)), ActOf(s, l))
  {
    match l
    case Advance(cid) => if cid in s.calls { AdvanceRefines(s, cid); }
    case Issue(_, _, _, _) => OtherRefines(s, l);
    case Invoke(cid, raw) =>
      if cid !in s.calls {
        MoveCall(s, Step(s, l), cid, Load(raw));
      }
    case _ => assert Abstract(Step(s, l)).calls == Abstract(s).calls;
  }

  /** A new ticket changes no call's account. */
  lemma OtherRefines(s: State, l: Label)
    requires Inv(s) && l.Issue?
    ensures SpecNext(Abstract(s), Abstract(Step(s, l)), ActOf(s, l))
  {
    forall c | c in s.calls ensures AbstractCall(Step(s, l), s.calls[c]) == AbstractCall(s, s.calls[c]) {
      assert CallOk(s, c, s.calls[c]);
    }
    assert Abstract(Step(s, l)).calls == Abstract(s).calls;
  }

  lemma MoveCall(s: State, t: State, cid: nat, pc: Pc)
    requires t.calls == s.calls[cid := pc] && t.issued == s.issued
    ensures Abstract(t).calls == Abstract(s).calls[cid := AbstractCall(s, pc)]
  {
  }

  lemma AdvanceRefines(s: State, cid: nat)
    requires Inv(s) && cid in s.calls
    ensures SpecNext(Abstract(s), Abstract(AdvanceStep(s, cid)), ActOf(s, Advance(cid)))
  {
    assert CallOk(s, cid, s.calls[cid]);
    var t := AdvanceStep(s, cid);
    MoveCall(s, t, cid, t.calls[cid]);
    var raw := s.calls[cid].raw;
    match s.calls[cid] {
      case Load(_) => assert raw in s.issued && raw !in s.present ==> raw in s.used || s.now > s.issued[raw].expiresAt;
      case Swap(_, _) =>
      case Answered(_, _) =>
      case _ =>
    }
    AdvanceActs(s, cid);
  }

  /** What the step did to its own call and to the taken tickets is what the action says. */
  lemma AdvanceActs(s: State, cid: nat)
    requires cid in s.calls && CallOk(s, cid, s.calls[cid])
    requires var raw := s.calls[cid].raw;
             raw in s.issued && raw !in s.present ==> raw in s.used || s.now > s.issued[raw].expiresAt
    requires var t := AdvanceStep(s, cid); Abstract(t).calls == Abstract(s).calls[cid := AbstractCall(s, t.calls[cid])]
    requires forall r :: r in s.used ==> r in s.issued
    ensures SpecNext(Abstract(s), Abstract(AdvanceStep(s, cid)), ActOf(s, Advance(cid)))
  {
    var a, b := Abstract(s), Abstract(AdvanceStep(s, cid));
    if ActOf(s, Advance(cid)).Stutter? {
      assert b.calls[cid] == a.calls[cid];
      assert b.calls == a.calls;
    }
  }

  /** Every run of the store is, step by step, a run of the atomic set. */
  lemma Linearizable(ls: seq<Label>, i: nat)
    requires i < |ls|
    ensures var s := Run(INITIAL, ls[..i]);
            SpecNext(Abstract(s), Abstract(Run(INITIAL, ls[..i + 1])), ActOf(s, ls[i]))
  {
    InitialInv();
    RunInv(INITIAL, ls[..i]);
    RunSnoc(INITIAL, ls[..i], ls[i]);
    assert ls[..i + 1] == ls[..i] + [ls[i]];
    StepRefines(Run(INITIAL, ls[..i]), ls[i]);
  }

  lemma {:induction false} RunSnoc(s: State, ls: seq<Label>, l: Label)
    ensures Run(s, ls + [l]) == Step(Run(s, ls), l)
    decreases |ls|
  {
    if ls == [] {
      assert Run(Step(s, l), []) == Step(s, l);
      assert [l][1..] == [];
    } else {
      assert (ls + [l])[1..] == ls[1..] + [l];
      RunSnoc(Step(s, ls[0]), ls[1..], l);
    }
  }

  /** A ticket is handed out once, with the user and role it was issued for. */
  lemma RedeemedAtMostOnce(ls: seq<Label>, c: nat, d: nat)
    requires var s := Run(INITIAL, ls);
             && c in s.calls && s.calls[c].Answered? && s.calls[c].answer.Some?
             && d in s.calls && s.calls[d].Answered? && s.calls[d].answer.Some?
             && s.calls[c].raw == s.calls[d].raw
    ensures var s := Run(INITIAL, ls);
            c == d && s.calls[c].raw in s.issued && s.calls[c].answer.value == s.issued[s.calls[c].raw]
  {
    InitialInv();
    RunInv(INITIAL, ls);
    var s := Run(INITIAL, ls);
    assert CallOk(s, c, s.calls[c]) && CallOk(s, d, s.calls[d]);
  }

  // ------------------------------------------------------------ a consumer nobody competes with

  /** No other call was ever made for the same ticket. */
  ghost predicate Sole(s: State, cid: nat) {
    cid in s.calls && forall c :: c in s.calls && c != cid ==> s.calls[c].raw != s.calls[cid].raw
  }

  /** Load and expiry check are behind it, and it has its ticket or is about to. */
  predicate Through(pc: Pc, ticket: Ticket) {
    pc.Swap? || pc.DeleteUsed? || (pc.Answered? && pc.answer == Some(ticket))
  }

  predicate Refused(pc: Pc) {
    pc.DeleteExpired? || (pc.Answered? && pc.answer.None?)
  }

  ghost predicate NeverInvokes(ls: seq<Label>, raw: string) {
    forall l :: l in ls && l.Invoke? ==> l.raw != raw
  }

  /** What one step may do to a sole call: nothing turns it back once through, and only expiry turns it away before. */
  lemma SoleStep(s: State, cid: nat, l: Label)
    requires Inv(s) && Sole(s, cid) && s.calls[cid].raw in s.issued
    requires l.Invoke? ==> l.raw != s.calls[cid].raw
    ensures var t, raw := Step(s, l), s.calls[cid].raw;
            && Sole(t, cid) && t.calls[cid].raw == raw && t.now >= s.now
            && raw in t.issued && t.issued[raw] == s.issued[raw]
            && (Through(s.calls[cid], s.issued[raw]) ==> Through(t.calls[cid], s.issued[raw]))
            && (Refused(t.calls[cid]) ==> Refused(s.calls[cid]) || t.now > s.issued[raw].expiresAt)
  {
    if l == Advance(cid) {
      SoleAdvance(s, cid);
    } else {
      SoleWatches(s, cid, l);
    }
  }

  lemma SoleAdvance(s: State, cid: nat)
    requires Inv(s) && Sole(s, cid) && s.calls[cid].raw in s.issued
    ensures var t, raw := AdvanceStep(s, cid), s.calls[cid].raw;
            && Sole(t, cid) && t.calls[cid].raw == raw
            && (Through(s.calls[cid], s.issued[raw]) ==> Through(t.calls[cid], s.issued[raw]))
            && (Refused(t.calls[cid]) ==> Refused(s.calls[cid]) || t.now > s.issued[raw].expiresAt)
  {
    var raw := s.calls[cid].raw;
    assert CallOk(s, cid, s.calls[cid]);
    if raw in s.used {
      assert Won(s.calls[s.winner[raw]], raw);
    }
  }

  lemma SoleWatches(s: State, cid: nat, l: Label)
    requires Inv(s) && Sole(s, cid) && s.calls[cid].raw in s.issued && l != Advance(cid)
    requires l.Invoke? ==> l.raw != s.calls[cid].raw
    ensures var t, raw := Step(s, l), s.calls[cid].raw;
            && Sole(t, cid) && t.calls[cid] == s.calls[cid] && t.now >= s.now
            && raw in t.issued && t.issued[raw] == s.issued[raw]
  {
    hide AdvanceStep, Inv;
    if l.Advance? && l.cid in s.calls {
      AdvanceMovesOne(s, l.cid);
    }
  }

  lemma AdvanceMovesOne(s: State, cid: nat)
    requires cid in s.calls
    ensures var t := AdvanceStep(s, cid);
            && cid in t.calls && t.calls == s.calls[cid := t.calls[cid]] && t.calls[cid].raw == s.calls[cid].raw
            && t.issued == s.issued && t.now == s.now
  {
  }

  /** Over any run in which nobody else asks for the ticket, whatever the pruner does meanwhile. */
  lemma {:induction false} SoleRun(s: State, cid: nat, ls: seq<Label>)
    requires Inv(s) && Sole(s, cid) && s.calls[cid].raw in s.issued && NeverInvokes(ls, s.calls[cid].raw)
    ensures var t, raw := Run(s, ls), s.calls[cid].raw;
            && cid in t.calls && t.calls[cid].raw == raw && t.now >= s.now
            && (Through(s.calls[cid], s.issued[raw]) ==> Through(t.calls[cid], s.issued[raw]))
            && (Refused(t.calls[cid]) ==> Refused(s.calls[cid]) || t.now > s.issued[raw].expiresAt)
    decreases |ls|
  {
    if ls != [] {
      assert ls[0] in ls && forall l :: l in ls[1..] ==> l in ls;
      SoleStep(s, cid, ls[0]);
      StepInv(s, ls[0]);
      SoleRun(Step(s, ls[0]), cid, ls[1..]);
    }
  }

  // ------------------------------------------------------------ every call is answered

  /** How many shared accesses a call is from its answer, at most. */
  function Distance(pc: Pc): nat {
    match pc
    case Load(_) => 4
    case CheckExpiry(_) => 3
    case Swap(_, _) => 2
    case DeleteExpired(_) => 1
    case DeleteUsed(_) => 1
    case Answered(_, _) => 0
  }

  function Turns(ls: seq<Label>, cid: nat): nat {
    if ls == [] then 0 else (if ls[0] == Advance(cid) then 1 else 0) + Turns(ls[1..], cid)
  }

  lemma OwnStepApproaches(s: State, cid: nat)
    requires cid in s.calls && CallOk(s, cid, s.calls[cid])
    ensures cid in AdvanceStep(s, cid).calls
    ensures Distance(AdvanceStep(s, cid).calls[cid]) < Distance(s.calls[cid]) || s.calls[cid].Answered?
    ensures s.calls[cid].Answered? ==> AdvanceStep(s, cid) == s
  {
  }

  lemma OtherStepStays(s: State, cid: nat, l: Label)
    requires cid in s.calls && l != Advance(cid)
    ensures cid in Step(s, l).calls && Step(s, l).calls[cid] == s.calls[cid]
  {
    if l.Advance? && l.cid in s.calls {
      assert Step(s, l).calls == s.calls[l.cid := Step(s, l).calls[l.cid]];
    }
  }

  /** No call waits for another: after four turns of its own it is answered, whatever the others do. */
  lemma {:induction false} TurnsAnswer(s: State, cid: nat, ls: seq<Label>)
    requires Inv(s) && cid in s.calls && Turns(ls, cid) >= Distance(s.calls[cid])
    ensures cid in Run(s, ls).calls && Run(s, ls).calls[cid].Answered?
    decreases |ls|
  {
    if ls != [] {
      if ls[0] == Advance(cid) {
        assert CallOk(s, cid, s.calls[cid]);
        OwnStepApproaches(s, cid);
      } else {
        OtherStepStays(s, cid, ls[0]);
      }
      StepInv(s, ls[0]);
      TurnsAnswer(Step(s, ls[0]), cid, ls[1..]);
    }
  }

  /**
   A call made when the ticket is there and nobody else ever asks for it: with four turns of its own it has its
   ticket in the end, if the run ends before expiry; and once past its check, however late the rest runs and
   whatever the pruner does.
   */
  lemma SoleConsumerSucceeds(before: seq<Label>, ls: seq<Label>, cid: nat)
    requires var s := Run(INITIAL, before);
             && Sole(s, cid) && s.calls[cid].raw in s.issued && !Refused(s.calls[cid])
             && NeverInvokes(ls, s.calls[cid].raw) && Turns(ls, cid) >= Distance(s.calls[cid])
    ensures var s, t := Run(INITIAL, before), Run(Run(INITIAL, before), ls);
            var ticket := s.issued[s.calls[cid].raw];
            && cid in t.calls
            && (t.now <= ticket.expiresAt || Through(s.calls[cid], ticket) ==>
                  t.calls[cid] == Answered(s.calls[cid].raw, Some(ticket)))
  {
    InitialInv();
    RunInv(INITIAL, before);
    var s := Run(INITIAL, before);
    SoleRun(s, cid, ls);
    TurnsAnswer(s, cid, ls);
    RunInv(s, ls);
    var t := Run(s, ls);
    assert CallOk(t, cid, t.calls[cid]);
    IssuedStays(s, ls, s.calls[cid].raw);
  }

  lemma {:induction false} IssuedStays(s: State, ls: seq<Label>, raw: string)
    requires raw in s.issued
    ensures raw in Run(s, ls).issued && Run(s, ls).issued[raw] == s.issued[raw]
    decreases |ls|
  {
    if ls != [] {
      IssuedStays(Step(s, ls[0]), ls[1..], raw);
    }
  }
  // ------------------------------------------------------------ what leaves the map

  /** A ticket handed out is out of the map. */
  ghost predicate TakenAreGone(s: State) {
    && (forall r :: r in s.present ==> r in s.issued)
    && forall c :: c in s.calls && s.calls[c].Answered? && s.calls[c].answer.Some? ==> s.calls[c].raw !in s.present
  }

  lemma StepTakenAreGone(s: State, l: Label)
    requires Inv(s) && TakenAreGone(s)
    ensures TakenAreGone(Step(s, l))
  {
    match l
    case Advance(cid) =>
      if cid in s.calls {
        AdvanceMovesOne(s, cid);
      }
    case Issue(raw, _, _, _) =>
      forall c | c in s.calls && s.calls[c].Answered? && s.calls[c].answer.Some? ensures s.calls[c].raw in s.issued {
        assert CallOk(s, c, s.calls[c]);
      }
    case _ =>
  }

  lemma {:induction false} RunTakenAreGone(s: State, ls: seq<Label>)
    requires Inv(s) && TakenAreGone(s)
    ensures TakenAreGone(Run(s, ls))
    decreases |ls|
  {
    if ls != [] {
      StepTakenAreGone(s, ls[0]);
      StepInv(s, ls[0]);
      RunTakenAreGone(Step(s, ls[0]), ls[1..]);
    }
  }

  /** In every run a ticket that was handed out is no longer in the map. */
  lemma HandedOutIsGone(ls: seq<Label>, cid: nat)
    requires var s := Run(INITIAL, ls); cid in s.calls && s.calls[cid].Answered? && s.calls[cid].answer.Some?
    ensures Run(INITIAL, ls).calls[cid].raw !in Run(INITIAL, ls).present
  {
    InitialInv();
    RunTakenAreGone(INITIAL, ls);
  }

  /** An idle pruner whose round starts now removes the expired ticket it visits, and never a live one. */
  lemma PrunerRemovesExpired(s: State, raw: string)
    requires s.pruner.Idle? && raw in s.present && raw in s.issued
    ensures var t := Step(Step(Step(s, CleanupStarts), CleanupVisits(raw)), CleanupDeletes);
            t.present == if s.now > s.issued[raw].expiresAt then s.present - {raw} else s.present
  {
  }
}
