/**
 No caller of the credentials service waits for ever. Waiting chains are short and end at somebody who can step, and
 from every reachable state every call can be brought to its end, whatever the database and Home Assistant answer.
 */
module HassProgress {
  import opened Wrappers
  import opened HassCredentials

  /** Who holds the mutex a caller is waiting for. */
  function Blocker(s: State, tid: nat): Option<nat> {
    if tid !in s.threads then None
    else if NeedsMu(s.threads[tid]) then s.mu
    else if s.threads[tid] == Cred(WantRefreshMu) then s.refreshMu
    else None
  }

  /** The caller can step, or the one it waits for can, or the one that one waits for. */
  ghost predicate Moves(s: State, tid: nat) {
    || CanAdvance(s, tid)
    || (Blocker(s, tid).Some? && CanAdvance(s, Blocker(s, tid).value))
    || (Blocker(s, tid).Some? && Blocker(s, Blocker(s, tid).value).Some?
        && CanAdvance(s, Blocker(s, Blocker(s, tid).value).value))
  }

  /** No reachable state of the two mutexes holds a deadlock, not even among some of the callers. */
  lemma NoDeadlock(ls: seq<Label>, tid: nat)
    requires var s := Run(INITIAL, ls); tid in s.threads && !s.threads[tid].Done?
    ensures Moves(Run(INITIAL, ls), tid)
  {
    InitialInv();
    RunInv(INITIAL, ls);
    MovesOfLocks(Run(INITIAL, ls), tid);
  }

  lemma MovesOfLocks(s: State, tid: nat)
    requires LocksOk(s.threads, s.mu, s.refreshMu) && tid in s.threads && !s.threads[tid].Done?
    ensures Moves(s, tid)
  {
    if !CanAdvance(s, tid) {
      var b := Blocker(s, tid).value;
      if !CanAdvance(s, b) {
        assert NeedsMu(s.threads[b]) && s.mu.Some?;
        assert CanAdvance(s, s.mu.value);
      }
    }
  }

  // ------------------------------------------------------------ every call ends

  /** An upper bound on the steps a call still takes, whatever it is answered. */
  function Rank(pc: Pc): nat {
    match pc
    case Cred(c) => (match c
                     case Enter => 20
                     case WantRefreshMu => 19
                     case Recheck => 18
                     case Trip(_, _) => 10
                     case StoreTokens(_, _) => 9
                     case SaveTokens(_, attempt) => if attempt < SAVE_ATTEMPTS then 3 + SAVE_ATTEMPTS - attempt else 3
                     case NoteSaveError(_) => 2)
    case Boot(_, b) => (match b
                        case WantMu => 9
                        case Load => 8
                        case Status => 7
                        case CreateOwner => 6
                        case Login => 5
                        case Exchange => 5
                        case Finish(_) => 4
                        case SaveFirst(_) => 3
                        case Resume(_) => 1)
    case Manual(m, _) => (match m
                          case Probe => 3
                          case SaveManual => 2
                          case StoreManual => 1)
    case Done(_) => 0
  }

  /** Neither mutex stands in the way of this caller, now or later. */
  ghost predicate Clear(s: State, tid: nat) {
    && tid in s.threads
    && (s.mu.None? || s.mu == Some(tid))
    && (s.threads[tid].Boot? || s.threads[tid].Done? || s.refreshMu.None? || s.refreshMu == Some(tid))
  }

  /** Others do not move while this caller takes its steps. */
  ghost predicate OnlyMoved(s: State, t: State, tid: nat) {
    forall r :: r in s.threads && r != tid ==> r in t.threads && t.threads[r] == s.threads[r]
  }

  /** One step of a clear caller: it stays clear, comes nearer its end, and takes `refreshMu` if anything. */
  ghost predicate Nearer(s: State, t: State, tid: nat)
    requires tid in s.threads
  {
    && Clear(t, tid) && OnlyMoved(s, t, tid) && Rank(t.threads[tid]) < Rank(s.threads[tid])
    && (t.refreshMu == s.refreshMu || t.refreshMu.None? || t.refreshMu == Some(tid))
  }

  lemma ClearStep(s: State, tid: nat, input: Input)
    requires LocksOk(s.threads, s.mu, s.refreshMu) && Clear(s, tid) && !s.threads[tid].Done?
    ensures CanAdvance(s, tid) && Nearer(s, AdvanceStep(s, tid, input), tid)
  {
    match s.threads[tid]
    case Cred(c) =>
      if c.Enter? || c.WantRefreshMu? || c.Recheck? {
        ClearLook(s, tid, c, input);
      } else {
        ClearTrip(s, tid, c, input);
      }
    case Boot(nested, b) =>
      if b.WantMu? || b.Load? || b.Resume? || b.Status? {
        ClearBootStart(s, tid, nested, b, input);
      } else {
        ClearBootRest(s, tid, nested, b, input);
      }
    case Manual(_, _) =>
  }

  lemma ClearLook(s: State, tid: nat, c: CredPc, input: Input)
    requires Clear(s, tid) && s.threads[tid] == Cred(c) && (c.Enter? || c.WantRefreshMu? || c.Recheck?)
    ensures Nearer(s, CredStep(s, tid, c, input), tid)
  {
  }

  lemma ClearTrip(s: State, tid: nat, c: CredPc, input: Input)
    requires Clear(s, tid) && s.threads[tid] == Cred(c) && !c.Enter? && !c.WantRefreshMu? && !c.Recheck?
    ensures Nearer(s, CredStep(s, tid, c, input), tid)
  {
  }

  lemma ClearBootStart(s: State, tid: nat, nested: bool, b: BootPc, input: Input)
    requires Clear(s, tid) && s.threads[tid] == Boot(nested, b)
    requires b.WantMu? || b.Load? || b.Resume? || b.Status?
    ensures Nearer(s, BootStep(s, tid, nested, b, input), tid)
  {
  }

  lemma ClearBootRest(s: State, tid: nat, nested: bool, b: BootPc, input: Input)
    requires Clear(s, tid) && s.threads[tid] == Boot(nested, b)
    requires !b.WantMu? && !b.Load? && !b.Resume? && !b.Status?
    ensures Nearer(s, BootStep(s, tid, nested, b, input), tid)
  {
  }

  /** Only callers' steps, each answered as the world would answer that caller in that state. */
  ghost predicate Answered(s: State, ls: seq<Label>, world: (State, nat) -> Input)
    decreases |ls|
  {
    ls == [] || (ls[0].Advance? && ls[0].input == world(s, ls[0].tid) && Answered(Step(s, ls[0]), ls[1..], world))
  }

  /** A clear caller ends by its own steps and holds nothing then. */
  lemma {:induction false} ClearCallerEnds(s: State, tid: nat, world: (State, nat) -> Input) returns (ls: seq<Label>)
    requires Inv(s) && Clear(s, tid)
    ensures Answered(s, ls, world) && |ls| <= Rank(s.threads[tid])
    ensures var t := Run(s, ls);
            && Inv(t) && tid in t.threads && t.threads[tid].Done? && OnlyMoved(s, t, tid)
            && t.mu.None? && (t.refreshMu == s.refreshMu || t.refreshMu.None?)
    decreases Rank(s.threads[tid])
  {
    if s.threads[tid].Done? {
      ls := [];
    } else {
      var l := Advance(tid, world(s, tid));
      ClearStep(s, tid, l.input);
      StepInv(s, l);
      var rest := ClearCallerEnds(Step(s, l), tid, world);
      ls := [l] + rest;
      assert ls[1..] == rest;
    }
  }

  lemma {:induction false} AnsweredJoins(s: State, xs: seq<Label>, ys: seq<Label>, world: (State, nat) -> Input)
    requires Answered(s, xs, world) && Answered(Run(s, xs), ys, world)
    ensures Answered(s, xs + ys, world) && Run(s, xs + ys) == Run(Run(s, xs), ys)
    decreases |xs|
  {
    if xs == [] {
      assert xs + ys == ys;
    } else {
      assert (xs + ys)[1..] == xs[1..] + ys;
      AnsweredJoins(Step(s, xs[0]), xs[1..], ys, world);
    }
  }

  /** Whoever holds `mu` ends first. */
  lemma MuComesFree(s: State, world: (State, nat) -> Input) returns (ls: seq<Label>)
    requires Inv(s)
    ensures Answered(s, ls, world)
    ensures var t := Run(s, ls);
            Inv(t) && t.mu.None? && forall r :: r in s.threads ==> r in t.threads
  {
    if s.mu.None? {
      ls := [];
    } else {
      ls := ClearCallerEnds(s, s.mu.value, world);
    }
  }

  /** Then whoever holds `refreshMu`. */
  lemma BothComeFree(s: State, world: (State, nat) -> Input) returns (ls: seq<Label>)
    requires Inv(s)
    ensures Answered(s, ls, world)
    ensures var t := Run(s, ls);
            Inv(t) && t.mu.None? && t.refreshMu.None? && forall r :: r in s.threads ==> r in t.threads
  {
    ls := MuComesFree(s, world);
    var t := Run(s, ls);
    if t.refreshMu.Some? {
      var holder := t.refreshMu.value;
      var rest := ClearCallerEnds(t, holder, world);
      AnsweredJoins(s, ls, rest, world);
      ls := ls + rest;
    }
  }

  /** From every reachable state every call can end, with no new caller and whatever the calls upstream are answered. */
  lemma EveryCallCanEnd(before: seq<Label>, tid: nat, world: (State, nat) -> Input) returns (ls: seq<Label>)
    requires tid in Run(INITIAL, before).threads
    ensures var s := Run(INITIAL, before);
            Answered(s, ls, world) && tid in Run(s, ls).threads && Run(s, ls).threads[tid].Done?
  {
    InitialInv();
    RunInv(INITIAL, before);
    var s := Run(INITIAL, before);
    ls := BothComeFree(s, world);
    var rest := ClearCallerEnds(Run(s, ls), tid, world);
    AnsweredJoins(s, ls, rest, world);
    ls := ls + rest;
  }
}
