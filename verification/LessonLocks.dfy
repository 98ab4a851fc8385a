/**
 * The database repository's overlap check at row-lock granularity, read committed: a transaction's select fixes
 * which rows it will wait for, then locks them in their present form, checks, writes and commits. The lock covers
 * rows that exist; it keeps edits apart and does not keep new rows out.
 */
module LessonLocks {
  import opened Wrappers
  import opened Lessons

  predicate SameDay(a: Lesson, b: Lesson) {
    a.classroom == b.classroom && a.day == b.day
  }

  /** The scan over the locked rows; `exclude` is the row being updated, if any. */
  method Conflicts(peers: seq<Lesson>, l: Lesson, exclude: Option<Uuid>) returns (conflict: bool)
    ensures conflict <==> exists i :: 0 <= i < |peers| && Some(peers[i].id) != exclude && peers[i].Overlaps(l)
  {
    for i := 0 to |peers|
      invariant forall k :: 0 <= k < i ==> Some(peers[k].id) == exclude || !peers[k].Overlaps(l)
    {
      if Some(peers[i].id) == exclude {
        continue;
      }
      if peers[i].Overlaps(l) {
        return true;
      }
    }
    conflict := false;
  }

  /** `since` is what the proofs remember: the rows that came into the transaction's day after its select. */
  datatype Tx =
    | Waiting(l: Lesson, update: bool, since: set<Uuid>, ids: set<Uuid>)
    | Holding(l: Lesson, update: bool, since: set<Uuid>, peers: Store)

  datatype State = State(rows: Store, txs: map<nat, Tx>)

  datatype Action =
    | Select(t: nat, l: Lesson, update: bool)
    | Lock(t: nat)
    | Write(t: nat)        // check, write and commit, or roll back
    | Delete(id: Uuid)

  ghost predicate Unlocked(s: State, ids: set<Uuid>, but: Option<nat>) {
    forall u, id :: u in s.txs && Some(u) != but && s.txs[u].Holding? && id in s.txs[u].peers ==> id !in ids
  }

  /** The row comes into its day: it was not there, or on another day. */
  predicate Arrives(rows: Store, l: Lesson) {
    !(l.id in rows && SameDay(rows[l.id], l))
  }

  function Noticed(x: Tx, l: Lesson): Tx {
    if SameDay(x.l, l) then x.(since := x.since + {l.id}) else x
  }

  ghost function Step(s: State, act: Action): State {
    match act
    case Select(t, l, update) =>
      if t in s.txs || !l.Valid() then s
      else s.(txs := s.txs[t := Waiting(l, update, {}, set id | id in s.rows && SameDay(s.rows[id], l))])
    case Lock(t) => if CanLock(s, t) then s.(txs := s.txs[t := Locked(s.rows, s.txs[t])]) else s
    case Write(t) =>
      if !CanWrite(s, t) then s
      else if Refused(s.rows, s.txs[t]) then s.(txs := s.txs - {t})
      else Committed(s, t)
    case Delete(id) =>
      if Unlocked(s, {id}, None) then s.(rows := s.rows - {id}) else s
  }

  ghost predicate CanLock(s: State, t: nat) {
    t in s.txs && s.txs[t].Waiting? && Unlocked(s, s.txs[t].ids, Some(t))
  }

  /** The rows selected, as they are now, as far as they are still there and on the day. */
  function Locked(rows: Store, x: Tx): Tx
    requires x.Waiting?
  {
    Holding(x.l, x.update, x.since, map id | id in x.ids && id in rows && SameDay(rows[id], x.l) :: rows[id])
  }

  ghost predicate CanWrite(s: State, t: nat) {
    t in s.txs && s.txs[t].Holding? && Unlocked(s, {s.txs[t].l.id}, Some(t))
  }

  /** A conflict among the locked rows, no row to update, or a duplicate key. */
  predicate Refused(rows: Store, x: Tx)
    requires x.Holding?
  {
    ClashesWith(x.peers, x.l, if x.update then {x.l.id} else {}) || x.update != (x.l.id in rows)
  }

  ghost function Committed(s: State, t: nat): State
    requires t in s.txs
  {
    var l := s.txs[t].l;
    State(s.rows[l.id := l],
          map u | u in s.txs && u != t :: if Arrives(s.rows, l) then Noticed(s.txs[u], l) else s.txs[u])
  }

  ghost function Run(s: State, acts: seq<Action>): State
    decreases |acts|
  {
    if acts == [] then s else Run(Step(s, acts[0]), acts[1..])
  }

  // ------------------------------------------------------------ what the lock does not do

  function Noon(id: Uuid, startsAt: int): Lesson {
    Lesson(id, 1, "maths", None, MONDAY, startsAt, 780, "")
  }

  lemma BothHold()
    ensures Run(State(map[], map[]), TWO_CREATES[..4])
         == State(map[], map[1 := Holding(Noon(1, 720), false, {}, map[]), 2 := Holding(Noon(2, 730), false, {}, map[])])
  {
    var s0 := State(map[], map[]);
    var s1 := Step(s0, TWO_CREATES[0]);
    assert s1.txs[1].ids == {};
    assert s1.txs == map[1 := Waiting(Noon(1, 720), false, {}, {})];
    var s2 := Step(s1, TWO_CREATES[1]);
    assert s2.txs[2].ids == {};
    assert s2.txs == s1.txs[2 := Waiting(Noon(2, 730), false, {}, {})];
    var s3 := Step(s2, TWO_CREATES[2]);
    assert CanLock(s2, 1) && Locked(s2.rows, s2.txs[1]).peers == map[];
    assert s3.txs == s2.txs[1 := Holding(Noon(1, 720), false, {}, map[])];
    var s4 := Step(s3, TWO_CREATES[3]);
    assert CanLock(s3, 2) && Locked(s3.rows, s3.txs[2]).peers == map[];
    assert s4.txs == s3.txs[2 := Holding(Noon(2, 730), false, {}, map[])];
    var ls := TWO_CREATES[..4];
    assert ls[1..][1..] == ls[2..] && ls[2..][1..] == ls[3..] && ls[3..][1..] == [];
    assert Run(s4, []) == s4;
    assert Run(s3, ls[3..]) == s4;
    assert Run(s2, ls[2..]) == s4;
    assert Run(s1, ls[1..]) == s4;
  }

  const TWO_CREATES := [
    Select(1, Noon(1, 720), false), Select(2, Noon(2, 730), false), Lock(1), Lock(2), Write(1), Write(2)]

  lemma {:induction false} RunAppends(s: State, xs: seq<Action>, ys: seq<Action>)
    ensures Run(s, xs + ys) == Run(Run(s, xs), ys)
    decreases |xs|
  {
    if xs == [] {
      assert xs + ys == ys;
    } else {
      assert (xs + ys)[1..] == xs[1..] + ys;
      RunAppends(Step(s, xs[0]), xs[1..], ys);
    }
  }

  lemma BothCommit(s: State)
    requires s == State(map[], map[1 := Holding(Noon(1, 720), false, {}, map[]),
                                   2 := Holding(Noon(2, 730), false, {}, map[])])
    ensures Run(s, TWO_CREATES[4..]).rows == map[1 := Noon(1, 720), 2 := Noon(2, 730)]
  {
    var s5 := Step(s, Write(1));
    assert s5.rows == map[1 := Noon(1, 720)] && 2 in s5.txs && s5.txs[2].Holding?;
    var s6 := Step(s5, Write(2));
    assert s6.rows == map[1 := Noon(1, 720), 2 := Noon(2, 730)];
    assert TWO_CREATES[4..][1..] == [Write(2)] && [Write(2)][1..] == [];
    assert Run(s5, [Write(2)]) == Run(s6, []);
  }

  /** Two creations in an empty day lock nothing, both pass and both commit. */
  lemma TwoCreatesCanOverlap()
    ensures var a, b := Noon(1, 720), Noon(2, 730);
            var s := Run(State(map[], map[]), TWO_CREATES);
            s.rows == map[1 := a, 2 := b] && Clash(a, b) && !Timetable(s.rows)
  {
    hide Run;
    BothHold();
    BothCommit(Run(State(map[], map[]), TWO_CREATES[..4]));
    RunAppends(State(map[], map[]), TWO_CREATES[..4], TWO_CREATES[4..]);
    assert TWO_CREATES == TWO_CREATES[..4] + TWO_CREATES[4..];
    var rows := Run(State(map[], map[]), TWO_CREATES).rows;
    assert Clash(rows[1], rows[2]);
  }

  // ------------------------------------------------------------ exactly when it fails

  /** What a transaction knows: locked rows stay as they are, and the rest of its day arrived since its select. */
  ghost predicate TxInv(rows: Store, x: Tx) {
    && x.l.Valid()
    && (forall id :: id in rows && SameDay(rows[id], x.l) ==>
          id in x.since || (if x.Waiting? then id in x.ids else id in x.peers))
    && (x.Holding? ==> forall id :: id in x.peers ==> id in rows && rows[id] == x.peers[id] && SameDay(rows[id], x.l))
  }

  /** No row is locked twice. */
  ghost predicate Apart(s: State) {
    forall t, u, id :: t in s.txs && u in s.txs && t != u && s.txs[t].Holding? && s.txs[u].Holding? ==>
                         !(id in s.txs[t].peers && id in s.txs[u].peers)
  }

  ghost predicate Inv(s: State) {
    (forall t :: t in s.txs ==> TxInv(s.rows, s.txs[t])) && Apart(s)
  }

  /** The locks hold through every action of every run. */
  lemma StepInv(s: State, act: Action)
    requires Inv(s)
    ensures Inv(Step(s, act))
  {
    match act {
      case Select(t, l, update) =>
      case Lock(t) => if CanLock(s, t) { LockInv(s, t); }
      case Write(t) => if CanWrite(s, t) && !Refused(s.rows, s.txs[t]) { CommittedInv(s, t); }
      case Delete(id) => DeleteInv(s, id);
    }
  }

  lemma LockInv(s: State, t: nat)
    requires Inv(s) && CanLock(s, t)
    ensures Inv(Step(s, Lock(t)))
  {
    assert TxInv(s.rows, s.txs[t]);
    assert TxInv(s.rows, Locked(s.rows, s.txs[t]));
  }

  lemma DeleteInv(s: State, id: Uuid)
    requires Inv(s)
    ensures Inv(Step(s, Delete(id)))
  {
    forall t | t in s.txs ensures TxInv(Step(s, Delete(id)).rows, s.txs[t]) {
      assert TxInv(s.rows, s.txs[t]);
    }
  }

  lemma CommittedInv(s: State, t: nat)
    requires Inv(s) && CanWrite(s, t)
    ensures Inv(Committed(s, t))
  {
    hide TxInv;
    var n := Committed(s, t);
    forall u | u in n.txs ensures TxInv(n.rows, n.txs[u]) {
      OthersNotice(s.rows, s.txs[t].l, s.txs[u]);
    }
  }

  /** Another transaction keeps its locked rows, and notices an arrival on its day. */
  lemma OthersNotice(rows: Store, l: Lesson, x: Tx)
    requires TxInv(rows, x) && (x.Holding? ==> l.id !in x.peers)
    ensures TxInv(rows[l.id := l], if Arrives(rows, l) then Noticed(x, l) else x)
  {
  }

  /**
   The write commits over a lesson it could not see: one that came into the day after the transaction's select,
   is not among the rows it locked, and overlaps.
   */
  ghost predicate Blind(s: State, act: Action) {
    && act.Write? && CanWrite(s, act.t) && !Refused(s.rows, s.txs[act.t])
    && var x := s.txs[act.t];
       exists id :: id in x.since && id !in x.peers && id in s.rows && id != x.l.id && Clash(s.rows[id], x.l)
  }

  lemma CommitFitsIff(rows: Store, x: Tx)
    requires Timetable(rows) && x.Holding? && TxInv(rows, x) && !Refused(rows, x)
    ensures Timetable(rows[x.l.id := x.l]) <==>
              !exists id :: id in x.since && id !in x.peers && id in rows && id != x.l.id && Clash(rows[id], x.l)
  {
    var after := rows[x.l.id := x.l];
    if id :| id in x.since && id !in x.peers && id in rows && id != x.l.id && Clash(rows[id], x.l) {
      assert Clash(after[id], after[x.l.id]);
    } else {
      forall a | a in rows && a != x.l.id ensures !Clash(x.l, rows[a]) && !Clash(rows[a], x.l) {
        if SameDay(rows[a], x.l) && a in x.peers {
          assert !Clash(x.peers[a], x.l);
        }
      }
    }
  }

  /** One action keeps a timetable exactly when it is not a blind write. */
  lemma StepFitsIff(s: State, act: Action)
    requires Inv(s) && Timetable(s.rows)
    ensures Timetable(Step(s, act).rows) <==> !Blind(s, act)
  {
    match act {
      case Write(t) => if CanWrite(s, t) && !Refused(s.rows, s.txs[t]) { CommitFitsIff(s.rows, s.txs[t]); }
      case _ =>
    }
  }

  ghost predicate TimetableThroughout(s: State, acts: seq<Action>)
    decreases |acts|
  {
    Timetable(s.rows) && (acts == [] || TimetableThroughout(Step(s, acts[0]), acts[1..]))
  }

  ghost predicate NeverBlind(s: State, acts: seq<Action>)
    decreases |acts|
  {
    acts == [] || (!Blind(s, acts[0]) && NeverBlind(Step(s, acts[0]), acts[1..]))
  }

  lemma {:induction false} ThroughoutIff(s: State, acts: seq<Action>)
    requires Inv(s) && Timetable(s.rows)
    ensures TimetableThroughout(s, acts) <==> NeverBlind(s, acts)
    ensures NeverBlind(s, acts) ==> Timetable(Run(s, acts).rows)
    decreases |acts|
  {
    if acts != [] {
      StepFitsIff(s, acts[0]);
      if !Blind(s, acts[0]) {
        StepInv(s, acts[0]);
        ThroughoutIff(Step(s, acts[0]), acts[1..]);
      }
    }
  }

  /**
   What the row locks are worth, exactly: starting from a timetable, every run keeps one at every point if and only
   if no transaction commits over an overlapping lesson that arrived unseen since its select.
   */
  lemma RowLocksSufficeIff(rows: Store, acts: seq<Action>)
    requires Timetable(rows)
    ensures TimetableThroughout(State(rows, map[]), acts) <==> NeverBlind(State(rows, map[]), acts)
  {
    ThroughoutIff(State(rows, map[]), acts);
  }

  /**
   What one transaction's end does to the rows: its lesson is stored exactly when no locked row conflicts and there
   is a row to update, or none to collide with; and its locks are gone.
   */
  lemma WriteStoresIff(s: State, t: nat)
    requires CanWrite(s, t)
    ensures var x, n := s.txs[t], Step(s, Write(t));
            var conflict := ClashesWith(x.peers, x.l, if x.update then {x.l.id} else {});
            && t !in n.txs
            && (x.update ==> n.rows == if conflict || x.l.id !in s.rows then s.rows else s.rows[x.l.id := x.l])
            && (!x.update ==> n.rows == if conflict || x.l.id in s.rows then s.rows else s.rows[x.l.id := x.l])
  {
  }

  /** A deletion waits for whoever has locked the row, and otherwise takes exactly it. */
  lemma DeleteTakesUnlocked(s: State, id: Uuid)
    ensures var n := Step(s, Delete(id));
            && n.txs == s.txs
            && n.rows == if exists t :: t in s.txs && s.txs[t].Holding? && id in s.txs[t].peers then s.rows
                         else s.rows - {id}
  {
  }

  // ------------------------------------------------------------ a discipline that is enough

  /** A write that brings a row into a day finds no other transaction at work on that day. */
  ghost predicate Undisturbed(s: State, act: Action) {
    act.Write? && act.t in s.txs ==>
      var l := s.txs[act.t].l;
      !Arrives(s.rows, l) || forall u :: u in s.txs && u != act.t ==> !SameDay(s.txs[u].l, l)
  }

  ghost predicate AllUndisturbed(s: State, acts: seq<Action>)
    decreases |acts|
  {
    acts == [] || (Undisturbed(s, acts[0]) && AllUndisturbed(Step(s, acts[0]), acts[1..]))
  }

  ghost predicate NobodyDisturbed(s: State) {
    forall t :: t in s.txs ==> s.txs[t].since == {}
  }

  lemma UndisturbedStep(s: State, act: Action)
    requires NobodyDisturbed(s) && Undisturbed(s, act)
    ensures NobodyDisturbed(Step(s, act)) && !Blind(s, act)
  {
  }

  lemma {:induction false} UndisturbedIsNeverBlind(s: State, acts: seq<Action>)
    requires NobodyDisturbed(s) && AllUndisturbed(s, acts)
    ensures NeverBlind(s, acts)
    decreases |acts|
  {
    if acts != [] {
      UndisturbedStep(s, acts[0]);
      UndisturbedIsNeverBlind(Step(s, acts[0]), acts[1..]);
    }
  }

  /** Edits within a day, moves out of it and deletions may interleave freely; only arrivals need a day to themselves. */
  lemma ArrivalsAloneSuffice(rows: Store, acts: seq<Action>)
    requires Timetable(rows) && AllUndisturbed(State(rows, map[]), acts)
    ensures TimetableThroughout(State(rows, map[]), acts) && Timetable(Run(State(rows, map[]), acts).rows)
  {
    UndisturbedIsNeverBlind(State(rows, map[]), acts);
    ThroughoutIff(State(rows, map[]), acts);
  }
}
