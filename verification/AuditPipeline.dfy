/**
 The audit pipeline: producers that check `done` and then try to send, the goroutine that
 batches the channel into Inserts, and callers of FlushSync that drain what is left after it.
 Every channel operation, select and Insert boundary is one atomic step. A label that is not
 enabled leaves the state alone, so every list of labels is a run.
 */
module AuditPipeline {
  import opened AuditEntry
  import opened Batches

  const CAPACITY: nat := 1024
  const BATCH: nat := 64

  /** The batching goroutine; inside an Insert its buffer is already handed over. */
  datatype Runner =
    | Collecting(buf: seq<Entry>)
    | Inserting(draining: bool)
    | Draining(buf: seq<Entry>)       // saw done: receives until the channel is empty
    | FinalInserting
    | Exited                          // wg.Done has run

  /** One call of FlushSync. */
  datatype Flusher =
    | Waiting                         // in wg.Wait
    | Filling(buf: seq<Entry>)
    | Flushing(cancelled: bool)       // inside its Insert
    | Returned(cancelled: bool)

  datatype State = State(
    chan: seq<Entry>,
    done: bool,
    producers: map<nat, Entry>,       // past the done check, about to try the send
    runner: Runner,
    flushers: seq<Flusher>,
    inserts: seq<seq<Entry>>,         // every attempted Insert, in the order they began
    byRunner: nat,                    // how many of them the runner made
    accepted: seq<Entry>,             // every entry the channel took, in send order
    acceptedAtStop: nat,
    received: nat)                    // receives made by anyone

  datatype Label =
    | CheckDone(pid: nat, entry: Entry)
    | TrySend(pid: nat)
    | RunReceive
    | RunTick
    | RunSeesDone
    | RunEmpty
    | RunInsertEnds
    | Stop
    | CallFlushSync
    | WaitReturns(i: nat)
    | FlushReceive(i: nat)
    | FlushEmpty(i: nat)
    | FlushCancelled(i: nat)
    | FlushInsertEnds(i: nat)

  const INITIAL := State([], false, map[], Collecting([]), [], [], 0, [], 0, 0)

  function Step(s: State, l: Label): State {
    match l
    case CheckDone(p, e) =>
      if s.done || p in s.producers then s else s.(producers := s.producers[p := e])
    case TrySend(p) => if p in s.producers then TrySendStep(s, p) else s
    case RunReceive => RunReceiveStep(s)
    case RunTick => if s.runner.Collecting? then RunFlush(s, Collecting([]), Inserting(false)) else s
    case RunSeesDone =>
      if s.runner.Collecting? && s.done then s.(runner := Draining(s.runner.buf)) else s
    case RunEmpty =>
      if s.runner.Draining? && s.chan == [] then RunFlush(s, Exited, FinalInserting) else s
    case RunInsertEnds => s.(runner := AfterInsert(s.runner))
    case Stop => Stopped(s)
    case CallFlushSync => Stopped(s).(flushers := s.flushers + [Waiting])
    case WaitReturns(i) =>
      if i < |s.flushers| && s.flushers[i].Waiting? && s.runner.Exited?
      then s.(flushers := s.flushers[i := Filling([])]) else s
    case FlushReceive(i) =>
      if i < |s.flushers| && s.flushers[i].Filling? && s.chan != [] then FlushReceiveStep(s, i) else s
    case FlushEmpty(i) =>
      if i < |s.flushers| && s.flushers[i].Filling? && s.chan == [] then FlushStep(s, i, false) else s
    case FlushCancelled(i) =>
      if i < |s.flushers| && s.flushers[i].Filling? then FlushStep(s, i, true) else s
    case FlushInsertEnds(i) =>
      if i < |s.flushers| && s.flushers[i].Flushing?
      then s.(flushers := s.flushers[i := Returned(s.flushers[i].cancelled)]) else s
  }

  /** A full channel drops the entry; the producer never blocks. */
  function TrySendStep(s: State, p: nat): State
    requires p in s.producers
  {
    var rest := s.(producers := s.producers - {p});
    if |s.chan| < CAPACITY then
      rest.(chan := s.chan + [s.producers[p]], accepted := s.accepted + [s.producers[p]])
    else rest
  }

  function RunReceiveStep(s: State): State {
    if !(s.runner.Collecting? || s.runner.Draining?) || s.chan == [] then s
    else
      var buf := s.runner.buf + [s.chan[0]];
      var t := s.(chan := s.chan[1..], received := s.received + 1);
      var filled := if s.runner.Collecting? then Collecting(buf) else Draining(buf);
      if |buf| >= BATCH then RunFlush(t.(runner := filled), filled, Inserting(s.runner.Draining?))
      else t.(runner := filled)
  }

  /** flush(): nothing to do on an empty buffer, otherwise the Insert begins. */
  function RunFlush(s: State, ifEmpty: Runner, inserting: Runner): State
    requires s.runner.Collecting? || s.runner.Draining?
  {
    if s.runner.buf == [] then s.(runner := ifEmpty)
    else s.(runner := inserting, inserts := s.inserts + [s.runner.buf], byRunner := s.byRunner + 1)
  }

  function AfterInsert(r: Runner): Runner {
    match r
    case Inserting(draining) => if draining then Draining([]) else Collecting([])
    case FinalInserting => Exited
    case _ => r
  }

  function Stopped(s: State): State {
    if s.done then s else s.(done := true, acceptedAtStop := |s.accepted|)
  }

  function FlushReceiveStep(s: State, i: nat): State
    requires i < |s.flushers| && s.flushers[i].Filling? && s.chan != []
  {
    s.(chan := s.chan[1..], received := s.received + 1,
       flushers := s.flushers[i := Filling(s.flushers[i].buf + [s.chan[0]])])
  }

  function FlushStep(s: State, i: nat, cancelled: bool): State
    requires i < |s.flushers| && s.flushers[i].Filling?
  {
    if s.flushers[i].buf == [] then s.(flushers := s.flushers[i := Returned(cancelled)])
    else s.(flushers := s.flushers[i := Flushing(cancelled)], inserts := s.inserts + [s.flushers[i].buf])
  }

  function Run(s: State, ls: seq<Label>): State
    decreases |ls|
  {
    if ls == [] then s else Run(Step(s, ls[0]), ls[1..])
  }

  // ------------------------------------------------------------ where entries are

  function RunBuf(r: Runner): seq<Entry> {
    if r.Collecting? || r.Draining? then r.buf else []
  }

  function Held(f: Flusher): seq<Entry> {
    if f.Filling? then f.buf else []
  }

  function HeldAll(fs: seq<Flusher>): seq<Entry> {
    if fs == [] then [] else Held(fs[0]) + HeldAll(fs[1..])
  }

  /** How often an entry occurs. */
  function Count(xs: seq<Entry>, e: Entry): nat {
    multiset(xs)[e]
  }

  lemma CountConcat(xs: seq<Entry>, ys: seq<Entry>, e: Entry)
    ensures Count(xs + ys, e) == Count(xs, e) + Count(ys, e)
  {
    assert multiset(xs + ys) == multiset(xs) + multiset(ys);
  }

  lemma {:induction false} HeldAllUpdate(fs: seq<Flusher>, i: nat, f: Flusher, e: Entry)
    requires i < |fs|
    ensures Count(HeldAll(fs[i := f]), e) + Count(Held(fs[i]), e) == Count(HeldAll(fs), e) + Count(Held(f), e)
    decreases |fs|
  {
    CountConcat(Held(fs[0]), HeldAll(fs[1..]), e);
    CountConcat(Held(fs[i := f][0]), HeldAll(fs[i := f][1..]), e);
    if i == 0 {
      assert fs[i := f][1..] == fs[1..];
    } else {
      assert fs[i := f][1..] == fs[1..][i - 1 := f];
      HeldAllUpdate(fs[1..], i - 1, f, e);
    }
  }

  lemma {:induction false} NobodyHolds(fs: seq<Flusher>)
    requires forall i :: 0 <= i < |fs| ==> fs[i].Waiting?
    ensures HeldAll(fs) == []
    decreases |fs|
  {
    if fs != [] {
      NobodyHolds(fs[1..]);
    }
  }

  lemma HeldBySole(fs: seq<Flusher>)
    requires |fs| <= 1
    ensures HeldAll(fs) == if fs == [] then [] else Held(fs[0])
  {
    if fs != [] {
      assert fs[1..] == [];
    }
  }

  // ------------------------------------------------------------ invariants

  ghost predicate BoundsOk(s: State) {
    && |s.chan| <= CAPACITY
    && |RunBuf(s.runner)| < BATCH
    && s.byRunner <= |s.inserts|
    && (forall k :: 0 <= k < |s.inserts| ==> s.inserts[k] != [])
    && (forall k :: 0 <= k < s.byRunner ==> |s.inserts[k]| <= BATCH)
  }

  /** FlushSync touches the channel only after the runner is gone. */
  ghost predicate OrderOk(s: State) {
    && (!s.runner.Exited? ==>
          s.byRunner == |s.inserts| && forall i :: 0 <= i < |s.flushers| ==> s.flushers[i].Waiting?)
    && (s.flushers != [] ==> s.done)
    && (s.runner.Draining? || s.runner.FinalInserting? || s.runner.Exited? ==> s.done)
    && (s.runner.Inserting? && s.runner.draining ==> s.done)
    && s.acceptedAtStop <= |s.accepted|
  }

  /** Until the runner exits: inserted, then buffered, then queued is what was accepted. */
  ghost predicate PipelineOk(s: State) {
    && Flat(s.inserts) + RunBuf(s.runner) + s.chan == s.accepted
    && (s.runner.FinalInserting? ==> s.acceptedAtStop <= |Flat(s.inserts)|)
  }

  function OfRunner(s: State): seq<seq<Entry>> {
    if s.byRunner <= |s.inserts| then s.inserts[..s.byRunner] else s.inserts
  }

  /** Nothing is lost, duplicated or invented. */
  ghost predicate Bag(s: State) {
    forall e :: BagAt(s, e)
  }

  ghost predicate BagAt(s: State, e: Entry) {
    Count(Flat(s.inserts), e) + Count(HeldAll(s.flushers), e) + Count(s.chan, e) == Count(s.accepted, e)
  }

  /** With one FlushSync caller nothing is reordered either. */
  ghost predicate Fifo(s: State) {
    |s.flushers| <= 1 ==> Flat(s.inserts) + HeldAll(s.flushers) + s.chan == s.accepted
  }

  /** After the runner exits: its Inserts hold a prefix that Stop must not lose. */
  ghost predicate LeftoverOk(s: State) {
    && Bag(s) && Fifo(s)
    && Flat(OfRunner(s)) <= s.accepted
    && s.acceptedAtStop <= |Flat(OfRunner(s))|
  }

  ghost predicate Inv(s: State) {
    BoundsOk(s) && OrderOk(s) && if s.runner.Exited? then LeftoverOk(s) else PipelineOk(s)
  }

  lemma InitialInv()
    ensures Inv(INITIAL)
  {
  }

  lemma StepInv(s: State, l: Label)
    requires Inv(s)
    ensures Inv(Step(s, l))
  {
    match l
    case CheckDone(p, e) =>
    case TrySend(p) => if p in s.producers { TrySendInv(s, p); }
    case RunReceive => RunReceiveInv(s);
    case RunTick => if s.runner.Collecting? { RunFlushInv(s, Collecting([]), Inserting(false)); }
    case RunSeesDone =>
    case RunEmpty => if s.runner.Draining? && s.chan == [] { RunEmptyInv(s); }
    case RunInsertEnds => RunInsertEndsInv(s);
    case Stop =>
    case CallFlushSync => CallFlushSyncInv(s);
    case WaitReturns(i) =>
      if i < |s.flushers| && s.flushers[i].Waiting? && s.runner.Exited? { FlusherInv(s, i, Filling([])); }
    case FlushReceive(i) =>
      if i < |s.flushers| && s.flushers[i].Filling? && s.chan != [] { FlushReceiveInv(s, i); }
    case FlushEmpty(i) =>
      if i < |s.flushers| && s.flushers[i].Filling? && s.chan == [] { FlushInv(s, i, false); }
    case FlushCancelled(i) =>
      if i < |s.flushers| && s.flushers[i].Filling? { FlushInv(s, i, true); }
    case FlushInsertEnds(i) =>
      if i < |s.flushers| && s.flushers[i].Flushing? {
        FlusherInv(s, i, Returned(s.flushers[i].cancelled));
      }
  }

  lemma TrySendInv(s: State, p: nat)
    requires Inv(s) && p in s.producers
    ensures Inv(TrySendStep(s, p))
  {
    if |s.chan| < CAPACITY {
      var entry := s.producers[p];
      var t := TrySendStep(s, p);
      if s.runner.Exited? {
        SendKeepsBag(s, t, entry);
        var before := Flat(s.inserts) + HeldAll(s.flushers);
        assert before + (s.chan + [entry]) == (before + s.chan) + [entry];
      } else {
        var before := Flat(s.inserts) + RunBuf(s.runner);
        assert before + (s.chan + [entry]) == (before + s.chan) + [entry];
      }
    } else if s.runner.Exited? {
      BagIgnores(s, TrySendStep(s, p));
    }
  }

  lemma BagIgnores(s: State, t: State)
    requires Bag(s) && t.inserts == s.inserts && HeldAll(t.flushers) == HeldAll(s.flushers)
    requires t.chan == s.chan && t.accepted == s.accepted
    ensures Bag(t)
  {
    forall e ensures BagAt(t, e) {
      assert BagAt(s, e);
    }
  }

  lemma SendKeepsBag(s: State, t: State, entry: Entry)
    requires Bag(s) && t.inserts == s.inserts && t.flushers == s.flushers
    requires t.chan == s.chan + [entry] && t.accepted == s.accepted + [entry]
    ensures Bag(t)
  {
    forall e ensures BagAt(t, e) {
      assert BagAt(s, e);
      CountConcat(s.chan, [entry], e);
      CountConcat(s.accepted, [entry], e);
    }
  }

  lemma RunReceiveInv(s: State)
    requires Inv(s)
    ensures Inv(RunReceiveStep(s))
  {
    if (s.runner.Collecting? || s.runner.Draining?) && s.chan != [] {
      var buf := s.runner.buf + [s.chan[0]];
      assert Flat(s.inserts) + buf + s.chan[1..] == Flat(s.inserts) + s.runner.buf + s.chan;
      FlatAppend(s.inserts, buf);
      RegroupEmpty(Flat(s.inserts), buf, s.chan[1..]);
      RunReceiveBounds(s);
    }
  }

  lemma RunReceiveBounds(s: State)
    requires BoundsOk(s) && OrderOk(s)
    ensures BoundsOk(RunReceiveStep(s)) && OrderOk(RunReceiveStep(s))
  {
  }

  lemma RunFlushInv(s: State, ifEmpty: Runner, inserting: Runner)
    requires Inv(s) && s.runner.Collecting?
    requires ifEmpty == Collecting([]) && inserting == Inserting(false)
    ensures Inv(RunFlush(s, ifEmpty, inserting))
  {
    if s.runner.buf == [] {
      assert s.runner == ifEmpty;
    } else {
      RunFlushBounds(s, ifEmpty, inserting);
      FlatAppend(s.inserts, s.runner.buf);
      RegroupEmpty(Flat(s.inserts), s.runner.buf, s.chan);
    }
  }

  lemma RunFlushBounds(s: State, ifEmpty: Runner, inserting: Runner)
    requires BoundsOk(s) && OrderOk(s) && s.runner.Collecting? && s.runner.buf != []
    requires inserting == Inserting(false)
    ensures var t := RunFlush(s, ifEmpty, inserting); BoundsOk(t) && OrderOk(t)
  {
  }

  lemma RegroupEmpty(xs: seq<Entry>, ys: seq<Entry>, zs: seq<Entry>)
    ensures (xs + ys) + [] + zs == xs + ys + zs
  {
  }

  /** The drained channel is empty: what is buffered is the last of it. */
  lemma RunEmptyInv(s: State)
    requires Inv(s) && s.runner.Draining? && s.chan == []
    ensures Inv(RunFlush(s, Exited, FinalInserting))
  {
    FlatAppend(s.inserts, s.runner.buf);
    NobodyHolds(s.flushers);
    assert s.inserts[..s.byRunner] == s.inserts;
  }

  lemma RunInsertEndsInv(s: State)
    requires Inv(s)
    ensures Inv(s.(runner := AfterInsert(s.runner)))
  {
    if s.runner.FinalInserting? {
      NobodyHolds(s.flushers);
      assert s.inserts[..s.byRunner] == s.inserts;
      PipelineGivesLeftover(s);
    }
  }

  lemma PipelineGivesLeftover(s: State)
    requires PipelineOk(s) && RunBuf(s.runner) == [] && HeldAll(s.flushers) == []
    ensures Bag(s) && Fifo(s)
  {
    assert Flat(s.inserts) + [] == Flat(s.inserts);
    BagOfTwo(s);
  }

  lemma BagOfTwo(s: State)
    requires HeldAll(s.flushers) == [] && s.accepted == Flat(s.inserts) + s.chan
    ensures Bag(s)
  {
    forall e ensures BagAt(s, e) {
      CountConcat(Flat(s.inserts), s.chan, e);
      assert Count([], e) == 0;
    }
  }

  lemma CallFlushSyncInv(s: State)
    requires Inv(s)
    ensures Inv(Step(s, CallFlushSync))
  {
    if s.runner.Exited? {
      var grown := s.flushers + [Waiting];
      HeldAllGrows(s.flushers);
      BagIgnores(s, Step(s, CallFlushSync));
      assert |grown| <= 1 ==> |s.flushers| <= 1;
    }
  }

  lemma {:induction false} HeldAllGrows(fs: seq<Flusher>)
    ensures HeldAll(fs + [Waiting]) == HeldAll(fs)
    decreases |fs|
  {
    if fs == [] {
      assert [Waiting][1..] == [];
    } else {
      assert (fs + [Waiting])[1..] == fs[1..] + [Waiting];
      HeldAllGrows(fs[1..]);
    }
  }

  /** A flusher that moves on without touching entries. */
  lemma FlusherInv(s: State, i: nat, f: Flusher)
    requires Inv(s) && s.runner.Exited? && i < |s.flushers|
    requires Held(s.flushers[i]) == [] && Held(f) == []
    ensures Inv(s.(flushers := s.flushers[i := f]))
  {
    var t := s.(flushers := s.flushers[i := f]);
    FlusherFifo(s, t, i, f);
    FlusherBag(s, t, i, f);
  }

  /** With one caller the queue's front moves from the channel to the caller to an Insert. */
  lemma FlusherFifo(s: State, t: State, i: nat, f: Flusher)
    requires Fifo(s) && i < |s.flushers| && t.flushers == s.flushers[i := f] && t.accepted == s.accepted
    requires Flat(t.inserts) + Held(f) + t.chan == Flat(s.inserts) + Held(s.flushers[i]) + s.chan
    ensures Fifo(t)
  {
    if |s.flushers| <= 1 {
      HeldBySole(s.flushers);
      HeldBySole(t.flushers);
    }
  }

  /** In any order: what the caller and the channel hold and what Inserts got keeps its total. */
  lemma FlusherBag(s: State, t: State, i: nat, f: Flusher)
    requires Bag(s) && i < |s.flushers| && t.flushers == s.flushers[i := f] && t.accepted == s.accepted
    requires Flat(t.inserts) + Held(f) + t.chan == Flat(s.inserts) + Held(s.flushers[i]) + s.chan
    ensures Bag(t)
  {
    forall e ensures BagAt(t, e) {
      assert BagAt(s, e);
      HeldAllUpdate(s.flushers, i, f, e);
      CountThree(Flat(t.inserts), Held(f), t.chan, e);
      CountThree(Flat(s.inserts), Held(s.flushers[i]), s.chan, e);
    }
  }

  lemma CountThree(xs: seq<Entry>, ys: seq<Entry>, zs: seq<Entry>, e: Entry)
    ensures Count(xs + ys + zs, e) == Count(xs, e) + Count(ys, e) + Count(zs, e)
  {
    CountConcat(xs + ys, zs, e);
    CountConcat(xs, ys, e);
  }

  lemma FlushReceiveInv(s: State, i: nat)
    requires Inv(s) && i < |s.flushers| && s.flushers[i].Filling? && s.chan != []
    ensures Inv(FlushReceiveStep(s, i))
  {
    var buf := s.flushers[i].buf;
    var f := Filling(buf + [s.chan[0]]);
    var t := FlushReceiveStep(s, i);
    assert Flat(s.inserts) + (buf + [s.chan[0]]) + s.chan[1..] == Flat(s.inserts) + buf + s.chan;
    FlusherFifo(s, t, i, f);
    FlusherBag(s, t, i, f);
  }

  lemma FlushInv(s: State, i: nat, cancelled: bool)
    requires Inv(s) && i < |s.flushers| && s.flushers[i].Filling?
    ensures Inv(FlushStep(s, i, cancelled))
  {
    var buf := s.flushers[i].buf;
    if buf == [] {
      FlusherInv(s, i, Returned(cancelled));
    } else {
      var f := Flushing(cancelled);
      var t := FlushStep(s, i, cancelled);
      FlatAppend(s.inserts, buf);
      assert Flat(t.inserts) + [] + t.chan == Flat(s.inserts) + buf + s.chan;
      FlusherFifo(s, t, i, f);
      FlusherBag(s, t, i, f);
      assert t.inserts[..t.byRunner] == s.inserts[..s.byRunner];
    }
  }

  lemma {:induction false} RunInv(s: State, ls: seq<Label>)
    requires Inv(s)
    ensures Inv(Run(s, ls))
    decreases |ls|
  {
    if ls != [] {
      StepInv(s, ls[0]);
      RunInv(Step(s, ls[0]), ls[1..]);
    }
  }

  // ------------------------------------------------------------ theorems over every run

  /** One FlushSync caller: Inserts, then buffers, then channel spell out what was accepted, in order. */
  lemma FifoConservation(ls: seq<Label>)
    requires |Run(INITIAL, ls).flushers| <= 1
    ensures var s := Run(INITIAL, ls);
            Flat(s.inserts) + RunBuf(s.runner) + HeldAll(s.flushers) + s.chan == s.accepted
  {
    InitialInv();
    RunInv(INITIAL, ls);
    var s := Run(INITIAL, ls);
    if s.runner.Exited? {
      assert Flat(s.inserts) + [] == Flat(s.inserts);
    } else {
      NobodyHolds(s.flushers);
      assert Flat(s.inserts) + RunBuf(s.runner) + [] == Flat(s.inserts) + RunBuf(s.runner);
    }
  }

  lemma BagIsMultiset(s: State)
    requires Bag(s)
    ensures multiset(Flat(s.inserts) + HeldAll(s.flushers) + s.chan) == multiset(s.accepted)
  {
    var all := Flat(s.inserts) + HeldAll(s.flushers) + s.chan;
    forall e ensures multiset(all)[e] == multiset(s.accepted)[e] {
      assert BagAt(s, e);
      CountThree(Flat(s.inserts), HeldAll(s.flushers), s.chan, e);
      assert Count(all, e) == Count(s.accepted, e);
    }
  }

  /** Any number of callers: each accepted entry is in exactly one place. */
  lemma BagConservation(ls: seq<Label>)
    ensures var s := Run(INITIAL, ls);
            multiset(Flat(s.inserts) + RunBuf(s.runner) + HeldAll(s.flushers) + s.chan) == multiset(s.accepted)
  {
    InitialInv();
    RunInv(INITIAL, ls);
    var s := Run(INITIAL, ls);
    if s.runner.Exited? {
      BagIsMultiset(s);
      assert Flat(s.inserts) + RunBuf(s.runner) == Flat(s.inserts);
    } else {
      NobodyHolds(s.flushers);
      assert Flat(s.inserts) + RunBuf(s.runner) + [] + s.chan == s.accepted;
    }
  }

  /** Batches: the runner's Inserts hold 1 to 64 entries, and never overlap FlushSync's. */
  lemma InsertDiscipline(ls: seq<Label>)
    ensures var s := Run(INITIAL, ls);
            && |s.chan| <= 1024
            && (forall k :: 0 <= k < s.byRunner && k < |s.inserts| ==> 1 <= |s.inserts[k]| <= 64)
            && (forall k :: 0 <= k < |s.inserts| ==> s.inserts[k] != [])
            && (forall i :: 0 <= i < |s.flushers| && !s.flushers[i].Waiting? ==> s.runner.Exited?)
  {
    InitialInv();
    RunInv(INITIAL, ls);
  }

  /** A tick leaves nothing buffered: what was collected is inserted, and only if there was something. */
  lemma TickFlushes(ls: seq<Label>)
    requires Run(INITIAL, ls).runner.Collecting?
    ensures var s, t := Run(INITIAL, ls), Step(Run(INITIAL, ls), RunTick);
            && RunBuf(t.runner) == [] && t.accepted == s.accepted && Flat(t.inserts) + t.chan == t.accepted
            && t.inserts == if s.runner.buf == [] then s.inserts else s.inserts + [s.runner.buf]
  {
    InitialInv();
    RunInv(INITIAL, ls);
    var s := Run(INITIAL, ls);
    StepInv(s, RunTick);
    var t := Step(s, RunTick);
    assert Flat(t.inserts) + [] + t.chan == Flat(t.inserts) + t.chan;
  }

  /** A receive takes the oldest entry; the sixty-fourth starts the Insert of exactly those sixty-four. */
  lemma ReceiveBatches(ls: seq<Label>)
    requires var s := Run(INITIAL, ls); (s.runner.Collecting? || s.runner.Draining?) && s.chan != []
    ensures var s, t := Run(INITIAL, ls), Step(Run(INITIAL, ls), RunReceive);
            var buf := s.runner.buf + [s.chan[0]];
            && t.chan == s.chan[1..] && |buf| <= 64
            && (|buf| == 64 ==> t.inserts == s.inserts + [buf] && RunBuf(t.runner) == [])
            && (|buf| < 64 ==> t.inserts == s.inserts && RunBuf(t.runner) == buf)
  {
    InitialInv();
    RunInv(INITIAL, ls);
  }

  /** A producer past its check is taken in exactly while fewer than 1024 entries wait. */
  lemma SendIsTakenIff(s: State, p: nat)
    requires p in s.producers
    ensures var t := Step(s, TrySend(p));
            if |s.chan| < 1024 then t.chan == s.chan + [s.producers[p]] && t.accepted == s.accepted + [s.producers[p]]
            else t.chan == s.chan && t.accepted == s.accepted
  {
  }

  /** A cancelled FlushSync still inserts what it had received. */
  lemma CancelledFlushInserts(s: State, i: nat)
    requires i < |s.flushers| && s.flushers[i].Filling?
    ensures var t := Step(s, FlushCancelled(i));
            && t.flushers[i] == (if s.flushers[i].buf == [] then Returned(true) else Flushing(true))
            && t.inserts == (if s.flushers[i].buf == [] then s.inserts else s.inserts + [s.flushers[i].buf])
            && t.chan == s.chan
  {
  }

  lemma StepKeepsHistory(s: State, l: Label)
    ensures s.accepted <= Step(s, l).accepted
    ensures s.done ==> Step(s, l).done && Step(s, l).acceptedAtStop == s.acceptedAtStop
  {
  }

  lemma {:induction false} RunKeepsHistory(s: State, ls: seq<Label>)
    ensures s.accepted <= Run(s, ls).accepted
    ensures s.done ==> Run(s, ls).done && Run(s, ls).acceptedAtStop == s.acceptedAtStop
    decreases |ls|
  {
    if ls != [] {
      StepKeepsHistory(s, ls[0]);
      RunKeepsHistory(Step(s, ls[0]), ls[1..]);
    }
  }

  /**
   Shutdown loses nothing it promised: once wg.Wait can return, the runner's own Inserts begin
   with every entry accepted before Stop, in order, whatever FlushSync's context does later;
   what the other Inserts, callers and channel hold is exactly the rest.
   */
  lemma ShutdownCompleteness(before: seq<Label>, after: seq<Label>)
    requires !Run(INITIAL, before).done
    requires Run(Step(Run(INITIAL, before), Stop), after).runner.Exited?
    ensures var s, t := Run(INITIAL, before), Run(Step(Run(INITIAL, before), Stop), after);
            && s.accepted <= Flat(OfRunner(t)) <= t.accepted
            && multiset(Flat(t.inserts) + HeldAll(t.flushers) + t.chan) == multiset(t.accepted)
  {
    InitialInv();
    RunInv(INITIAL, before);
    var s := Run(INITIAL, before);
    StepInv(s, Stop);
    RunInv(Step(s, Stop), after);
    RunKeepsHistory(Step(s, Stop), after);
    var t := Run(Step(s, Stop), after);
    var own := Flat(OfRunner(t));
    assert own == t.accepted[..|own|];
    assert s.accepted == t.accepted[..|s.accepted|];
    BagIsMultiset(t);
  }

  /** What a drain loop can still receive. */
  function Work(s: State): nat {
    |s.chan| + |s.producers|
  }

  lemma OneLess(m: map<nat, Entry>, k: nat)
    requires k in m
    ensures |m - {k}| == |m| - 1
  {
    assert m.Keys == (m - {k}).Keys + {k};
  }

  /** After Stop every receive uses up work and nothing creates any. */
  lemma StepUsesWork(s: State, l: Label)
    requires s.done
    ensures Work(Step(s, l)) + (Step(s, l).received - s.received) <= Work(s)
  {
    match l
    case TrySend(p) => if p in s.producers { OneLess(s.producers, p); }
    case RunReceive => ReceiveUsesWork(s);
    case FlushReceive(i) => FlushReceiveUsesWork(s, i);
    case _ => OthersUseNothing(s, l);
  }

  lemma OthersUseNothing(s: State, l: Label)
    requires s.done && !l.TrySend? && !l.RunReceive? && !l.FlushReceive?
    ensures Step(s, l).chan == s.chan && Step(s, l).producers == s.producers && Step(s, l).received == s.received
  {
  }

  lemma FlushReceiveUsesWork(s: State, i: nat)
    ensures Work(Step(s, FlushReceive(i))) + (Step(s, FlushReceive(i)).received - s.received) <= Work(s)
  {
  }

  lemma ReceiveUsesWork(s: State)
    ensures Work(RunReceiveStep(s)) + (RunReceiveStep(s).received - s.received) <= Work(s)
  {
  }

  lemma {:induction false} DrainLoopsTerminate(s: State, ls: seq<Label>)
    requires s.done
    ensures Work(Run(s, ls)) + (Run(s, ls).received - s.received) <= Work(s)
    decreases |ls|
  {
    if ls != [] {
      StepUsesWork(s, ls[0]);
      StepKeepsHistory(s, ls[0]);
      DrainLoopsTerminate(Step(s, ls[0]), ls[1..]);
    }
  }

  function RunnerRank(r: Runner): nat {
    match r
    case Collecting(_) => 2
    case Inserting(_) => 3
    case Draining(_) => 2
    case FinalInserting => 1
    case Exited => 0
  }

  /** What the runner does next once `done` is closed and nobody else moves. */
  function NextDrainLabel(s: State): Label {
    match s.runner
    case Collecting(_) => RunSeesDone
    case Draining(_) => if s.chan == [] then RunEmpty else RunReceive
    case _ => RunInsertEnds
  }

  /** The shutdown drain never gets stuck: by its own steps alone the runner exits. */
  lemma {:induction false} RunnerExits(s: State) returns (ls: seq<Label>)
    requires s.done
    ensures forall k :: 0 <= k < |ls| ==> ls[k] in {RunSeesDone, RunReceive, RunEmpty, RunInsertEnds}
    ensures Run(s, ls).runner.Exited? && Run(s, ls).accepted == s.accepted
    decreases |s.chan|, if s.runner.Collecting? || (s.runner.Inserting? && !s.runner.draining) then 1 else 0,
              RunnerRank(s.runner)
  {
    if s.runner.Exited? {
      ls := [];
    } else if s.runner.Inserting? && !s.runner.draining {
      var rest := RunnerExits(Step(Step(s, RunInsertEnds), RunSeesDone));
      ls := [RunInsertEnds] + ([RunSeesDone] + rest);
      assert ls[1..] == [RunSeesDone] + rest && ls[1..][1..] == rest;
    } else {
      var l := NextDrainLabel(s);
      var rest := RunnerExits(Step(s, l));
      ls := [l] + rest;
      assert ls[1..] == rest;
    }
  }
  /** What a FlushSync does next once the goroutine has exited and nobody else moves. */
  function NextFlushLabel(s: State, i: nat): Label
    requires i < |s.flushers|
  {
    match s.flushers[i]
    case Waiting => WaitReturns(i)
    case Filling(_) => if s.chan == [] then FlushEmpty(i) else FlushReceive(i)
    case _ => FlushInsertEnds(i)
  }

  function FlusherRank(f: Flusher): nat {
    match f
    case Waiting => 3
    case Filling(_) => 2
    case Flushing(_) => 1
    case Returned(_) => 0
  }

  /** Nor does FlushSync get stuck: once the goroutine has exited it returns by its own steps, the channel drained. */
  lemma {:induction false} FlusherReturns(s: State, i: nat) returns (ls: seq<Label>)
    requires s.runner.Exited? && i < |s.flushers|
    ensures forall k :: 0 <= k < |ls| ==> ls[k] in {WaitReturns(i), FlushReceive(i), FlushEmpty(i), FlushInsertEnds(i)}
    ensures var t := Run(s, ls);
            && i < |t.flushers| && t.flushers[i].Returned? && t.accepted == s.accepted
            && (s.flushers[i].Waiting? || s.flushers[i].Filling? || s.chan == [] ==> t.chan == [])
    decreases |s.chan|, FlusherRank(s.flushers[i])
  {
    if s.flushers[i].Returned? {
      ls := [];
    } else {
      var l := NextFlushLabel(s, i);
      var rest := FlusherReturns(Step(s, l), i);
      ls := [l] + rest;
      assert ls[1..] == rest;
    }
  }
}
