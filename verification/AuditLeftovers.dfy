/**
 What a shutdown can leave behind. A producer past the `done` check still sends after FlushSync has returned, and
 then nobody receives any more; that, or an entry a cancelled FlushSync left, is all that is ever lost.
 */
module AuditLeftovers {
  import opened Wrappers
  import opened AuditEntry
  import opened Batches
  import opened AuditPipeline

  const ANY := Entry(None, "user", None, "login", map[], 0)

  /** The goroutine exits, FlushSync finds the channel empty and returns without an error, and then the send comes. */
  const LATE_SEND :=
    [CheckDone(1, ANY), CallFlushSync, RunSeesDone, RunEmpty, WaitReturns(0), FlushEmpty(0), TrySend(1)]

  lemma AfterExit()
    ensures var s := Run(INITIAL, LATE_SEND[..4]);
            && s.runner.Exited? && s.done && s.producers == map[1 := ANY] && s.flushers == [Waiting]
            && s.chan == [] && s.inserts == [] && s.accepted == []
  {
    var a := Step(INITIAL, LATE_SEND[0]);
    var b := Step(a, LATE_SEND[1]);
    assert b.producers == map[1 := ANY] && b.flushers == [Waiting];
    var c := Step(b, LATE_SEND[2]);
    var d := Step(c, LATE_SEND[3]);
    var ls := LATE_SEND[..4];
    assert ls[1..][1..] == ls[2..] && ls[2..][1..] == ls[3..] && ls[3..][1..] == [];
    assert Run(d, []) == d;
    assert Run(c, ls[3..]) == d;
    assert Run(b, ls[2..]) == Run(c, ls[3..]);
    assert Run(a, ls[1..]) == Run(b, ls[2..]);
  }

  lemma AfterLateSend(s: State)
    requires s.runner.Exited? && s.producers == map[1 := ANY] && s.flushers == [Waiting]
    requires s.chan == [] && s.inserts == [] && s.accepted == []
    ensures var t := Run(s, LATE_SEND[4..]);
            && t.flushers == [Returned(false)] && t.inserts == []
            && t.chan == [ANY] && t.accepted == [ANY]
  {
    var a := Step(s, LATE_SEND[4]);
    var b := Step(a, LATE_SEND[5]);
    assert b.flushers == [Returned(false)];
    var c := Step(b, LATE_SEND[6]);
    var ls := LATE_SEND[4..];
    assert ls[1..][1..] == ls[2..] && ls[2..][1..] == [];
    assert Run(c, []) == c;
    assert Run(b, ls[2..]) == c;
    assert Run(a, ls[1..]) == Run(b, ls[2..]);
  }

  lemma {:induction false} RunAppends(s: State, xs: seq<Label>, ys: seq<Label>)
    ensures Run(s, xs + ys) == Run(Run(s, xs), ys)
    decreases |xs|
  {
    if xs == [] {
      assert xs + ys == ys;
    } else {
      assert (xs + ys)[1..] == xs[1..] + ys;
      RunAppends(Step(s, xs[0]), xs[1..], ys);
    }
  }

  lemma SendAfterFlushSync()
    ensures var s := Run(INITIAL, LATE_SEND);
            && s.flushers == [Returned(false)] && s.inserts == []
            && s.chan == [ANY] && s.accepted == [ANY]
  {
    AfterExit();
    AfterLateSend(Run(INITIAL, LATE_SEND[..4]));
    RunAppends(INITIAL, LATE_SEND[..4], LATE_SEND[4..]);
    assert LATE_SEND == LATE_SEND[..4] + LATE_SEND[4..];
  }

  // ------------------------------------------------------------ exactly when nothing is left

  /** The goroutine has exited and every FlushSync there was has returned. */
  ghost predicate Over(s: State) {
    s.runner.Exited? && forall i :: 0 <= i < |s.flushers| ==> s.flushers[i].Returned?
  }

  ghost predicate NoMoreFlush(ls: seq<Label>) {
    forall l :: l in ls ==> l != CallFlushSync
  }

  /** Whatever still happens, short of another FlushSync, every entry ever accepted has been inserted. */
  ghost predicate AllInserted(s: State) {
    forall ls :: NoMoreFlush(ls) ==> multiset(Flat(Run(s, ls).inserts)) == multiset(Run(s, ls).accepted)
  }

  lemma OverStays(s: State, l: Label)
    requires Inv(s) && Over(s) && l != CallFlushSync
    ensures Over(Step(s, l)) && Step(s, l).inserts == s.inserts
    ensures s.chan == [] && s.producers == map[] ==> Step(s, l).chan == [] && Step(s, l).producers == map[]
  {
  }

  lemma {:induction false} QuietStays(s: State, ls: seq<Label>)
    requires Inv(s) && Over(s) && NoMoreFlush(ls) && s.chan == [] && s.producers == map[]
    ensures var t := Run(s, ls); Inv(t) && Over(t) && t.chan == []
    decreases |ls|
  {
    if ls != [] {
      assert ls[0] in ls && forall l :: l in ls[1..] ==> l in ls;
      OverStays(s, ls[0]);
      StepInv(s, ls[0]);
      QuietStays(Step(s, ls[0]), ls[1..]);
    }
  }

  lemma {:induction false} ReturnedHoldNothing(fs: seq<Flusher>)
    requires forall i :: 0 <= i < |fs| ==> fs[i].Returned?
    ensures HeldAll(fs) == []
    decreases |fs|
  {
    if fs != [] {
      ReturnedHoldNothing(fs[1..]);
    }
  }

  /** Once everybody is done, what was not inserted is what is in the channel. */
  lemma InsertedIffDrained(s: State)
    requires Inv(s) && Over(s)
    ensures multiset(Flat(s.inserts)) == multiset(s.accepted) <==> s.chan == []
  {
    BagIsMultiset(s);
    ReturnedHoldNothing(s.flushers);
    assert Flat(s.inserts) + [] == Flat(s.inserts);
    assert multiset(Flat(s.inserts) + s.chan) == multiset(Flat(s.inserts)) + multiset(s.chan);
    if s.chan != [] {
      assert s.chan[0] in multiset(s.chan);
      assert multiset(Flat(s.inserts))[s.chan[0]] < multiset(s.accepted)[s.chan[0]];
    }
  }

  /**
   The exact reach of FlushSync: after it, every accepted entry is and stays inserted if and only if the channel
   is empty and no producer was past the `done` check.
   */
  lemma NothingLeftIff(s: State)
    requires Inv(s) && Over(s)
    ensures AllInserted(s) <==> s.chan == [] && s.producers == map[]
    ensures (forall ls :: NoMoreFlush(ls) ==> Run(s, ls).chan == []) <==> s.chan == [] && s.producers == map[]
  {
    if s.chan == [] && s.producers == map[] {
      forall ls | NoMoreFlush(ls)
        ensures Run(s, ls).chan == [] && multiset(Flat(Run(s, ls).inserts)) == multiset(Run(s, ls).accepted)
      {
        QuietStays(s, ls);
        InsertedIffDrained(Run(s, ls));
      }
    } else {
      var ls: seq<Label> := [];
      if s.chan == [] {
        var p :| p in s.producers;
        ls := [TrySend(p)];
        OverStays(s, TrySend(p));
        StepInv(s, TrySend(p));
        assert Run(s, ls) == Run(Step(s, TrySend(p)), []);
      }
      InsertedIffDrained(Run(s, ls));
      assert NoMoreFlush(ls) && Run(s, ls).chan != [];
    }
  }
}
