/**
 Delivery under concurrency: Publish takes its snapshot inside the lock and sends outside it,
 while connections come, go and are written out. Every lock section and every select is one
 atomic step; a label that is not enabled leaves the state alone.
 */
module HubProtocol {
  import opened Topics
  import Hub

  datatype Message = Message(publish: nat, topic: string)

  datatype Connection = Connection(
    user: Uuid,
    topics: set<string>,
    send: seq<Message>,          // the queue
    written: seq<Message>,       // taken out by the write pump
    closed: bool)

  /**
   A Publish past its snapshot: the clients it found, those it has still to reach, and those whose select did not
   take the payload.
   */
  datatype Publishing = Publishing(topic: string, audience: set<nat>, todo: set<nat>, missed: set<nat>)

  datatype State = State(
    conns: map<nat, Connection>,
    registered: set<nat>,
    publishes: map<nat, Publishing>)

  datatype Label =
    | Serve(id: nat, user: Uuid, requested: seq<string>)
    | Unregister(id: nat)
    | Snapshot(pid: nat, topic: string)
    | Send(pid: nat, id: nat, pickSend: bool)
    | WriteOut(id: nat)

  const INITIAL := State(map[], {}, map[])

  function Step(env: Env, s: State, l: Label): State {
    match l
    case Serve(id, user, requested) =>
      var asked := Asked(env, user, requested);
      if id in s.conns || exists i | 0 <= i < |asked| :: Refusal(env, user, asked[i]).Some? then s
      else
        var topics := {OwnTopic(env, user)} + set t | t in asked;
        s.(conns := s.conns[id := Connection(user, topics, [], [], false)], registered := s.registered + {id})
    case Unregister(id) =>
      if id !in s.conns then s
      else s.(registered := s.registered - {id}, conns := s.conns[id := s.conns[id].(closed := true)])
    case Snapshot(pid, topic) =>
      if pid in s.publishes then s
      else s.(publishes := s.publishes[pid := Publishing(topic, Subscribers(s, topic), Subscribers(s, topic), {})])
    case Send(pid, id, pickSend) =>
      if pid in s.publishes && id in s.publishes[pid].todo && id in s.conns then SendStep(s, pid, id, pickSend)
      else s
    case WriteOut(id) =>
      if id in s.conns && s.conns[id].send != [] then
        var c := s.conns[id];
        s.(conns := s.conns[id := c.(send := c.send[1..], written := c.written + [c.send[0]])])
      else s
  }

  /** What the index answers for a topic; module Hub proves the two agree. */
  function Subscribers(s: State, topic: string): set<nat> {
    set id | id in s.registered && id in s.conns && topic in s.conns[id].topics
  }

  function SendStep(s: State, pid: nat, id: nat, pickSend: bool): State
    requires pid in s.publishes && id in s.conns
  {
    var p := s.publishes[pid];
    var c := s.conns[id];
    var fits := |c.send| < Hub.QUEUE && (!c.closed || pickSend);
    s.(publishes := s.publishes[pid := p.(todo := p.todo - {id}, missed := if fits then p.missed else p.missed + {id})],
       conns := if fits then s.conns[id := c.(send := c.send + [Message(pid, p.topic)])] else s.conns)
  }

  function Run(env: Env, s: State, ls: seq<Label>): State
    decreases |ls|
  {
    if ls == [] then s else Run(env, Step(env, s, ls[0]), ls[1..])
  }

  /** Everything ever queued to a connection, in order. */
  function Received(c: Connection): seq<Message> {
    c.written + c.send
  }

  ghost predicate Got(c: Connection, pid: nat) {
    exists i :: 0 <= i < |Received(c)| && Received(c)[i].publish == pid
  }

  ghost predicate ConnOk(env: Env, s: State, id: nat, c: Connection) {
    && |c.send| <= Hub.QUEUE
    && (forall t :: t in c.topics ==> Approved(env, c.user, t))
    && (forall i :: 0 <= i < |Received(c)| ==>
          var m := Received(c)[i];
          m.topic in c.topics && m.publish in s.publishes && s.publishes[m.publish].topic == m.topic)
    && (forall i, k :: 0 <= i < k < |Received(c)| ==> Received(c)[i].publish != Received(c)[k].publish)
  }

  /** Who got a publish's payload: the clients it found, but for those still to come and those it missed. */
  ghost predicate Accounted(s: State, pid: nat) {
    pid in s.publishes ==>
      var p := s.publishes[pid];
      && p.todo <= p.audience && p.missed <= p.audience && p.todo !! p.missed
      && (forall id :: id in p.audience ==> id in s.conns && p.topic in s.conns[id].topics)
      && (forall id :: id in s.conns ==> (Got(s.conns[id], pid) <==> id in p.audience - p.todo - p.missed))
  }

  ghost predicate Inv(env: Env, s: State) {
    && (forall id :: id in s.conns ==> ConnOk(env, s, id, s.conns[id]))
    && (forall pid :: Accounted(s, pid))
  }

  /** A publish's account is untouched when its own record is and no connection gains or loses its payload. */
  lemma AccountedFrame(s: State, t: State, pid: nat)
    requires Accounted(s, pid)
    requires pid in t.publishes ==> pid in s.publishes && t.publishes[pid] == s.publishes[pid]
    requires forall id :: id in s.conns ==> id in t.conns && t.conns[id].topics == s.conns[id].topics
                                            && (Got(t.conns[id], pid) <==> Got(s.conns[id], pid))
    requires forall id :: id in t.conns && id !in s.conns ==> !Got(t.conns[id], pid)
    ensures Accounted(t, pid)
  {
  }

  /** Nothing was queued or forgotten. */
  ghost predicate SameReceived(s: State, t: State) {
    && (forall id :: id in s.conns ==> id in t.conns && t.conns[id].topics == s.conns[id].topics
                                       && t.conns[id].user == s.conns[id].user
                                       && Received(t.conns[id]) == Received(s.conns[id])
                                       && |t.conns[id].send| <= |s.conns[id].send|)
    && (forall id :: id in t.conns && id !in s.conns ==> Received(t.conns[id]) == [] && t.conns[id].send == [])
    && (forall pid :: pid in s.publishes ==> pid in t.publishes && t.publishes[pid] == s.publishes[pid])
  }

  lemma SameReceivedKeeps(env: Env, s: State, t: State)
    requires Inv(env, s) && SameReceived(s, t) && t.publishes == s.publishes
    requires forall id :: id in t.conns && id !in s.conns ==>
               forall topic :: topic in t.conns[id].topics ==> Approved(env, t.conns[id].user, topic)
    ensures Inv(env, t)
  {
    forall id | id in t.conns ensures ConnOk(env, t, id, t.conns[id]) {
      if id in s.conns {
        assert ConnOk(env, s, id, s.conns[id]);
      }
    }
    forall pid ensures Accounted(t, pid) {
      AccountedFrame(s, t, pid);
    }
  }

  lemma StepInv(env: Env, s: State, l: Label)
    requires Inv(env, s)
    ensures Inv(env, Step(env, s, l))
  {
    match l
    case Serve(id, user, requested) => ServeInv(env, s, id, user, requested);
    case Unregister(id) => UnregisterInv(env, s, id);
    case Snapshot(pid, topic) => if pid !in s.publishes { SnapshotInv(env, s, pid, topic); }
    case Send(pid, id, pickSend) =>
      if pid in s.publishes && id in s.publishes[pid].todo && id in s.conns {
        SendInv(env, s, pid, id, pickSend);
      }
    case WriteOut(id) => WriteOutInv(env, s, id);
  }

  lemma UnregisterInv(env: Env, s: State, id: nat)
    requires Inv(env, s)
    ensures Inv(env, Step(env, s, Unregister(id)))
  {
    SameReceivedKeeps(env, s, Step(env, s, Unregister(id)));
  }

  lemma WriteOutInv(env: Env, s: State, id: nat)
    requires Inv(env, s)
    ensures Inv(env, Step(env, s, WriteOut(id)))
  {
    var t := Step(env, s, WriteOut(id));
    if t != s {
      assert Received(t.conns[id]) == Received(s.conns[id]);
      SameReceivedKeeps(env, s, t);
    }
  }

  lemma ServeInv(env: Env, s: State, id: nat, user: Uuid, requested: seq<string>)
    requires Inv(env, s)
    ensures Inv(env, Step(env, s, Serve(id, user, requested)))
  {
    var t := Step(env, s, Serve(id, user, requested));
    if id !in s.conns && id in t.conns {
      forall topic | topic in t.conns[id].topics ensures Approved(env, user, topic) {
        RefusalIsExact(env, user, topic);
      }
    }
    SameReceivedKeeps(env, s, t);
  }

  lemma SnapshotInv(env: Env, s: State, pid: nat, topic: string)
    requires Inv(env, s) && pid !in s.publishes
    ensures Inv(env, Step(env, s, Snapshot(pid, topic)))
  {
    var t := Step(env, s, Snapshot(pid, topic));
    forall id | id in s.conns ensures ConnOk(env, t, id, s.conns[id]) && !Got(s.conns[id], pid) {
      assert ConnOk(env, s, id, s.conns[id]);
    }
    forall other | other != pid ensures Accounted(t, other) {
      AccountedFrame(s, t, other);
    }
  }

  lemma GotSnoc(c: Connection, d: Connection, m: Message)
    requires Received(d) == Received(c) + [m]
    ensures forall pid :: Got(d, pid) <==> Got(c, pid) || pid == m.publish
  {
    forall pid ensures Got(d, pid) <==> Got(c, pid) || pid == m.publish {
      if Got(c, pid) {
        var i :| 0 <= i < |Received(c)| && Received(c)[i].publish == pid;
        assert Received(d)[i].publish == pid;
      }
      assert Received(d)[|Received(c)|] == m;
    }
  }

  lemma SendInv(env: Env, s: State, pid: nat, id: nat, pickSend: bool)
    requires Inv(env, s) && pid in s.publishes && id in s.publishes[pid].todo && id in s.conns
    ensures Inv(env, SendStep(s, pid, id, pickSend))
  {
    var t := SendStep(s, pid, id, pickSend);
    assert Accounted(s, pid);
    assert ConnOk(env, s, id, s.conns[id]) && !Got(s.conns[id], pid);
    if t.conns != s.conns {
      assert Received(t.conns[id]) == Received(s.conns[id]) + [Message(pid, s.publishes[pid].topic)];
      GotSnoc(s.conns[id], t.conns[id], Message(pid, s.publishes[pid].topic));
    }
    SendConns(env, s, pid, id, pickSend);
    forall other | other != pid ensures Accounted(t, other) {
      AccountedFrame(s, t, other);
    }
  }

  lemma SendConns(env: Env, s: State, pid: nat, id: nat, pickSend: bool)
    requires Inv(env, s) && pid in s.publishes && id in s.publishes[pid].todo && id in s.conns
    requires !Got(s.conns[id], pid) && s.publishes[pid].topic in s.conns[id].topics
    ensures var t := SendStep(s, pid, id, pickSend); forall k :: k in t.conns ==> ConnOk(env, t, k, t.conns[k])
  {
    var t := SendStep(s, pid, id, pickSend);
    forall k | k in t.conns ensures ConnOk(env, t, k, t.conns[k]) {
      assert ConnOk(env, s, k, s.conns[k]);
      if k == id && t.conns[k] != s.conns[k] {
        assert Received(t.conns[k]) == Received(s.conns[k]) + [Message(pid, s.publishes[pid].topic)];
      }
    }
  }

  lemma {:induction false} RunInv(env: Env, s: State, ls: seq<Label>)
    requires Inv(env, s)
    ensures Inv(env, Run(env, s, ls))
    decreases |ls|
  {
    if ls != [] {
      StepInv(env, s, ls[0]);
      RunInv(env, Step(env, s, ls[0]), ls[1..]);
    }
  }

  /**
   In every interleaving: a queue never exceeds 64, a connection only ever gets payloads of
   topics it was approved for, and one Publish reaches it at most once.
   */
  lemma Delivery(env: Env, ls: seq<Label>, id: nat)
    requires id in Run(env, INITIAL, ls).conns
    ensures var c := Run(env, INITIAL, ls).conns[id];
            && |c.send| <= 64
            && (forall i :: 0 <= i < |Received(c)| ==> Approved(env, c.user, Received(c)[i].topic))
            && (forall i, k :: 0 <= i < k < |Received(c)| ==>
                  Received(c)[i].publish != Received(c)[k].publish)
  {
    RunInv(env, INITIAL, ls);
    var s := Run(env, INITIAL, ls);
    assert ConnOk(env, s, id, s.conns[id]);
  }

  /**
   And nothing is lost unnoticed: a finished Publish has reached every client it found, and no other, except
   those it missed.
   */
  lemma DeliveredUnlessMissed(env: Env, ls: seq<Label>, pid: nat, id: nat)
    requires var s := Run(env, INITIAL, ls); pid in s.publishes && s.publishes[pid].todo == {} && id in s.conns
    ensures var s := Run(env, INITIAL, ls);
            Got(s.conns[id], pid) <==> id in s.publishes[pid].audience && id !in s.publishes[pid].missed
  {
    RunInv(env, INITIAL, ls);
    assert Accounted(Run(env, INITIAL, ls), pid);
  }

  /** The clients found are the subscribers at the snapshot; one is missed only with a full queue or when closed. */
  lemma MissedStep(env: Env, s: State, l: Label, pid: nat, id: nat)
    requires Inv(env, s) && pid in Step(env, s, l).publishes
    ensures var p := Step(env, s, l).publishes[pid];
            p.audience == if pid in s.publishes then s.publishes[pid].audience else Subscribers(s, p.topic)
    ensures pid !in s.publishes ==> Step(env, s, l).publishes[pid].missed == {}
    ensures pid in s.publishes && id in Step(env, s, l).publishes[pid].missed && id !in s.publishes[pid].missed ==>
              CouldMiss(s, l, pid, id)
  {
    if id in s.conns {
      assert ConnOk(env, s, id, s.conns[id]);
    }
  }

  /** The select for this client found the queue full, or closed and took that case. */
  ghost predicate CouldMiss(s: State, l: Label, pid: nat, id: nat) {
    && l.Send? && l.pid == pid && l.id == id && id in s.conns
    && (|s.conns[id].send| == 64 || (s.conns[id].closed && !l.pickSend))
  }

  lemma {:induction false} RunSnoc(env: Env, s: State, ls: seq<Label>, l: Label)
    ensures Run(env, s, ls + [l]) == Step(env, Run(env, s, ls), l)
    decreases |ls|
  {
    if ls == [] {
      assert Run(env, Step(env, s, l), []) == Step(env, s, l);
      assert [l][1..] == [];
    } else {
      assert (ls + [l])[1..] == ls[1..] + [l];
      RunSnoc(env, Step(env, s, ls[0]), ls[1..], l);
    }
  }

  /** Whenever a run ends with a client missed, there was a moment when its queue was full or it was closed. */
  lemma {:induction false} MissedForAReason(env: Env, ls: seq<Label>, pid: nat, id: nat)
    requires var s := Run(env, INITIAL, ls); pid in s.publishes && id in s.publishes[pid].missed
    ensures exists i :: 0 <= i < |ls| && CouldMiss(Run(env, INITIAL, ls[..i]), ls[i], pid, id)
    decreases |ls|
  {
    if ls != [] {
      var n := |ls| - 1;
      var before := Run(env, INITIAL, ls[..n]);
      assert ls == ls[..n] + [ls[n]];
      RunSnoc(env, INITIAL, ls[..n], ls[n]);
      RunInv(env, INITIAL, ls[..n]);
      MissedStep(env, before, ls[n], pid, id);
      if pid in before.publishes && id in before.publishes[pid].missed {
        MissedForAReason(env, ls[..n], pid, id);
        var i :| 0 <= i < n && CouldMiss(Run(env, INITIAL, ls[..n][..i]), ls[..n][i], pid, id);
        assert ls[..n][..i] == ls[..i];
      }
    }
  }
  // ------------------------------------------------------------ what a subscriber gets

  /** A connection all of whose topics are approved is opened, under its own topic and those it asked for. */
  lemma ServeSubscribes(env: Env, s: State, id: nat, user: Uuid, requested: seq<string>)
    requires id !in s.conns && forall t :: t in Asked(env, user, requested) ==> ClassroomTopic(env, user, t)
    ensures var t := Step(env, s, Serve(id, user, requested));
            && id in t.registered && id in t.conns && !t.conns[id].closed && t.conns[id].user == user
            && forall topic :: topic in t.conns[id].topics <==>
                 topic == "user:" + env.render(user) + ":notifications" || topic in Asked(env, user, requested)
  {
    var asked := Asked(env, user, requested);
    forall i | 0 <= i < |asked| ensures Refusal(env, user, asked[i]).None? {
      RefusalIsExact(env, user, asked[i]);
    }
  }

  /** While it is registered, every Publish on a topic of its finds it, and reaches it if its queue has room. */
  lemma SubscriberIsReached(env: Env, s: State, pid: nat, id: nat, topic: string, pickSend: bool)
    requires id in s.registered && id in s.conns && topic in s.conns[id].topics && pid !in s.publishes
    requires |s.conns[id].send| < 64 && !s.conns[id].closed
    ensures var t := Step(env, Step(env, s, Snapshot(pid, topic)), Send(pid, id, pickSend));
            && id in t.conns && t.conns[id].send == s.conns[id].send + [Message(pid, topic)]
            && Got(t.conns[id], pid)
  {
    var t := Step(env, Step(env, s, Snapshot(pid, topic)), Send(pid, id, pickSend));
    assert t.conns[id].send == s.conns[id].send + [Message(pid, topic)];
    var n := |Received(s.conns[id])|;
    assert Received(t.conns[id])[n] == Message(pid, topic);
  }

  /** The write pump takes the oldest payload, so payloads leave in the order they were queued. */
  lemma PumpTakesOldest(env: Env, s: State, id: nat)
    requires id in s.conns && s.conns[id].send != []
    ensures var c, d := s.conns[id], Step(env, s, WriteOut(id)).conns[id];
            d.written == c.written + [c.send[0]] && d.send == c.send[1..] && Received(d) == Received(c)
  {
    assert [s.conns[id].send[0]] + s.conns[id].send[1..] == s.conns[id].send;
  }

  /** Once unregistered, a connection is closed and found by no Publish ever after. */
  lemma {:induction false} UnregisteredIsNeverFound(env: Env, s: State, ls: seq<Label>, id: nat, pid: nat)
    requires id in s.conns && id !in s.registered && s.conns[id].closed
    requires pid !in s.publishes
    ensures var t := Run(env, s, ls);
            && id in t.conns && id !in t.registered && t.conns[id].closed
            && (pid in t.publishes ==> id !in t.publishes[pid].audience)
    decreases |ls|
  {
    if ls != [] {
      var t := Step(env, s, ls[0]);
      if pid in t.publishes {
        AudienceStays(env, t, ls[1..], pid);
        UnregisteredStays(env, t, ls[1..], id);
      } else {
        UnregisteredIsNeverFound(env, t, ls[1..], id, pid);
      }
    }
  }

  lemma {:induction false} AudienceStays(env: Env, s: State, ls: seq<Label>, pid: nat)
    requires pid in s.publishes
    ensures pid in Run(env, s, ls).publishes && Run(env, s, ls).publishes[pid].audience == s.publishes[pid].audience
    decreases |ls|
  {
    if ls != [] {
      AudienceStays(env, Step(env, s, ls[0]), ls[1..], pid);
    }
  }

  lemma {:induction false} UnregisteredStays(env: Env, s: State, ls: seq<Label>, id: nat)
    requires id in s.conns && id !in s.registered && s.conns[id].closed
    ensures var t := Run(env, s, ls); id in t.conns && id !in t.registered && t.conns[id].closed
    decreases |ls|
  {
    if ls != [] {
      UnregisteredStays(env, Step(env, s, ls[0]), ls[1..], id);
    }
  }

  /** And Unregister does that. */
  lemma UnregisterTakesOut(env: Env, s: State, id: nat)
    requires id in s.conns
    ensures var t := Step(env, s, Unregister(id));
            && t.registered == s.registered - {id} && id in t.conns && t.conns[id].closed
            && Received(t.conns[id]) == Received(s.conns[id])
  {
  }
}
