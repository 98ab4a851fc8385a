/**
 The device service's Execute: what a driver's answer does to the stored device, and when the online/offline
 trigger is told. The driver's answer and the store's success are inputs.
 */
module Devices {
  import opened Wrappers

  type Uuid = nat

  datatype Device = Device(classroom: Uuid, name: string, driver: string, status: string, online: bool,
    lastSeen: Option<int>)

  datatype Outcome = Unsupported | Failed | Done(status: string, online: bool, lastSeen: int)

  /** One command, with what the driver will answer and whether the store will take the new state. */
  datatype Call = Call(id: Uuid, command: string, outcome: Outcome, stored: bool)

  datatype ExecError = UnsupportedCmd | DomainNotFound | Forbidden | UnknownDriver | CommandFailed | StoreFailed

  /** The trigger was told that this device is now online, or offline. */
  datatype Told = Told(id: Uuid, online: bool)

  /** The caller's rights by classroom, and the registered drivers. */
  datatype Env = Env(mayUse: Uuid -> bool, drivers: set<string>)

  const COMMANDS: set<string> := {"ON", "OFF", "OPEN", "CLOSE", "SET_VALUE"}

  datatype State = State(devices: map<Uuid, Device>, told: seq<Told>)

  /** The checks before the driver is asked. */
  function Refusal(env: Env, s: State, c: Call): Option<ExecError> {
    if c.command !in COMMANDS then Some(UnsupportedCmd)
    else if c.id !in s.devices then Some(DomainNotFound)
    else if !env.mayUse(s.devices[c.id].classroom) then Some(Forbidden)
    else if s.devices[c.id].driver !in env.drivers then Some(UnknownDriver)
    else if c.outcome.Unsupported? then Some(UnsupportedCmd)
    else None
  }

  function Executed(env: Env, s: State, c: Call): (State, Result<Device, ExecError>) {
    if Refusal(env, s, c).Some? then (s, Err(Refusal(env, s, c).value))
    else
      var d := s.devices[c.id];
      match c.outcome
      case Done(status, online, lastSeen) =>
        var n := d.(status := status, online := online, lastSeen := Some(lastSeen));
        if !c.stored then (s, Err(StoreFailed))
        else (State(s.devices[c.id := n], if d.online != online then s.told + [Told(c.id, online)] else s.told), Ok(n))
      case _ =>
        var off := if c.stored then s.devices[c.id := d.(online := false)] else s.devices;
        (State(off, if d.online then s.told + [Told(c.id, false)] else s.told), Err(CommandFailed))
  }

  class Service {
    const env: Env
    var devices: map<Uuid, Device>
    var told: seq<Told>

    constructor (env: Env)
      ensures this.env == env && devices == map[] && told == []
    {
      this.env := env;
      devices, told := map[], [];
    }

    function Now(): State
      reads this
    {
      State(devices, told)
    }

    /** Writes three columns of the row, or fails without effect. */
    method UpdateState(id: Uuid, status: string, online: bool, lastSeen: Option<int>, works: bool) returns (ok: bool)
      requires id in devices
      modifies this`devices
      ensures ok == works
      ensures devices == if !works then old(devices)
                         else old(devices)[id := old(devices)[id].(status := status, online := online,
                                                                   lastSeen := lastSeen)]
    {
      if works {
        devices := devices[id := devices[id].(status := status, online := online, lastSeen := lastSeen)];
      }
      ok := works;
    }

    method OnDeviceStateChange(id: Uuid, online: bool)
      modifies this`told
      ensures told == old(told) + [Told(id, online)]
    {
      told := told + [Told(id, online)];
    }

    /** Who may command what, and what becomes of it: the first reason to refuse decides, and refusing changes nothing. */
    method Execute(c: Call) returns (r: Result<Device, ExecError>)
      modifies this
      ensures (Now(), r) == Executed(env, old(Now()), c)
      ensures c.command !in {"ON", "OFF", "OPEN", "CLOSE", "SET_VALUE"} ==>
                r == Err(UnsupportedCmd) && Now() == old(Now())
      ensures c.command in {"ON", "OFF", "OPEN", "CLOSE", "SET_VALUE"} && c.id !in old(devices) ==>
                r == Err(DomainNotFound) && Now() == old(Now())
      ensures c.command in {"ON", "OFF", "OPEN", "CLOSE", "SET_VALUE"} && c.id in old(devices) ==>
                var d := old(devices)[c.id];
                if !env.mayUse(d.classroom) then r == Err(Forbidden) && Now() == old(Now())
                else if d.driver !in env.drivers then r == Err(UnknownDriver) && Now() == old(Now())
                else match c.outcome
                     case Unsupported => r == Err(UnsupportedCmd) && Now() == old(Now())
                     case Failed =>
                       && r == Err(CommandFailed)
                       && devices == (if c.stored then old(devices)[c.id := d.(online := false)] else old(devices))
                       && told == old(told) + (if d.online then [Told(c.id, false)] else [])
                     case Done(status, online, lastSeen) =>
                       if !c.stored then r == Err(StoreFailed) && Now() == old(Now())
                       else
                         && r == Ok(Device(d.classroom, d.name, d.driver, status, online, Some(lastSeen)))
                         && devices == old(devices)[c.id := r.value]
                         && told == old(told) + (if d.online != online then [Told(c.id, online)] else [])
    {
      if c.command !in COMMANDS {
        return Err(UnsupportedCmd);
      }
      if c.id !in devices {
        return Err(DomainNotFound);
      }
      var d := devices[c.id];
      if !env.mayUse(d.classroom) {
        return Err(Forbidden);
      }
      if d.driver !in env.drivers {
        return Err(UnknownDriver);
      }
      match c.outcome {
        case Unsupported =>
          return Err(UnsupportedCmd);
        case Failed =>
          var wasOnline := d.online;
          var stored := UpdateState(c.id, d.status, false, d.lastSeen, c.stored);
          d := d.(online := false);
          if wasOnline {
            OnDeviceStateChange(c.id, false);
          }
          return Err(CommandFailed);
        case Done(status, online, lastSeen) =>
          var wasOnline := d.online;
          d := d.(status := status, online := online, lastSeen := Some(lastSeen));
          var stored := UpdateState(c.id, d.status, d.online, d.lastSeen, c.stored);
          if !stored {
            return Err(StoreFailed);
          }
          if wasOnline != d.online {
            OnDeviceStateChange(c.id, d.online);
          }
          return Ok(d);
      }
    }
  }

  // ------------------------------------------------------------ any serial run

  /** Editing keeps the online flag; a device is created offline, under an id never used before. */
  datatype Op =
    | Execute(c: Call)
    | Create(id: Uuid, classroom: Uuid, name: string, driver: string)
    | Edit(id: Uuid, name: string, driver: string)
    | Remove(id: Uuid)

  datatype History = History(now: State, ever: set<Uuid>)

  const EMPTY := History(State(map[], []), {})

  function Step(env: Env, h: History, op: Op): History {
    var s := h.now;
    match op
    case Execute(c) => h.(now := Executed(env, s, c).0)
    case Create(id, classroom, name, driver) =>
      if id in h.ever then h
      else History(s.(devices := s.devices[id := Device(classroom, name, driver, "unknown", false, None)]), h.ever + {id})
    case Edit(id, name, driver) =>
      if id !in s.devices then h
      else h.(now := s.(devices := s.devices[id := s.devices[id].(name := name, driver := driver)]))
    case Remove(id) => h.(now := s.(devices := s.devices - {id}))
  }

  function Run(env: Env, h: History, ops: seq<Op>): History
    decreases |ops|
  {
    if ops == [] then h else Run(env, Step(env, h, ops[0]), ops[1..])
  }

  lemma {:induction false} RunSnoc(env: Env, h: History, ops: seq<Op>, op: Op)
    ensures Run(env, h, ops + [op]) == Step(env, Run(env, h, ops), op)
    decreases |ops|
  {
    if ops == [] {
      assert [op][1..] == [];
    } else {
      assert (ops + [op])[1..] == ops[1..] + [op];
      RunSnoc(env, Step(env, h, ops[0]), ops[1..], op);
    }
  }

  /** What the trigger was told about one device, in order. */
  function About(told: seq<Told>, id: Uuid): (flags: seq<bool>)
    ensures (forall t :: t in told ==> t.id != id) ==> flags == []
  {
    if told == [] then []
    else if told[|told| - 1].id == id then About(told[..|told| - 1], id) + [told[|told| - 1].online]
    else About(told[..|told| - 1], id)
  }

  lemma AboutSnoc(told: seq<Told>, t: Told, id: Uuid)
    ensures About(told + [t], id) == if t.id == id then About(told, id) + [t.online] else About(told, id)
  {
    assert (told + [t])[..|told|] == told;
  }

  /** Online first, then offline, and so on: never the same news twice. */
  ghost predicate Alternating(flags: seq<bool>) {
    forall i :: 0 <= i < |flags| ==> flags[i] == (i % 2 == 0)
  }

  function Last(flags: seq<bool>): bool {
    flags != [] && flags[|flags| - 1]
  }

  /** What someone who only listens to the trigger believes. */
  function Believed(told: seq<Told>, id: Uuid): bool {
    Last(About(told, id))
  }

  /** The trigger's listener is right about every device. */
  ghost predicate InStep(h: History) {
    forall id :: id in h.now.devices ==> h.now.devices[id].online == Believed(h.now.told, id)
  }

  ghost predicate Orderly(h: History) {
    && (forall id :: id in h.now.devices ==> id in h.ever)
    && (forall t :: t in h.now.told ==> t.id in h.ever)
    && (forall id :: Alternating(About(h.now.told, id)))
  }

  /** The command fails on a device stored online, and so does the attempt to store that it is offline. */
  predicate LostOffline(env: Env, h: History, op: Op) {
    op.Execute? && Refusal(env, h.now, op.c) == None && op.c.outcome.Failed? && !op.c.stored
    && h.now.devices[op.c.id].online
  }

  lemma AlternatingSnoc(flags: seq<bool>, online: bool)
    requires Alternating(flags) && Last(flags) != online
    ensures Alternating(flags + [online])
  {
    if flags != [] {
      assert flags[|flags| - 1] == ((|flags| - 1) % 2 == 0);
    }
  }

  lemma TellKeeps(told: seq<Told>, id: Uuid, online: bool)
    requires forall k :: Alternating(About(told, k))
    requires Believed(told, id) != online
    ensures forall k :: Alternating(About(told + [Told(id, online)], k))
    ensures forall k :: Believed(told + [Told(id, online)], k) == if k == id then online else Believed(told, k)
  {
    forall k
      ensures Alternating(About(told + [Told(id, online)], k))
      ensures Believed(told + [Told(id, online)], k) == if k == id then online else Believed(told, k)
    {
      AboutSnoc(told, Told(id, online), k);
      if k == id {
        AlternatingSnoc(About(told, k), online);
      }
    }
  }

  lemma ExecuteInStepIff(env: Env, h: History, c: Call)
    requires Orderly(h) && InStep(h)
    ensures Orderly(Step(env, h, Execute(c)))
    ensures InStep(Step(env, h, Execute(c))) <==> !LostOffline(env, h, Execute(c))
  {
    hide About, Alternating;
    var n := Step(env, h, Execute(c));
    if Refusal(env, h.now, c) == None && n.now.told != h.now.told {
      var online := c.outcome.Done? && c.outcome.online;
      TellKeeps(h.now.told, c.id, online);
      assert n.now.told == h.now.told + [Told(c.id, online)];
    }
  }

  /** One operation keeps the listener right exactly when it is not a lost offline. */
  lemma InStepIff(env: Env, h: History, op: Op)
    requires Orderly(h) && InStep(h)
    ensures Orderly(Step(env, h, op))
    ensures InStep(Step(env, h, op)) <==> !LostOffline(env, h, op)
  {
    match op {
      case Execute(c) => ExecuteInStepIff(env, h, c);
      case Create(id, _, _, _) =>
        if id !in h.ever {
          assert About(h.now.told, id) == [];
        }
      case _ =>
    }
  }

  /** The other operations: nothing but a command makes news or moves an online flag. */
  lemma OtherOperations(env: Env, h: History, id: Uuid, classroom: Uuid, name: string, driver: string)
    ensures var t := Step(env, h, Edit(id, name, driver)).now;
            && t.told == h.now.told
            && t.devices == if id !in h.now.devices then h.now.devices else
                 h.now.devices[id := h.now.devices[id].(name := name, driver := driver)]
    ensures var t := Step(env, h, Remove(id)).now; t.told == h.now.told && t.devices == h.now.devices - {id}
    ensures id !in h.ever ==>
              var t := Step(env, h, Create(id, classroom, name, driver)).now;
              && t.told == h.now.told
              && t.devices == h.now.devices[id := Device(classroom, name, driver, "unknown", false, None)]
  {
  }

  // ------------------------------------------------------------ devices out of the caller's reach

  ghost predicate OutOfReach(env: Env, devices: map<Uuid, Device>, id: Uuid) {
    id in devices && !env.mayUse(devices[id].classroom)
  }

  /** No list of commands writes a device in a classroom the caller may not use, or makes news of it. */
  lemma {:induction false} OutOfReachStays(env: Env, h: History, ops: seq<Op>, id: Uuid)
    requires OutOfReach(env, h.now.devices, id) && forall op :: op in ops ==> op.Execute?
    ensures var s := Run(env, h, ops).now;
            && id in s.devices && s.devices[id] == h.now.devices[id]
            && About(s.told, id) == About(h.now.told, id)
    decreases |ops|
  {
    if ops != [] {
      assert ops[0] in ops && forall op :: op in ops[1..] ==> op in ops;
      OutOfReachStep(env, h, ops[0].c, id);
      OutOfReachStays(env, Step(env, h, ops[0]), ops[1..], id);
    }
  }

  lemma OutOfReachStep(env: Env, h: History, c: Call, id: Uuid)
    requires OutOfReach(env, h.now.devices, id)
    ensures var s := Step(env, h, Execute(c)).now;
            && id in s.devices && s.devices[id] == h.now.devices[id]
            && About(s.told, id) == About(h.now.told, id)
  {
    var s := Step(env, h, Execute(c)).now;
    if s.told != h.now.told {
      AboutSnoc(h.now.told, s.told[|h.now.told|], id);
      assert s.told == h.now.told + [s.told[|h.now.told|]];
    }
  }

  ghost predicate InStepThroughout(env: Env, h: History, ops: seq<Op>)
    decreases |ops|
  {
    InStep(h) && (ops == [] || InStepThroughout(env, Step(env, h, ops[0]), ops[1..]))
  }

  predicate NoneLost(env: Env, h: History, ops: seq<Op>)
    decreases |ops|
  {
    ops == [] || (!LostOffline(env, h, ops[0]) && NoneLost(env, Step(env, h, ops[0]), ops[1..]))
  }

  lemma {:induction false} ThroughoutIff(env: Env, h: History, ops: seq<Op>)
    requires Orderly(h) && InStep(h)
    ensures InStepThroughout(env, h, ops) <==> NoneLost(env, h, ops)
    ensures NoneLost(env, h, ops) ==> Orderly(Run(env, h, ops)) && InStep(Run(env, h, ops))
    decreases |ops|
  {
    if ops != [] {
      InStepIff(env, h, ops[0]);
      if !LostOffline(env, h, ops[0]) {
        ThroughoutIff(env, Step(env, h, ops[0]), ops[1..]);
      }
    }
  }

  /**
   Over a serial run from the empty store the trigger's news about each device alternate, online first, and the
   last one is the stored flag, at every point of the run if and only if no offline mark is lost.
   */
  lemma OnlineEdges(env: Env, ops: seq<Op>)
    ensures InStepThroughout(env, EMPTY, ops) <==> NoneLost(env, EMPTY, ops)
    ensures NoneLost(env, EMPTY, ops) ==>
              var s := Run(env, EMPTY, ops).now;
              && (forall id :: Alternating(About(s.told, id)))
              && (forall id :: id in s.devices ==> s.devices[id].online == Believed(s.told, id))
  {
    ThroughoutIff(env, EMPTY, ops);
  }

  const ANYBODY := Env(_ => true, {"lamp"})

  /** A device is created, comes online, and then fails a command while its offline mark cannot be stored. */
  const GOES_DARK := [
    Create(1, 2, "desk", "lamp"),
    Execute(Call(1, "ON", Done("on", true, 5), true)),
    Execute(Call(1, "OFF", Failed, false))]

  lemma GoesDarkRun()
    ensures Run(ANYBODY, EMPTY, GOES_DARK) == Step(ANYBODY, Run(ANYBODY, EMPTY, GOES_DARK[..2]), GOES_DARK[2])
    ensures var s := Run(ANYBODY, EMPTY, GOES_DARK[..2]).now;
            s.told == [Told(1, true)] && s.devices == map[1 := Device(2, "desk", "lamp", "on", true, Some(5))]
  {
    RunSnoc(ANYBODY, EMPTY, GOES_DARK[..2], GOES_DARK[2]);
    assert GOES_DARK == GOES_DARK[..2] + [GOES_DARK[2]];
    var h1 := Step(ANYBODY, EMPTY, GOES_DARK[0]);
    assert h1.now == State(map[1 := Device(2, "desk", "lamp", "unknown", false, None)], []);
    var h2 := Step(ANYBODY, h1, GOES_DARK[1]);
    assert Run(ANYBODY, h2, []) == h2;
    assert Run(ANYBODY, h1, GOES_DARK[..2][1..]) == h2 by {
      assert GOES_DARK[..2][1..] == [GOES_DARK[1]] && [GOES_DARK[1]][1..] == [];
    }
    assert h2.now.devices == map[1 := Device(2, "desk", "lamp", "on", true, Some(5))];
  }

  /** The trigger was told that the device is offline; its row says online. */
  lemma OfflineMarkIsLost()
    ensures var s := Run(ANYBODY, EMPTY, GOES_DARK).now;
            && s.told == [Told(1, true), Told(1, false)] && !Believed(s.told, 1)
            && 1 in s.devices && s.devices[1].online
    ensures LostOffline(ANYBODY, Run(ANYBODY, EMPTY, GOES_DARK[..2]), GOES_DARK[2])
  {
    hide Run;
    GoesDarkRun();
    var h := Run(ANYBODY, EMPTY, GOES_DARK[..2]);
    assert Refusal(ANYBODY, h.now, GOES_DARK[2].c) == None;
    var told := h.now.told + [Told(1, false)];
    assert told == [Told(1, true), Told(1, false)];
    AboutSnoc(h.now.told, Told(1, false), 1);
  }
}
