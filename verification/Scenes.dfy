/** Running a scene: its steps one after the other, each failure recorded, the first one reported. */
module Scenes {
  import opened Wrappers
  import D = Devices

  datatype Step = Step(device: D.Uuid, command: string)

  datatype Scene = Scene(classroom: D.Uuid, steps: seq<Step>)

  datatype StepResult = StepResult(step: Step, error: Option<D.ExecError>) {
    predicate Success() { error.None? }
  }

  datatype RunError = SceneNotFound | SceneForbidden | StepFailed(first: D.ExecError)

  /** What the world does during one step; `cancelled` is read right after it. A scene is given one per step. */
  datatype Answer = Answer(outcome: D.Outcome, stored: bool, cancelled: bool)

  function CallOf(step: Step, a: Answer): D.Call {
    D.Call(step.device, step.command, a.outcome, a.stored)
  }

  /** The device store after a run of steps. */
  function Fold(env: D.Env, s: D.State, calls: seq<D.Call>): D.State {
    if calls == [] then s
    else D.Executed(env, Fold(env, s, calls[..|calls| - 1]), calls[|calls| - 1]).0
  }

  function Failure(r: Result<D.Device, D.ExecError>): Option<D.ExecError> {
    match r
    case Ok(_) => None
    case Err(e) => Some(e)
  }

  /** How the i-th command fared in the state its predecessors left. */
  function Recorded(env: D.Env, s: D.State, steps: seq<Step>, calls: seq<D.Call>, i: nat): (r: StepResult)
    requires i < |calls| && i < |steps|
    ensures r.step == steps[i]
    ensures r.Success() <==> D.Executed(env, Fold(env, s, calls[..i]), calls[i]).1.Ok?
    ensures !r.Success() ==> D.Executed(env, Fold(env, s, calls[..i]), calls[i]).1 == Err(r.error.value)
  {
    StepResult(steps[i], Failure(D.Executed(env, Fold(env, s, calls[..i]), calls[i]).1))
  }

  /** The results tell, step by step, how each command fared in the state its predecessors left. */
  ghost predicate Faithful(env: D.Env, s: D.State, steps: seq<Step>, calls: seq<D.Call>, results: seq<StepResult>) {
    && |results| == |calls| <= |steps|
    && forall i {:trigger Recorded(env, s, steps, calls, i)} :: 0 <= i < |results| ==>
         results[i] == Recorded(env, s, steps, calls, i)
  }

  ghost predicate IsFirstFailure(results: seq<StepResult>, e: Option<D.ExecError>) {
    match e
    case None => forall r :: r in results ==> r.Success()
    case Some(_) => exists i :: 0 <= i < |results| && results[i].error == e
                                && forall k :: 0 <= k < i ==> results[k].Success()
  }

  function Calls(steps: seq<Step>, answers: seq<Answer>, n: nat): (calls: seq<D.Call>)
    requires n <= |steps| && n <= |answers|
    ensures |calls| == n && forall i :: 0 <= i < n ==> calls[i] == CallOf(steps[i], answers[i])
    ensures forall i :: 0 <= i < n ==>
              calls[i] == D.Call(steps[i].device, steps[i].command, answers[i].outcome, answers[i].stored)
  {
    seq(n, i requires 0 <= i < n => CallOf(steps[i], answers[i]))
  }

  /** The run stopped after `n` steps: at the end, or at the first cancellation. */
  ghost predicate StopsAt(answers: seq<Answer>, n: nat) {
    && n <= |answers|
    && (forall i :: 0 <= i < n - 1 ==> !answers[i].cancelled)
    && (n < |answers| ==> n > 0 && answers[n - 1].cancelled)
  }

  /** The results of the first |results| steps, the first failure among them, and the store they leave. */
  ghost predicate Ran(env: D.Env, before: D.State, steps: seq<Step>, answers: seq<Answer>,
    results: seq<StepResult>, first: Option<D.ExecError>, now: D.State)
  {
    && |results| <= |steps| == |answers|
    && now == Fold(env, before, Calls(steps, answers, |results|))
    && Faithful(env, before, steps, Calls(steps, answers, |results|), results)
    && IsFirstFailure(results, first)
  }

  class Service {
    const scenes: map<D.Uuid, Scene>
    const devices: D.Service

    constructor (scenes: map<D.Uuid, Scene>, devices: D.Service)
      ensures this.scenes == scenes && this.devices == devices
    {
      this.scenes := scenes;
      this.devices := devices;
    }

    /** One turn of the loop: the next step is executed and recorded, the first failure remembered. */
    method RunStep(ghost before: D.State, steps: seq<Step>, answers: seq<Answer>,
      results: seq<StepResult>, first: Option<D.ExecError>)
      returns (results': seq<StepResult>, first': Option<D.ExecError>)
      requires |results| < |steps|
      requires Ran(devices.env, before, steps, answers, results, first, devices.Now())
      modifies devices
      ensures |results'| == |results| + 1
      ensures Ran(devices.env, before, steps, answers, results', first', devices.Now())
    {
      var i := |results|;
      RanSnoc(devices.env, before, steps, answers, results, first);
      var r := devices.Execute(CallOf(steps[i], answers[i]));
      results' := results + [StepResult(steps[i], Failure(r))];
      first' := first;
      if r.Err? && first == None {
        first' := Some(r.error);
      }
    }

    method RunSteps(steps: seq<Step>, answers: seq<Answer>)
      returns (results: seq<StepResult>, first: Option<D.ExecError>)
      requires |answers| == |steps|
      modifies devices
      ensures Ran(devices.env, old(devices.Now()), steps, answers, results, first, devices.Now())
      ensures StopsAt(answers, |results|)
    {
      results, first := [], None;
      ghost var before := devices.Now();
      for i := 0 to |steps|
        invariant |results| == i && forall k :: 0 <= k < i ==> !answers[k].cancelled
        invariant Ran(devices.env, before, steps, answers, results, first, devices.Now())
      {
        results, first := RunStep(before, steps, answers, results, first);
        if answers[i].cancelled {
          return;
        }
      }
    }

    method Run(id: D.Uuid, answers: seq<Answer>) returns (results: seq<StepResult>, err: Option<RunError>)
      requires id in scenes ==> |answers| == |scenes[id].steps|
      modifies devices
      ensures err == Some(SceneNotFound) <==> id !in scenes
      ensures err == Some(SceneForbidden) <==> id in scenes && !devices.env.mayUse(scenes[id].classroom)
      ensures err == Some(SceneNotFound) || err == Some(SceneForbidden) ==>
                results == [] && devices.Now() == old(devices.Now())
      ensures id in scenes && devices.env.mayUse(scenes[id].classroom) ==>
                && StopsAt(answers, |results|)
                && (err == None || err.value.StepFailed?)
                && Ran(devices.env, old(devices.Now()), scenes[id].steps, answers, results,
                       if err == None then None else Some(err.value.first), devices.Now())
                && (err.Some? <==> exists r :: r in results && !r.Success())
    {
      if id !in scenes {
        return [], Some(SceneNotFound);
      }
      if !devices.env.mayUse(scenes[id].classroom) {
        return [], Some(SceneForbidden);
      }
      var first;
      results, first := RunSteps(scenes[id].steps, answers);
      err := if first == None then None else Some(StepFailed(first.value));
      FailureIffSome(results, first);
    }
  }

  lemma RanSnoc(env: D.Env, before: D.State, steps: seq<Step>, answers: seq<Answer>,
    results: seq<StepResult>, first: Option<D.ExecError>)
    requires |results| < |steps| == |answers|
    requires Faithful(env, before, steps, Calls(steps, answers, |results|), results) && IsFirstFailure(results, first)
    ensures var i := |results|;
            var (n, r) := D.Executed(env, Fold(env, before, Calls(steps, answers, i)), CallOf(steps[i], answers[i]));
            Ran(env, before, steps, answers, results + [StepResult(steps[i], Failure(r))],
                if first == None then Failure(r) else first, n)
  {
    var i := |results|;
    var c := CallOf(steps[i], answers[i]);
    var r := D.Executed(env, Fold(env, before, Calls(steps, answers, i)), c).1;
    CallsSnoc(steps, answers, i);
    FaithfulSnoc(env, before, steps, Calls(steps, answers, i), results, c);
    FirstFailureSnoc(results, first, StepResult(steps[i], Failure(r)));
  }

  lemma CallsSnoc(steps: seq<Step>, answers: seq<Answer>, i: nat)
    requires i < |steps| && i < |answers|
    ensures Calls(steps, answers, i + 1) == Calls(steps, answers, i) + [CallOf(steps[i], answers[i])]
  {
  }

  lemma FaithfulSnoc(env: D.Env, s: D.State, steps: seq<Step>, calls: seq<D.Call>, results: seq<StepResult>, c: D.Call)
    requires Faithful(env, s, steps, calls, results) && |calls| < |steps|
    ensures var (n, r) := D.Executed(env, Fold(env, s, calls), c);
            && Fold(env, s, calls + [c]) == n
            && Faithful(env, s, steps, calls + [c], results + [StepResult(steps[|calls|], Failure(r))])
  {
    assert (calls + [c])[..|calls|] == calls;
    forall i | 0 <= i < |calls| ensures Recorded(env, s, steps, calls + [c], i) == Recorded(env, s, steps, calls, i) {
      assert (calls + [c])[..i] == calls[..i];
    }
  }

  lemma FirstFailureSnoc(results: seq<StepResult>, first: Option<D.ExecError>, r: StepResult)
    requires IsFirstFailure(results, first)
    ensures IsFirstFailure(results + [r], if first == None then r.error else first)
  {
    var all := results + [r];
    if first == None {
      assert forall k :: 0 <= k < |results| ==> all[k] in results;
      assert all[|results|] == r;
    } else {
      var i :| 0 <= i < |results| && results[i].error == first && forall k :: 0 <= k < i ==> results[k].Success();
      assert all[i] == results[i] && forall k :: 0 <= k < i ==> all[k] == results[k];
    }
  }

  lemma FailureIffSome(results: seq<StepResult>, e: Option<D.ExecError>)
    requires IsFirstFailure(results, e)
    ensures e.Some? <==> exists r :: r in results && !r.Success()
  {
    if e.Some? {
      var i :| 0 <= i < |results| && results[i].error == e;
      assert results[i] in results && !results[i].Success();
    }
  }

  function Ops(calls: seq<D.Call>): (ops: seq<D.Op>)
    ensures |ops| == |calls|
  {
    seq(|calls|, i requires 0 <= i < |calls| => D.Execute(calls[i]))
  }

  lemma {:induction false} FoldIsRun(env: D.Env, h: D.History, calls: seq<D.Call>)
    ensures D.Run(env, h, Ops(calls)) == h.(now := Fold(env, h.now, calls))
    decreases |calls|
  {
    if calls != [] {
      var n := |calls| - 1;
      FoldIsRun(env, h, calls[..n]);
      assert Ops(calls) == Ops(calls[..n]) + [D.Execute(calls[n])];
      D.RunSnoc(env, h, Ops(calls[..n]), D.Execute(calls[n]));
    }
  }

  /** A scene is a serial run: the trigger's news stay right through it if and only if no offline mark is lost. */
  lemma SceneEdges(env: D.Env, h: D.History, calls: seq<D.Call>)
    requires D.Orderly(h) && D.InStep(h)
    ensures D.InStepThroughout(env, h, Ops(calls)) <==> D.NoneLost(env, h, Ops(calls))
    ensures D.NoneLost(env, h, Ops(calls)) ==>
              var after := Fold(env, h.now, calls);
              && (forall id :: D.Alternating(D.About(after.told, id)))
              && (forall id :: id in after.devices ==> after.devices[id].online == D.Believed(after.told, id))
  {
    D.ThroughoutIff(env, h, Ops(calls));
    FoldIsRun(env, h, calls);
  }
}
