/** Which topics a WebSocket client may subscribe to: a strict allowlist. */
module Topics {
  import opened Wrappers

  type Uuid = nat

  /** Calls into other packages, as this connection sees them answered. */
  datatype Env = Env(
    trim: string -> string,                 // strings.TrimSpace
    render: Uuid -> string,                  // uuid.String
    parse: string -> Option<Uuid>,          // uuid.Parse
    configured: bool,                       // an authorizer is wired in
    authorize: (Uuid, Uuid) -> bool)        // may this user see this classroom?

  datatype TopicError = Forbidden | BadRequest

  function OwnTopic(env: Env, user: Uuid): string {
    "user:" + env.render(user) + ":notifications"
  }

  /** strings.IndexByte: the first position of `c`, or -1. */
  function IndexByte(s: string, c: char): (i: int)
    ensures -1 <= i < |s|
    ensures i >= 0 ==> s[i] == c && c !in s[..i]
    ensures i < 0 ==> c !in s
  {
    if s == "" then -1
    else if s[0] == c then 0
    else
      var rest := IndexByte(s[1..], c);
      if rest < 0 then -1 else rest + 1
  }

  /**
   What the contract promises: the user's own notifications, or "classroom:<id>:..." for a
   classroom the user may see.
   */
  ghost predicate Approved(env: Env, user: Uuid, topic: string) {
    topic == OwnTopic(env, user) || ClassroomTopic(env, user, topic)
  }

  ghost predicate ClassroomTopic(env: Env, user: Uuid, topic: string) {
    exists id: string, tail: string ::
      && topic == "classroom:" + id + ":" + tail
      && id != "" && ':' !in id
      && env.configured && env.parse(id).Some? && env.authorize(user, env.parse(id).value)
  }

  /** The branches of the loop for one trimmed, non-empty, not-own topic. */
  function Refusal(env: Env, user: Uuid, t: string): Option<TopicError> {
    if "user:" <= t then Some(Forbidden)
    else if "classroom:" <= t then
      var rest := t[10..];
      var sep := IndexByte(rest, ':');
      if sep <= 0 then Some(BadRequest)
      else if env.parse(rest[..sep]).None? then Some(BadRequest)
      else if !env.configured then Some(Forbidden)
      else if !env.authorize(user, env.parse(rest[..sep]).value) then Some(Forbidden)
      else None
    else Some(BadRequest)
  }

  lemma AcceptedIsClassroom(env: Env, user: Uuid, t: string)
    requires Refusal(env, user, t).None?
    ensures ClassroomTopic(env, user, t)
  {
    var rest := t[10..];
    var sep := IndexByte(rest, ':');
    assert t == "classroom:" + rest[..sep] + ":" + rest[sep + 1..];
  }

  lemma ClassroomIsAccepted(env: Env, user: Uuid, id: string, tail: string)
    requires id != "" && ':' !in id
    requires env.configured && env.parse(id).Some? && env.authorize(user, env.parse(id).value)
    ensures Refusal(env, user, "classroom:" + id + ":" + tail).None?
  {
    var t := "classroom:" + id + ":" + tail;
    assert t[0] == 'c' && t[..10] == "classroom:" && t[10..] == id + ":" + tail;
    FirstColon(id, tail);
    assert t[10..][..|id|] == id;
  }

  lemma RefusalIsExact(env: Env, user: Uuid, t: string)
    ensures Refusal(env, user, t).None? <==> ClassroomTopic(env, user, t)
  {
    if Refusal(env, user, t).None? {
      AcceptedIsClassroom(env, user, t);
    }
    if ClassroomTopic(env, user, t) {
      var id: string, tail: string :|
        && t == "classroom:" + id + ":" + tail
        && id != "" && ':' !in id
        && env.configured && env.parse(id).Some? && env.authorize(user, env.parse(id).value);
      ClassroomIsAccepted(env, user, id, tail);
    }
  }

  /** A well-formed topic of a classroom the user may not see, or that nobody can check. */
  ghost predicate ClosedClassroom(env: Env, user: Uuid, topic: string) {
    exists id: string, tail: string ::
      && topic == "classroom:" + id + ":" + tail
      && id != "" && ':' !in id
      && env.parse(id).Some? && !(env.configured && env.authorize(user, env.parse(id).value))
  }

  lemma ForbiddenIsClosed(env: Env, user: Uuid, t: string)
    requires Refusal(env, user, t) == Some(Forbidden) && !("user:" <= t)
    ensures ClosedClassroom(env, user, t)
  {
    var rest := t[10..];
    var sep := IndexByte(rest, ':');
    assert t == "classroom:" + rest[..sep] + ":" + rest[sep + 1..];
  }

  lemma ClosedIsForbidden(env: Env, user: Uuid, id: string, tail: string)
    requires id != "" && ':' !in id
    requires env.parse(id).Some? && !(env.configured && env.authorize(user, env.parse(id).value))
    ensures Refusal(env, user, "classroom:" + id + ":" + tail) == Some(Forbidden)
  {
    var t := "classroom:" + id + ":" + tail;
    assert t[0] == 'c' && t[..10] == "classroom:" && t[10..] == id + ":" + tail;
    FirstColon(id, tail);
    assert t[10..][..|id|] == id;
  }

  /** Which refusal: forbidden is somebody's user topic or a closed classroom, everything else is malformed. */
  lemma ForbiddenIff(env: Env, user: Uuid, t: string)
    ensures Refusal(env, user, t) == Some(Forbidden) <==> "user:" <= t || ClosedClassroom(env, user, t)
  {
    hide IndexByte;
    if Refusal(env, user, t) == Some(Forbidden) && !("user:" <= t) {
      ForbiddenIsClosed(env, user, t);
    }
    if ClosedClassroom(env, user, t) {
      var id: string, tail: string :|
        && t == "classroom:" + id + ":" + tail
        && id != "" && ':' !in id
        && env.parse(id).Some? && !(env.configured && env.authorize(user, env.parse(id).value));
      ClosedIsForbidden(env, user, id, tail);
    }
  }

  /** Nobody is approved for another user's own topic. */
  lemma OwnTopicsArePrivate(env: Env, user: Uuid, other: Uuid)
    requires user != other && forall a, b :: env.render(a) == env.render(b) ==> a == b
    ensures !Approved(env, user, "user:" + env.render(other) + ":notifications")
  {
    var theirs := "user:" + env.render(other) + ":notifications";
    var own := "user:" + env.render(user) + ":notifications";
    assert theirs[5..|theirs| - 14] == env.render(other) && own[5..|own| - 14] == env.render(user);
    assert theirs[0] == 'u';
    forall id: string, tail: string ensures theirs != "classroom:" + id + ":" + tail {
      assert ("classroom:" + id + ":" + tail)[0] == 'c';
    }
  }

  lemma {:induction false} FirstColon(id: string, tail: string)
    requires ':' !in id
    ensures IndexByte(id + ":" + tail, ':') == |id|
    decreases |id|
  {
    if id != "" {
      assert (id + ":" + tail)[1..] == id[1..] + ":" + tail;
      FirstColon(id[1..], tail);
    }
  }

  /** The topics the request names, trimmed, without blanks and without the user's own. */
  function Asked(env: Env, user: Uuid, requested: seq<string>): seq<string> {
    if requested == [] then []
    else
      var t := env.trim(requested[0]);
      (if t == "" || t == OwnTopic(env, user) then [] else [t]) + Asked(env, user, requested[1..])
  }

  lemma {:induction false} AskedSnoc(env: Env, user: Uuid, xs: seq<string>, raw: string)
    ensures Asked(env, user, xs + [raw])
         == Asked(env, user, xs)
            + (var t := env.trim(raw); if t == "" || t == OwnTopic(env, user) then [] else [t])
    decreases |xs|
  {
    if xs == [] {
      assert Asked(env, user, [raw][1..]) == [];
    } else {
      assert (xs + [raw])[1..] == xs[1..] + [raw];
      AskedSnoc(env, user, xs[1..], raw);
    }
  }

  /**
   Fails closed: the request is granted exactly when everything it asks for is approved, and then grants the
   user's own topic and what was asked, in order: every topic named, and none of a classroom the user may not see.
   */
  method AuthorizeTopics(env: Env, user: Uuid, requested: seq<string>)
    returns (r: Result<seq<string>, TopicError>)
    ensures r.Ok? <==> forall t :: t in Asked(env, user, requested) ==> Approved(env, user, t)
    ensures r.Ok? ==> r.value == [OwnTopic(env, user)] + Asked(env, user, requested)
                      && forall t :: t in r.value ==> Approved(env, user, t)
    ensures r.Ok? ==> forall i :: 0 <= i < |requested| ==>
              env.trim(requested[i]) == "" || env.trim(requested[i]) in r.value
    ensures r.Ok? ==> forall t :: t in r.value ==>
              || t == "user:" + env.render(user) + ":notifications"
              || exists id: string, tail: string ::
                   && t == "classroom:" + id + ":" + tail && ':' !in id
                   && env.parse(id).Some? && env.authorize(user, env.parse(id).value)
    ensures r.Err? ==> exists i :: 0 <= i < |Asked(env, user, requested)|
                         && Refusal(env, user, Asked(env, user, requested)[i]) == Some(r.error)
                         && forall k :: 0 <= k < i ==> Approved(env, user, Asked(env, user, requested)[k])
  {
    var own := OwnTopic(env, user);
    var out := [own];
    for n := 0 to |requested|
      invariant out == [own] + Asked(env, user, requested[..n])
      invariant forall t :: t in Asked(env, user, requested[..n]) ==> Approved(env, user, t)
    {
      var t := env.trim(requested[n]);
      assert requested[..n + 1] == requested[..n] + [requested[n]];
      AskedSnoc(env, user, requested[..n], requested[n]);
      if t == "" || t == own {
        continue;
      }
      RefusalIsExact(env, user, t);
      if "user:" <= t {
        RefusedAt(env, user, requested, n, Forbidden);
        return Err(Forbidden);
      }
      if "classroom:" <= t {
        var rest := t[10..];
        var sep := IndexByte(rest, ':');
        if sep <= 0 {
          RefusedAt(env, user, requested, n, BadRequest);
          return Err(BadRequest);
        }
        var classroom := env.parse(rest[..sep]);
        if classroom.None? {
          RefusedAt(env, user, requested, n, BadRequest);
          return Err(BadRequest);
        }
        if !env.configured || !env.authorize(user, classroom.value) {
          RefusedAt(env, user, requested, n, Forbidden);
          return Err(Forbidden);
        }
        out := out + [t];
        continue;
      }
      RefusedAt(env, user, requested, n, BadRequest);
      return Err(BadRequest);
    }
    assert requested[..|requested|] == requested;
    r := Ok(out);
    AskedHasAll(env, user, requested);
  }

  lemma {:induction false} AskedHasAll(env: Env, user: Uuid, requested: seq<string>)
    ensures forall i :: 0 <= i < |requested| ==>
              var t := env.trim(requested[i]); t == "" || t == OwnTopic(env, user) || t in Asked(env, user, requested)
    decreases |requested|
  {
    if requested != [] {
      AskedHasAll(env, user, requested[1..]);
      forall i | 0 <= i < |requested|
        ensures var t := env.trim(requested[i]); t == "" || t == OwnTopic(env, user) || t in Asked(env, user, requested)
      {
        if i > 0 {
          assert requested[i] == requested[1..][i - 1];
        }
      }
    }
  }

  lemma {:induction false} AskedPrefix(env: Env, user: Uuid, xs: seq<string>, n: nat)
    requires n <= |xs|
    ensures Asked(env, user, xs[..n]) <= Asked(env, user, xs)
    decreases |xs| - n
  {
    if n == |xs| {
      assert xs[..n] == xs;
    } else {
      assert xs[..n + 1] == xs[..n] + [xs[n]];
      AskedSnoc(env, user, xs[..n], xs[n]);
      AskedPrefix(env, user, xs, n + 1);
    }
  }

  lemma RefusedAt(env: Env, user: Uuid, requested: seq<string>, n: nat, error: TopicError)
    requires n < |requested|
    requires forall t :: t in Asked(env, user, requested[..n]) ==> Approved(env, user, t)
    requires var t := env.trim(requested[n]);
             t != "" && t != OwnTopic(env, user) && Refusal(env, user, t) == Some(error)
    ensures var asked := Asked(env, user, requested);
            exists i :: 0 <= i < |asked| && !Approved(env, user, asked[i])
                        && Refusal(env, user, asked[i]) == Some(error)
                        && forall k :: 0 <= k < i ==> Approved(env, user, asked[k])
  {
    var t := env.trim(requested[n]);
    var before, asked := Asked(env, user, requested[..n]), Asked(env, user, requested);
    assert requested[..n + 1] == requested[..n] + [requested[n]];
    AskedSnoc(env, user, requested[..n], requested[n]);
    AskedPrefix(env, user, requested, n + 1);
    AskedPrefix(env, user, requested, n);
    RefusalIsExact(env, user, t);
    assert before + [t] <= asked;
    assert asked[|before|] == t && !Approved(env, user, asked[|before|]);
    forall k | 0 <= k < |before| ensures Approved(env, user, asked[k]) {
      assert asked[k] == before[k] && before[k] in before;
    }
  }
}
