/**
 The Home Assistant service and client one call at a time: the onboarding passes, Bootstrap and its retries,
 Credentials with its retried Save, and SetToken. Module HassCredentials interleaves them.
 */
module HassService {
  import opened Wrappers
  import opened HassCredentials

  // ------------------------------------------------------------ finishing the onboarding

  const PASSES: nat := 5

  /** One pass over the steps: did the status call answer, would each POST be accepted, was the caller cancelled? */
  datatype Pass = Pass(status: bool, core: bool, integration: bool, analytics: bool, cancelled: bool) {
    predicate Clean() {
      status && core && integration && analytics
    }
  }

  predicate Uncancelled(passes: seq<Pass>) {
    forall k :: 0 <= k < |passes| ==> !passes[k].cancelled
  }

  class Onboarding {
    var core: bool
    var integration: bool
    var analytics: bool

    constructor (core: bool, integration: bool, analytics: bool)
      ensures this.core == core && this.integration == integration && this.analytics == analytics
    {
      this.core, this.integration, this.analytics := core, integration, analytics;
    }

    predicate AllDone()
      reads this
    {
      core && integration && analytics
    }

    /**
     Success is never claimed early, no step is undone, and one clean pass followed by one status answer is
     enough when nobody cancels.
     */
    method FinishOnboarding(passes: seq<Pass>, finalStatus: bool) returns (ok: bool)
      requires |passes| == 5
      modifies this
      ensures ok ==> AllDone()
      ensures (old(core) ==> core) && (old(integration) ==> integration) && (old(analytics) ==> analytics)
      ensures Uncancelled(passes) ==>
                (exists i, k :: 0 <= i < k < 5 && passes[i].Clean() && passes[k].status) ==> ok
      ensures Uncancelled(passes) && passes[4].Clean() && finalStatus ==> ok
      ensures old(AllDone()) && passes[0].status ==> ok
    {
      var failed := false;
      for attempt := 0 to PASSES
        invariant (old(core) ==> core) && (old(integration) ==> integration) && (old(analytics) ==> analytics)
        invariant forall k :: 0 <= k < attempt && passes[k].Clean() ==> AllDone()
        invariant old(AllDone()) && attempt > 0 ==> !passes[0].status
        invariant forall i, k :: 0 <= i < k < attempt && passes[i].Clean() ==> !passes[k].status
        invariant attempt > 0 && passes[attempt - 1].Clean() ==> !failed
      {
        var p := passes[attempt];
        if !p.status {
          failed := true;
        } else if core && integration && analytics {
          return true;
        } else {
          failed := false;
          if !core {
            core := p.core;
            failed := failed || !p.core;
          }
          if !integration {
            integration := p.integration;
            failed := failed || !p.integration;
          }
          if !analytics {
            analytics := p.analytics;
            failed := failed || !p.analytics;
          }
        }
        if p.cancelled {
          return false;
        }
      }
      ok := !failed && finalStatus && AllDone();
    }
  }

  // ------------------------------------------------------------ the service

  datatype BootError = LoadFailed | Upstream | AlreadyOnboarded | SaveFailed

  /** What Home Assistant makes of a CreateOwner: `Lost` means done, but the answer never arrived. */
  datatype Creation = Created | Lost | Forbidden | Unreachable

  /** What the database and Home Assistant answer during one Bootstrap. */
  datatype World = World(loads: bool, status: bool, creation: Creation, granted: bool, tokens: TokenSet, saves: bool)
  {
    /** Everything answers as one would wish, so Bootstrap works whatever came before. */
    predicate SureToBoot() {
      loads && status && creation.Created? && granted && tokens.accessToken != "" && saves
    }
  }

  const FIRST_DELAY: nat := 3
  const MAX_DELAY: nat := 60

  function Doubled(delay: nat): nat {
    if 2 * delay < MAX_DELAY then 2 * delay else MAX_DELAY
  }

  /** One of the attempts works before the caller is cancelled in a pause. */
  ghost predicate SavesInTime(works: seq<bool>, cancelled: seq<bool>)
    requires |works| == |cancelled| + 1
  {
    exists i :: 0 <= i < |works| && works[i] && forall k :: 0 <= k < i ==> !cancelled[k]
  }

  class Service {
    var creds: Option<Credentials>
    var bootstrapErr: Option<BootError>
    var row: Option<Credentials>         // the database's
    var ownerDone: bool                  // Home Assistant's
    var ownersCreated: nat

    /** What is cached or stored can be used, and an owner this service created is known to Home Assistant. */
    ghost predicate Valid()
      reads this
    {
      && (creds.Some? ==> creds.value.token != "")
      && (row.Some? ==> row.value.token != "")
      && ownersCreated <= 1 && (ownersCreated > 0 ==> ownerDone)
    }

    /** A start, or a restart, with whatever the database and Home Assistant remember. */
    constructor (row: Option<Credentials>, ownerDone: bool)
      requires row.Some? ==> row.value.token != ""
      ensures Valid() && creds == None && this.row == row && this.ownerDone == ownerDone
    {
      creds, bootstrapErr := None, None;
      this.row, this.ownerDone, ownersCreated := row, ownerDone, 0;
    }

    method Save(c: Credentials, works: bool) returns (ok: bool)
      modifies this`row
      ensures ok == works && row == if works then Some(c) else old(row)
    {
      if works {
        row := Some(c);
      }
      ok := works;
    }

    /**
     Cached credentials are answered as they are; else the database's; else those Home Assistant grants to the
     configured owner, or to the one just created, once they are saved. Nothing else is ever cached, and a failure
     caches and stores nothing.
     */
    method Bootstrap(w: World) returns (r: Result<Credentials, BootError>)
      requires Valid()
      modifies this
      ensures Valid()
      ensures r.Ok? ==> creds == Some(r.value)
      ensures r.Err? ==> creds == old(creds) && row == old(row)
      ensures Usable(old(creds)) ==> r == Ok(old(creds).value) && row == old(row) && ownersCreated == old(ownersCreated)
      ensures !Usable(old(creds)) && r.Ok? ==> row == creds && (old(row).Some? ==> row == old(row))
      ensures !Usable(old(creds)) ==> (r == Err(LoadFailed) <==> !w.loads)
      ensures !Usable(old(creds)) && w.loads && old(row).Some? ==> r.Ok? && ownersCreated == old(ownersCreated)
      ensures !Usable(old(creds)) && w.loads && old(row).None? ==>
                var hasTokens := w.status && w.granted && w.tokens.accessToken != ""
                                 && (old(ownerDone) || w.creation.Created?);
                && (r.Ok? <==> hasTokens && w.saves)
                && (r == Err(SaveFailed) <==> hasTokens && !w.saves)
                && (r == Err(AlreadyOnboarded) <==>
                      w.status && if old(ownerDone) then !hasTokens else w.creation.Forbidden?)
                && ownersCreated == old(ownersCreated)
                                    + (if w.status && !old(ownerDone) && (w.creation.Created? || w.creation.Lost?) then 1
                                       else 0)
      ensures !Usable(old(creds)) && old(row).None? && r.Ok? ==>
                && w.granted
                && r.value.token == w.tokens.accessToken && r.value.refreshToken == w.tokens.refreshToken
                && r.value.expiresAt == Some(w.tokens.expiresAt)
      ensures ownersCreated == old(ownersCreated) || (ownersCreated == 1 && !old(ownerDone) && old(row).None?)
      ensures r == Err(AlreadyOnboarded) ==> bootstrapErr == Some(AlreadyOnboarded)
    {
      if creds.Some? && creds.value.token != "" {
        return Ok(creds.value);
      }
      if !w.loads {
        return Err(LoadFailed);
      }
      if row.Some? {
        creds := row;
        return Ok(row.value);
      }
      if !w.status {
        bootstrapErr := Some(Upstream);
        return Err(Upstream);
      }
      if ownerDone {
        if !w.granted || w.tokens.accessToken == "" {
          bootstrapErr := Some(AlreadyOnboarded);
          return Err(AlreadyOnboarded);
        }
      } else {
        if w.creation.Created? || w.creation.Lost? {
          ownerDone, ownersCreated := true, ownersCreated + 1;
        }
        if !w.creation.Created? {
          bootstrapErr := Some(if w.creation.Forbidden? then AlreadyOnboarded else Upstream);
          return Err(bootstrapErr.value);
        }
        if !w.granted || w.tokens.accessToken == "" {
          bootstrapErr := Some(Upstream);
          return Err(Upstream);
        }
      }
      var c := ToCredentials(w.tokens);
      var saved := Save(c, w.saves);
      if !saved {
        return Err(SaveFailed);
      }
      creds := Some(c);
      r := Ok(c);
    }

    /**
     Bootstrap again and again, with doubling pauses up to a minute. It gives up only when an administrator is
     needed or the caller cancels a pause; `worlds` is as much of the endless loop as is looked at. However often it
     ran, at most one owner was created.
     */
    method BootstrapWithRetry(worlds: seq<World>, cancelled: seq<bool>) returns (ok: bool, delays: seq<nat>)
      requires Valid() && |cancelled| == |worlds|
      modifies this
      ensures Valid()
      ensures ok ==> Usable(creds)
      ensures |delays| <= |worlds| && forall k :: 0 <= k < |delays| - 1 ==> !cancelled[k]
      ensures ok ==> |delays| < |worlds|
      ensures !ok ==> forall k :: 0 <= k < |delays| ==> !worlds[k].SureToBoot()
      ensures !ok ==> bootstrapErr == Some(AlreadyOnboarded)
                      || (|delays| > 0 && cancelled[|delays| - 1])
                      || |delays| == |worlds|
      ensures forall k :: 0 <= k < |delays| ==> 3 <= delays[k] <= 60
      ensures |delays| > 0 ==> delays[0] == 3
      ensures forall k :: 0 <= k < |delays| - 1 ==> delays[k + 1] == if 2 * delays[k] < 60 then 2 * delays[k] else 60
      ensures ownersCreated <= old(ownersCreated) + 1
    {
      var delay := FIRST_DELAY;
      delays := [];
      for attempt := 0 to |worlds|
        invariant forall k :: 0 <= k < attempt ==> !cancelled[k] && !worlds[k].SureToBoot()
        invariant Valid() && |delays| == attempt && FIRST_DELAY <= delay <= MAX_DELAY
        invariant forall k :: 0 <= k < |delays| ==> FIRST_DELAY <= delays[k] <= MAX_DELAY
        invariant if |delays| == 0 then delay == FIRST_DELAY else
                    delays[0] == FIRST_DELAY && delay == Doubled(delays[|delays| - 1])
        invariant forall k :: 0 <= k < |delays| - 1 ==> delays[k + 1] == Doubled(delays[k])
      {
        var r := Bootstrap(worlds[attempt]);
        if r.Ok? {
          return true, delays;
        }
        if bootstrapErr == Some(AlreadyOnboarded) {
          return false, delays;
        }
        delays := delays + [delay];
        if cancelled[attempt] {
          return false, delays;
        }
        if delay < MAX_DELAY {
          delay := delay * 2;
          if delay > MAX_DELAY {
            delay := MAX_DELAY;
          }
        }
      }
      ok := false;
    }

    /** Four attempts at most; the row is written exactly when one works before the caller is cancelled. */
    method SaveWithRetry(c: Credentials, works: seq<bool>, cancelled: seq<bool>) returns (saved: bool, attempts: nat)
      requires |works| == 4 && |cancelled| == 3
      modifies this`row, this`bootstrapErr
      ensures row == if saved then Some(c) else old(row)
      ensures saved <==> SavesInTime(works, cancelled)
      ensures 1 <= attempts <= 4 && (forall k :: 0 <= k < attempts - 1 ==> !works[k] && !cancelled[k])
      ensures saved ==> works[attempts - 1]
      ensures !saved && attempts < 4 ==> cancelled[attempts - 1]
      ensures bootstrapErr == if saved || attempts < 4 then old(bootstrapErr) else Some(SaveFailed)
    {
      saved, attempts := false, 0;
      while attempts < SAVE_ATTEMPTS
        invariant !saved && row == old(row) && bootstrapErr == old(bootstrapErr) && attempts <= SAVE_ATTEMPTS
        invariant forall k :: 0 <= k < attempts ==> !works[k] && (k < SAVE_ATTEMPTS - 1 ==> !cancelled[k])
      {
        saved := Save(c, works[attempts]);
        attempts := attempts + 1;
        if saved {
          return;
        }
        if attempts < SAVE_ATTEMPTS && cancelled[attempts - 1] {
          return;
        }
      }
      bootstrapErr := Some(SaveFailed);
    }

    /**
     Callers get what is cached while it is good, the refreshed token once it is not, and a manual token for ever.
     `answer` is Home Assistant's answer to a refresh.
     */
    method Credentials(now: Instant, w: World, answer: Option<TokenSet>, works: seq<bool>, cancelled: seq<bool>)
      returns (r: Option<Credentials>)
      requires Valid() && |works| == 4 && |cancelled| == 3
      modifies this
      ensures Valid()
      ensures r.Some? ==> creds == r && r.value.token != ""
      ensures r.None? ==> creds == old(creds) && row == old(row)
      ensures Usable(old(creds)) ==>
                var was := old(creds).value;
                if was.expiresAt.Some? && was.expiresAt.value - now < 60_000 && was.refreshToken != "" then
                  && (r.Some? <==> answer.Some? && answer.value.accessToken != "")
                  && (r.Some? ==>
                        && r.value.token == answer.value.accessToken
                        && r.value.expiresAt == Some(answer.value.expiresAt)
                        && r.value.refreshToken == (if answer.value.refreshToken != "" then answer.value.refreshToken
                                                    else was.refreshToken)
                        && row == if SavesInTime(works, cancelled) then r else old(row))
                else r == old(creds) && row == old(row)
      ensures !Usable(old(creds)) && r.Some? ==> row == r && (old(row).Some? ==> r == old(row))
      ensures !Usable(old(creds)) && w.loads && old(row).Some? ==> r.Some?
      ensures Usable(old(creds)) ==> ownersCreated == old(ownersCreated)
    {
      if creds.None? || creds.value.token == "" {
        var booted := Bootstrap(w);
        return if booted.Ok? then Some(booted.value) else None;
      }
      if !creds.value.NeedsRefresh(now) || creds.value.refreshToken == "" {
        return creds;
      }
      if answer.None? || answer.value.accessToken == "" {
        return None;
      }
      var tokens := CarriedOver(answer.value, creds.value.refreshToken);
      creds := Some(ToCredentials(tokens));
      var saved, attempts := SaveWithRetry(creds.value, works, cancelled);
      r := creds;
    }

    /** A token is kept, first in the database and then in memory, once Home Assistant has accepted it. */
    method SetToken(token: string, accepted: bool, saves: bool) returns (ok: bool)
      requires Valid()
      modifies this
      ensures Valid()
      ensures ok <==> token != "" && accepted && saves
      ensures ok ==> creds == row && row == Some(HassCredentials.Credentials(token, "", None)) && bootstrapErr == None
      ensures !ok ==> creds == old(creds) && row == old(row) && bootstrapErr == old(bootstrapErr)
      ensures ownersCreated == old(ownersCreated)
    {
      if token == "" || !accepted {
        return false;
      }
      var c := HassCredentials.Credentials(token, "", None);
      var saved := Save(c, saves);
      if !saved {
        return false;
      }
      creds, bootstrapErr := Some(c), None;
      ok := true;
    }
  }
}
