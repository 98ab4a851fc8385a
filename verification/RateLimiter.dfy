/**
 The per-key rate limiter: token buckets dropped after a quiet period and recreated full.
 Time is real; one request is one step (fetch the bucket, then try to take a token).
 */
module RateLimiter {

  datatype Config = Config(rps: real, burst: nat, ttl: real) {
    ghost predicate Valid() {
      rps >= 0.0 && ttl >= 0.0
    }
  }

  /** A token bucket as it was left by the last admitted request. */
  datatype Bucket = Bucket(tokens: real, last: real)

  datatype Visitor = Visitor(limiter: Bucket, lastSeen: real)

  type Table = map<string, Visitor>

  function Min(a: real, b: real): real {
    if a < b then a else b
  }

  /** What drips into a bucket in a while. */
  function Drip(c: Config, elapsed: real): real {
    c.rps * elapsed
  }

  /** Tokens at time t: what is left plus what has dripped in, up to the burst. */
  function Level(c: Config, b: Bucket, t: real): real {
    Min(c.burst as real, b.tokens + Drip(c, t - Min(b.last, t)))
  }

  /** Allow at time t; a refused request leaves the bucket as it was. */
  function Allow(c: Config, b: Bucket, t: real): (bool, Bucket) {
    var level := Level(c, b, t);
    if level >= 1.0 then (true, Bucket(level - 1.0, t)) else (false, b)
  }

  function BucketOf(c: Config, table: Table, key: string, now: real): Bucket {
    if key in table then table[key].limiter else Bucket(c.burst as real, now)
  }

  function Requested(c: Config, table: Table, key: string, now: real): (bool, Table) {
    var (ok, b) := Allow(c, BucketOf(c, table, key, now), now);
    (ok, table[key := Visitor(b, now)])
  }

  function Cleaned(c: Config, table: Table, now: real): Table {
    map k | k in table && now - table[k].lastSeen <= c.ttl :: table[k]
  }

  class RateLimiter {
    const config: Config
    var visitors: Table

    constructor (config: Config)
      ensures this.config == config && visitors == map[]
    {
      this.config := config;
      visitors := map[];
    }

    method Admit(key: string, now: real) returns (ok: bool)
      modifies this
      ensures (ok, visitors) == Requested(config, old(visitors), key, now)
    {
      if key !in visitors {
        visitors := visitors[key := Visitor(Bucket(config.burst as real, now), now)];
      }
      var limiter := visitors[key].limiter;
      visitors := visitors[key := Visitor(limiter, now)];
      var level := Level(config, limiter, now);
      ok := level >= 1.0;
      if ok {
        visitors := visitors[key := Visitor(Bucket(level - 1.0, now), now)];
      }
      assert visitors == old(visitors)[key := visitors[key]];
    }

    method Cleanup(now: real)
      modifies this
      ensures visitors == Cleaned(config, old(visitors), now)
    {
      var todo := visitors.Keys;
      while todo != {}
        invariant todo <= visitors.Keys
        invariant forall k :: k in visitors ==> k in old(visitors) && visitors[k] == old(visitors)[k]
        invariant forall k :: k in old(visitors) && k !in todo ==>
                    (k in visitors <==> now - old(visitors)[k].lastSeen <= config.ttl)
        decreases |todo|
      {
        var k :| k in todo;
        if now - visitors[k].lastSeen > config.ttl {
          visitors := visitors - {k};
        }
        todo := todo - {k};
      }
    }
  }

  // ------------------------------------------------------------ runs

  datatype Event = Request(key: string, now: real) | Cleanup(now: real)

  function After(c: Config, table: Table, e: Event): Table {
    match e
    case Request(key, now) => Requested(c, table, key, now).1
    case Cleanup(now) => Cleaned(c, table, now)
  }

  /** The answers a run of requests and cleanups gives. */
  function Answers(c: Config, table: Table, events: seq<Event>): seq<bool>
    decreases |events|
  {
    if events == [] then []
    else (if events[0].Request? then [Requested(c, table, events[0].key, events[0].now).0] else [])
         + Answers(c, After(c, table, events[0]), events[1..])
  }

  function WithoutCleanups(events: seq<Event>): seq<Event> {
    if events == [] then []
    else (if events[0].Request? then [events[0]] else []) + WithoutCleanups(events[1..])
  }

  ghost predicate Ordered(events: seq<Event>, from: real) {
    && (forall i :: 0 <= i < |events| ==> from <= events[i].now)
    && (forall i, k :: 0 <= i <= k < |events| ==> events[i].now <= events[k].now)
  }

  /** Every bucket was last touched no later than its visitor was seen. */
  ghost predicate TableOk(table: Table, now: real) {
    forall k :: k in table ==>
      table[k].limiter.tokens >= 0.0 && table[k].limiter.last <= table[k].lastSeen <= now
  }

  function LevelOf(c: Config, table: Table, key: string, now: real): real {
    Level(c, BucketOf(c, table, key, now), now)
  }

  /** The tables cannot be told apart: every key has the same tokens. */
  ghost predicate SameLevels(c: Config, a: Table, b: Table, now: real) {
    forall k :: LevelOf(c, a, k, now) == LevelOf(c, b, k, now)
  }

  lemma DripAdds(c: Config, x: real, y: real)
    ensures Drip(c, x) + Drip(c, y) == Drip(c, x + y)
  {
  }

  lemma DripGrows(c: Config, x: real, y: real)
    requires c.Valid() && x <= y
    ensures Drip(c, x) <= Drip(c, y)
  {
    DripAdds(c, x, y - x);
    assert x + (y - x) == y;
    assert c.rps * (y - x) >= 0.0;
  }

  lemma DripNothing(c: Config)
    ensures Drip(c, 0.0) == 0.0
  {
  }

  lemma DripSome(c: Config, elapsed: real)
    requires c.Valid() && elapsed >= 0.0
    ensures Drip(c, elapsed) >= 0.0
  {
    DripNothing(c);
    DripGrows(c, 0.0, elapsed);
  }

  lemma LevelSince(c: Config, b: Bucket, t: real)
    requires b.last <= t
    ensures Level(c, b, t) == Min(c.burst as real, b.tokens + Drip(c, t - b.last))
  {
    hide Drip;
    assert Min(b.last, t) == b.last;
  }

  lemma MinAges(burst: real, before: real, dripped: real)
    requires dripped >= 0.0
    ensures Min(burst, before + dripped) == Min(burst, Min(burst, before) + dripped)
  {
  }

  /** Levels age by dripping: the past beyond the present level does not matter. */
  lemma LevelAges(c: Config, b: Bucket, t: real, u: real)
    requires c.Valid() && b.last <= t <= u
    ensures Level(c, b, u) == Min(c.burst as real, Level(c, b, t) + Drip(c, u - t))
  {
    hide Drip;
    DripAdds(c, t - b.last, u - t);
    assert (t - b.last) + (u - t) == u - b.last;
    DripSome(c, u - t);
    LevelSince(c, b, t);
    LevelSince(c, b, u);
    MinAges(c.burst as real, b.tokens + Drip(c, t - b.last), Drip(c, u - t));
  }

  lemma LevelOfAges(c: Config, table: Table, key: string, t: real, u: real)
    requires c.Valid() && TableOk(table, t) && t <= u
    ensures LevelOf(c, table, key, u) == Min(c.burst as real, LevelOf(c, table, key, t) + Drip(c, u - t))
  {
    hide Drip;
    if key in table {
      LevelAges(c, table[key].limiter, t, u);
    } else {
      DripSome(c, u - t);
      LevelNow(c, c.burst as real, t);
      LevelNow(c, c.burst as real, u);
    }
  }

  lemma SameLevelsAge(c: Config, a: Table, b: Table, t: real, u: real)
    requires c.Valid() && TableOk(a, t) && TableOk(b, t) && t <= u && SameLevels(c, a, b, t)
    ensures TableOk(a, u) && TableOk(b, u) && SameLevels(c, a, b, u)
  {
    hide Level;
    forall k ensures LevelOf(c, a, k, u) == LevelOf(c, b, k, u) {
      LevelOfAges(c, a, k, t, u);
      LevelOfAges(c, b, k, t, u);
    }
  }

  lemma LevelNow(c: Config, tokens: real, now: real)
    ensures Level(c, Bucket(tokens, now), now) == Min(c.burst as real, tokens)
  {
    hide Drip;
    DripNothing(c);
    LevelSince(c, Bucket(tokens, now), now);
    assert now - now == 0.0;
  }

  /** A request moves only its own key's level, by exactly the token it took. */
  lemma RequestedLevels(c: Config, table: Table, key: string, now: real, k: string)
    requires c.Valid() && TableOk(table, now)
    ensures var (ok, t) := Requested(c, table, key, now);
            && (ok <==> LevelOf(c, table, key, now) >= 1.0)
            && TableOk(t, now)
            && LevelOf(c, t, k, now)
               == LevelOf(c, table, k, now) - (if k == key && ok then 1.0 else 0.0)
  {
    hide Drip;
    LevelNow(c, LevelOf(c, table, key, now) - 1.0, now);
    LevelNow(c, c.burst as real, now);
  }

  lemma IdleIsFull(c: Config, b: Bucket, now: real)
    requires c.Valid() && c.rps * c.ttl >= c.burst as real && b.tokens >= 0.0 && now - b.last > c.ttl
    ensures Level(c, b, now) == c.burst as real
  {
    assert Drip(c, c.ttl) >= c.burst as real;
    hide Drip;
    DripGrows(c, c.ttl, now - b.last);
    LevelSince(c, b, now);
  }

  /** An idle bucket has filled up by the time it may be dropped. */
  lemma CleanedLevels(c: Config, table: Table, now: real, k: string)
    requires c.Valid() && TableOk(table, now) && c.rps * c.ttl >= c.burst as real
    ensures TableOk(Cleaned(c, table, now), now)
    ensures LevelOf(c, Cleaned(c, table, now), k, now) == LevelOf(c, table, k, now)
  {
    hide Level;
    LevelNow(c, c.burst as real, now);
    if k in table && now - table[k].lastSeen > c.ttl {
      IdleIsFull(c, table[k].limiter, now);
    }
  }

  lemma {:induction false} EvictionAnswersAlike(c: Config, a: Table, b: Table, events: seq<Event>, from: real)
    requires c.Valid() && c.rps * c.ttl >= c.burst as real
    requires Ordered(events, from) && TableOk(a, from) && TableOk(b, from) && SameLevels(c, a, b, from)
    ensures Answers(c, a, events) == Answers(c, b, WithoutCleanups(events))
    decreases |events|
  {
    hide Level;
    if events != [] {
      var now := events[0].now;
      SameLevelsAge(c, a, b, from, now);
      assert Ordered(events[1..], now) by {
        forall i | 0 <= i < |events[1..]| ensures now <= events[1..][i].now {
          assert events[1..][i] == events[i + 1];
        }
      }
      match events[0]
      case Request(key, _) =>
        var (ok, a') := Requested(c, a, key, now);
        var (ok', b') := Requested(c, b, key, now);
        forall k ensures LevelOf(c, a', k, now) == LevelOf(c, b', k, now) && ok == ok' && TableOk(a', now) && TableOk(b', now) {
          RequestedLevels(c, a, key, now, k);
          RequestedLevels(c, b, key, now, k);
        }
        EvictionAnswersAlike(c, a', b', events[1..], now);
        var rest := WithoutCleanups(events[1..]);
        assert WithoutCleanups(events) == [events[0]] + rest;
        assert WithoutCleanups(events)[1..] == rest;
      case Cleanup(_) =>
        var a' := Cleaned(c, a, now);
        forall k ensures LevelOf(c, a', k, now) == LevelOf(c, b, k, now) && TableOk(a', now) {
          CleanedLevels(c, a, now, k);
        }
        EvictionAnswersAlike(c, a', b, events[1..], now);
        assert WithoutCleanups(events) == WithoutCleanups(events[1..]);
    }
  }

  // ------------------------------------------------------------ the rate bound

  /** One if the event is an admitted request of the key. */
  function Took(c: Config, table: Table, e: Event, key: string): nat {
    if e.Request? && e.key == key && Requested(c, table, key, e.now).0 then 1 else 0
  }

  /** Requests of a key the run admits. */
  function Admitted(c: Config, table: Table, events: seq<Event>, key: string): nat
    decreases |events|
  {
    if events == [] then 0
    else Took(c, table, events[0], key) + Admitted(c, After(c, table, events[0]), events[1..], key)
  }

  /** No event admits more than the level allows. */
  lemma EventLevels(c: Config, table: Table, e: Event, key: string, from: real)
    requires c.Valid() && TableOk(table, from) && from <= e.now
    requires e.Request? || c.rps * c.ttl >= c.burst as real
    ensures TableOk(After(c, table, e), e.now)
    ensures Took(c, table, e, key) as real + LevelOf(c, After(c, table, e), key, e.now)
         <= LevelOf(c, table, key, from) + Drip(c, e.now - from)
  {
    hide Level, Drip;
    LevelOfAges(c, table, key, from, e.now);
    if e.Request? {
      RequestedLevels(c, table, e.key, e.now, key);
    } else {
      CleanedLevels(c, table, e.now, key);
    }
  }

  /** What is admitted by time `to` was in the bucket or dripped in since `from`. */
  lemma {:induction false} AdmittedFromLevel(c: Config, table: Table, events: seq<Event>, key: string, from: real, to: real)
    requires c.Valid() && (c.rps * c.ttl >= c.burst as real || forall e :: e in events ==> e.Request?)
    requires TableOk(table, from) && Ordered(events, from) && from <= to
    requires forall i :: 0 <= i < |events| ==> events[i].now <= to
    ensures Admitted(c, table, events, key) as real <= LevelOf(c, table, key, from) + Drip(c, to - from)
    decreases |events|
  {
    hide LevelOf, Drip, Took, After;
    if events == [] {
      DripSome(c, to - from);
      LevelNonNegative(c, table, key, from);
    } else {
      var e := events[0];
      assert e in events;
      EventLevels(c, table, e, key, from);
      RestOrdered(events, from, to);
      AdmittedFromLevel(c, After(c, table, e), events[1..], key, e.now, to);
      DripAdds(c, e.now - from, to - e.now);
      assert (e.now - from) + (to - e.now) == to - from;
    }
  }

  lemma RestOrdered(events: seq<Event>, from: real, to: real)
    requires events != [] && Ordered(events, from)
    requires forall i :: 0 <= i < |events| ==> events[i].now <= to
    ensures Ordered(events[1..], events[0].now)
    ensures forall i :: 0 <= i < |events[1..]| ==> events[1..][i].now <= to
    ensures forall e :: e in events[1..] ==> e in events
  {
    forall i | 0 <= i < |events[1..]| ensures events[0].now <= events[1..][i].now <= to {
      assert events[1..][i] == events[i + 1];
    }
  }

  lemma LevelNonNegative(c: Config, table: Table, key: string, now: real)
    requires c.Valid() && TableOk(table, now)
    ensures 0.0 <= LevelOf(c, table, key, now) <= c.burst as real
  {
    hide Drip;
    LevelNow(c, c.burst as real, now);
    if key in table {
      DripSome(c, now - table[key].limiter.last);
      LevelSince(c, table[key].limiter, now);
    }
  }

  // ------------------------------------------------------------ theorems

  function RunTable(c: Config, table: Table, events: seq<Event>): Table
    decreases |events|
  {
    if events == [] then table else RunTable(c, After(c, table, events[0]), events[1..])
  }

  lemma {:induction false} RunTableOk(c: Config, table: Table, events: seq<Event>, from: real, to: real)
    requires c.Valid() && c.rps * c.ttl >= c.burst as real
    requires TableOk(table, from) && Ordered(events, from) && from <= to
    requires forall i :: 0 <= i < |events| ==> events[i].now <= to
    ensures TableOk(RunTable(c, table, events), to)
    decreases |events|
  {
    hide Level, Drip;
    if events != [] {
      EventLevels(c, table, events[0], "", from);
      RestOrdered(events, from, to);
      RunTableOk(c, After(c, table, events[0]), events[1..], events[0].now, to);
    }
  }

  /** Dropping and recreating idle buckets gives every request the answer it would have got anyway. */
  lemma EvictionIsInvisible(c: Config, events: seq<Event>, start: real)
    requires c.Valid() && c.rps * c.ttl >= c.burst as real && Ordered(events, start)
    ensures Answers(c, map[], events) == Answers(c, map[], WithoutCleanups(events))
  {
    EvictionAnswersAlike(c, map[], map[], events, start);
  }

  /** In any window of a run, a key gets at most the burst plus what drips in. */
  lemma RateBound(c: Config, before: seq<Event>, window: seq<Event>, key: string, start: real, from: real, to: real)
    requires c.Valid() && c.rps * c.ttl >= c.burst as real
    requires Ordered(before, start) && start <= from <= to
    requires forall i :: 0 <= i < |before| ==> before[i].now <= from
    requires Ordered(window, from) && forall i :: 0 <= i < |window| ==> window[i].now <= to
    ensures Admitted(c, RunTable(c, map[], before), window, key) as real <= c.burst as real + c.rps * (to - from)
  {
    hide LevelOf, Admitted, RunTable;
    RunTableOk(c, map[], before, start, from);
    var table := RunTable(c, map[], before);
    AdmittedFromLevel(c, table, window, key, from, to);
    LevelNonNegative(c, table, key, from);
  }

  // ------------------------------------------------------------ the premise is needed

  function Salvo(key: string, now: real, n: nat): seq<Event> {
    seq(n, _ => Request(key, now))
  }

  /** A bucket holding n tokens admits n requests at once. */
  lemma {:induction false} SalvoAdmitted(c: Config, table: Table, key: string, now: real, n: nat, rest: seq<Event>)
    requires c.Valid() && TableOk(table, now) && LevelOf(c, table, key, now) >= n as real
    ensures var t := RunTable(c, table, Salvo(key, now, n));
            && Admitted(c, table, Salvo(key, now, n) + rest, key) == n + Admitted(c, t, rest, key)
            && TableOk(t, now)
            && (n > 0 ==> key in t && t[key].lastSeen == now)
            && forall k :: k in t ==> k in table || k == key
    decreases n
  {
    hide Level;
    var events := Salvo(key, now, n);
    if n == 0 {
      assert events + rest == rest;
    } else {
      RequestedLevels(c, table, key, now, key);
      var t := After(c, table, events[0]);
      SalvoAdmitted(c, t, key, now, n - 1, rest);
      assert events[1..] == Salvo(key, now, n - 1);
      assert (events + rest)[1..] == Salvo(key, now, n - 1) + rest;
    }
  }

  /** Two full bursts, a cleanup just past the TTL between them. */
  function TwoBursts(c: Config, t: real): seq<Event> {
    Salvo("", 0.0, c.burst) + ([Cleanup(t)] + Salvo("", t, c.burst))
  }

  lemma TwoBurstsAdmitted(c: Config, t: real)
    requires c.Valid() && c.burst > 0 && t > c.ttl
    ensures Admitted(c, map[], TwoBursts(c, t), "") == 2 * c.burst
  {
    hide Level;
    LevelNow(c, c.burst as real, 0.0);
    LevelNow(c, c.burst as real, t);
    var second := Salvo("", t, c.burst);
    SalvoAdmitted(c, map[], "", 0.0, c.burst, [Cleanup(t)] + second);
    var table := RunTable(c, map[], Salvo("", 0.0, c.burst));
    assert Cleaned(c, table, t) == map[];
    assert ([Cleanup(t)] + second)[1..] == second;
    SalvoAdmitted(c, map[], "", t, c.burst, []);
    assert second + [] == second;
  }

  lemma {:induction false} SameAnswersSameAdmitted(c: Config, a: Table, b: Table, events: seq<Event>, key: string)
    requires Answers(c, a, events) == Answers(c, b, WithoutCleanups(events))
    ensures Admitted(c, a, events, key) == Admitted(c, b, WithoutCleanups(events), key)
    decreases |events|
  {
    if events != [] {
      var e := events[0];
      var kept := WithoutCleanups(events);
      if e.Request? {
        assert kept[1..] == WithoutCleanups(events[1..]);
        var a', b' := After(c, a, e), After(c, b, e);
        var x := Requested(c, a, e.key, e.now).0;
        var y := Requested(c, b, e.key, e.now).0;
        assert Answers(c, a, events) == [x] + Answers(c, a', events[1..]);
        assert Answers(c, b, kept) == [y] + Answers(c, b', kept[1..]);
        assert x == ([x] + Answers(c, a', events[1..]))[0] == y;
        assert Answers(c, a', events[1..]) == ([x] + Answers(c, a', events[1..]))[1..];
        assert Answers(c, b', kept[1..]) == ([y] + Answers(c, b', kept[1..]))[1..];
        SameAnswersSameAdmitted(c, a', b', events[1..], key);
      } else {
        assert kept == WithoutCleanups(events[1..]);
        assert Answers(c, a, events) == Answers(c, After(c, a, e), events[1..]);
        SameAnswersSameAdmitted(c, After(c, a, e), b, events[1..], key);
      }
    }
  }

  /** A time past the TTL at which less than a burst has dripped in. */
  lemma BetweenTTLAndRefill(c: Config) returns (t: real)
    requires c.Valid() && c.rps * c.ttl < c.burst as real
    ensures t > c.ttl && c.rps * t < c.burst as real
  {
    if c.rps == 0.0 {
      t := c.ttl + 1.0;
    } else {
      var slack := (c.burst as real - c.rps * c.ttl) / (2.0 * c.rps);
      t := c.ttl + slack;
      assert c.rps * slack == (c.burst as real - c.rps * c.ttl) / 2.0;
      DripAdds(c, c.ttl, slack);
    }
  }

  lemma TwoBurstsOrdered(c: Config, t: real)
    requires t >= 0.0
    ensures Ordered(TwoBursts(c, t), 0.0)
    ensures forall i :: 0 <= i < |TwoBursts(c, t)| ==> TwoBursts(c, t)[i].now <= t
    ensures forall e :: e in WithoutCleanups(TwoBursts(c, t)) ==> e.Request?
    ensures Ordered(WithoutCleanups(TwoBursts(c, t)), 0.0)
    ensures forall i :: 0 <= i < |WithoutCleanups(TwoBursts(c, t))| ==> WithoutCleanups(TwoBursts(c, t))[i].now <= t
  {
    var events := TwoBursts(c, t);
    forall i | 0 <= i < |events| ensures events[i].now == if i < c.burst then 0.0 else t {
    }
    KeptOrdered(events, 0.0, t);
  }

  lemma {:induction false} KeptOrdered(events: seq<Event>, from: real, to: real)
    requires Ordered(events, from) && forall i :: 0 <= i < |events| ==> events[i].now <= to
    ensures Ordered(WithoutCleanups(events), from)
    ensures forall i :: 0 <= i < |WithoutCleanups(events)| ==> WithoutCleanups(events)[i].now <= to
    ensures forall e :: e in WithoutCleanups(events) ==> e.Request?
    decreases |events|
  {
    if events != [] {
      RestOrdered(events, from, to);
      KeptOrdered(events[1..], events[0].now, to);
    }
  }

  /** With a shorter TTL the cleanup hands out tokens: twice the burst inside one refill. */
  lemma EvictionIsVisibleOtherwise(c: Config) returns (t: real)
    requires c.Valid() && c.rps * c.ttl < c.burst as real
    ensures t >= 0.0 && Ordered(TwoBursts(c, t), 0.0)
    ensures Answers(c, map[], TwoBursts(c, t)) != Answers(c, map[], WithoutCleanups(TwoBursts(c, t)))
    ensures Admitted(c, map[], TwoBursts(c, t), "") as real > c.burst as real + c.rps * t
  {
    hide Level;
    t := BetweenTTLAndRefill(c);
    DripSome(c, c.ttl);
    var events := TwoBursts(c, t);
    TwoBurstsAdmitted(c, t);
    TwoBurstsOrdered(c, t);
    AdmittedFromLevel(c, map[], WithoutCleanups(events), "", 0.0, t);
    LevelNonNegative(c, map[], "", 0.0);
    assert t - 0.0 == t;
    if Answers(c, map[], events) == Answers(c, map[], WithoutCleanups(events)) {
      SameAnswersSameAdmitted(c, map[], map[], events, "");
      assert false;
    }
  }

  ghost predicate EvictionInvisible(c: Config) {
    forall events, start :: Ordered(events, start) ==>
      Answers(c, map[], events) == Answers(c, map[], WithoutCleanups(events))
  }

  /** The exact condition under which dropping idle buckets cannot be observed. */
  lemma EvictionInvisibleIff(c: Config)
    requires c.Valid()
    ensures EvictionInvisible(c) <==> c.rps * c.ttl >= c.burst as real
  {
    if c.rps * c.ttl >= c.burst as real {
      forall events, start | Ordered(events, start)
        ensures Answers(c, map[], events) == Answers(c, map[], WithoutCleanups(events))
      {
        EvictionIsInvisible(c, events, start);
      }
    } else {
      var t := EvictionIsVisibleOtherwise(c);
    }
  }

  /** Both limiters the server builds (50 rps with burst 100, 5 rps with burst 10) meet it. */
  lemma DeployedLimitersAreSafe()
    ensures EvictionInvisible(Config(50.0, 100, 300.0)) && EvictionInvisible(Config(5.0, 10, 300.0))
  {
    EvictionInvisibleIff(Config(50.0, 100, 300.0));
    EvictionInvisibleIff(Config(5.0, 10, 300.0));
  }
}
