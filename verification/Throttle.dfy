/**
 The alert throttle: a cooldown per key, kept in a map that evicts expired keys once it
 grows past a high-water mark, and that must answer like a map that never evicts.
 Instants are milliseconds.
 */
module Throttle {
  import opened Wrappers

  type Key = string

  const COOLDOWN: int := 300_000
  const HIGH_WATER: nat := 4096

  /** Suppress: an alert for this key fired less than a cooldown ago. */
  predicate Suppressed(last: map<Key, int>, key: Key, now: int) {
    key in last && now - last[key] < COOLDOWN
  }

  /** The map with every entry as old as a cooldown taken out. */
  function Fresh(last: map<Key, int>, now: int): map<Key, int> {
    map k | k in last && now - last[k] < COOLDOWN :: last[k]
  }

  /** What one call leaves behind. */
  function Noted(last: map<Key, int>, key: Key, now: int): map<Key, int> {
    if Suppressed(last, key, now) then last
    else
      var noted := last[key := now];
      if |noted| > HIGH_WATER then Fresh(noted, now) else noted
  }

  datatype Rules = Rules(temperatureHigh: real, temperatureLow: real, humidityHigh: real)

  /** Thresholds are strict: a reading exactly at one does not alert. */
  function RuleFor(rules: Rules, metric: string, value: real): Option<string> {
    if metric == "temperature" && value > rules.temperatureHigh then Some("temperature_high")
    else if metric == "temperature" && value < rules.temperatureLow then Some("temperature_low")
    else if metric == "humidity" && value > rules.humidityHigh then Some("humidity_high")
    else None
  }

  function AlertKey(classroom: string, device: string, rule: string): Key {
    classroom + ":" + device + ":" + rule
  }

  class Engine {
    var lastAlert: map<Key, int>

    constructor ()
      ensures lastAlert == map[]
    {
      lastAlert := map[];
    }

    method Throttle(key: Key, now: int) returns (suppress: bool)
      modifies this
      ensures suppress <==> Suppressed(old(lastAlert), key, now)
      ensures suppress <==> key in old(lastAlert) && now - old(lastAlert)[key] < 300_000
      ensures lastAlert == Noted(old(lastAlert), key, now)
      ensures !suppress && |old(lastAlert)| < 4096 ==> lastAlert == old(lastAlert)[key := now]
      ensures !suppress && |lastAlert| > 4096 ==> forall k :: k in lastAlert ==> now - lastAlert[k] < 300_000
    {
      if key in lastAlert && now - lastAlert[key] < COOLDOWN {
        return true;
      }
      lastAlert := lastAlert[key := now];
      if |lastAlert| > HIGH_WATER {
        ghost var noted := lastAlert;
        var todo := lastAlert.Keys;
        while todo != {}
          invariant todo <= lastAlert.Keys
          invariant forall k :: k in lastAlert ==> k in noted && lastAlert[k] == noted[k]
          invariant forall k :: k in noted && k !in todo ==> (k in lastAlert <==> now - noted[k] < COOLDOWN)
          decreases |todo|
        {
          var k :| k in todo;
          if now - lastAlert[k] >= COOLDOWN {
            lastAlert := lastAlert - {k};
          }
          todo := todo - {k};
        }
        assert lastAlert == Fresh(noted, now);
      }
      suppress := false;
    }

    /** Only going offline alerts. */
    method OnDeviceStateChange(classroom: string, device: string, online: bool, now: int) returns (alert: bool)
      modifies this
      ensures var key := AlertKey(classroom, device, "device_offline");
              && (alert <==> !online && !Suppressed(old(lastAlert), key, now))
              && lastAlert == if online then old(lastAlert) else Noted(old(lastAlert), key, now)
    {
      if online {
        return false;
      }
      var suppress := Throttle(AlertKey(classroom, device, "device_offline"), now);
      alert := !suppress;
    }

    /** A reading alerts when a rule applies to it and that rule is not cooling down. */
    method OnSensorReading(rules: Rules, classroom: string, device: string, metric: string, value: real, now: int)
      returns (alert: Option<string>)
      modifies this
      ensures alert.Some? ==>
                || (alert.value == "temperature_high" && metric == "temperature" && value > rules.temperatureHigh)
                || (alert.value == "temperature_low" && metric == "temperature" && value < rules.temperatureLow
                    && value <= rules.temperatureHigh)
                || (alert.value == "humidity_high" && metric == "humidity" && value > rules.humidityHigh)
      ensures alert.None? && metric == "temperature" && value > rules.temperatureHigh ==>
                Suppressed(old(lastAlert), AlertKey(classroom, device, "temperature_high"), now)
      ensures alert.None? && metric == "temperature" && value <= rules.temperatureHigh && value < rules.temperatureLow ==>
                Suppressed(old(lastAlert), AlertKey(classroom, device, "temperature_low"), now)
      ensures alert.None? && metric == "humidity" && value > rules.humidityHigh ==>
                Suppressed(old(lastAlert), AlertKey(classroom, device, "humidity_high"), now)
      ensures var rule := RuleFor(rules, metric, value);
              if rule.None? then alert == None && lastAlert == old(lastAlert)
              else var key := AlertKey(classroom, device, rule.value);
                   && alert == (if Suppressed(old(lastAlert), key, now) then None else rule)
                   && lastAlert == Noted(old(lastAlert), key, now)
    {
      alert := None;
      var rule := "";
      if metric == "temperature" {
        if value > rules.temperatureHigh {
          rule := "temperature_high";
        } else if value < rules.temperatureLow {
          rule := "temperature_low";
        }
      } else if metric == "humidity" {
        if value > rules.humidityHigh {
          rule := "humidity_high";
        }
      }
      if rule != "" {
        var suppress := Throttle(AlertKey(classroom, device, rule), now);
        if !suppress {
          alert := Some(rule);
        }
      }
    }
  }

  // ------------------------------------------------------------ runs of calls

  /** One call, in the order the lock was taken; `now` was sampled before. */
  datatype Call = Call(key: Key, now: int)

  /** The answers, true for a fired alert, of the map that evicts. */
  function Fired(last: map<Key, int>, calls: seq<Call>): seq<bool>
    decreases |calls|
  {
    if calls == [] then []
    else [!Suppressed(last, calls[0].key, calls[0].now)]
         + Fired(Noted(last, calls[0].key, calls[0].now), calls[1..])
  }

  /** The same of a map that never evicts. */
  function FiredForever(last: map<Key, int>, calls: seq<Call>): seq<bool>
    decreases |calls|
  {
    if calls == [] then []
    else if Suppressed(last, calls[0].key, calls[0].now) then [false] + FiredForever(last, calls[1..])
    else [true] + FiredForever(last[calls[0].key := calls[0].now], calls[1..])
  }

  ghost predicate Ordered(calls: seq<Call>) {
    forall i, k :: 0 <= i <= k < |calls| ==> calls[i].now <= calls[k].now
  }

  /** Nothing but entries a cooldown old is missing. */
  ghost predicate Evicts(evicting: map<Key, int>, keeping: map<Key, int>, now: int) {
    && (forall k :: k in evicting ==> k in keeping && evicting[k] == keeping[k])
    && (forall k :: k in keeping && k !in evicting ==> now - keeping[k] >= COOLDOWN)
  }

  lemma {:induction false} EvictionAnswersAlike(evicting: map<Key, int>, keeping: map<Key, int>, calls: seq<Call>)
    requires Ordered(calls)
    requires calls != [] ==> Evicts(evicting, keeping, calls[0].now)
    ensures Fired(evicting, calls) == FiredForever(keeping, calls)
    decreases |calls|
  {
    if calls != [] {
      var c := calls[0];
      var keeping' := if Suppressed(keeping, c.key, c.now) then keeping else keeping[c.key := c.now];
      var evicting' := Noted(evicting, c.key, c.now);
      assert Suppressed(evicting, c.key, c.now) == Suppressed(keeping, c.key, c.now);
      assert Evicts(evicting', keeping', c.now);
      if calls[1..] != [] {
        assert calls[0].now <= calls[1].now;
        assert Evicts(evicting', keeping', calls[1..][0].now);
      }
      EvictionAnswersAlike(evicting', keeping', calls[1..]);
    }
  }

  /** With samples in lock order, eviction cannot be observed. */
  lemma EvictionIsInvisible(calls: seq<Call>)
    requires Ordered(calls)
    ensures Fired(map[], calls) == FiredForever(map[], calls)
  {
    EvictionAnswersAlike(map[], map[], calls);
  }

  // ------------------------------------------------------------ exactly which calls fire

  /** An earlier call for the same key fired less than five minutes before. */
  ghost predicate CoolingDown(calls: seq<Call>, fired: seq<bool>, i: nat)
    requires i < |calls| && |fired| == |calls|
  {
    exists k :: 0 <= k < i && fired[k] && calls[k].key == calls[i].key && calls[i].now - calls[k].now < 300_000
  }

  lemma {:induction false} FiredForeverIff(last: map<Key, int>, calls: seq<Call>, i: nat)
    requires Ordered(calls) && i < |calls|
    ensures |FiredForever(last, calls)| == |calls|
    ensures FiredForever(last, calls)[i] <==>
              !CoolingDown(calls, FiredForever(last, calls), i) && !Suppressed(last, calls[i].key, calls[i].now)
    decreases |calls|
  {
    var fired := FiredForever(last, calls);
    FiredForeverLength(last, calls);
    if i > 0 {
      var c := calls[0];
      var last' := if Suppressed(last, c.key, c.now) then last else last[c.key := c.now];
      RestOrdered(calls);
      FiredForeverIff(last', calls[1..], i - 1);
      assert fired[1..] == FiredForever(last', calls[1..]);
      CoolingDownCons(calls, fired, i);
      assert calls[0].now <= calls[i].now;
    }
  }

  lemma CoolingDownCons(calls: seq<Call>, fired: seq<bool>, i: nat)
    requires 0 < i < |calls| && |fired| == |calls|
    ensures CoolingDown(calls, fired, i) <==>
              || CoolingDown(calls[1..], fired[1..], i - 1)
              || (fired[0] && calls[0].key == calls[i].key && calls[i].now - calls[0].now < 300_000)
  {
    if CoolingDown(calls[1..], fired[1..], i - 1) {
      var k :| 0 <= k < i - 1 && fired[1..][k] && calls[1..][k].key == calls[1..][i - 1].key
               && calls[1..][i - 1].now - calls[1..][k].now < 300_000;
      assert fired[k + 1] && calls[k + 1].key == calls[i].key;
    }
    if CoolingDown(calls, fired, i) {
      var k :| 0 <= k < i && fired[k] && calls[k].key == calls[i].key && calls[i].now - calls[k].now < 300_000;
      if k > 0 {
        assert fired[1..][k - 1] && calls[1..][k - 1] == calls[k];
      }
    }
  }

  /** With ordered samples a call fires exactly when its key fired no alert in the five minutes before. */
  lemma FiresIff(calls: seq<Call>, i: nat)
    requires Ordered(calls) && i < |calls|
    ensures |Fired(map[], calls)| == |calls|
    ensures Fired(map[], calls)[i] <==> !CoolingDown(calls, Fired(map[], calls), i)
  {
    EvictionIsInvisible(calls);
    FiredForeverIff(map[], calls, i);
  }

  /** One device's alert never silences another's, nor one rule another: ids hold no colon, so keys tell them apart. */
  lemma AlertKeysDiffer(c1: string, d1: string, r1: string, c2: string, d2: string, r2: string)
    requires ':' !in c1 && ':' !in d1 && ':' !in c2 && ':' !in d2
    ensures AlertKey(c1, d1, r1) == AlertKey(c2, d2, r2) <==> c1 == c2 && d1 == d2 && r1 == r2
  {
    if AlertKey(c1, d1, r1) == AlertKey(c2, d2, r2) {
      assert c1 + ":" + d1 + ":" + r1 == c1 + ":" + (d1 + ":" + r1);
      assert c2 + ":" + d2 + ":" + r2 == c2 + ":" + (d2 + ":" + r2);
      UpToColon(c1, d1 + ":" + r1, c2, d2 + ":" + r2);
      UpToColon(d1, r1, d2, r2);
    }
  }

  lemma UpToColon(x: string, xs: string, y: string, ys: string)
    requires ':' !in x && ':' !in y && x + ":" + xs == y + ":" + ys
    ensures x == y && xs == ys
  {
    var s := x + ":" + xs;
    assert s[|x|] == ':' && s[|y|] == ':' && s[..|x|] == x && s[..|y|] == y;
    assert forall k :: 0 <= k < |x| ==> s[k] == x[k] && s[k] != ':';
    assert forall k :: 0 <= k < |y| ==> s[k] == y[k] && s[k] != ':';
    assert |x| == |y|;
    assert s[|x| + 1..] == xs && s[|y| + 1..] == ys;
  }

  // ------------------------------------------------------------ how far apart alerts are

  /** When alerts for a key fired, given which calls fired. */
  function AlertTimes(calls: seq<Call>, fired: seq<bool>, key: Key): seq<int>
    requires |fired| == |calls|
  {
    if calls == [] then []
    else (if fired[0] && calls[0].key == key then [calls[0].now] else [])
         + AlertTimes(calls[1..], fired[1..], key)
  }

  function Alerts(last: map<Key, int>, calls: seq<Call>, key: Key): seq<int> {
    FiredLength(last, calls);
    AlertTimes(calls, Fired(last, calls), key)
  }

  lemma {:induction false} FiredLength(last: map<Key, int>, calls: seq<Call>)
    ensures |Fired(last, calls)| == |calls|
    decreases |calls|
  {
    if calls != [] {
      FiredLength(Noted(last, calls[0].key, calls[0].now), calls[1..]);
    }
  }

  /** A later lock holder sampled the clock at most `d` before an earlier one. */
  ghost predicate SkewedBy(calls: seq<Call>, d: int) {
    forall i, k :: 0 <= i <= k < |calls| ==> calls[i].now - d <= calls[k].now
  }

  ghost predicate Spaced(times: seq<int>, gap: int) {
    forall i :: 0 <= i < |times| - 1 ==> times[i + 1] - times[i] >= gap
  }

  /**
   `previous` is the key's latest alert, still in the map or evicted by a sample at least a
   cooldown later; `high` is the latest sample so far.
   */
  lemma {:induction false} AlertsAreSpaced(last: map<Key, int>, calls: seq<Call>, key: Key,
                                           previous: seq<int>, high: int, d: nat)
    requires SkewedBy(calls, d) && forall k :: 0 <= k < |calls| ==> high - d <= calls[k].now
    requires |previous| <= 1
    requires previous == [] ==> key !in last
    requires previous != [] && key in last ==> last[key] == previous[0]
    requires previous != [] && key !in last ==> high - previous[0] >= COOLDOWN
    ensures Spaced(previous + Alerts(last, calls, key), COOLDOWN - d)
    decreases |calls|
  {
    if calls != [] {
      var c := calls[0];
      var last' := Noted(last, c.key, c.now);
      var fires := !Suppressed(last, c.key, c.now);
      var high' := if c.now > high then c.now else high;
      FiredLength(last, calls);
      assert Fired(last, calls)[1..] == Fired(last', calls[1..]);
      forall k | 0 <= k < |calls[1..]| ensures high' - d <= calls[1..][k].now {
        assert calls[1..][k] == calls[k + 1];
      }
      if fires && c.key == key {
        assert Alerts(last, calls, key) == [c.now] + Alerts(last', calls[1..], key);
        AlertsAreSpaced(last', calls[1..], key, [c.now], high', d);
        assert previous != [] ==> c.now - previous[0] >= COOLDOWN - d;
        PrependSpaced(previous, [c.now] + Alerts(last', calls[1..], key), COOLDOWN - d);
      } else {
        assert Alerts(last, calls, key) == Alerts(last', calls[1..], key);
        AlertsAreSpaced(last', calls[1..], key, previous, high', d);
      }
    }
  }

  lemma PrependSpaced(previous: seq<int>, times: seq<int>, gap: int)
    requires |previous| <= 1 && times != [] && Spaced(times, gap)
    requires previous != [] ==> times[0] - previous[0] >= gap
    ensures Spaced(previous + times, gap)
  {
    if previous == [] {
      assert previous + times == times;
    } else {
      forall i | 0 <= i < |previous + times| - 1
        ensures (previous + times)[i + 1] - (previous + times)[i] >= gap
      {
        if i > 0 {
          assert (previous + times)[i] == times[i - 1] && (previous + times)[i + 1] == times[i];
        }
      }
    }
  }

  /** However the samples are skewed, alerts for one key are at least cooldown - d apart. */
  lemma AlertSpacing(calls: seq<Call>, key: Key, d: nat)
    requires SkewedBy(calls, d)
    ensures Spaced(Alerts(map[], calls, key), 300_000 - d)
  {
    if calls != [] {
      assert forall k :: 0 <= k < |calls| ==> calls[0].now - d <= calls[k].now;
      AlertsAreSpaced(map[], calls, key, [], calls[0].now, d);
      assert [] + Alerts(map[], calls, key) == Alerts(map[], calls, key);
    }
  }

  lemma {:induction false} SpacedApart(times: seq<int>, gap: int, i: nat, k: nat)
    requires Spaced(times, gap) && i <= k < |times|
    ensures times[k] - times[i] >= (k - i) * gap
    decreases k - i
  {
    if i < k {
      SpacedApart(times, gap, i, k - 1);
      assert times[k - 1 + 1] - times[k - 1] >= gap;
      assert (k - i) * gap == (k - 1 - i) * gap + gap;
    }
  }

  /** A window of length w holds at most w / (cooldown - d) + 1 alerts of a key, the samples skewed by at most d. */
  lemma SkewedWindowBound(calls: seq<Call>, key: Key, d: nat, i: nat, k: nat, w: nat)
    requires SkewedBy(calls, d) && d < 300_000
    requires i <= k < |Alerts(map[], calls, key)|
    requires Alerts(map[], calls, key)[k] - Alerts(map[], calls, key)[i] <= w
    ensures k - i + 1 <= w / (300_000 - d) + 1
  {
    AlertSpacing(calls, key, d);
    SpacedApart(Alerts(map[], calls, key), COOLDOWN - d, i, k);
    AtMostQuotient(k - i, COOLDOWN - d, w);
  }

  lemma TimesGrows(a: nat, b: nat, gap: nat)
    requires a <= b
    ensures a * gap <= b * gap
  {
    assert b * gap == a * gap + (b - a) * gap;
  }

  lemma AtMostQuotient(n: nat, gap: nat, w: nat)
    requires gap > 0 && n * gap <= w
    ensures n <= w / gap
  {
    var q := w / gap;
    assert w == q * gap + w % gap;
    assert (q + 1) * gap == q * gap + gap;
    if n > q {
      TimesGrows(q + 1, n, gap);
      assert false;
    }
  }

  /** With ordered samples a window of length w holds at most w / cooldown + 1 alerts of a key. */
  lemma WindowBound(calls: seq<Call>, key: Key, i: nat, k: nat, w: nat)
    requires Ordered(calls)
    requires i <= k < |Alerts(map[], calls, key)|
    requires Alerts(map[], calls, key)[k] - Alerts(map[], calls, key)[i] <= w
    ensures k - i + 1 <= w / 300_000 + 1
  {
    SkewedWindowBound(calls, key, 0, i, k, w);
  }

  // ------------------------------------------------------------ keys do not interfere

  function OnlyKey(calls: seq<Call>, key: Key): seq<Call> {
    if calls == [] then []
    else (if calls[0].key == key then [calls[0]] else []) + OnlyKey(calls[1..], key)
  }

  lemma {:induction false} FiredForeverLength(last: map<Key, int>, calls: seq<Call>)
    ensures |FiredForever(last, calls)| == |calls|
    decreases |calls|
  {
    if calls != [] {
      var c := calls[0];
      FiredForeverLength(if Suppressed(last, c.key, c.now) then last else last[c.key := c.now], calls[1..]);
    }
  }

  lemma {:induction false} ForeverIgnoresOthers(last: map<Key, int>, own: map<Key, int>, calls: seq<Call>, key: Key)
    requires key in last <==> key in own
    requires key in last ==> last[key] == own[key]
    ensures |FiredForever(last, calls)| == |calls|
    ensures |FiredForever(own, OnlyKey(calls, key))| == |OnlyKey(calls, key)|
    ensures AlertTimes(calls, FiredForever(last, calls), key)
         == AlertTimes(OnlyKey(calls, key), FiredForever(own, OnlyKey(calls, key)), key)
    decreases |calls|
  {
    FiredForeverLength(last, calls);
    FiredForeverLength(own, OnlyKey(calls, key));
    if calls != [] {
      var c := calls[0];
      var last' := if Suppressed(last, c.key, c.now) then last else last[c.key := c.now];
      var own' := if c.key != key || Suppressed(own, c.key, c.now) then own else own[c.key := c.now];
      ForeverIgnoresOthers(last', own', calls[1..], key);
      assert FiredForever(last, calls)[1..] == FiredForever(last', calls[1..]);
      if c.key == key {
        assert OnlyKey(calls, key)[1..] == OnlyKey(calls[1..], key);
        assert FiredForever(own, OnlyKey(calls, key))[1..] == FiredForever(own', OnlyKey(calls[1..], key));
      } else {
        assert OnlyKey(calls, key) == OnlyKey(calls[1..], key);
        assert own' == own;
      }
    }
  }

  /** Another device's or rule's traffic, and the evictions it causes, never change a key's alerts. */
  lemma KeysAreIndependent(calls: seq<Call>, key: Key)
    requires Ordered(calls)
    ensures Alerts(map[], calls, key) == Alerts(map[], OnlyKey(calls, key), key)
  {
    OnlyKeyOrdered(calls, key);
    EvictionIsInvisible(calls);
    EvictionIsInvisible(OnlyKey(calls, key));
    ForeverIgnoresOthers(map[], map[], calls, key);
  }

  lemma {:induction false} OnlyKeyOrdered(calls: seq<Call>, key: Key)
    requires Ordered(calls)
    ensures Ordered(OnlyKey(calls, key))
    ensures forall c :: c in OnlyKey(calls, key) ==> c in calls
    decreases |calls|
  {
    if calls != [] {
      RestOrdered(calls);
      OnlyKeyOrdered(calls[1..], key);
      if calls[0].key == key {
        ConsOrdered(calls[0], OnlyKey(calls[1..], key));
      }
    }
  }

  lemma RestOrdered(calls: seq<Call>)
    requires Ordered(calls) && calls != []
    ensures Ordered(calls[1..])
    ensures forall c :: c in calls[1..] ==> c in calls && calls[0].now <= c.now
  {
    forall c | c in calls[1..] ensures c in calls && calls[0].now <= c.now {
      var i :| 0 <= i < |calls[1..]| && calls[1..][i] == c;
      assert calls[i + 1] == c;
    }
  }

  lemma ConsOrdered(c: Call, rest: seq<Call>)
    requires Ordered(rest) && forall d :: d in rest ==> c.now <= d.now
    ensures Ordered([c] + rest)
  {
    var all := [c] + rest;
    forall i, k | 0 <= i <= k < |all| ensures all[i].now <= all[k].now {
      if 0 < i {
        assert all[i] == rest[i - 1] && all[k] == rest[k - 1];
      } else if 0 < k {
        assert all[k] in rest;
      }
    }
  }
}
