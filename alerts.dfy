/**
 * The alert cooldown engine of the lab operator bot (User_awareness/telegram_bot.py):
 * the status snapshot it reads, the cooldown table keyed by (lab, alert kind), and one
 * evaluation pass over a snapshot, written as functions on values so that what the
 * pass does can be stated and proved.  TelegramBot.Bot.PollOnce runs the same pass
 * with loops over a mutable state and is proved equal to LabsPass.
 */
module Alerts {
  import opened Wrappers

  type LabId = string
  type SensorId = string
  type ChatId = int

  /** The four alert kinds of the cooldown table: "t_high", "t_low", "h_high", "h_low". */
  datatype Kind = THigh | TLow | HHigh | HLow

  type AlertKey = (LabId, Kind)

  /** A lab's threshold set; a bound missing from the registry's JSON is None. */
  datatype Thresholds = Thresholds(tLow: Option<int>, tHigh: Option<int>, hLow: Option<int>, hHigh: Option<int>)

  /** A sensor's current reading; a missing or null "t" or "h" is None. */
  datatype Reading = Reading(t: Option<int>, h: Option<int>)

  /** A sensor of the snapshot; `reading` is None when the sensor reports no reading object. */
  datatype Sensor = Sensor(sensorId: SensorId, reading: Option<Reading>)

  datatype Lab = Lab(labId: LabId, thresholds: Thresholds, sensors: seq<Sensor>)

  /**
   * What one firing reports: the lab, the kind, the sensor that tripped it, the reading's
   * value and the configured bound (None when the bound was missing and the default applied).
   */
  datatype Alert = Alert(lab: LabId, kind: Kind, sensor: SensorId, value: int, bound: Option<int>) {
    function Key(): AlertKey { (lab, kind) }
  }

  /** One chat message in the outbox. */
  datatype Notification = Notification(chat: ChatId, alert: Alert)

  /** One recorded firing: the alert and the time the cooldown table recorded for it. */
  datatype Firing = Firing(alert: Alert, at: int)

  /** Bounds the code substitutes for a missing high or low threshold. */
  const DEFAULT_HIGH: int := 999
  const DEFAULT_LOW: int := -999

  // ---------------------------------------------------------------------------
  // The four guarded comparisons
  // ---------------------------------------------------------------------------

  /** `sensor.get("reading") or {}`: a sensor without a reading reads as all fields absent. */
  function ReadingOf(s: Sensor): Reading {
    s.reading.GetOr(Reading(None, None))
  }

  /** The reading field a kind compares: "t" for temperature kinds, "h" for humidity kinds. */
  function Measured(kind: Kind, rd: Reading): Option<int> {
    match kind
    case THigh | TLow => rd.t
    case HHigh | HLow => rd.h
  }

  /** The threshold a kind compares against. */
  function BoundOf(kind: Kind, thr: Thresholds): Option<int> {
    match kind
    case THigh => thr.tHigh
    case TLow => thr.tLow
    case HHigh => thr.hHigh
    case HLow => thr.hLow
  }

  /** The strict comparison of a value with a bound, missing bounds replaced by 999 / -999. */
  predicate Beyond(kind: Kind, v: int, bound: Option<int>) {
    match kind
    case THigh | HHigh => v > bound.GetOr(DEFAULT_HIGH)
    case TLow | HLow => v < bound.GetOr(DEFAULT_LOW)
  }

  /** The comparison half of one guard: the field is present and lies beyond its bound. */
  predicate Triggered(kind: Kind, thr: Thresholds, rd: Reading) {
    Measured(kind, rd).Some? && Beyond(kind, Measured(kind, rd).value, BoundOf(kind, thr))
  }

  /** The four comparisons spelled out per kind, defaults included. */
  lemma TriggerRules(thr: Thresholds, rd: Reading)
    ensures Triggered(THigh, thr, rd) <==> rd.t.Some? && rd.t.value > (if thr.tHigh.Some? then thr.tHigh.value else 999)
    ensures Triggered(TLow, thr, rd) <==> rd.t.Some? && rd.t.value < (if thr.tLow.Some? then thr.tLow.value else -999)
    ensures Triggered(HHigh, thr, rd) <==> rd.h.Some? && rd.h.value > (if thr.hHigh.Some? then thr.hHigh.value else 999)
    ensures Triggered(HLow, thr, rd) <==> rd.h.Some? && rd.h.value < (if thr.hLow.Some? then thr.hLow.value else -999)
  {
  }

  /** A sensor with no reading, or a reading without "t" / "h", trips no guard of that field. */
  lemma NoReadingNoAlert(thr: Thresholds, s: Sensor)
    ensures ReadingOf(s).t.None? ==> !Triggered(THigh, thr, ReadingOf(s)) && !Triggered(TLow, thr, ReadingOf(s))
    ensures ReadingOf(s).h.None? ==> !Triggered(HHigh, thr, ReadingOf(s)) && !Triggered(HLow, thr, ReadingOf(s))
    ensures s.reading.None? ==> forall kind :: !Triggered(kind, thr, ReadingOf(s))
  {
  }

  /** A missing bound is not "never triggers": readings past the default still trip it. */
  lemma MissingBoundStillTriggers(kind: Kind, rd: Reading)
    requires Measured(kind, rd).Some?
    requires kind in {THigh, HHigh} ==> Measured(kind, rd).value > 999
    requires kind in {TLow, HLow} ==> Measured(kind, rd).value < -999
    ensures Triggered(kind, Thresholds(None, None, None, None), rd)
  {
  }

  // ---------------------------------------------------------------------------
  // The cooldown table: should_alert and track_alert
  // ---------------------------------------------------------------------------

  /** `_last_alert.get((lab_id, kind), 0)`. */
  function LastFired(last: map<AlertKey, int>, key: AlertKey): int {
    if key in last then last[key] else 0
  }

  /** The table entry as an optional value. */
  function Lookup(last: map<AlertKey, int>, key: AlertKey): Option<int> {
    if key in last then Some(last[key]) else None
  }

  /**
   * should_alert: the time elapsed since the recorded firing is at least the cooldown;
   * a pair that never fired counts as fired at time 0.
   */
  function ShouldAlert(last: map<AlertKey, int>, cooldown: int, key: AlertKey, now: int): (r: bool)
    ensures key in last ==> (r <==> now - last[key] >= cooldown)
    ensures key !in last ==> (r <==> now >= cooldown)
  {
    now - LastFired(last, key) >= cooldown
  }

  /** track_alert: records `now` for the pair and leaves every other entry as it was. */
  function Track(last: map<AlertKey, int>, key: AlertKey, now: int): (r: map<AlertKey, int>)
    ensures r.Keys == last.Keys + {key}
    ensures r[key] == now
    ensures forall k :: k in last && k != key ==> r[k] == last[k]
  {
    last[key := now]
  }

  /** Once a pair is recorded at T, every check before T + cooldown is suppressed. */
  lemma SuppressedWithinCooldown(last: map<AlertKey, int>, cooldown: int, key: AlertKey, now: int)
    requires key in last && now < last[key] + cooldown
    ensures !ShouldAlert(last, cooldown, key, now)
  {
  }

  // ---------------------------------------------------------------------------
  // One evaluation pass
  // ---------------------------------------------------------------------------

  /** What stays fixed during one pass: the known chats, the cooldown and the clock reading. */
  datatype Env = Env(chats: seq<ChatId>, cooldown: int, now: int)

  /** The state a pass changes: the cooldown table, the outbox and the log of firings. */
  datatype Cycle = Cycle(last: map<AlertKey, int>, sent: seq<Notification>, fired: seq<Firing>)

  /** `for chat in KNOWN_CHATS: bot.sendMessage(chat, msg)`: one message per chat, in order. */
  function Fanout(chats: seq<ChatId>, a: Alert): (r: seq<Notification>)
    ensures |r| == |chats|
    ensures forall i :: 0 <= i < |chats| ==> r[i] == Notification(chats[i], a)
    decreases |chats|
  {
    if chats == [] then []
    else Fanout(chats[..|chats| - 1], a) + [Notification(chats[|chats| - 1], a)]
  }

  /** The messages a sequence of firings sends: each firing's fan-out, in firing order. */
  function Broadcast(chats: seq<ChatId>, fs: seq<Firing>): seq<Notification>
    decreases |fs|
  {
    if fs == [] then []
    else Broadcast(chats, fs[..|fs| - 1]) + Fanout(chats, fs[|fs| - 1].alert)
  }

  /** One firing: send to every chat, then record the time, and log the firing. */
  function Fire(c: Cycle, env: Env, a: Alert): Cycle {
    Cycle(Track(c.last, a.Key(), env.now), c.sent + Fanout(env.chats, a), c.fired + [Firing(a, env.now)])
  }

  /** The alert a guard of sensor `s` of lab `labId` reports: the sensor, its value and the configured bound. */
  function AlertOf(labId: LabId, thr: Thresholds, s: Sensor, kind: Kind): Alert
    requires Measured(kind, ReadingOf(s)).Some?
  {
    Alert(labId, kind, s.sensorId, Measured(kind, ReadingOf(s)).value, BoundOf(kind, thr))
  }

  /** One guarded check `value beyond bound and should_alert(lab_id, kind)` and its firing. */
  function Guard(c: Cycle, env: Env, labId: LabId, thr: Thresholds, s: Sensor, kind: Kind): Cycle {
    if Triggered(kind, thr, ReadingOf(s)) && ShouldAlert(c.last, env.cooldown, (labId, kind), env.now) then
      Fire(c, env, AlertOf(labId, thr, s, kind))
    else
      c
  }

  /** The four guards of one sensor, in the order of the source: t_high, t_low, h_high, h_low. */
  function SensorStep(c: Cycle, env: Env, labId: LabId, thr: Thresholds, s: Sensor): Cycle {
    var c1 := Guard(c, env, labId, thr, s, THigh);
    var c2 := Guard(c1, env, labId, thr, s, TLow);
    var c3 := Guard(c2, env, labId, thr, s, HHigh);
    Guard(c3, env, labId, thr, s, HLow)
  }

  /** The sensors of one lab, in order. */
  function SensorsPass(c: Cycle, env: Env, labId: LabId, thr: Thresholds, ss: seq<Sensor>): Cycle
    decreases |ss|
  {
    if ss == [] then c
    else SensorStep(SensorsPass(c, env, labId, thr, ss[..|ss| - 1]), env, labId, thr, ss[|ss| - 1])
  }

  /** One whole pass: the labs of the snapshot, in order. */
  function LabsPass(c: Cycle, env: Env, labs: seq<Lab>): Cycle
    decreases |labs|
  {
    if labs == [] then c
    else
      var l := labs[|labs| - 1];
      SensorsPass(LabsPass(c, env, labs[..|labs| - 1]), env, l.labId, l.thresholds, l.sensors)
  }

  // ---------------------------------------------------------------------------
  // Broadcast: one message per chat per firing
  // ---------------------------------------------------------------------------

  lemma AppendAssoc(s: seq<Notification>, u: seq<Notification>, v: seq<Notification>)
    ensures s + u + v == s + (u + v)
  {
  }

  lemma {:induction false} BroadcastAppend(chats: seq<ChatId>, a: seq<Firing>, b: seq<Firing>)
    ensures Broadcast(chats, a + b) == Broadcast(chats, a) + Broadcast(chats, b)
    decreases |b|
  {
    if b == [] {
      assert a + b == a;
    } else {
      var b', f := b[..|b| - 1], b[|b| - 1];
      var ab := a + b;
      assert ab[..|ab| - 1] == a + b';
      assert ab[|ab| - 1] == f;
      BroadcastAppend(chats, a, b');
      AppendAssoc(Broadcast(chats, a), Broadcast(chats, b'), Fanout(chats, f.alert));
    }
  }

  /** A firing reaches every chat: k firings send exactly k * |chats| messages. */
  lemma {:induction false} BroadcastLength(chats: seq<ChatId>, fs: seq<Firing>)
    ensures |Broadcast(chats, fs)| == |chats| * |fs|
    decreases |fs|
  {
    if fs != [] {
      BroadcastLength(chats, fs[..|fs| - 1]);
      calc {
        |Broadcast(chats, fs)|;
        |chats| * (|fs| - 1) + |chats|;
        { assert |chats| * (|fs| - 1) == |chats| * |fs| - |chats|; }
        |chats| * |fs|;
      }
    }
  }

  lemma {:induction false} MulStep(k: nat, n: nat, m: nat)
    requires k < n
    ensures k * m + m <= n * m
    decreases n - k
  {
    assert (k + 1) * m == k * m + m;
    if k + 1 < n {
      MulStep(k + 1, n, m);
    }
  }

  /** The messages of one firing within a broadcast: firing k goes to chat i at position k * |chats| + i. */
  lemma {:induction false} BroadcastAt(chats: seq<ChatId>, fs: seq<Firing>, k: nat, i: nat)
    requires k < |fs| && i < |chats|
    ensures |Broadcast(chats, fs)| == |chats| * |fs|
    ensures k * |chats| + i < |Broadcast(chats, fs)|
    ensures Broadcast(chats, fs)[k * |chats| + i] == Notification(chats[i], fs[k].alert)
    decreases |fs|
  {
    var m, n := |chats|, |fs|;
    var fs' := fs[..n - 1];
    var b' := Broadcast(chats, fs');
    var tail := Fanout(chats, fs[n - 1].alert);
    assert Broadcast(chats, fs) == b' + tail;
    BroadcastLength(chats, fs');
    BroadcastLength(chats, fs);
    assert |b'| == m * (n - 1);
    MulStep(k, n, m);
    assert (n - 1) * m + m == n * m;
    if k < n - 1 {
      MulStep(k, n - 1, m);
      BroadcastAt(chats, fs', k, i);
      assert fs'[k] == fs[k];
    } else {
      assert k * m == |b'|;
    }
  }

  // ---------------------------------------------------------------------------
  // What a pass changes
  // ---------------------------------------------------------------------------

  /** The recorded alert lies beyond its bound (missing bounds replaced by the defaults). */
  predicate Holds(a: Alert) {
    Beyond(a.kind, a.value, a.bound)
  }

  /** The last logged firing of pair `key` is one that came after c, i.e. the pair fired between c and c'. */
  ghost predicate NewlyFired(c: Cycle, c': Cycle, key: AlertKey) {
    LastIndex(c'.fired, key) >= |c.fired|
  }

  /** The log only grows, and every firing added is at `now` and lies beyond its bound. */
  ghost predicate LogExtends(c: Cycle, c': Cycle, env: Env) {
    && |c.fired| <= |c'.fired|
    && c'.fired[..|c.fired|] == c.fired
    && (forall k :: |c.fired| <= k < |c'.fired| ==> c'.fired[k].at == env.now && Holds(c'.fired[k].alert))
  }

  /** The outbox grows by the fan-out of each added firing to every known chat. */
  ghost predicate OutboxFollows(c: Cycle, c': Cycle, env: Env)
    requires |c.fired| <= |c'.fired|
  {
    c'.sent == c.sent + Broadcast(env.chats, c'.fired[|c.fired|..])
  }

  /** Every pair that fired is recorded at `now`; every other entry of the table is unchanged. */
  ghost predicate TableFollows(c: Cycle, c': Cycle, env: Env) {
    && (forall key :: NewlyFired(c, c', key) ==> Lookup(c'.last, key) == Some(env.now))
    && (forall key :: !NewlyFired(c, c', key) ==> Lookup(c'.last, key) == Lookup(c.last, key))
  }

  /**
   * c' follows c within one pass: the log only grows, every new firing is at `now` and
   * lies beyond its bound, the outbox grows by one message per chat per new firing, every
   * pair that fired is recorded at `now`, and every other entry of the table is unchanged.
   */
  ghost predicate Advances(c: Cycle, c': Cycle, env: Env) {
    LogExtends(c, c', env) && OutboxFollows(c, c', env) && TableFollows(c, c', env)
  }

  lemma AdvancesRefl(c: Cycle, env: Env)
    ensures Advances(c, c, env)
  {
    assert c.fired[|c.fired|..] == [];
    assert c.fired[..|c.fired|] == c.fired;
  }

  /** Cutting the log below its last firing of `key` keeps that firing the last one. */
  lemma LastIndexPrefix(s: seq<Firing>, n: nat, key: AlertKey)
    requires n <= |s|
    ensures LastIndex(s, key) < n ==> LastIndex(s[..n], key) == LastIndex(s, key)
  {
    var r, r' := LastIndex(s, key), LastIndex(s[..n], key);
    if r < n {
      if r >= 0 {
        assert s[..n][r] == s[r];
      }
      if r' >= 0 {
        assert s[..n][r'] == s[r'];
      }
    }
  }

  lemma LogExtendsTrans(c1: Cycle, c2: Cycle, c3: Cycle, env: Env)
    requires LogExtends(c1, c2, env) && LogExtends(c2, c3, env)
    ensures LogExtends(c1, c3, env)
  {
    assert c3.fired[..|c1.fired|] == c3.fired[..|c2.fired|][..|c1.fired|];
  }

  /** The part of a log after n1 is its part up to an extension point n2, then the rest. */
  lemma SuffixSplit(s2: seq<Firing>, s3: seq<Firing>, n1: nat)
    requires n1 <= |s2| <= |s3| && s3[..|s2|] == s2
    ensures s3[n1..] == s2[n1..] + s3[|s2|..]
  {
    assert s3 == s2 + s3[|s2|..];
  }

  lemma OutboxFollowsTrans(c1: Cycle, c2: Cycle, c3: Cycle, env: Env)
    requires |c1.fired| <= |c2.fired| <= |c3.fired| && c3.fired[..|c2.fired|] == c2.fired
    requires OutboxFollows(c1, c2, env) && OutboxFollows(c2, c3, env)
    ensures OutboxFollows(c1, c3, env)
  {
    var n1, n2 := |c1.fired|, |c2.fired|;
    var x, y := c2.fired[n1..], c3.fired[n2..];
    SuffixSplit(c2.fired, c3.fired, n1);
    BroadcastAppend(env.chats, x, y);
    AppendAssoc(c1.sent, Broadcast(env.chats, x), Broadcast(env.chats, y));
  }

  lemma TableFollowsTrans(c1: Cycle, c2: Cycle, c3: Cycle, env: Env)
    requires LogExtends(c1, c2, env) && LogExtends(c2, c3, env)
    requires TableFollows(c1, c2, env) && TableFollows(c2, c3, env)
    ensures TableFollows(c1, c3, env)
  {
    forall key
      ensures NewlyFired(c1, c3, key) <==> NewlyFired(c1, c2, key) || NewlyFired(c2, c3, key)
    {
      LastIndexPrefix(c3.fired, |c2.fired|, key);
    }
  }

  lemma AdvancesTrans(c1: Cycle, c2: Cycle, c3: Cycle, env: Env)
    requires Advances(c1, c2, env) && Advances(c2, c3, env)
    ensures Advances(c1, c3, env)
  {
    LogExtendsTrans(c1, c2, c3, env);
    OutboxFollowsTrans(c1, c2, c3, env);
    TableFollowsTrans(c1, c2, c3, env);
  }

  lemma GuardAdvances(c: Cycle, env: Env, labId: LabId, thr: Thresholds, s: Sensor, kind: Kind)
    ensures Advances(c, Guard(c, env, labId, thr, s, kind), env)
  {
    var c' := Guard(c, env, labId, thr, s, kind);
    if c' == c {
      AdvancesRefl(c, env);
    } else {
      var n := |c.fired|;
      var f := c'.fired[n];
      assert c'.fired == c.fired + [f];
      assert c'.fired[..n] == c.fired;
      assert c'.fired[n..] == [f];
      assert Broadcast(env.chats, [f]) == Fanout(env.chats, f.alert) by {
        assert [f][..0] == [];
      }
      forall key | key != f.alert.Key()
        ensures LastIndex(c'.fired, key) == LastIndex(c.fired, key)
      {
      }
    }
  }

  lemma SensorStepAdvances(c: Cycle, env: Env, labId: LabId, thr: Thresholds, s: Sensor)
    ensures Advances(c, SensorStep(c, env, labId, thr, s), env)
  {
    var c1 := Guard(c, env, labId, thr, s, THigh);
    var c2 := Guard(c1, env, labId, thr, s, TLow);
    var c3 := Guard(c2, env, labId, thr, s, HHigh);
    GuardAdvances(c, env, labId, thr, s, THigh);
    GuardAdvances(c1, env, labId, thr, s, TLow);
    GuardAdvances(c2, env, labId, thr, s, HHigh);
    GuardAdvances(c3, env, labId, thr, s, HLow);
    AdvancesTrans(c, c1, c2, env);
    AdvancesTrans(c, c2, c3, env);
    AdvancesTrans(c, c3, SensorStep(c, env, labId, thr, s), env);
  }

  lemma {:induction false} SensorsPassAdvances(c: Cycle, env: Env, labId: LabId, thr: Thresholds, ss: seq<Sensor>)
    ensures Advances(c, SensorsPass(c, env, labId, thr, ss), env)
    decreases |ss|
  {
    if ss == [] {
      AdvancesRefl(c, env);
    } else {
      var mid := SensorsPass(c, env, labId, thr, ss[..|ss| - 1]);
      SensorsPassAdvances(c, env, labId, thr, ss[..|ss| - 1]);
      SensorStepAdvances(mid, env, labId, thr, ss[|ss| - 1]);
      AdvancesTrans(c, mid, SensorsPass(c, env, labId, thr, ss), env);
    }
  }

  /**
   * A pass only appends: firings at `now` past their bounds, one message per known chat
   * per firing, `now` recorded for fired pairs and no other table entry touched.
   */
  lemma {:induction false} LabsPassAdvances(c: Cycle, env: Env, labs: seq<Lab>)
    ensures Advances(c, LabsPass(c, env, labs), env)
    decreases |labs|
  {
    if labs == [] {
      AdvancesRefl(c, env);
    } else {
      var l := labs[|labs| - 1];
      var mid := LabsPass(c, env, labs[..|labs| - 1]);
      LabsPassAdvances(c, env, labs[..|labs| - 1]);
      SensorsPassAdvances(mid, env, l.labId, l.thresholds, l.sensors);
      AdvancesTrans(c, mid, LabsPass(c, env, labs), env);
    }
  }

  // ---------------------------------------------------------------------------
  // Where the firings of a pass come from, and which pairs must fire
  // ---------------------------------------------------------------------------

  /** Alert `a` is what sensor `s` of lab `labId` reports for its kind, and that guard's comparison trips. */
  ghost predicate Reports(a: Alert, labId: LabId, thr: Thresholds, s: Sensor) {
    Triggered(a.kind, thr, ReadingOf(s)) && a == AlertOf(labId, thr, s, a.kind)
  }

  /** Some sensor of `ss` (of lab `labId`) reports `a`. */
  ghost predicate FromSensors(a: Alert, labId: LabId, thr: Thresholds, ss: seq<Sensor>) {
    exists j :: 0 <= j < |ss| && Reports(a, labId, thr, ss[j])
  }

  /** Some sensor of some lab of the snapshot reports `a`. */
  ghost predicate FromLabs(a: Alert, labs: seq<Lab>) {
    exists i :: 0 <= i < |labs| && FromSensors(a, labs[i].labId, labs[i].thresholds, labs[i].sensors)
  }

  /**
   * A guard fires exactly when its comparison trips and should_alert allows the pair; the
   * firing then logs the sensor's alert at `now`.
   */
  lemma GuardFires(c: Cycle, env: Env, labId: LabId, thr: Thresholds, s: Sensor, kind: Kind)
    ensures var c' := Guard(c, env, labId, thr, s, kind);
      && (|c'.fired| > |c.fired| <==> Triggered(kind, thr, ReadingOf(s)) && ShouldAlert(c.last, env.cooldown, (labId, kind), env.now))
      && (|c'.fired| > |c.fired| ==> c'.fired == c.fired + [Firing(AlertOf(labId, thr, s, kind), env.now)])
      && (|c'.fired| > |c.fired| ==> Reports(c'.fired[|c.fired|].alert, labId, thr, s))
  {
  }

  /** A guard of sensor `s` adds only alerts that `s` reports. */
  lemma GuardKeepsProvenance(c: Cycle, env: Env, labId: LabId, thr: Thresholds, s: Sensor, kind: Kind, n: nat)
    requires n <= |c.fired|
    requires forall k :: n <= k < |c.fired| ==> Reports(c.fired[k].alert, labId, thr, s)
    ensures var c' := Guard(c, env, labId, thr, s, kind);
      |c.fired| <= |c'.fired| &&
      forall k :: n <= k < |c'.fired| ==> Reports(c'.fired[k].alert, labId, thr, s)
  {
    GuardFires(c, env, labId, thr, s, kind);
  }

  /** Every firing added by one sensor's four guards is an alert that sensor reports. */
  lemma SensorStepProvenance(c: Cycle, env: Env, labId: LabId, thr: Thresholds, s: Sensor)
    ensures var c' := SensorStep(c, env, labId, thr, s);
      |c.fired| <= |c'.fired| &&
      forall k :: |c.fired| <= k < |c'.fired| ==> Reports(c'.fired[k].alert, labId, thr, s)
  {
    var n := |c.fired|;
    var c1 := Guard(c, env, labId, thr, s, THigh);
    var c2 := Guard(c1, env, labId, thr, s, TLow);
    var c3 := Guard(c2, env, labId, thr, s, HHigh);
    GuardKeepsProvenance(c, env, labId, thr, s, THigh, n);
    GuardKeepsProvenance(c1, env, labId, thr, s, TLow, n);
    GuardKeepsProvenance(c2, env, labId, thr, s, HHigh, n);
    GuardKeepsProvenance(c3, env, labId, thr, s, HLow, n);
  }

  /** Every firing added while evaluating the sensors of one lab is reported by one of them. */
  lemma {:induction false} SensorsPassProvenance(c: Cycle, env: Env, labId: LabId, thr: Thresholds, ss: seq<Sensor>)
    ensures var c' := SensorsPass(c, env, labId, thr, ss);
      |c.fired| <= |c'.fired| &&
      forall k :: |c.fired| <= k < |c'.fired| ==> FromSensors(c'.fired[k].alert, labId, thr, ss)
    decreases |ss|
  {
    if ss != [] {
      var n := |ss| - 1;
      var mid := SensorsPass(c, env, labId, thr, ss[..n]);
      var c' := SensorsPass(c, env, labId, thr, ss);
      SensorsPassProvenance(c, env, labId, thr, ss[..n]);
      SensorStepProvenance(mid, env, labId, thr, ss[n]);
      SensorStepAdvances(mid, env, labId, thr, ss[n]);
      forall k | |c.fired| <= k < |c'.fired|
        ensures FromSensors(c'.fired[k].alert, labId, thr, ss)
      {
        if k < |mid.fired| {
          assert c'.fired[k] == mid.fired[k];
          var j :| 0 <= j < n && Reports(mid.fired[k].alert, labId, thr, ss[..n][j]);
          assert ss[..n][j] == ss[j];
        } else {
          assert Reports(c'.fired[k].alert, labId, thr, ss[n]);
        }
      }
    }
  }

  /**
   * Every firing a pass adds is the alert of a lab and sensor of the snapshot: that lab's id,
   * the sensor's id and value, the lab's configured bound, with the comparison tripping.
   */
  lemma {:induction false} LabsPassProvenance(c: Cycle, env: Env, labs: seq<Lab>)
    ensures var c' := LabsPass(c, env, labs);
      |c.fired| <= |c'.fired| &&
      forall k :: |c.fired| <= k < |c'.fired| ==> FromLabs(c'.fired[k].alert, labs)
    decreases |labs|
  {
    if labs != [] {
      var n := |labs| - 1;
      var l := labs[n];
      var mid := LabsPass(c, env, labs[..n]);
      var c' := LabsPass(c, env, labs);
      LabsPassProvenance(c, env, labs[..n]);
      SensorsPassProvenance(mid, env, l.labId, l.thresholds, l.sensors);
      SensorsPassAdvances(mid, env, l.labId, l.thresholds, l.sensors);
      forall k | |c.fired| <= k < |c'.fired|
        ensures FromLabs(c'.fired[k].alert, labs)
      {
        if k < |mid.fired| {
          assert c'.fired[k] == mid.fired[k];
          var i :| 0 <= i < n && FromSensors(mid.fired[k].alert, labs[..n][i].labId, labs[..n][i].thresholds, labs[..n][i].sensors);
          assert labs[..n][i] == labs[i];
        } else {
          assert FromSensors(c'.fired[k].alert, labs[n].labId, labs[n].thresholds, labs[n].sensors);
        }
      }
    }
  }

  /** A pair that fired since c0 still counts as fired since c0 after the log grows further. */
  lemma NewlyFiredPersists(c0: Cycle, c1: Cycle, c2: Cycle, env: Env, key: AlertKey)
    requires LogExtends(c0, c1, env) && LogExtends(c1, c2, env)
    requires NewlyFired(c0, c1, key)
    ensures NewlyFired(c0, c2, key)
  {
    LastIndexPrefix(c2.fired, |c1.fired|, key);
  }

  /**
   * Within a pass that started at c0: guard `g` of sensor `s` fires the pair (labId, kind) when
   * g is that kind, the comparison trips and should_alert allowed the pair at c0, and a pair
   * that already fired since c0 stays fired.
   */
  lemma GuardFiresIfAllowed(c0: Cycle, c: Cycle, env: Env, labId: LabId, thr: Thresholds, s: Sensor, g: Kind, kind: Kind)
    requires Advances(c0, c, env)
    requires Triggered(kind, thr, ReadingOf(s)) && ShouldAlert(c0.last, env.cooldown, (labId, kind), env.now)
    ensures var c' := Guard(c, env, labId, thr, s, g);
      && Advances(c0, c', env)
      && (g == kind || NewlyFired(c0, c, (labId, kind)) ==> NewlyFired(c0, c', (labId, kind)))
  {
    var key := (labId, kind);
    var c' := Guard(c, env, labId, thr, s, g);
    GuardAdvances(c, env, labId, thr, s, g);
    AdvancesTrans(c0, c, c', env);
    if NewlyFired(c0, c, key) {
      NewlyFiredPersists(c0, c, c', env, key);
    } else if g == kind {
      assert Lookup(c.last, key) == Lookup(c0.last, key);
      assert ShouldAlert(c.last, env.cooldown, key, env.now);
      assert c'.fired[|c'.fired| - 1].alert.Key() == key;
    }
  }

  /** The four guards of the sensor that trips the pair fire it, if it had not fired since c0. */
  lemma SensorStepFires(c0: Cycle, c: Cycle, env: Env, labId: LabId, thr: Thresholds, s: Sensor, kind: Kind)
    requires Advances(c0, c, env)
    requires Triggered(kind, thr, ReadingOf(s)) && ShouldAlert(c0.last, env.cooldown, (labId, kind), env.now)
    ensures var c' := SensorStep(c, env, labId, thr, s);
      Advances(c0, c', env) && NewlyFired(c0, c', (labId, kind))
  {
    var c1 := Guard(c, env, labId, thr, s, THigh);
    var c2 := Guard(c1, env, labId, thr, s, TLow);
    var c3 := Guard(c2, env, labId, thr, s, HHigh);
    GuardFiresIfAllowed(c0, c, env, labId, thr, s, THigh, kind);
    GuardFiresIfAllowed(c0, c1, env, labId, thr, s, TLow, kind);
    GuardFiresIfAllowed(c0, c2, env, labId, thr, s, HHigh, kind);
    GuardFiresIfAllowed(c0, c3, env, labId, thr, s, HLow, kind);
  }

  /** Within a pass that started at c0: sensor j of the lab trips the pair, so the lab's sensor loop fires it. */
  lemma {:induction false} SensorsPassFires(c0: Cycle, c: Cycle, env: Env, labId: LabId, thr: Thresholds, ss: seq<Sensor>, j: nat, kind: Kind)
    requires Advances(c0, c, env)
    requires j < |ss| && Triggered(kind, thr, ReadingOf(ss[j]))
    requires ShouldAlert(c0.last, env.cooldown, (labId, kind), env.now)
    ensures var c' := SensorsPass(c, env, labId, thr, ss);
      Advances(c0, c', env) && NewlyFired(c0, c', (labId, kind))
    decreases |ss|
  {
    var n := |ss| - 1;
    var mid := SensorsPass(c, env, labId, thr, ss[..n]);
    var c' := SensorsPass(c, env, labId, thr, ss);
    if j == n {
      SensorsPassAdvances(c, env, labId, thr, ss[..n]);
      AdvancesTrans(c0, c, mid, env);
      SensorStepFires(c0, mid, env, labId, thr, ss[n], kind);
    } else {
      assert ss[..n][j] == ss[j];
      SensorsPassFires(c0, c, env, labId, thr, ss[..n], j, kind);
      SensorStepAdvances(mid, env, labId, thr, ss[n]);
      AdvancesTrans(c0, mid, c', env);
      NewlyFiredPersists(c0, mid, c', env, (labId, kind));
    }
  }

  /** Within a pass that started at c0: sensor j of lab i trips the pair, so the pass fires it. */
  lemma {:induction false} LabsPassFires(c0: Cycle, c: Cycle, env: Env, labs: seq<Lab>, i: nat, j: nat, kind: Kind)
    requires Advances(c0, c, env)
    requires i < |labs| && j < |labs[i].sensors|
    requires Triggered(kind, labs[i].thresholds, ReadingOf(labs[i].sensors[j]))
    requires ShouldAlert(c0.last, env.cooldown, (labs[i].labId, kind), env.now)
    ensures var c' := LabsPass(c, env, labs);
      Advances(c0, c', env) && NewlyFired(c0, c', (labs[i].labId, kind))
    decreases |labs|
  {
    var n := |labs| - 1;
    var l := labs[n];
    var mid := LabsPass(c, env, labs[..n]);
    var c' := LabsPass(c, env, labs);
    if i == n {
      LabsPassAdvances(c, env, labs[..n]);
      AdvancesTrans(c0, c, mid, env);
      SensorsPassFires(c0, mid, env, l.labId, l.thresholds, l.sensors, j, kind);
    } else {
      assert labs[..n][i] == labs[i];
      LabsPassFires(c0, c, env, labs[..n], i, j, kind);
      SensorsPassAdvances(mid, env, l.labId, l.thresholds, l.sensors);
      AdvancesTrans(c0, mid, c', env);
      NewlyFiredPersists(c0, mid, c', env, (labs[i].labId, kind));
    }
  }

  /**
   * The other direction, for every cooldown: a pair that some sensor of the snapshot trips and
   * that should_alert allows at the start of the pass fires during the pass and is recorded at `now`.
   */
  lemma TrippedFires(c: Cycle, env: Env, labs: seq<Lab>, i: nat, j: nat, kind: Kind)
    requires i < |labs| && j < |labs[i].sensors|
    requires Triggered(kind, labs[i].thresholds, ReadingOf(labs[i].sensors[j]))
    requires ShouldAlert(c.last, env.cooldown, (labs[i].labId, kind), env.now)
    ensures NewlyFired(c, LabsPass(c, env, labs), (labs[i].labId, kind))
    ensures Lookup(LabsPass(c, env, labs).last, (labs[i].labId, kind)) == Some(env.now)
  {
    AdvancesRefl(c, env);
    LabsPassFires(c, c, env, labs, i, j, kind);
  }

  // ---------------------------------------------------------------------------
  // The cooldown invariant
  // ---------------------------------------------------------------------------

  /** The index of the last firing of `key` in the log, or -1 when it never fired. */
  function LastIndex(fs: seq<Firing>, key: AlertKey): (r: int)
    ensures -1 <= r < |fs|
    ensures r >= 0 ==> fs[r].alert.Key() == key
    ensures forall m :: r < m < |fs| ==> fs[m].alert.Key() != key
    decreases |fs|
  {
    if fs == [] then -1
    else if fs[|fs| - 1].alert.Key() == key then |fs| - 1
    else LastIndex(fs[..|fs| - 1], key)
  }

  /** The time of the previous firing of `key`, 0 when there is none (the table's default). */
  function PrevTime(fs: seq<Firing>, key: AlertKey): int {
    var i := LastIndex(fs, key);
    if i >= 0 then fs[i].at else 0
  }

  /** The table holds, for every pair, the time of that pair's last logged firing. */
  ghost predicate Tracks(last: map<AlertKey, int>, fs: seq<Firing>) {
    forall key :: (key in last <==> LastIndex(fs, key) >= 0) && LastFired(last, key) == PrevTime(fs, key)
  }

  /** Every logged firing came at least `cooldown` after the previous firing of its pair. */
  ghost predicate Spaced(fs: seq<Firing>, cooldown: int) {
    forall j :: 0 <= j < |fs| ==> fs[j].at - PrevTime(fs[..j], fs[j].alert.Key()) >= cooldown
  }

  ghost predicate Inv(last: map<AlertKey, int>, fs: seq<Firing>, cooldown: int) {
    Tracks(last, fs) && Spaced(fs, cooldown)
  }

  lemma FirePreservesInv(c: Cycle, env: Env, a: Alert)
    requires Inv(c.last, c.fired, env.cooldown)
    requires ShouldAlert(c.last, env.cooldown, a.Key(), env.now)
    ensures Inv(Fire(c, env, a).last, Fire(c, env, a).fired, env.cooldown)
  {
    var c' := Fire(c, env, a);
    var n := |c.fired|;
    assert c'.fired[..n] == c.fired;
    forall key
      ensures (key in c'.last <==> LastIndex(c'.fired, key) >= 0) && LastFired(c'.last, key) == PrevTime(c'.fired, key)
    {
      if key != a.Key() {
        assert LastIndex(c'.fired, key) == LastIndex(c.fired, key);
      }
    }
    forall j | 0 <= j < |c'.fired|
      ensures c'.fired[j].at - PrevTime(c'.fired[..j], c'.fired[j].alert.Key()) >= env.cooldown
    {
      if j < n {
        assert c'.fired[..j] == c.fired[..j];
        assert c'.fired[j] == c.fired[j];
      } else {
        assert c'.fired[..j] == c.fired;
      }
    }
  }

  lemma GuardPreservesInv(c: Cycle, env: Env, labId: LabId, thr: Thresholds, s: Sensor, kind: Kind)
    requires Inv(c.last, c.fired, env.cooldown)
    ensures var c' := Guard(c, env, labId, thr, s, kind); Inv(c'.last, c'.fired, env.cooldown)
  {
    var rd := ReadingOf(s);
    if Triggered(kind, thr, rd) && ShouldAlert(c.last, env.cooldown, (labId, kind), env.now) {
      FirePreservesInv(c, env, AlertOf(labId, thr, s, kind));
    }
  }

  lemma SensorStepPreservesInv(c: Cycle, env: Env, labId: LabId, thr: Thresholds, s: Sensor)
    requires Inv(c.last, c.fired, env.cooldown)
    ensures var c' := SensorStep(c, env, labId, thr, s); Inv(c'.last, c'.fired, env.cooldown)
  {
    var c1 := Guard(c, env, labId, thr, s, THigh);
    var c2 := Guard(c1, env, labId, thr, s, TLow);
    var c3 := Guard(c2, env, labId, thr, s, HHigh);
    GuardPreservesInv(c, env, labId, thr, s, THigh);
    GuardPreservesInv(c1, env, labId, thr, s, TLow);
    GuardPreservesInv(c2, env, labId, thr, s, HHigh);
    GuardPreservesInv(c3, env, labId, thr, s, HLow);
  }

  lemma {:induction false} SensorsPassPreservesInv(c: Cycle, env: Env, labId: LabId, thr: Thresholds, ss: seq<Sensor>)
    requires Inv(c.last, c.fired, env.cooldown)
    ensures var c' := SensorsPass(c, env, labId, thr, ss); Inv(c'.last, c'.fired, env.cooldown)
    decreases |ss|
  {
    if ss != [] {
      SensorsPassPreservesInv(c, env, labId, thr, ss[..|ss| - 1]);
      SensorStepPreservesInv(SensorsPass(c, env, labId, thr, ss[..|ss| - 1]), env, labId, thr, ss[|ss| - 1]);
    }
  }

  /** A pass keeps the table in step with the log and every firing spaced from the previous one. */
  lemma {:induction false} LabsPassPreservesInv(c: Cycle, env: Env, labs: seq<Lab>)
    requires Inv(c.last, c.fired, env.cooldown)
    ensures var c' := LabsPass(c, env, labs); Inv(c'.last, c'.fired, env.cooldown)
    decreases |labs|
  {
    if labs != [] {
      var l := labs[|labs| - 1];
      LabsPassPreservesInv(c, env, labs[..|labs| - 1]);
      SensorsPassPreservesInv(LabsPass(c, env, labs[..|labs| - 1]), env, l.labId, l.thresholds, l.sensors);
    }
  }

  /** With a non-negative cooldown, ANY two logged firings of the same pair are at least the cooldown apart. */
  lemma {:induction false} AllPairsSpaced(fs: seq<Firing>, cooldown: int, i: nat, j: nat)
    requires Spaced(fs, cooldown) && cooldown >= 0
    requires i < j < |fs| && fs[i].alert.Key() == fs[j].alert.Key()
    ensures fs[j].at - fs[i].at >= cooldown
    decreases j
  {
    var key := fs[j].alert.Key();
    var m := LastIndex(fs[..j], key);
    assert fs[..j][i] == fs[i];
    assert i <= m;
    assert fs[..j][m] == fs[m];
    assert fs[j].at - fs[m].at >= cooldown;
    if i < m {
      AllPairsSpaced(fs, cooldown, i, m);
    }
  }

  /**
   * The safety invariant over the whole log: with a non-negative cooldown, no two recorded
   * firings of the same (lab, kind) are closer together than the cooldown.
   */
  lemma InvSpacing(last: map<AlertKey, int>, fs: seq<Firing>, cooldown: int)
    requires Inv(last, fs, cooldown) && cooldown >= 0
    ensures forall i, j :: 0 <= i < j < |fs| && fs[i].alert.Key() == fs[j].alert.Key() ==> fs[j].at - fs[i].at >= cooldown
  {
    forall i, j | 0 <= i < j < |fs| && fs[i].alert.Key() == fs[j].alert.Key()
      ensures fs[j].at - fs[i].at >= cooldown
    {
      AllPairsSpaced(fs, cooldown, i, j);
    }
  }

  /** With a positive cooldown, a pass at a fixed `now` fires each (lab, kind) at most once. */
  lemma PassFiresEachPairOnce(c: Cycle, env: Env, labs: seq<Lab>)
    requires Inv(c.last, c.fired, env.cooldown) && env.cooldown > 0
    ensures var c' := LabsPass(c, env, labs);
      forall i, j :: |c.fired| <= i < j < |c'.fired| ==> c'.fired[i].alert.Key() != c'.fired[j].alert.Key()
  {
    var c' := LabsPass(c, env, labs);
    LabsPassAdvances(c, env, labs);
    LabsPassPreservesInv(c, env, labs);
    forall i, j | |c.fired| <= i < j < |c'.fired|
      ensures c'.fired[i].alert.Key() != c'.fired[j].alert.Key()
    {
      if c'.fired[i].alert.Key() == c'.fired[j].alert.Key() {
        AllPairsSpaced(c'.fired, env.cooldown, i, j);
      }
    }
  }

  // ---------------------------------------------------------------------------
  // Re-running a pass on the same snapshot at the same time
  // ---------------------------------------------------------------------------

  /** Within a pass (positive cooldown) a suppressed pair stays suppressed. */
  lemma AdvancesKeepsSuppressed(c: Cycle, c': Cycle, env: Env, key: AlertKey)
    requires Advances(c, c', env) && env.cooldown > 0
    requires !ShouldAlert(c.last, env.cooldown, key, env.now)
    ensures !ShouldAlert(c'.last, env.cooldown, key, env.now)
  {
    if NewlyFired(c, c', key) {
      assert Lookup(c'.last, key) == Some(env.now);
    } else {
      assert Lookup(c'.last, key) == Lookup(c.last, key);
    }
  }

  /** Every pair that a sensor of `ss` trips is suppressed under `last`. */
  ghost predicate SettledLab(last: map<AlertKey, int>, env: Env, labId: LabId, thr: Thresholds, ss: seq<Sensor>) {
    forall j, kind :: 0 <= j < |ss| && Triggered(kind, thr, ReadingOf(ss[j])) ==> !ShouldAlert(last, env.cooldown, (labId, kind), env.now)
  }

  ghost predicate SettledLabs(last: map<AlertKey, int>, env: Env, labs: seq<Lab>) {
    forall i :: 0 <= i < |labs| ==> SettledLab(last, env, labs[i].labId, labs[i].thresholds, labs[i].sensors)
  }

  lemma SettledLabAdvances(c: Cycle, c': Cycle, env: Env, labId: LabId, thr: Thresholds, ss: seq<Sensor>)
    requires Advances(c, c', env) && env.cooldown > 0
    requires SettledLab(c.last, env, labId, thr, ss)
    ensures SettledLab(c'.last, env, labId, thr, ss)
  {
    forall j, kind | 0 <= j < |ss| && Triggered(kind, thr, ReadingOf(ss[j]))
      ensures !ShouldAlert(c'.last, env.cooldown, (labId, kind), env.now)
    {
      AdvancesKeepsSuppressed(c, c', env, (labId, kind));
    }
  }

  /** A guard whose comparison trips leaves its pair suppressed (positive cooldown). */
  lemma GuardSettles(c: Cycle, env: Env, labId: LabId, thr: Thresholds, s: Sensor, kind: Kind)
    requires env.cooldown > 0 && Triggered(kind, thr, ReadingOf(s))
    ensures !ShouldAlert(Guard(c, env, labId, thr, s, kind).last, env.cooldown, (labId, kind), env.now)
  {
  }

  /** A guard never lifts a suppression (positive cooldown). */
  lemma GuardKeepsSuppressed(c: Cycle, env: Env, labId: LabId, thr: Thresholds, s: Sensor, kind: Kind, key: AlertKey)
    requires env.cooldown > 0 && !ShouldAlert(c.last, env.cooldown, key, env.now)
    ensures !ShouldAlert(Guard(c, env, labId, thr, s, kind).last, env.cooldown, key, env.now)
  {
  }

  lemma SensorStepSettles(c: Cycle, env: Env, labId: LabId, thr: Thresholds, s: Sensor)
    requires env.cooldown > 0
    ensures SettledLab(SensorStep(c, env, labId, thr, s).last, env, labId, thr, [s])
  {
    var c1 := Guard(c, env, labId, thr, s, THigh);
    var c2 := Guard(c1, env, labId, thr, s, TLow);
    var c3 := Guard(c2, env, labId, thr, s, HHigh);
    var c4 := Guard(c3, env, labId, thr, s, HLow);
    var rd := ReadingOf(s);
    if Triggered(THigh, thr, rd) {
      GuardSettles(c, env, labId, thr, s, THigh);
      GuardKeepsSuppressed(c1, env, labId, thr, s, TLow, (labId, THigh));
      GuardKeepsSuppressed(c2, env, labId, thr, s, HHigh, (labId, THigh));
      GuardKeepsSuppressed(c3, env, labId, thr, s, HLow, (labId, THigh));
    }
    if Triggered(TLow, thr, rd) {
      GuardSettles(c1, env, labId, thr, s, TLow);
      GuardKeepsSuppressed(c2, env, labId, thr, s, HHigh, (labId, TLow));
      GuardKeepsSuppressed(c3, env, labId, thr, s, HLow, (labId, TLow));
    }
    if Triggered(HHigh, thr, rd) {
      GuardSettles(c2, env, labId, thr, s, HHigh);
      GuardKeepsSuppressed(c3, env, labId, thr, s, HLow, (labId, HHigh));
    }
    if Triggered(HLow, thr, rd) {
      GuardSettles(c3, env, labId, thr, s, HLow);
    }
    forall j, kind | 0 <= j < 1 && Triggered(kind, thr, ReadingOf([s][j]))
      ensures !ShouldAlert(c4.last, env.cooldown, (labId, kind), env.now)
    {
      assert [s][j] == s;
    }
  }

  /** After the sensors of a lab are evaluated, every pair one of them trips is suppressed. */
  lemma {:induction false} SensorsPassSettles(c: Cycle, env: Env, labId: LabId, thr: Thresholds, ss: seq<Sensor>)
    requires env.cooldown > 0
    ensures SettledLab(SensorsPass(c, env, labId, thr, ss).last, env, labId, thr, ss)
    decreases |ss|
  {
    if ss != [] {
      var n := |ss| - 1;
      var mid := SensorsPass(c, env, labId, thr, ss[..n]);
      var c' := SensorsPass(c, env, labId, thr, ss);
      SensorsPassSettles(c, env, labId, thr, ss[..n]);
      SensorStepAdvances(mid, env, labId, thr, ss[n]);
      SettledLabAdvances(mid, c', env, labId, thr, ss[..n]);
      SensorStepSettles(mid, env, labId, thr, ss[n]);
      forall j, kind | 0 <= j < |ss| && Triggered(kind, thr, ReadingOf(ss[j]))
        ensures !ShouldAlert(c'.last, env.cooldown, (labId, kind), env.now)
      {
        if j < n {
          assert ss[..n][j] == ss[j];
        } else {
          assert [ss[n]][0] == ss[j];
        }
      }
    }
  }

  /** After a pass (positive cooldown), every pair any sensor of the snapshot trips is suppressed. */
  lemma {:induction false} LabsPassSettles(c: Cycle, env: Env, labs: seq<Lab>)
    requires env.cooldown > 0
    ensures SettledLabs(LabsPass(c, env, labs).last, env, labs)
    decreases |labs|
  {
    if labs != [] {
      var n := |labs| - 1;
      var l := labs[n];
      var mid := LabsPass(c, env, labs[..n]);
      var c' := LabsPass(c, env, labs);
      LabsPassSettles(c, env, labs[..n]);
      SensorsPassAdvances(mid, env, l.labId, l.thresholds, l.sensors);
      SensorsPassSettles(mid, env, l.labId, l.thresholds, l.sensors);
      forall i | 0 <= i < |labs|
        ensures SettledLab(c'.last, env, labs[i].labId, labs[i].thresholds, labs[i].sensors)
      {
        if i < n {
          assert labs[..n][i] == labs[i];
          SettledLabAdvances(mid, c', env, labs[i].labId, labs[i].thresholds, labs[i].sensors);
        }
      }
    }
  }

  /** When every tripped pair is already suppressed, evaluating the sensors changes nothing. */
  lemma {:induction false} SensorsPassQuiet(c: Cycle, env: Env, labId: LabId, thr: Thresholds, ss: seq<Sensor>)
    requires SettledLab(c.last, env, labId, thr, ss)
    ensures SensorsPass(c, env, labId, thr, ss) == c
    decreases |ss|
  {
    if ss != [] {
      var n := |ss| - 1;
      forall j, kind | 0 <= j < n && Triggered(kind, thr, ReadingOf(ss[..n][j]))
        ensures !ShouldAlert(c.last, env.cooldown, (labId, kind), env.now)
      {
        assert ss[..n][j] == ss[j];
      }
      SensorsPassQuiet(c, env, labId, thr, ss[..n]);
      var s := ss[n];
      assert forall kind :: Triggered(kind, thr, ReadingOf(s)) ==> !ShouldAlert(c.last, env.cooldown, (labId, kind), env.now);
    }
  }

  lemma {:induction false} LabsPassQuiet(c: Cycle, env: Env, labs: seq<Lab>)
    requires SettledLabs(c.last, env, labs)
    ensures LabsPass(c, env, labs) == c
    decreases |labs|
  {
    if labs != [] {
      var n := |labs| - 1;
      forall i | 0 <= i < n
        ensures SettledLab(c.last, env, labs[..n][i].labId, labs[..n][i].thresholds, labs[..n][i].sensors)
      {
        assert labs[..n][i] == labs[i];
      }
      LabsPassQuiet(c, env, labs[..n]);
      SensorsPassQuiet(c, env, labs[n].labId, labs[n].thresholds, labs[n].sensors);
    }
  }

  /**
   * Re-evaluating the same snapshot at the same time right after a pass (positive cooldown)
   * fires nothing, sends nothing and leaves the table as it is.
   */
  lemma RerunIsQuiet(c: Cycle, env: Env, labs: seq<Lab>)
    requires env.cooldown > 0
    ensures LabsPass(LabsPass(c, env, labs), env, labs) == LabsPass(c, env, labs)
  {
    LabsPassSettles(c, env, labs);
    LabsPassQuiet(LabsPass(c, env, labs), env, labs);
  }

  // ---------------------------------------------------------------------------
  // Worked scenarios
  // ---------------------------------------------------------------------------

  /**
   * Lab "L1" with t_high = 30 and a reading of 35, cooldown 300: the first pass at T0 fires
   * and records T0, a pass at T0 + 10 is suppressed, a pass at T0 + 301 fires again.
   * (The table starts empty, so the first firing needs T0 >= 300: "never fired" is time 0.)
   */
  lemma ScenarioCooldown(chat: ChatId, t0: int)
    requires t0 >= 300
    ensures var labs := [Lab("L1", Thresholds(None, Some(30), None, None), [Sensor("s1", Some(Reading(Some(35), None)))])];
      var c1 := LabsPass(Cycle(map[], [], []), Env([chat], 300, t0), labs);
      var c2 := LabsPass(c1, Env([chat], 300, t0 + 10), labs);
      var c3 := LabsPass(c2, Env([chat], 300, t0 + 301), labs);
      && c1.last == map[("L1", THigh) := t0]
      && c1.sent == [Notification(chat, Alert("L1", THigh, "s1", 35, Some(30)))]
      && c2 == c1
      && c3.last == map[("L1", THigh) := t0 + 301]
      && |c3.sent| == 2
  {
    var s := Sensor("s1", Some(Reading(Some(35), None)));
    var thr := Thresholds(None, Some(30), None, None);
    var labs := [Lab("L1", thr, [s])];
    assert labs[..0] == [];
    assert labs[0].sensors[..0] == [];
    assert Fanout([chat], Alert("L1", THigh, "s1", 35, Some(30))) == [Notification(chat, Alert("L1", THigh, "s1", 35, Some(30)))];
  }

  /**
   * Lab "L2" with no thresholds at all: readings t = 1000 and h = 1000 lie past the
   * defaults 999, so both high alerts fire (a missing bound is a bound of 999, not none).
   */
  lemma ScenarioNoThresholds(chat: ChatId, now: int, cooldown: int)
    requires now >= cooldown
    ensures var labs := [Lab("L2", Thresholds(None, None, None, None), [Sensor("s", Some(Reading(Some(1000), Some(1000))))])];
      LabsPass(Cycle(map[], [], []), Env([chat], cooldown, now), labs).fired
        == [Firing(Alert("L2", THigh, "s", 1000, None), now), Firing(Alert("L2", HHigh, "s", 1000, None), now)]
  {
    var labs := [Lab("L2", Thresholds(None, None, None, None), [Sensor("s", Some(Reading(Some(1000), Some(1000))))])];
    assert labs[..0] == [];
    assert labs[0].sensors[..0] == [];
  }

  /**
   * Two sensors of one lab over t_high in the same pass (positive cooldown): only the first
   * fires, because the time is recorded right after the first firing.
   */
  lemma SecondSensorSuppressed(chat: ChatId, now: int, cooldown: int)
    requires cooldown > 0 && now >= cooldown
    ensures var thr := Thresholds(None, Some(30), None, None);
      var ss := [Sensor("a", Some(Reading(Some(35), None))), Sensor("b", Some(Reading(Some(40), None)))];
      LabsPass(Cycle(map[], [], []), Env([chat], cooldown, now), [Lab("L1", thr, ss)]).fired
        == [Firing(Alert("L1", THigh, "a", 35, Some(30)), now)]
  {
    var thr := Thresholds(None, Some(30), None, None);
    var ss := [Sensor("a", Some(Reading(Some(35), None))), Sensor("b", Some(Reading(Some(40), None)))];
    var env := Env([chat], cooldown, now);
    var c0 := Cycle(map[], [], []);
    var labs := [Lab("L1", thr, ss)];
    assert labs[..0] == [];
    assert [ss[0]][..0] == [];
    assert ss[..|ss| - 1] == [ss[0]];
    var a := Alert("L1", THigh, "a", 35, Some(30));
    var c1 := SensorsPass(c0, env, "L1", thr, [ss[0]]);
    assert SensorsPass(c0, env, "L1", thr, [ss[0]][..0]) == c0;
    assert c1 == SensorStep(c0, env, "L1", thr, ss[0]);
    assert Guard(c0, env, "L1", thr, ss[0], THigh) == Fire(c0, env, a);
    assert c1 == Fire(c0, env, a);
    assert c1.last == map[("L1", THigh) := now];
    assert SensorStep(c1, env, "L1", thr, ss[1]) == c1;
  }
}
