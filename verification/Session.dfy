/** One emulated device's session: the only place that allocates order keys. */
module Session {
  import opened Telemetry

  const COUNTERS_EVERY_N_TICKS := 5
  const OPERATIONS_PER_TICK_MAX := 50
  const OVERHEAT_TEMPERATURE_C := 85.0

  // ---------- The readings ----------

  /** What a device's readings are pulled back to; a faulty one runs hot. */
  datatype Profile = Profile(faulty: bool, temperatureC: real, cpuPercent: real, ramPercent: real)

  ghost predicate IsProfile(p: Profile) {
    && (if p.faulty then 82.0 <= p.temperatureC <= 88.0 else 32.0 <= p.temperatureC <= 48.0)
    && 5.0 <= p.cpuPercent <= 40.0 && 20.0 <= p.ramPercent <= 70.0
  }

  function Clamped(value: real, min: real, max: real): real {
    if value < min then min else if value > max then max else value
  }

  /** To two decimals, a half rounded up. */
  function Rounded(value: real): real {
    (value * 100.0 + 0.5).Floor as real / 100.0
  }

  /** One reading's next value: a tenth of the way back to its baseline, and a drawn step. */
  function NextReading(current: real, baseline: real, noise: real, min: real, max: real): real {
    Rounded(Clamped(current + 0.1 * (baseline - current) + noise, min, max))
  }

  lemma RoundedIsNear(value: real, min: int, max: int)
    ensures value - 0.005 < Rounded(value) <= value + 0.005
    ensures min as real <= value <= max as real ==> min as real <= Rounded(value) <= max as real
  {
    var floor := (value * 100.0 + 0.5).Floor;
    if min as real <= value <= max as real {
      assert min * 100 <= floor <= max * 100;
    }
  }

  function Distance(a: real, b: real): real {
    if a < b then b - a else a - b
  }

  /** The walk cannot leave its baseline: ten steps away from it the pull is as strong as any step. */
  lemma PullHolds(current: real, baseline: real, noise: real, step: real, min: int, max: int)
    requires min as real <= baseline <= max as real && Distance(noise, 0.0) <= step
    requires Distance(current, baseline) <= 10.0 * (step + 0.005)
    ensures var next := NextReading(current, baseline, noise, min as real, max as real);
      min as real <= next <= max as real && Distance(next, baseline) <= 10.0 * (step + 0.005)
  {
    var moved := current + 0.1 * (baseline - current) + noise;
    RoundedIsNear(Clamped(moved, min as real, max as real), min, max);
    assert Distance(moved, baseline) <= 0.9 * Distance(current, baseline) + step;
    assert Distance(Clamped(moved, min as real, max as real), baseline) <= Distance(moved, baseline);
  }

  /** Where a walk that began at its baseline can be. */
  ghost predicate NearBaseline(walk: Payload, p: Profile) {
    && walk.MetricsPayload?
    && 15.0 <= walk.temperatureC <= 95.0 && 0.0 <= walk.cpuPercent <= 100.0 && 0.0 <= walk.ramPercent <= 100.0
    && Distance(walk.temperatureC, p.temperatureC) <= 15.05
    && Distance(walk.cpuPercent, p.cpuPercent) <= 80.05
    && Distance(walk.ramPercent, p.ramPercent) <= 40.05
  }

  /** A device that is not faulty never overheats, however its readings are drawn. */
  lemma HealthyStaysCool(walk: Payload, p: Profile)
    requires IsProfile(p) && !p.faulty && NearBaseline(walk, p)
    ensures walk.temperatureC < 70.0
  {
  }

  // ---------- The state derived from them ----------

  /** Degraded above one pair of thresholds, and until below a lower pair. */
  function DeriveState(cpuPercent: real, temperatureC: real, previous: ReportedState): (s: ReportedState) {
    if cpuPercent > 90.0 || temperatureC > 75.0 then Degraded
    else if previous == Degraded && (cpuPercent > 85.0 || temperatureC > 70.0) then Degraded
    else Online
  }

  /** What a session reports after these readings. */
  ghost function StateAfter(readings: seq<Payload>): ReportedState
    requires forall r <- readings :: r.MetricsPayload?
  {
    if readings == [] then Online
    else
      var last := readings[|readings| - 1];
      DeriveState(last.cpuPercent, last.temperatureC, StateAfter(readings[..|readings| - 1]))
  }

  /** The reading at `i` was past a degraded threshold, and none since was back below both recovery thresholds. */
  ghost predicate DegradedSince(readings: seq<Payload>, i: nat)
    requires forall r <- readings :: r.MetricsPayload?
  {
    && i < |readings| && (readings[i].cpuPercent > 90.0 || readings[i].temperatureC > 75.0)
    && forall j :: i < j < |readings| ==> readings[j].cpuPercent > 85.0 || readings[j].temperatureC > 70.0
  }

  lemma DegradedLonger(readings: seq<Payload>, i: nat)
    requires readings != [] && (forall r <- readings :: r.MetricsPayload?) && i < |readings|
    ensures var n := |readings| - 1;
      && var last := readings[n];
      && (i == n ==> (DegradedSince(readings, i) <==> last.cpuPercent > 90.0 || last.temperatureC > 75.0))
      && (i < n ==> (DegradedSince(readings, i) <==>
            DegradedSince(readings[..n], i) && (last.cpuPercent > 85.0 || last.temperatureC > 70.0)))
  {
    assert forall j :: 0 <= j < |readings| - 1 ==> readings[..|readings| - 1][j] == readings[j];
  }

  /** Hysteresis: after any readings the state is degraded exactly when it became so and has not recovered since. */
  lemma {:induction false} DegradedUntilRecovered(readings: seq<Payload>)
    requires forall r <- readings :: r.MetricsPayload?
    ensures StateAfter(readings) == if exists i: nat :: DegradedSince(readings, i) then Degraded else Online
    decreases |readings|
  {
    if readings != [] {
      var n := |readings| - 1;
      var front := readings[..n];
      DegradedUntilRecovered(front);
      forall i: nat | i <= n {
        DegradedLonger(readings, i);
      }
      if exists i: nat :: DegradedSince(readings, i) {
        var i: nat :| DegradedSince(readings, i);
        assert i < n ==> DegradedSince(front, i);
      }
      if exists i: nat :: DegradedSince(front, i) {
        var i: nat :| DegradedSince(front, i);
        assert DegradedSince(readings, i) <==> readings[n].cpuPercent > 85.0 || readings[n].temperatureC > 70.0;
      }
      assert DegradedSince(readings, n) <==> readings[n].cpuPercent > 90.0 || readings[n].temperatureC > 75.0;
    }
  }

  // ---------- What the generated keys promise ----------

  /** The next message of a session, or the first of a later one. */
  predicate Follows(earlier: OrderKey, later: OrderKey) {
    || (later.sessionId == earlier.sessionId && later.seqNo == earlier.seqNo + 1)
    || (later.sessionId > earlier.sessionId && later.seqNo == 1)
  }

  /** The messages of one device in the order it generated them. */
  ghost predicate Generated(deviceId: string, messages: seq<Message>) {
    && (forall i :: 0 <= i < |messages| ==> messages[i].deviceId == deviceId)
    && (messages != [] ==> messages[0].key.seqNo == 1)
    && (forall i :: 0 < i < |messages| ==> Follows(messages[i - 1].key, messages[i].key))
  }

  lemma {:induction false} KeysIncrease(deviceId: string, messages: seq<Message>, i: nat, j: nat)
    requires Generated(deviceId, messages) && i < j < |messages|
    ensures IsNewer(messages[j].key, messages[i].key)
    decreases j
  {
    if i + 1 < j {
      KeysIncrease(deviceId, messages, i, j - 1);
    }
    assert Follows(messages[j - 1].key, messages[j].key);
  }

  /** Sequence numbers count every message of a session from 1: no gap, and the count of those before it. */
  lemma {:induction false} NoGapWithinSession(deviceId: string, messages: seq<Message>, i: nat)
    requires Generated(deviceId, messages) && i < |messages|
    ensures 1 <= messages[i].key.seqNo <= i + 1
    ensures var first := i + 1 - messages[i].key.seqNo;
      && (forall k :: first <= k <= i ==> messages[k].key == OrderKey(messages[i].key.sessionId, k - first + 1))
      && (first > 0 ==> messages[first - 1].key.sessionId < messages[i].key.sessionId)
    decreases i
  {
    if i > 0 {
      NoGapWithinSession(deviceId, messages, i - 1);
      assert Follows(messages[i - 1].key, messages[i].key);
    }
  }

  /** One key, one message: what the writes of the processing side rest on. */
  lemma GeneratedKeysAreUnique(deviceId: string, messages: seq<Message>)
    requires Generated(deviceId, messages)
    ensures UniqueIdentities(set m <- messages)
  {
    forall m, n | m in messages && n in messages && m.Id() == n.Id() ensures m == n {
      var i :| 0 <= i < |messages| && messages[i] == m;
      var j :| 0 <= j < |messages| && messages[j] == n;
      if i < j {
        KeysIncrease(deviceId, messages, i, j);
      } else if j < i {
        KeysIncrease(deviceId, messages, j, i);
      }
    }
  }

  /** Devices that generate under different ids never share an identity. */
  lemma FleetKeysAreUnique(fleet: map<string, seq<Message>>)
    requires forall d <- fleet :: Generated(d, fleet[d])
    ensures UniqueIdentities(set d, m | d in fleet && m in fleet[d] :: m)
  {
    var all := set d, m | d in fleet && m in fleet[d] :: m;
    forall m, n | m in all && n in all && m.Id() == n.Id() ensures m == n {
      var d :| d in fleet && m in fleet[d];
      var e :| e in fleet && n in fleet[e];
      assert d == m.deviceId == n.deviceId == e;
      GeneratedKeysAreUnique(d, fleet[d]);
      assert m in (set x <- fleet[d]) && n in (set x <- fleet[d]);
    }
  }

  /** Consecutive sequence numbers of one session. */
  ghost predicate Numbered(messages: seq<Message>, sessionId: int, from: int) {
    forall i :: 0 <= i < |messages| ==> messages[i].key == OrderKey(sessionId, from + i)
  }

  // ---------- What a tick sends ----------

  ghost function PayloadsOf(messages: seq<Message>): seq<Payload> {
    seq(|messages|, i requires 0 <= i < |messages| => messages[i].payload)
  }

  /** The diagnostic of a tick: an error on the way into overheating, a warning on the way into degraded, or perhaps an info. */
  ghost predicate IsDiagnosticPart(part: seq<Payload>, overheats: bool, degrades: bool) {
    if overheats then
      part == [DiagnosticPayload(Error, "E_OVERHEAT", "temperature above the safe threshold")]
    else if degrades then
      part == [DiagnosticPayload(Warning, "E_DEGRADED", "device entered a degraded state")]
    else
      || part == []
      || part == [DiagnosticPayload(Info, "E_CONFIG_RELOAD", "configuration reloaded")]
      || part == [DiagnosticPayload(Info, "E_NET_RETRY", "network request retried")]
      || part == [DiagnosticPayload(Info, "E_CACHE_EVICT", "cache entries evicted")]
  }

  /** Every fifth tick the total, at most fifty more than it was, and the uptime; no other tick touches them. */
  ghost predicate IsCountersPart(part: seq<Payload>, tickIndex: nat, before: nat, total: nat, startedAt: int, clock: seq<int>) {
    if tickIndex % 5 == 0 then
      && before <= total <= before + 50
      && exists now <- clock :: part == [CountersPayload(total, if now > startedAt then now - startedAt else 0)]
    else
      part == [] && total == before
  }

  /** The messages of a tick by their payloads. */
  ghost predicate IsTick(payloads: seq<Payload>, walk: Payload, tickIndex: nat, before: nat, total: nat, startedAt: int,
                         clock: seq<int>, oldState: ReportedState, state: ReportedState, overheats: bool) {
    var c := if tickIndex % 5 == 0 then 1 else 0;
    var s := if state != oldState then 1 else 0;
    && |payloads| >= 1 + c + s && payloads[0] == walk
    && IsCountersPart(payloads[1..1 + c], tickIndex, before, total, startedAt, clock)
    && payloads[1 + c..1 + c + s] == (if state != oldState then [StatusPayload(state)] else [])
    && IsDiagnosticPart(payloads[1 + c + s..], overheats, state != oldState && state == Degraded)
  }

  lemma TickOrder(measured: seq<Message>, status: seq<Message>, diagnostic: seq<Message>, sessionId: int, from: int)
    requires Numbered(measured, sessionId, from) && Numbered(status, sessionId, from + |measured|)
    requires Numbered(diagnostic, sessionId, from + |measured| + |status|)
    ensures Numbered(measured + status + diagnostic, sessionId, from)
  {
  }

  lemma TickIs(measured: seq<Message>, status: seq<Message>, diagnostic: seq<Message>, walk: Payload, tickIndex: nat, before: nat,
               total: nat, startedAt: int, r0: seq<int>, r1: seq<int>, r2: seq<int>, oldState: ReportedState, state: ReportedState, overheats: bool)
    requires measured != [] && measured[0].payload == walk && r0 <= r1 <= r2
    requires IsCountersPart(PayloadsOf(measured[1..]), tickIndex, before, total, startedAt, r1[|r0|..])
    requires PayloadsOf(status) == if state != oldState then [StatusPayload(state)] else []
    requires IsDiagnosticPart(PayloadsOf(diagnostic), overheats, state != oldState && state == Degraded)
    ensures r0 <= r2 && IsTick(PayloadsOf(measured + status + diagnostic), walk, tickIndex, before, total, startedAt,
                               r2[|r0|..], oldState, state, overheats)
  {
    CountedWithin(PayloadsOf(measured[1..]), tickIndex, before, total, startedAt, r0, r0, r1, r2);
    PayloadParts(measured, status, diagnostic);
    hide IsDiagnosticPart, PayloadsOf;
  }

  lemma PayloadParts(measured: seq<Message>, status: seq<Message>, diagnostic: seq<Message>)
    requires measured != []
    ensures var payloads, n, s := PayloadsOf(measured + status + diagnostic), |measured|, |status|;
      && |payloads| == n + s + |diagnostic| && payloads[0] == measured[0].payload
      && |PayloadsOf(measured[1..])| == n - 1 && payloads[1..n] == PayloadsOf(measured[1..])
      && |PayloadsOf(status)| == s && payloads[n..n + s] == PayloadsOf(status)
      && payloads[n + s..] == PayloadsOf(diagnostic)
  {
  }

  /** What was counted by a stretch of the clock was counted by the whole of it. */
  lemma CountedWithin(part: seq<Payload>, tickIndex: nat, before: nat, total: nat, startedAt: int,
                      r0: seq<int>, r1: seq<int>, r2: seq<int>, r3: seq<int>)
    requires r0 <= r1 <= r2 <= r3 && IsCountersPart(part, tickIndex, before, total, startedAt, r2[|r1|..])
    ensures r0 <= r3 && IsCountersPart(part, tickIndex, before, total, startedAt, r3[|r0|..])
  {
    if tickIndex % 5 == 0 {
      var now :| now in r2[|r1|..] && part == [CountersPayload(total, if now > startedAt then now - startedAt else 0)];
      assert now in r3[|r0|..] by {
        var i :| 0 <= i < |r2[|r1|..]| && r2[|r1|..][i] == now;
        assert r3[|r0|..][|r1| + i - |r0|] == now;
      }
    }
  }

  /** The clock's way since the session began, and never below zero. */
  function UptimeAt(now: int, startedAt: int): int {
    if now > startedAt then now - startedAt else 0
  }

  function InfoText(code: string): string {
    if code == "E_CONFIG_RELOAD" then "configuration reloaded"
    else if code == "E_NET_RETRY" then "network request retried"
    else if code == "E_CACHE_EVICT" then "cache entries evicted"
    else code
  }

  ghost predicate HasError(messages: seq<Message>) {
    exists m <- messages :: m.IsErrorDiagnostic()
  }

  // ---------- The class ----------

  class DeviceSession {
    const deviceId: string
    const profile: Profile
    var sessionId: int
    var nextSeq: int
    var sessionStartedAt: int
    var tickIndex: nat
    var walk: Payload
    var state: ReportedState
    var operationsTotal: nat
    var overheating: bool
    ghost var generated: seq<Message>
    ghost var readings: seq<int>

    /**
     * What was generated so far is in order, and the next key continues it; the walk is where its
     * profile lets it be, and a healthy device has sent no error.
     */
    ghost predicate Valid()
      reads this
    {
      && Generated(deviceId, generated) && nextSeq >= 1
      && (generated == [] ==> nextSeq == 1)
      && (generated != [] ==>
            var last := generated[|generated| - 1].key;
            Follows(last, OrderKey(sessionId, nextSeq)))
      && IsProfile(profile) && NearBaseline(walk, profile)
      && (!profile.faulty ==> !overheating && !HasError(generated))
    }

    constructor (deviceId: string, profile: Profile)
      requires IsProfile(profile)
      ensures Valid() && generated == [] && this.deviceId == deviceId && sessionId == 0
    {
      this.deviceId, this.profile := deviceId, profile;
      sessionId, nextSeq, sessionStartedAt, tickIndex := 0, 1, 0, 0;
      walk := MetricsPayload(profile.temperatureC, profile.cpuPercent, profile.ramPercent);
      state, operationsTotal, overheating := Online, 0, false;
      generated, readings := [], [];
    }

    /** The injected clock: any value at every call, also an earlier one than before. */
    method Now() returns (now: int)
      modifies this`readings
      ensures readings == old(readings) + [now]
    {
      now := *;
      readings := readings + [now];
    }

    /** A step of the walk: every reading moves by its own draw. */
    method StepWalk()
      requires Valid()
      modifies this`walk
      ensures Valid()
    {
      var t := Draw(1.5);
      var c := Draw(8.0);
      var r := Draw(4.0);
      PullHolds(walk.temperatureC, profile.temperatureC, t, 1.5, 15, 95);
      PullHolds(walk.cpuPercent, profile.cpuPercent, c, 8.0, 0, 100);
      PullHolds(walk.ramPercent, profile.ramPercent, r, 4.0, 0, 100);
      walk := MetricsPayload(
        NextReading(walk.temperatureC, profile.temperatureC, t, 15.0, 95.0),
        NextReading(walk.cpuPercent, profile.cpuPercent, c, 0.0, 100.0),
        NextReading(walk.ramPercent, profile.ramPercent, r, 0.0, 100.0));
    }

    /** Any step of at most `size`, either way. */
    method Draw(size: real) returns (noise: real)
      requires size >= 0.0
      ensures Distance(noise, 0.0) <= size
    {
      noise := *;
      if Distance(noise, 0.0) > size {
        noise := 0.0;
      }
    }

    /** A new session: its id is the clock's, or the next one when the clock does not lead. */
    method Start() returns (messages: seq<Message>)
      requires Valid()
      modifies this
      ensures Valid() && generated == old(generated) + messages
      ensures sessionId > old(sessionId)
      ensures |readings| == |old(readings)| + 3 && old(readings) <= readings
      ensures var clock := readings[|old(readings)|..];
        && sessionId == (if clock[0] > old(sessionId) then clock[0] else old(sessionId) + 1)
        && sessionStartedAt == clock[1]
        && messages == [Message(deviceId, OrderKey(sessionId, 1), clock[2], StatusPayload(Online))]
      ensures state == Online && tickIndex == 0 && nextSeq == 2
      ensures walk == old(walk) && operationsTotal == old(operationsTotal) && overheating == old(overheating)
    {
      var now := Now();
      sessionId := if now > sessionId + 1 then now else sessionId + 1;
      sessionStartedAt := Now();
      nextSeq, tickIndex, state := 1, 0, Online;
      var m := Status(Online);
      messages := [m];
    }

    /** A power cycle loses the walk and the counters; the keys go on. */
    method Restart() returns (messages: seq<Message>)
      requires Valid()
      modifies this
      ensures Valid() && generated == old(generated) + messages
      ensures sessionId > old(sessionId)
      ensures |readings| == |old(readings)| + 3 && old(readings) <= readings
      ensures var clock := readings[|old(readings)|..];
        && sessionId == (if clock[0] > old(sessionId) then clock[0] else old(sessionId) + 1)
        && sessionStartedAt == clock[1]
        && messages == [Message(deviceId, OrderKey(sessionId, 1), clock[2], StatusPayload(Online))]
      ensures state == Online && tickIndex == 0 && nextSeq == 2
      ensures walk == MetricsPayload(profile.temperatureC, profile.cpuPercent, profile.ramPercent)
      ensures operationsTotal == 0 && !overheating
    {
      walk := MetricsPayload(profile.temperatureC, profile.cpuPercent, profile.ramPercent);
      operationsTotal, overheating := 0, false;
      messages := Start();
    }

    /**
     * The events due at one tick, in a fixed order, all of the current session: the readings, the
     * counters every fifth time, the state when it changed, and at most one diagnostic.
     */
    method Tick() returns (messages: seq<Message>)
      requires Valid()
      modifies this
      ensures Valid() && generated == old(generated) + messages
      ensures sessionId == old(sessionId) && sessionStartedAt == old(sessionStartedAt) && tickIndex == old(tickIndex) + 1
      ensures Numbered(messages, sessionId, old(nextSeq)) && nextSeq == old(nextSeq) + |messages|
      ensures old(readings) <= readings
      ensures state == DeriveState(walk.cpuPercent, walk.temperatureC, old(state))
      ensures overheating == (walk.temperatureC > 85.0)
      ensures IsTick(PayloadsOf(messages), walk, tickIndex, old(operationsTotal), operationsTotal, sessionStartedAt,
                     readings[|old(readings)|..], old(state), state, overheating && !old(overheating))
    {
      tickIndex := tickIndex + 1;
      StepWalk();
      messages := EventsDue();
    }

    method EventsDue() returns (messages: seq<Message>)
      requires Valid()
      modifies this`operationsTotal, this`state, this`overheating, this`nextSeq, this`generated, this`readings
      ensures Valid() && generated == old(generated) + messages
      ensures Numbered(messages, sessionId, old(nextSeq)) && nextSeq == old(nextSeq) + |messages|
      ensures old(readings) <= readings
      ensures state == DeriveState(walk.cpuPercent, walk.temperatureC, old(state))
      ensures overheating == (walk.temperatureC > 85.0)
      ensures IsTick(PayloadsOf(messages), walk, tickIndex, old(operationsTotal), operationsTotal, sessionStartedAt,
                     readings[|old(readings)|..], old(state), state, overheating && !old(overheating))
    {
      assert walk.MetricsPayload?;
      hide Generated, Numbered, DeriveState, Follows, Valid, HasError, IsDiagnosticPart, IsCountersPart, IsTick, PayloadsOf;
      var measured := Measure();
      ghost var r1 := readings;
      var status, diagnostic := ReportState();
      messages := measured + status + diagnostic;
      assert generated == old(generated) + measured + status + diagnostic == old(generated) + messages;
      TickIs(measured, status, diagnostic, walk, tickIndex, old(operationsTotal), operationsTotal, sessionStartedAt,
             old(readings), r1, readings, old(state), state, overheating && !old(overheating));
      TickOrder(measured, status, diagnostic, sessionId, old(nextSeq));
    }

    /** The readings, and the counters when they are due. */
    method Measure() returns (messages: seq<Message>)
      requires Valid()
      modifies this`operationsTotal, this`nextSeq, this`generated, this`readings
      ensures Valid() && generated == old(generated) + messages && old(readings) <= readings
      ensures Numbered(messages, sessionId, old(nextSeq)) && nextSeq == old(nextSeq) + |messages|
      ensures |messages| >= 1 && messages[0].payload == walk
      ensures IsCountersPart(PayloadsOf(messages[1..]), tickIndex, old(operationsTotal), operationsTotal, sessionStartedAt,
                             readings[|old(readings)|..])
    {
      hide Generated, Follows, Valid, HasError, IsCountersPart, PayloadsOf;
      var metrics := Metrics();
      ghost var r1 := readings;
      var counters := DueCounters();
      messages := [metrics] + counters;
      assert messages[1..] == counters;
      CountedWithin(PayloadsOf(counters), tickIndex, old(operationsTotal), operationsTotal, sessionStartedAt, old(readings), r1, readings, readings);
    }

    /** The state when it changed, and at most one diagnostic. */
    method ReportState() returns (status: seq<Message>, diagnostic: seq<Message>)
      requires Valid()
      modifies this`state, this`overheating, this`nextSeq, this`generated, this`readings
      ensures Valid() && generated == old(generated) + status + diagnostic && old(readings) <= readings
      ensures Numbered(status, sessionId, old(nextSeq)) && Numbered(diagnostic, sessionId, old(nextSeq) + |status|)
      ensures nextSeq == old(nextSeq) + |status| + |diagnostic|
      ensures state == DeriveState(walk.cpuPercent, walk.temperatureC, old(state))
      ensures overheating == (walk.temperatureC > 85.0)
      ensures PayloadsOf(status) == if state != old(state) then [StatusPayload(state)] else []
      ensures IsDiagnosticPart(PayloadsOf(diagnostic), overheating && !old(overheating), state != old(state) && state == Degraded)
    {
      assert walk.MetricsPayload?;
      hide Generated, Numbered, DeriveState, Follows, Valid, HasError, IsDiagnosticPart, PayloadsOf;
      var stateChanged;
      stateChanged, status := ChangeState();
      diagnostic := Diagnostic(stateChanged);
    }

    /** The counters only grow, by what the last five ticks worked. */
    method DueCounters() returns (messages: seq<Message>)
      requires Valid()
      modifies this`operationsTotal, this`nextSeq, this`generated, this`readings
      ensures Valid() && generated == old(generated) + messages
      ensures Numbered(messages, sessionId, old(nextSeq)) && nextSeq == old(nextSeq) + |messages|
      ensures old(readings) <= readings
      ensures IsCountersPart(PayloadsOf(messages), tickIndex, old(operationsTotal), operationsTotal, sessionStartedAt, readings[|old(readings)|..])
    {
      messages := [];
      if tickIndex % COUNTERS_EVERY_N_TICKS == 0 {
        var more: nat :| more <= OPERATIONS_PER_TICK_MAX;
        operationsTotal := operationsTotal + more;
        var m := Counters();
        messages := [m];
        assert readings[|old(readings)| + 1] in readings[|old(readings)|..];
      }
    }

    method ChangeState() returns (changed: bool, messages: seq<Message>)
      requires Valid()
      modifies this`state, this`nextSeq, this`generated, this`readings
      ensures Valid() && generated == old(generated) + messages
      ensures state == DeriveState(walk.cpuPercent, walk.temperatureC, old(state)) && changed == (state != old(state))
      ensures Numbered(messages, sessionId, old(nextSeq)) && nextSeq == old(nextSeq) + |messages|
      ensures old(readings) <= readings
      ensures PayloadsOf(messages) == if changed then [StatusPayload(state)] else []
    {
      messages := [];
      var nextState := DeriveState(walk.cpuPercent, walk.temperatureC, state);
      changed := nextState != state;
      state := nextState;
      if changed {
        var m := Status(nextState);
        messages := [m];
      }
    }

    method Heartbeat() returns (messages: seq<Message>)
      requires Valid()
      modifies this`nextSeq, this`generated, this`readings
      ensures Valid() && generated == old(generated) + messages
      ensures |readings| == |old(readings)| + 1 && old(readings) <= readings
      ensures messages == [Message(deviceId, OrderKey(sessionId, old(nextSeq)), readings[|old(readings)|], StatusPayload(state))]
    {
      var m := Status(state);
      messages := [m];
    }

    /** The only place `offline` is sent. */
    method Farewell() returns (messages: seq<Message>)
      requires Valid()
      modifies this`nextSeq, this`generated, this`readings
      ensures Valid() && generated == old(generated) + messages
      ensures |readings| == |old(readings)| + 1 && old(readings) <= readings
      ensures messages == [Message(deviceId, OrderKey(sessionId, old(nextSeq)), readings[|old(readings)|], StatusPayload(Offline))]
    {
      var m := Status(Offline);
      messages := [m];
    }

    /** An error on the way into overheating only; at most one diagnostic a tick. */
    method Diagnostic(stateChanged: bool) returns (messages: seq<Message>)
      requires Valid()
      modifies this`overheating, this`nextSeq, this`generated, this`readings
      ensures Valid() && generated == old(generated) + messages
      ensures nextSeq == old(nextSeq) + |messages|
      ensures Numbered(messages, sessionId, old(nextSeq))
      ensures old(readings) <= readings
      ensures overheating == (walk.temperatureC > 85.0)
      ensures IsDiagnosticPart(PayloadsOf(messages), overheating && !old(overheating), stateChanged && state == Degraded)
    {
      hide Generated, Follows;
      if !profile.faulty {
        HealthyStaysCool(walk, profile);
      }
      hide NearBaseline, IsProfile;
      var wasOverheating := overheating;
      overheating := walk.temperatureC > OVERHEAT_TEMPERATURE_C;
      if overheating && !wasOverheating {
        var m := DiagnosticMessage(Error, "E_OVERHEAT", "temperature above the safe threshold");
        messages := [m];
      } else if stateChanged && state == Degraded {
        var m := DiagnosticMessage(Warning, "E_DEGRADED", "device entered a degraded state");
        messages := [m];
      } else {
        var fires: bool := *;
        messages := [];
        if fires {
          var code :| code in ["E_CONFIG_RELOAD", "E_NET_RETRY", "E_CACHE_EVICT"];
          var m := DiagnosticMessage(Info, code, InfoText(code));
          messages := [m];
        }
      }
    }

    /** The envelope every message shares; it consumes one sequence number and reads the clock once. */
    method Envelope() returns (key: OrderKey, occurredAt: int)
      modifies this`nextSeq, this`readings
      ensures key == OrderKey(sessionId, old(nextSeq)) && nextSeq == old(nextSeq) + 1
      ensures readings == old(readings) + [occurredAt]
    {
      key := OrderKey(sessionId, nextSeq);
      nextSeq := nextSeq + 1;
      occurredAt := Now();
    }

    method Status(reported: ReportedState) returns (m: Message)
      requires Valid()
      modifies this`nextSeq, this`generated, this`readings
      ensures Valid() && generated == old(generated) + [m] && nextSeq == old(nextSeq) + 1
      ensures |readings| == |old(readings)| + 1 && old(readings) <= readings
      ensures m == Message(deviceId, OrderKey(sessionId, old(nextSeq)), readings[|old(readings)|], StatusPayload(reported))
    {
      var key, occurredAt := Envelope();
      m := Message(deviceId, key, occurredAt, StatusPayload(reported));
      generated := generated + [m];
    }

    method Metrics() returns (m: Message)
      requires Valid()
      modifies this`nextSeq, this`generated, this`readings
      ensures Valid() && generated == old(generated) + [m] && nextSeq == old(nextSeq) + 1
      ensures |readings| == |old(readings)| + 1 && old(readings) <= readings
      ensures m == Message(deviceId, OrderKey(sessionId, old(nextSeq)), readings[|old(readings)|], walk)
    {
      var key, occurredAt := Envelope();
      m := Message(deviceId, key, occurredAt, walk);
      generated := generated + [m];
    }

    /** The clock is read a second time for the uptime, and one set back past the start counts as none. */
    method Counters() returns (m: Message)
      requires Valid()
      modifies this`nextSeq, this`generated, this`readings
      ensures Valid() && generated == old(generated) + [m] && nextSeq == old(nextSeq) + 1
      ensures |readings| == |old(readings)| + 2 && old(readings) <= readings
      ensures var clock := readings[|old(readings)|..];
        m == Message(deviceId, OrderKey(sessionId, old(nextSeq)), clock[0], CountersPayload(operationsTotal, UptimeAt(clock[1], sessionStartedAt)))
    {
      var key, occurredAt := Envelope();
      var now := Now();
      m := Message(deviceId, key, occurredAt, CountersPayload(operationsTotal, UptimeAt(now, sessionStartedAt)));
      generated := generated + [m];
    }

    method DiagnosticMessage(severity: Severity, code: string, text: string) returns (m: Message)
      requires Valid() && (severity == Error ==> profile.faulty)
      modifies this`nextSeq, this`generated, this`readings
      ensures Valid() && generated == old(generated) + [m] && nextSeq == old(nextSeq) + 1
      ensures |readings| == |old(readings)| + 1 && old(readings) <= readings
      ensures m == Message(deviceId, OrderKey(sessionId, old(nextSeq)), readings[|old(readings)|], DiagnosticPayload(severity, code, text))
    {
      var key, occurredAt := Envelope();
      m := Message(deviceId, key, occurredAt, DiagnosticPayload(severity, code, text));
      generated := generated + [m];
    }
  }
}
