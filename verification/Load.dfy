/** The load generator of the tests: what it sends, and the expectation it computes from the sends alone. */
module Load {
  import opened Telemetry
  import opened Chaos
  import MessageId
  import Strings

  const LOAD_SESSION_ID := 1_700_000_000_000
  const ERROR_EVERY := 10
  const DEVICE_INDEX_PAD := 4

  // ---------- Device ids ----------

  function Padded(index: nat): string {
    var digits := Strings.Decimal(index);
    seq(if |digits| < DEVICE_INDEX_PAD then DEVICE_INDEX_PAD - |digits| else 0, _ => '0') + digits
  }

  function LoadDeviceId(prefix: string, index: nat): string {
    prefix + "-" + Padded(index)
  }

  lemma PaddedValue(index: nat)
    ensures Strings.AllDigits(Padded(index)) && Strings.DecimalValue(Padded(index)) == index
    ensures |Padded(index)| >= 4 && (|Padded(index)| > 4 ==> Padded(index) == Strings.Decimal(index))
  {
    var digits := Strings.Decimal(index);
    Strings.LeadingZeros(if |digits| < DEVICE_INDEX_PAD then DEVICE_INDEX_PAD - |digits| else 0, digits);
    Strings.DecimalRoundTrip(index);
  }

  /** Two devices of a load never share an id, also past the padding. */
  lemma LoadDeviceIdInjective(prefix: string, i: nat, j: nat)
    requires LoadDeviceId(prefix, i) == LoadDeviceId(prefix, j)
    ensures i == j
  {
    var n := |prefix + "-"|;
    assert LoadDeviceId(prefix, i)[n..] == Padded(i) && LoadDeviceId(prefix, j)[n..] == Padded(j);
    PaddedValue(i);
    PaddedValue(j);
  }

  /** Within a load the identity string names the device and the sequence number, whatever the prefix holds. */
  lemma LoadIdentityInjective(prefix: string, i: nat, m: nat, j: nat, n: nat)
    requires MessageId.MessageIdentity(Identity(LoadDeviceId(prefix, i), OrderKey(LOAD_SESSION_ID, m)))
          == MessageId.MessageIdentity(Identity(LoadDeviceId(prefix, j), OrderKey(LOAD_SESSION_ID, n)))
    ensures i == j && m == n
  {
    var a, b := Identity("-" + Padded(i), OrderKey(LOAD_SESSION_ID, m)), Identity("-" + Padded(j), OrderKey(LOAD_SESSION_ID, n));
    IdentityAfterPrefix(prefix, i, m);
    IdentityAfterPrefix(prefix, j, n);
    MessageId.SplitIdentity(a);
    MessageId.SplitIdentity(b);
    assert ("-" + Padded(i))[1..] == Padded(i) && ("-" + Padded(j))[1..] == Padded(j);
    PaddedValue(i);
    PaddedValue(j);
    MessageId.SignedIsNumber(m);
    MessageId.SignedIsNumber(n);
  }

  /** The prefix, a dash, and the index in four digits, or in as many more as it needs. */
  lemma LoadDeviceIdShape(prefix: string, index: nat)
    ensures var id, n := LoadDeviceId(prefix, index), |prefix|;
      && id[..n] == prefix && |id| > n && id[n] == '-'
      && Strings.AllDigits(id[n + 1..]) && Strings.DecimalValue(id[n + 1..]) == index
      && |id[n + 1..]| >= 4 && (|id[n + 1..]| > 4 ==> id[n + 1] != '0')
  {
    PaddedValue(index);
    Strings.NoLeadingZero(index);
    hide Padded;
    assert LoadDeviceId(prefix, index)[|prefix| + 1..] == Padded(index);
  }

  lemma IdentityAfterPrefix(prefix: string, i: nat, m: nat)
    ensures MessageId.MessageIdentity(Identity(LoadDeviceId(prefix, i), OrderKey(LOAD_SESSION_ID, m)))[|prefix|..]
         == MessageId.MessageIdentity(Identity("-" + Padded(i), OrderKey(LOAD_SESSION_ID, m)))
    ensures ':' !in "-" + Padded(i)
  {
    PaddedValue(i);
    hide Padded, MessageId.MessageIdentity;
    assert LoadDeviceId(prefix, i) == prefix + ("-" + Padded(i));
    PrefixedIdentity(prefix, "-" + Padded(i), OrderKey(LOAD_SESSION_ID, m));
  }

  lemma PrefixedIdentity(prefix: string, rest: string, key: OrderKey)
    ensures MessageId.MessageIdentity(Identity(prefix + rest, key)) == prefix + MessageId.MessageIdentity(Identity(rest, key))
  {
    hide MessageId.Signed;
    var a, b := MessageId.Signed(key.sessionId), MessageId.Signed(key.seqNo);
    assert (prefix + rest) + ":" + a + ":" + b == prefix + (rest + ":" + a + ":" + b);
  }

  // ---------- How many messages each device sends ----------

  function Sum(counts: seq<nat>): nat {
    if counts == [] then 0 else Sum(counts[..|counts| - 1]) + counts[|counts| - 1]
  }

  lemma SumSnoc(counts: seq<nat>, n: nat)
    ensures Sum(counts + [n]) == Sum(counts) + n
  {
    assert (counts + [n])[..|counts|] == counts;
  }

  function Min(a: int, b: int): int {
    if a < b then a else b
  }

  /** What the first `k` of the evenly served devices take together. */
  function Given(k: nat, share: nat, extra: nat): nat {
    if k == 0 then 0 else Given(k - 1, share, extra) + share + (if k - 1 < extra then 1 else 0)
  }

  lemma {:induction false} GivenIs(k: nat, share: nat, extra: nat)
    ensures Given(k, share, extra) == k * share + Min(k, extra)
  {
    if k > 0 {
      GivenIs(k - 1, share, extra);
      assert k * share == (k - 1) * share + share;
    }
  }

  /** The remainder-first split gives everything away, and something to everyone. */
  lemma EverythingGiven(rest: nat, others: nat)
    requires 0 < others <= rest
    ensures Given(others, rest / others, rest % others) == rest && rest / others >= 1
  {
    GivenIs(others, rest / others, rest % others);
  }

  /** A hot device is one of several, and its share is at least half a message. */
  predicate HasHot(devices: int, messages: int, hotShare: real) {
    hotShare > 0.0 && devices > 1 && messages as real * hotShare >= 0.5
  }

  /**
   * The hot device has its share to within half a message, a half rounded up; or as much as leaves
   * one message to every other device, when that is less.
   */
  predicate IsHotCount(hot: nat, devices: int, messages: int, hotShare: real) {
    var share, most := messages as real * hotShare, messages - (devices - 1);
    if share < most as real - 0.5 then share - 0.5 < hot as real <= share + 0.5
    else hot == most
  }

  /** Evenly, remainder first: from `first` on no count is above an earlier one or more than one below it. */
  predicate IsEven(counts: seq<nat>, first: nat) {
    forall i, j :: first <= i <= j < |counts| ==> counts[j] <= counts[i] <= counts[j] + 1
  }

  /** `Math.round` of the hot share, kept low enough that every other device has a message. */
  function HotCount(devices: int, messages: int, hotShare: real): (hot: nat)
    requires 1 <= devices <= messages
    ensures hot > 0 <==> HasHot(devices, messages, hotShare)
    ensures hot > 0 ==> IsHotCount(hot, devices, messages, hotShare)
  {
    if hotShare > 0.0 && devices > 1 then
      assert messages as real * hotShare > 0.0;
      Min((messages as real * hotShare + 0.5).Floor, messages - (devices - 1))
    else 0
  }

  /**
   * The hot device takes its share, the rest is spread evenly, remainder first; sizes that leave a
   * device without a message are refused.
   */
  method Distribute(devices: int, messages: int, hotShare: real) returns (counts: Option<seq<nat>>)
    ensures counts.Some? <==> 1 <= devices <= messages
    ensures counts.Some? ==>
      && |counts.value| == devices && Sum(counts.value) == messages
      && (forall i :: 0 <= i < devices ==> counts.value[i] >= 1)
      && (if HasHot(devices, messages, hotShare) then
            IsHotCount(counts.value[0], devices, messages, hotShare) && IsEven(counts.value, 1)
          else
            IsEven(counts.value, 0))
  {
    if devices < 1 || messages < devices {
      return None;
    }
    var hot := HotCount(devices, messages, hotShare);
    var first := if hot > 0 then 1 else 0;
    var spread: seq<nat> := if hot > 0 then [hot] else [];
    var rest, others := messages - hot, devices - first;
    EverythingGiven(rest, others);
    var share, extra := rest / others, rest % others;
    SumSnoc([], hot);
    assert [] + [hot] == [hot];
    var spreads := SpreadEvenly(spread, first, devices, share, extra);
    counts := Some(spreads);
  }

  method SpreadEvenly(start: seq<nat>, first: nat, devices: nat, share: nat, extra: nat) returns (spread: seq<nat>)
    requires |start| == first <= devices
    ensures |spread| == devices && spread[..first] == start
    ensures forall i :: first <= i < devices ==> spread[i] == share + (if i - first < extra then 1 else 0)
    ensures Sum(spread) == Sum(start) + Given(devices - first, share, extra)
  {
    hide Sum;
    spread := start;
    for index := first to devices
      invariant |spread| == index && spread[..first] == start
      invariant forall i :: first <= i < index ==> spread[i] == share + (if i - first < extra then 1 else 0)
      invariant Sum(spread) == Sum(start) + Given(index - first, share, extra)
    {
      var n := share + if index - first < extra then 1 else 0;
      SumSnoc(spread, n);
      spread := spread + [n];
    }
  }

  // ---------- One device's stream ----------

  /** A message the generator builds: the sequence number decides its type, and which are error diagnostics. */
  predicate IsLoadMessage(m: Message, deviceId: string, seqNo: nat) {
    && m.deviceId == deviceId && m.key == OrderKey(1_700_000_000_000, seqNo)
    && m.occurredAt == 1_700_000_000_000 + seqNo * 1000
    && (m.IsErrorDiagnostic() <==> seqNo % 10 == 0)
    && (seqNo % 10 != 0 && seqNo > 0 ==> m.Type() == [Status, Metrics, EventType.Counters, Diagnostic][(seqNo - 1) % 4])
    && IsLoadPayload(m.payload, seqNo)
  }

  /** Counters and texts are fixed by the sequence number; a state and the readings are drawn in their ranges. */
  predicate IsLoadPayload(payload: Payload, seqNo: nat) {
    match payload
    case StatusPayload(state) => state == Online || state == Degraded
    case MetricsPayload(temperatureC, cpuPercent, ramPercent) =>
      30.0 <= temperatureC <= 60.0 && 0.0 <= cpuPercent <= 100.0 && 0.0 <= ramPercent <= 100.0
    case CountersPayload(operationsTotal, uptimeMs) => operationsTotal == seqNo * 10 && uptimeMs == seqNo * 1000
    case DiagnosticPayload(severity, code, text) =>
      if severity == Error then
        code == "E_OVERHEAT" && text == "temperature above threshold at seq " + Strings.Decimal(seqNo)
      else
        severity == Info && code == "E_NET_RETRY" && text == "retrying"
  }

  /** Any reading of a range. */
  method Draw(low: real, high: real) returns (reading: real)
    requires low <= high
    ensures low <= reading <= high
  {
    reading := *;
    if reading < low || high < reading {
      reading := low;
    }
  }

  method BuildMessage(deviceId: string, seqNo: nat) returns (m: Message)
    requires seqNo > 0
    ensures IsLoadMessage(m, deviceId, seqNo)
  {
    var payload: Payload;
    if seqNo % ERROR_EVERY == 0 {
      payload := DiagnosticPayload(Error, "E_OVERHEAT", "temperature above threshold at seq " + Strings.Decimal(seqNo));
    } else if (seqNo - 1) % 4 == 0 {
      var degraded: bool := *;
      payload := StatusPayload(if degraded then Degraded else Online);
    } else if (seqNo - 1) % 4 == 1 {
      var temperature := Draw(30.0, 60.0);
      var cpu := Draw(0.0, 100.0);
      var ram := Draw(0.0, 100.0);
      payload := MetricsPayload(temperature, cpu, ram);
    } else if (seqNo - 1) % 4 == 2 {
      payload := CountersPayload(seqNo * 10, seqNo * 1000);
    } else {
      payload := DiagnosticPayload(Info, "E_NET_RETRY", "retrying");
    }
    m := Message(deviceId, OrderKey(LOAD_SESSION_ID, seqNo), LOAD_SESSION_ID + seqNo * 1000, payload);
  }

  ghost predicate NotTwice(b: Block) {
    match b
    case InPlace(_, twice) => !twice
    case Swapped(_, firstTwice, _, secondTwice) => !firstTwice && !secondTwice
  }

  ghost predicate NoneTwice(plan: seq<Block>) {
    forall b <- plan :: NotTwice(b)
  }

  ghost predicate IsNumbered(base: seq<Message>, deviceId: string) {
    forall i :: 0 <= i < |base| ==> IsLoadMessage(base[i], deviceId, i + 1)
  }

  /** The device's messages in sequence order, up to swaps of adjacent pairs that do not overlap. */
  ghost predicate IsStream(stream: seq<Message>, deviceId: string, count: nat) {
    exists plan :: NoneTwice(plan) && OutputOf(plan) == stream && |InputOf(plan)| == count && IsNumbered(InputOf(plan), deviceId)
  }

  /** True in so many of a hundred draws: never in none, always in all. */
  method Chance(percent: int) returns (fires: bool)
    ensures (percent <= 0 ==> !fires) && (percent >= 100 ==> fires)
  {
    fires := *;
    if percent <= 0 {
      fires := false;
    } else if percent >= 100 {
      fires := true;
    }
  }

  /** Where the message at `k` comes from when every pair is swapped. */
  function Partner(k: nat, count: nat): (p: nat)
    ensures k < count ==> p < count
  {
    if k % 2 == 1 then k - 1 else if k + 1 < count then k + 1 else k
  }

  /** At nought percent the stream is in sequence order, at a hundred every pair of it is swapped. */
  ghost predicate SwapsAsDrawn(stream: seq<Message>, swapPercent: int) {
    && (swapPercent <= 0 ==> forall k :: 0 <= k < |stream| ==> stream[k].key.seqNo == k + 1)
    && (swapPercent >= 100 ==> forall k :: 0 <= k < |stream| ==> stream[k].key.seqNo == Partner(k, |stream|) + 1)
  }

  method DeviceStream(deviceId: string, count: nat, swapPercent: int) returns (stream: seq<Message>)
    ensures IsStream(stream, deviceId, count) && SwapsAsDrawn(stream, swapPercent)
  {
    hide InputOf, OutputOf, BlockIn, BlockOut, IsLoadMessage, Partner;
    var base := [];
    for index := 0 to count
      invariant |base| == index && IsNumbered(base, deviceId)
    {
      var m := BuildMessage(deviceId, index + 1);
      base := base + [m];
    }
    ghost var plan;
    stream, plan := SwapPairs(base, swapPercent);
    NumberedKeys(base, deviceId);
    SwappedKeys(base, stream, swapPercent);
  }

  lemma SwappedKeys(base: seq<Message>, stream: seq<Message>, swapPercent: int)
    requires |stream| == |base| && forall k :: 0 <= k < |base| ==> base[k].key.seqNo == k + 1
    requires swapPercent <= 0 ==> stream == base
    requires swapPercent >= 100 ==> forall k :: 0 <= k < |base| ==> stream[k] == base[Partner(k, |base|)]
    ensures SwapsAsDrawn(stream, swapPercent)
  {
  }

  lemma Partners(k: nat, count: nat)
    requires k + 1 < count
    ensures k % 2 == 0 ==> Partner(k, count) == k + 1 && Partner(k + 1, count) == k
  {
  }

  lemma LastAlone(k: nat)
    ensures k % 2 == 0 ==> Partner(k, k + 1) == k
  {
  }

  method SwapPairs(base: seq<Message>, swapPercent: int) returns (stream: seq<Message>, ghost plan: seq<Block>)
    ensures NoneTwice(plan) && InputOf(plan) == base && OutputOf(plan) == stream && |stream| == |base|
    ensures swapPercent <= 0 ==> stream == base
    ensures swapPercent >= 100 ==> forall k :: 0 <= k < |base| ==> stream[k] == base[Partner(k, |base|)]
  {
    hide InputOf, OutputOf, BlockIn, BlockOut, Partner;
    stream, plan := base, [];
    var index := 0;
    NothingPlanned();
    while index + 1 < |stream|
      invariant index <= |stream| == |base| && NoneTwice(plan)
      invariant InputOf(plan) == base[..index] && OutputOf(plan) == stream[..index] && stream[index..] == base[index..]
      invariant swapPercent <= 0 ==> stream == base
      invariant swapPercent >= 100 ==> index % 2 == 0 && forall k :: 0 <= k < index ==> stream[k] == base[Partner(k, |base|)]
    {
      var swaps := Chance(swapPercent);
      var earlier, later := stream[index], stream[index + 1];
      assert earlier == base[index] && later == base[index + 1];
      if swaps {
        stream := stream[index := later][index + 1 := earlier];
        Partners(index, |base|);
        SwappedOnce(plan, earlier, later);
        plan := plan + [Swapped(earlier, false, later, false)];
        assert base[..index] + [earlier, later] == base[..index + 2];
        index := index + 1;
      } else {
        InPlaceOnce(plan, earlier);
        plan := plan + [InPlace(earlier, false)];
        assert base[..index] + [earlier] == base[..index + 1];
      }
      index := index + 1;
    }
    if index < |stream| {
      LastAlone(index);
      assert stream[index] == stream[index..][0] == base[index];
      InPlaceOnce(plan, stream[index]);
      plan := plan + [InPlace(stream[index], false)];
    }
    assert base[..|base|] == base && stream[..|base|] == stream;
  }

  lemma NumberedKeys(base: seq<Message>, deviceId: string)
    requires IsNumbered(base, deviceId)
    ensures forall k :: 0 <= k < |base| ==> base[k].key.seqNo == k + 1
  {
    assert forall k :: 0 <= k < |base| ==> IsLoadMessage(base[k], deviceId, k + 1);
  }

  lemma NothingPlanned()
    ensures InputOf([]) == [] && OutputOf([]) == []
  {
  }

  lemma SwappedOnce(plan: seq<Block>, first: Message, second: Message)
    ensures InputOf(plan + [Swapped(first, false, second, false)]) == InputOf(plan) + [first, second]
    ensures OutputOf(plan + [Swapped(first, false, second, false)]) == OutputOf(plan) + [second, first]
  {
    PlanSnoc(plan, Swapped(first, false, second, false));
  }

  lemma InPlaceOnce(plan: seq<Block>, m: Message)
    ensures InputOf(plan + [InPlace(m, false)]) == InputOf(plan) + [m]
    ensures OutputOf(plan + [InPlace(m, false)]) == OutputOf(plan) + [m]
  {
    PlanSnoc(plan, InPlace(m, false));
  }

  lemma BlockPermutes(b: Block)
    requires NotTwice(b)
    ensures multiset(BlockOut(b)) == multiset(BlockIn(b)) && |BlockOut(b)| == |BlockIn(b)|
  {
  }

  /** Swaps alone change neither what is sent nor how often. */
  lemma {:induction false} SwapsPermute(plan: seq<Block>)
    requires NoneTwice(plan)
    ensures multiset(OutputOf(plan)) == multiset(InputOf(plan)) && |OutputOf(plan)| == |InputOf(plan)|
  {
    hide BlockOut, BlockIn, NotTwice;
    if plan != [] {
      var front, b := plan[..|plan| - 1], plan[|plan| - 1];
      assert plan == front + [b] && b in plan;
      assert forall x <- front :: x in plan;
      SwapsPermute(front);
      BlockPermutes(b);
      assert multiset(OutputOf(front) + BlockOut(b)) == multiset(OutputOf(front)) + multiset(BlockOut(b));
      assert multiset(InputOf(front) + BlockIn(b)) == multiset(InputOf(front)) + multiset(BlockIn(b));
    }
  }

  /** A stream holds one message for each sequence number, and nothing else. */
  lemma StreamContents(stream: seq<Message>, deviceId: string, count: nat)
    requires IsStream(stream, deviceId, count)
    ensures |stream| == count && Distinct(stream)
    ensures forall m <- stream :: 1 <= m.key.seqNo <= count && IsLoadMessage(m, deviceId, m.key.seqNo)
    ensures forall m, n :: m in stream && n in stream && m.key == n.key ==> m == n
  {
    hide InputOf, OutputOf, NoneTwice;
    var plan :| NoneTwice(plan) && OutputOf(plan) == stream && |InputOf(plan)| == count && IsNumbered(InputOf(plan), deviceId);
    SwapsPermute(plan);
    PermutedNumbered(stream, InputOf(plan), deviceId);
  }

  lemma PermutedNumbered(stream: seq<Message>, base: seq<Message>, deviceId: string)
    requires IsNumbered(base, deviceId) && multiset(stream) == multiset(base)
    ensures Distinct(stream)
    ensures forall m <- stream :: 1 <= m.key.seqNo <= |base| && IsLoadMessage(m, deviceId, m.key.seqNo)
    ensures forall m, n :: m in stream && n in stream && m.key == n.key ==> m == n
  {
    assert forall i :: 0 <= i < |base| ==> base[i].key.seqNo == i + 1;
    assert forall i :: 0 <= i < |base| ==> IsLoadMessage(base[i], deviceId, base[i].key.seqNo);
    hide IsLoadMessage, IsNumbered;
    forall m <- stream ensures exists i :: 0 <= i < |base| && base[i] == m && m.key.seqNo == i + 1 {
      assert m in multiset(stream) && m in multiset(base);
    }
    forall i, j | 0 <= i < j < |stream| ensures stream[i] != stream[j] {
      OnePlace(base, stream[i]);
      if stream[i] == stream[j] {
        TwoPlaces(stream, i, j);
        assert false;
      }
    }
  }

  lemma TwoPlaces(s: seq<Message>, i: nat, j: nat)
    requires i < j < |s| && s[i] == s[j]
    ensures multiset(s)[s[i]] >= 2
  {
    assert s == s[..j] + s[j..];
    assert s[i] in s[..j] && s[j..][0] == s[j];
    assert multiset(s) == multiset(s[..j]) + multiset(s[j..]);
    assert s[i] in multiset(s[..j]) && s[i] in multiset(s[j..]);
  }

  lemma {:induction false} OnePlace(s: seq<Message>, m: Message)
    requires forall i, j :: 0 <= i < j < |s| ==> s[i] != s[j]
    ensures multiset(s)[m] <= 1
  {
    if s != [] {
      var front := s[..|s| - 1];
      OnePlace(front, m);
      assert s == front + [s[|s| - 1]];
      if m == s[|s| - 1] {
        assert m !in front && m !in multiset(front);
      }
    }
  }

  // ---------- The interleaving ----------

  /** The messages that came from one stream, in the order they went out. */
  ghost function Picked(out: seq<Message>, origins: seq<nat>, d: nat): seq<Message>
    requires |origins| == |out|
  {
    if out == [] then []
    else
      var n := |out| - 1;
      Picked(out[..n], origins[..n], d) + if origins[n] == d then [out[n]] else []
  }

  /** Every stream goes out whole and in its own order. */
  ghost predicate IsMerge(streams: seq<seq<Message>>, out: seq<Message>, origins: seq<nat>) {
    && |origins| == |out|
    && (forall i :: 0 <= i < |out| ==> origins[i] < |streams|)
    && (forall d :: 0 <= d < |streams| ==> Picked(out, origins, d) == streams[d])
  }

  lemma PickedSnoc(out: seq<Message>, origins: seq<nat>, m: Message, o: nat, d: nat)
    requires |origins| == |out|
    ensures Picked(out + [m], origins + [o], d) == Picked(out, origins, d) + if o == d then [m] else []
  {
    assert (out + [m])[..|out|] == out && (origins + [o])[..|out|] == origins;
  }

  /** How much the streams from `device` on still have to send. */
  function LeftFrom(streams: seq<seq<Message>>, cursors: seq<nat>, device: nat): nat
    requires |cursors| == |streams| && device <= |streams|
    requires forall d :: 0 <= d < |streams| ==> cursors[d] <= |streams[d]|
    decreases |streams| - device
  {
    if device == |streams| then 0
    else |streams[device]| - cursors[device] + LeftFrom(streams, cursors, device + 1)
  }

  lemma {:induction false} OneLess(streams: seq<seq<Message>>, cursors: seq<nat>, picked: nat, device: nat)
    requires |cursors| == |streams| && device <= |streams| && picked < |streams|
    requires forall d :: 0 <= d < |streams| ==> cursors[d] <= |streams[d]|
    requires cursors[picked] < |streams[picked]|
    ensures LeftFrom(streams, cursors[picked := cursors[picked] + 1], device)
         == LeftFrom(streams, cursors, device) - if device <= picked then 1 else 0
    decreases |streams| - device
  {
    if device < |streams| {
      OneLess(streams, cursors, picked, device + 1);
    }
  }

  lemma {:induction false} NothingLeft(streams: seq<seq<Message>>, cursors: seq<nat>, device: nat, d: nat)
    requires |cursors| == |streams| && device <= d < |streams|
    requires forall k :: 0 <= k < |streams| ==> cursors[k] <= |streams[k]|
    requires LeftFrom(streams, cursors, device) == 0
    ensures cursors[d] == |streams[d]|
    decreases |streams| - device
  {
    if device < d {
      NothingLeft(streams, cursors, device + 1, d);
    }
  }

  /**
   * The weighted scan: a draw among what is left lands on a device that has something left, and each
   * device is hit by as many draws as it has messages left, those behind the earlier devices' ones.
   */
  method PickDevice(streams: seq<seq<Message>>, cursors: seq<nat>, draw: nat) returns (device: nat)
    requires |cursors| == |streams|
    requires forall d :: 0 <= d < |streams| ==> cursors[d] <= |streams[d]|
    requires 1 <= draw <= LeftFrom(streams, cursors, 0)
    ensures device < |streams| && cursors[device] < |streams[device]|
    ensures LeftFrom(streams, cursors, device + 1) < LeftFrom(streams, cursors, 0) - draw + 1 <= LeftFrom(streams, cursors, device)
  {
    var pick := draw;
    device := 0;
    while device < |streams|
      invariant device <= |streams| && 1 <= pick <= LeftFrom(streams, cursors, device)
      invariant LeftFrom(streams, cursors, 0) - draw == LeftFrom(streams, cursors, device) - pick
    {
      var left := |streams[device]| - cursors[device];
      if pick <= left {
        return;
      }
      pick := pick - left;
      device := device + 1;
    }
  }

  function Zeros(n: nat): (zeros: seq<nat>)
    ensures |zeros| == n && forall i :: 0 <= i < n ==> zeros[i] == 0
  {
    seq(n, _ => 0)
  }

  method Total(streams: seq<seq<Message>>) returns (total: nat)
    ensures total == LeftFrom(streams, Zeros(|streams|), 0)
  {
    total := 0;
    for device := 0 to |streams|
      invariant total + LeftFrom(streams, Zeros(|streams|), device) == LeftFrom(streams, Zeros(|streams|), 0)
    {
      total := total + |streams[device]|;
    }
  }

  /** A draw weighted by what each device still has to send. */
  method Interleave(streams: seq<seq<Message>>) returns (out: seq<Message>, ghost origins: seq<nat>)
    ensures IsMerge(streams, out, origins)
    ensures |out| == LeftFrom(streams, Zeros(|streams|), 0)
  {
    hide Picked;
    var cursors := Zeros(|streams|);
    var remaining := Total(streams);
    ghost var total := remaining;
    out, origins := [], [];
    NothingPicked(streams);
    while remaining > 0
      invariant |cursors| == |streams| && forall d :: 0 <= d < |streams| ==> cursors[d] <= |streams[d]|
      invariant remaining == LeftFrom(streams, cursors, 0) && |out| + remaining == total
      invariant |origins| == |out| && forall i :: 0 <= i < |out| ==> origins[i] < |streams|
      invariant forall d :: 0 <= d < |streams| ==> Picked(out, origins, d) == streams[d][..cursors[d]]
    {
      var draw: nat :| 1 <= draw <= remaining;
      var device := PickDevice(streams, cursors, draw);
      var message := streams[device][cursors[device]];
      OneLess(streams, cursors, device, 0);
      PickedAll(streams, out, origins, message, device, cursors);
      out := out + [message];
      origins := origins + [device];
      cursors := cursors[device := cursors[device] + 1];
      remaining := remaining - 1;
    }
    forall d | 0 <= d < |streams| ensures Picked(out, origins, d) == streams[d] {
      NothingLeft(streams, cursors, 0, d);
      assert streams[d][..cursors[d]] == streams[d];
    }
  }

  lemma NothingPicked(streams: seq<seq<Message>>)
    ensures forall d: nat :: Picked([], [], d) == []
  {
  }

  lemma PickedAll(streams: seq<seq<Message>>, out: seq<Message>, origins: seq<nat>, message: Message, device: nat, cursors: seq<nat>)
    requires |cursors| == |streams| && forall d :: 0 <= d < |streams| ==> cursors[d] <= |streams[d]|
    requires |origins| == |out| && device < |streams| && cursors[device] < |streams[device]|
    requires message == streams[device][cursors[device]]
    requires forall d :: 0 <= d < |streams| ==> Picked(out, origins, d) == streams[d][..cursors[d]]
    ensures var after := cursors[device := cursors[device] + 1];
      forall d :: 0 <= d < |streams| ==> Picked(out + [message], origins + [device], d) == streams[d][..after[d]]
  {
    forall d | 0 <= d < |streams|
      ensures Picked(out + [message], origins + [device], d) == streams[d][..cursors[device := cursors[device] + 1][d]] {
      PickedSnoc(out, origins, message, device, d);
    }
  }

  // ---------- Duplicates ----------

  ghost predicate AllInPlace(plan: seq<Block>) {
    forall b <- plan :: b.InPlace?
  }

  /** The same messages in the same order, some of them twice in a row. */
  ghost predicate IsDoubled(ordered: seq<Message>, sends: seq<Message>) {
    exists plan :: AllInPlace(plan) && InputOf(plan) == ordered && OutputOf(plan) == sends
  }

  method WithDuplicates(ordered: seq<Message>, duplicatePercent: int) returns (sends: seq<Message>, duplicates: nat)
    ensures IsDoubled(ordered, sends) && |sends| == |ordered| + duplicates
    ensures duplicatePercent <= 0 ==> duplicates == 0
    ensures duplicatePercent >= 100 ==> duplicates == |ordered|
  {
    hide InputOf, OutputOf;
    ghost var plan := [];
    NothingPlanned();
    sends, duplicates := [], 0;
    for i := 0 to |ordered|
      invariant AllInPlace(plan) && InputOf(plan) == ordered[..i] && OutputOf(plan) == sends && |sends| == i + duplicates
      invariant (duplicatePercent <= 0 ==> duplicates == 0) && (duplicatePercent >= 100 ==> duplicates == i)
    {
      var twice := Chance(duplicatePercent);
      sends := sends + [ordered[i]];
      if twice {
        sends := sends + [ordered[i]];
        duplicates := duplicates + 1;
      }
      PlanInPlace(plan, ordered[i], twice);
      plan := plan + [InPlace(ordered[i], twice)];
      assert ordered[..i + 1] == ordered[..i] + [ordered[i]];
    }
    assert ordered[..|ordered|] == ordered;
  }

  lemma DoubledIsSame(ordered: seq<Message>, sends: seq<Message>)
    requires IsDoubled(ordered, sends)
    ensures (set m <- sends) == (set m <- ordered)
    ensures forall m :: m in sends <==> m in ordered
  {
    hide InputOf, OutputOf, AllInPlace;
    var plan :| AllInPlace(plan) && InputOf(plan) == ordered && OutputOf(plan) == sends;
    forall m ensures m in sends <==> m in ordered {
      OutComesIn(plan, m);
    }
  }

  // ---------- The expectation ----------

  /** What the pipeline must end with, as it is computed from the sends alone. */
  datatype Expected = Expected(
    identities: set<string>, sections: map<string, map<EventType, OrderKey>>, lastEvent: map<string, OrderKey>,
    duplicates: nat, alerts: set<string>)

  function IdentityOf(m: Message): string {
    MessageId.MessageIdentity(m.Id())
  }

  ghost function IdentitiesOf(messages: set<Message>): set<string> {
    set m <- messages :: IdentityOf(m)
  }

  /** The sends whose identity string had not been sent before: the ones that count. */
  ghost function Firsts(sends: seq<Message>): set<Message> {
    if sends == [] then {}
    else
      var front, m := sends[..|sends| - 1], sends[|sends| - 1];
      if IdentityOf(m) in IdentitiesOf(Firsts(front)) then Firsts(front) else Firsts(front) + {m}
  }

  ghost predicate IsNewestKey(key: OrderKey, messages: set<Message>) {
    && (exists m <- messages :: m.key == key)
    && (forall m <- messages :: !IsNewer(m.key, key))
  }

  ghost function OfDevice(messages: set<Message>, deviceId: string): set<Message> {
    set m <- messages | m.deviceId == deviceId
  }

  ghost function OfType(messages: set<Message>, deviceId: string, t: EventType): set<Message> {
    set m <- messages | m.deviceId == deviceId && m.Type() == t
  }

  ghost predicate SectionExpected(e: Expected, messages: set<Message>, deviceId: string, t: EventType) {
    if deviceId in e.sections && t in e.sections[deviceId] then
      IsNewestKey(e.sections[deviceId][t], OfType(messages, deviceId, t))
    else
      OfType(messages, deviceId, t) == {}
  }

  ghost predicate LastExpected(e: Expected, messages: set<Message>, deviceId: string) {
    if deviceId in e.lastEvent then
      IsNewestKey(e.lastEvent[deviceId], OfDevice(messages, deviceId))
    else
      OfDevice(messages, deviceId) == {}
  }

  ghost function AlertsOf(messages: set<Message>): set<string> {
    set m <- messages | m.IsErrorDiagnostic() :: IdentityOf(m)
  }

  /** The expectation is the per-section and per-device maxima of the messages, and their identities and alerts. */
  ghost predicate Expects(e: Expected, messages: set<Message>) {
    && e.identities == IdentitiesOf(messages)
    && (forall deviceId, t :: SectionExpected(e, messages, deviceId, t))
    && (forall deviceId :: LastExpected(e, messages, deviceId))
    && e.alerts == AlertsOf(messages)
  }

  const NOTHING_EXPECTED := Expected({}, map[], map[], 0, {})

  /** One message that counts. */
  function WithMessage(e: Expected, m: Message): Expected {
    var device := if m.deviceId in e.sections then e.sections[m.deviceId] else map[];
    var device' := if m.Type() !in device || IsNewer(m.key, device[m.Type()]) then device[m.Type() := m.key] else device;
    Expected(
      e.identities + {IdentityOf(m)},
      e.sections[m.deviceId := device'],
      if m.deviceId !in e.lastEvent || IsNewer(m.key, e.lastEvent[m.deviceId]) then e.lastEvent[m.deviceId := m.key] else e.lastEvent,
      e.duplicates,
      if m.IsErrorDiagnostic() then e.alerts + {IdentityOf(m)} else e.alerts)
  }

  lemma NewestOfMore(key: OrderKey, messages: set<Message>, m: Message)
    requires IsNewestKey(key, messages)
    ensures IsNewestKey(if IsNewer(m.key, key) then m.key else key, messages + {m})
  {
    var all := messages + {m};
    assert m in all;
    var x :| x in messages && x.key == key;
    assert x in all;
  }

  lemma SectionOfMore(e: Expected, messages: set<Message>, m: Message, deviceId: string, t: EventType)
    requires SectionExpected(e, messages, deviceId, t)
    ensures SectionExpected(WithMessage(e, m), messages + {m}, deviceId, t)
  {
    var before, after := OfType(messages, deviceId, t), OfType(messages + {m}, deviceId, t);
    if m.deviceId == deviceId && m.Type() == t {
      assert after == before + {m};
      if deviceId in e.sections && t in e.sections[deviceId] {
        NewestOfMore(e.sections[deviceId][t], before, m);
      } else {
        assert m in after && after == {m};
      }
    } else {
      assert after == before;
    }
  }

  lemma LastOfMore(e: Expected, messages: set<Message>, m: Message, deviceId: string)
    requires LastExpected(e, messages, deviceId)
    ensures LastExpected(WithMessage(e, m), messages + {m}, deviceId)
  {
    var before, after := OfDevice(messages, deviceId), OfDevice(messages + {m}, deviceId);
    if m.deviceId == deviceId {
      assert after == before + {m};
      if deviceId in e.lastEvent {
        NewestOfMore(e.lastEvent[deviceId], before, m);
      } else {
        assert m in after && after == {m};
      }
    } else {
      assert after == before;
    }
  }

  lemma ExpectsMore(e: Expected, messages: set<Message>, m: Message)
    requires Expects(e, messages)
    ensures Expects(WithMessage(e, m), messages + {m})
  {
    var e', all := WithMessage(e, m), messages + {m};
    forall deviceId, t ensures SectionExpected(e', all, deviceId, t) {
      SectionOfMore(e, messages, m, deviceId, t);
    }
    forall deviceId ensures LastExpected(e', all, deviceId) {
      LastOfMore(e, messages, m, deviceId);
    }
    hide WithMessage, SectionExpected, LastExpected;
    assert m in all;
    IdentitiesOfMore(messages, m);
    AlertsOfMore(messages, m);
    WithMessageSets(e, m);
  }

  lemma WithMessageSets(e: Expected, m: Message)
    ensures WithMessage(e, m).identities == e.identities + {IdentityOf(m)}
    ensures WithMessage(e, m).alerts == if m.IsErrorDiagnostic() then e.alerts + {IdentityOf(m)} else e.alerts
  {
  }

  lemma IdentitiesOfMore(messages: set<Message>, m: Message)
    ensures IdentitiesOf(messages + {m}) == IdentitiesOf(messages) + {IdentityOf(m)}
  {
    var all := messages + {m};
    forall id | id in IdentitiesOf(messages) + {IdentityOf(m)} ensures id in IdentitiesOf(all) {
      if id in IdentitiesOf(messages) {
        var x :| x in messages && IdentityOf(x) == id;
        assert x in all;
      } else {
        assert m in all;
      }
    }
  }

  lemma AlertsOfMore(messages: set<Message>, m: Message)
    ensures AlertsOf(messages + {m}) == if m.IsErrorDiagnostic() then AlertsOf(messages) + {IdentityOf(m)} else AlertsOf(messages)
  {
    var all := messages + {m};
    forall id | id in AlertsOf(messages) ensures id in AlertsOf(all) {
      var x :| x in messages && x.IsErrorDiagnostic() && IdentityOf(x) == id;
      assert x in all;
    }
    if m.IsErrorDiagnostic() {
      assert m in all;
      assert IdentityOf(m) in AlertsOf(all);
    }
    forall id | id in AlertsOf(all) && id !in AlertsOf(messages) ensures m.IsErrorDiagnostic() && id == IdentityOf(m) {
      var x :| x in all && x.IsErrorDiagnostic() && IdentityOf(x) == id;
    }
  }

  /** The expectation computed from the sends alone; the second copy of a send only counts as a duplicate. */
  method ExpectationOf(sends: seq<Message>) returns (e: Expected)
    ensures Expects(e, Firsts(sends))
    ensures e.duplicates == |sends| - |e.identities|
  {
    hide Expects, Firsts;
    e := NOTHING_EXPECTED;
    NothingExpected();
    assert sends[..0] == [];
    for i := 0 to |sends|
      invariant Expects(e, Firsts(sends[..i]))
      invariant e.duplicates + |e.identities| == i
    {
      var m := sends[i];
      FirstsOfMore(e, sends, i);
      if IdentityOf(m) in e.identities {
        e := e.(duplicates := e.duplicates + 1);
      } else {
        ExpectsMore(e, Firsts(sends[..i]), m);
        WithMessageSets(e, m);
        e := WithMessage(e, m);
      }
    }
    assert sends[..|sends|] == sends;
  }

  lemma NothingExpected()
    ensures Expects(NOTHING_EXPECTED, Firsts([]))
  {
  }

  lemma FirstsOfMore(e: Expected, sends: seq<Message>, i: nat)
    requires i < |sends| && Expects(e, Firsts(sends[..i]))
    ensures Firsts(sends[..i + 1]) == if IdentityOf(sends[i]) in e.identities then Firsts(sends[..i]) else Firsts(sends[..i]) + {sends[i]}
    ensures Expects(e.(duplicates := e.duplicates + 1), Firsts(sends[..i]))
  {
    hide SectionExpected, LastExpected, IdentitiesOf, AlertsOf, IdentityOf;
    assert sends[..i + 1][..i] == sends[..i];
    DuplicatesExpectNothing(e, Firsts(sends[..i]));
  }

  lemma DuplicatesExpectNothing(e: Expected, messages: set<Message>)
    requires Expects(e, messages)
    ensures Expects(e.(duplicates := e.duplicates + 1), messages)
  {
    var e' := e.(duplicates := e.duplicates + 1);
    hide IsNewestKey, OfType, OfDevice, IdentitiesOf, AlertsOf;
    forall deviceId, t ensures SectionExpected(e', messages, deviceId, t) {
      assert SectionExpected(e, messages, deviceId, t);
    }
    forall deviceId ensures LastExpected(e', messages, deviceId) {
      assert LastExpected(e, messages, deviceId);
    }
  }

  // ---------- The whole load ----------

  ghost predicate NamesMessages(sends: seq<Message>) {
    forall m, n :: m in sends && n in sends && IdentityOf(m) == IdentityOf(n) ==> m == n
  }

  /** Where an identity string names its message, every message counts once. */
  lemma {:induction false} FirstsAreAll(sends: seq<Message>)
    requires NamesMessages(sends)
    ensures Firsts(sends) == set m <- sends
    ensures |IdentitiesOf(Firsts(sends))| == |Firsts(sends)|
  {
    hide IdentityOf;
    if sends != [] {
      var front, m := sends[..|sends| - 1], sends[|sends| - 1];
      assert sends == front + [m];
      FirstsAreAll(front);
      assert (set x <- sends) == (set x <- front) + {m};
      FirstOrAgain(front, m, Firsts(front));
    } else {
      assert IdentitiesOf({}) == {};
    }
  }

  lemma FirstOrAgain(front: seq<Message>, m: Message, firsts: set<Message>)
    requires NamesMessages(front + [m]) && firsts == set x <- front
    requires |IdentitiesOf(firsts)| == |firsts|
    ensures IdentityOf(m) in IdentitiesOf(firsts) <==> m in firsts
    ensures |IdentitiesOf(firsts + {m})| == |firsts + {m}|
  {
    hide IdentityOf;
    IdentitiesOfMore(firsts, m);
    if IdentityOf(m) in IdentitiesOf(firsts) {
      var x :| x in firsts && IdentityOf(x) == IdentityOf(m);
      assert x in front + [m] && m in front + [m];
      assert firsts + {m} == firsts;
    }
  }

  /** Every stream of a load is one device's, numbered from 1. */
  ghost predicate AreStreams(streams: seq<seq<Message>>, prefix: string, counts: seq<nat>) {
    && |streams| == |counts|
    && forall d :: 0 <= d < |streams| ==> IsStream(streams[d], LoadDeviceId(prefix, d + 1), counts[d])
  }

  lemma {:induction false} PickedIn(out: seq<Message>, origins: seq<nat>, d: nat, i: nat)
    requires |origins| == |out| && i < |out| && origins[i] == d
    ensures exists k :: 0 <= k < |Picked(out, origins, d)| && Picked(out, origins, d)[k] == out[i]
  {
    var n := |out| - 1;
    if i < n {
      PickedIn(out[..n], origins[..n], d, i);
      var k :| 0 <= k < |Picked(out[..n], origins[..n], d)| && Picked(out[..n], origins[..n], d)[k] == out[..n][i];
      assert Picked(out, origins, d)[k] == out[i];
    } else {
      assert Picked(out, origins, d)[|Picked(out, origins, d)| - 1] == out[i];
    }
  }

  /** Two messages of one origin are at two places of its stream. */
  lemma {:induction false} PickedTwice(out: seq<Message>, origins: seq<nat>, d: nat, i: nat, j: nat)
    requires |origins| == |out| && i < j < |out| && origins[i] == d && origins[j] == d
    requires Distinct(Picked(out, origins, d))
    ensures out[i] != out[j]
  {
    var n := |out| - 1;
    var front := Picked(out[..n], origins[..n], d);
    if j < n {
      assert Picked(out, origins, d)[..|front|] == front;
      assert Distinct(front) by {
        forall a, b | 0 <= a < b < |front| ensures front[a] != front[b] {
          assert Picked(out, origins, d)[a] == front[a] && Picked(out, origins, d)[b] == front[b];
        }
      }
      PickedTwice(out[..n], origins[..n], d, i, j);
    } else {
      PickedIn(out[..n], origins[..n], d, i);
      var k :| 0 <= k < |front| && front[k] == out[..n][i];
      assert Picked(out, origins, d)[k] == out[i] && Picked(out, origins, d)[|front|] == out[j];
    }
  }

  lemma SameDeviceSameStream(streams: seq<seq<Message>>, prefix: string, counts: seq<nat>, out: seq<Message>, origins: seq<nat>, i: nat)
    requires AreStreams(streams, prefix, counts) && IsMerge(streams, out, origins) && i < |out|
    ensures origins[i] < |streams| && out[i] in streams[origins[i]]
    ensures out[i].deviceId == LoadDeviceId(prefix, origins[i] + 1) && out[i].key.sessionId == LOAD_SESSION_ID && out[i].key.seqNo >= 1
  {
    PickedIn(out, origins, origins[i], i);
    StreamContents(streams[origins[i]], LoadDeviceId(prefix, origins[i] + 1), counts[origins[i]]);
  }

  /** In a merged load no two sends share an identity string. */
  lemma MergedIdentities(streams: seq<seq<Message>>, prefix: string, counts: seq<nat>, out: seq<Message>, origins: seq<nat>, i: nat, j: nat)
    requires AreStreams(streams, prefix, counts) && IsMerge(streams, out, origins) && i < j < |out|
    ensures IdentityOf(out[i]) != IdentityOf(out[j])
  {
    hide MessageId.MessageIdentity, LoadDeviceId, IsStream, Picked;
    SameDeviceSameStream(streams, prefix, counts, out, origins, i);
    SameDeviceSameStream(streams, prefix, counts, out, origins, j);
    var a, b := origins[i], origins[j];
    if IdentityOf(out[i]) == IdentityOf(out[j]) {
      LoadIdentityInjective(prefix, a + 1, out[i].key.seqNo, b + 1, out[j].key.seqNo);
      StreamContents(streams[a], LoadDeviceId(prefix, a + 1), counts[a]);
      assert out[i] == out[j];
      PickedTwice(out, origins, a, i, j);
    }
  }

  lemma {:induction false} DistinctIdentities(out: seq<Message>)
    requires forall i, j :: 0 <= i < j < |out| ==> IdentityOf(out[i]) != IdentityOf(out[j])
    ensures NamesMessages(out) && |IdentitiesOf(set m <- out)| == |out|
  {
    hide IdentityOf;
    if out != [] {
      var front, m := out[..|out| - 1], out[|out| - 1];
      assert out == front + [m];
      DistinctIdentities(front);
      var before := set x <- front;
      assert (set x <- out) == before + {m};
      IdentitiesOfMore(before, m);
    } else {
      assert IdentitiesOf(set m <- out) == {};
    }
  }

  lemma {:induction false} LeftIsSum(streams: seq<seq<Message>>, counts: seq<nat>)
    requires |streams| == |counts| && forall d :: 0 <= d < |streams| ==> |streams[d]| == counts[d]
    ensures LeftFrom(streams, Zeros(|streams|), 0) == Sum(counts)
  {
    if streams == [] {
    } else {
      var n := |streams| - 1;
      LeftIsSum(streams[..n], counts[..n]);
      LeftSnoc(streams, 0);
    }
  }

  lemma {:induction false} LeftSnoc(streams: seq<seq<Message>>, device: nat)
    requires device < |streams|
    ensures var n := |streams| - 1;
      LeftFrom(streams, Zeros(|streams|), device) == LeftFrom(streams[..n], Zeros(n), device) + |streams[n]|
    decreases |streams| - device
  {
    if device + 1 < |streams| {
      LeftSnoc(streams, device + 1);
    }
  }

  datatype LoadResult = BadSizes | Inconsistent | Generated(sends: seq<Message>, expected: Expected)

  /**
   * The sends and their expectation, for any sizes, share, prefix and draws. The two never disagree:
   * there are exactly `messages` identities, each names one message, and the expectation counts all.
   */
  method GenerateLoad(devices: int, messages: int, hotShare: real, duplicatePercent: int, swapPercent: int, prefix: string) returns (load: LoadResult)
    ensures load.BadSizes? <==> !(1 <= devices <= messages)
    ensures !load.Inconsistent?
    ensures load.Generated? ==>
      && Expects(load.expected, set m <- load.sends)
      && |load.expected.identities| == messages && load.expected.duplicates == |load.sends| - messages
      && (duplicatePercent <= 0 ==> |load.sends| == messages) && (duplicatePercent >= 100 ==> |load.sends| == 2 * messages)
      && NamesMessages(load.sends)
      && forall m <- load.sends :: IsSendOf(m, prefix, devices)
  {
    hide IsStream, IsMerge, IsDoubled, Expects, Firsts, IdentitiesOf, IdentityOf, NamesMessages, AreStreams, LeftFrom, IsSendOf;
    var distributed := Distribute(devices, messages, hotShare);
    if distributed.None? {
      return BadSizes;
    }
    var counts := distributed.value;
    var streams := BuildStreams(prefix, counts, swapPercent);
    var ordered, origins := Interleave(streams);
    LoadIsConsistent(streams, prefix, counts, ordered, origins);
    var sends, duplicates := WithDuplicates(ordered, duplicatePercent);
    DoubledNames(ordered, sends);
    var expected := ExpectationOf(sends);
    FirstsAreAll(sends);
    ExpectedIdentities(expected, sends, ordered);
    if expected.duplicates != duplicates || |expected.identities| != messages {
      return Inconsistent;
    }
    load := Generated(sends, expected);
    SendsOfDevices(streams, prefix, counts, ordered, origins, sends);
  }

  /** A message of one of the load's devices, in the load's one session. */
  ghost predicate IsSendOf(m: Message, prefix: string, devices: nat) {
    m.key.sessionId == LOAD_SESSION_ID && exists d :: 1 <= d <= devices && m.deviceId == LoadDeviceId(prefix, d)
  }

  lemma SendsOfDevices(streams: seq<seq<Message>>, prefix: string, counts: seq<nat>, ordered: seq<Message>, origins: seq<nat>,
                       sends: seq<Message>)
    requires AreStreams(streams, prefix, counts) && IsMerge(streams, ordered, origins) && IsDoubled(ordered, sends)
    ensures forall m <- sends :: IsSendOf(m, prefix, |counts|)
  {
    hide Picked, IsDoubled, IsStream, LoadDeviceId;
    DoubledIsSame(ordered, sends);
    forall m <- sends ensures IsSendOf(m, prefix, |counts|) {
      var i :| 0 <= i < |ordered| && ordered[i] == m;
      SameDeviceSameStream(streams, prefix, counts, ordered, origins, i);
      assert m.deviceId == LoadDeviceId(prefix, origins[i] + 1);
    }
  }

  method BuildStreams(prefix: string, counts: seq<nat>, swapPercent: int) returns (streams: seq<seq<Message>>)
    ensures AreStreams(streams, prefix, counts) && forall d :: 0 <= d < |streams| ==> SwapsAsDrawn(streams[d], swapPercent)
  {
    hide IsStream;
    streams := [];
    for index := 0 to |counts|
      invariant |streams| == index
      invariant forall d :: 0 <= d < index ==> IsStream(streams[d], LoadDeviceId(prefix, d + 1), counts[d])
      invariant forall d :: 0 <= d < index ==> SwapsAsDrawn(streams[d], swapPercent)
    {
      var stream := DeviceStream(LoadDeviceId(prefix, index + 1), counts[index], swapPercent);
      streams := streams + [stream];
    }
  }

  lemma LoadIsConsistent(streams: seq<seq<Message>>, prefix: string, counts: seq<nat>, ordered: seq<Message>, origins: seq<nat>)
    requires AreStreams(streams, prefix, counts) && IsMerge(streams, ordered, origins)
    requires |ordered| == LeftFrom(streams, Zeros(|streams|), 0)
    ensures |ordered| == Sum(counts) && NamesMessages(ordered) && |IdentitiesOf(set m <- ordered)| == |ordered|
  {
    hide IsMerge, IsStream, IdentityOf;
    forall d | 0 <= d < |streams| ensures |streams[d]| == counts[d] {
      StreamContents(streams[d], LoadDeviceId(prefix, d + 1), counts[d]);
    }
    LeftIsSum(streams, counts);
    forall i, j | 0 <= i < j < |ordered| ensures IdentityOf(ordered[i]) != IdentityOf(ordered[j]) {
      MergedIdentities(streams, prefix, counts, ordered, origins, i, j);
    }
    DistinctIdentities(ordered);
  }

  lemma DoubledNames(ordered: seq<Message>, sends: seq<Message>)
    requires IsDoubled(ordered, sends) && NamesMessages(ordered)
    ensures NamesMessages(sends)
  {
    hide IsDoubled, IdentityOf;
    DoubledIsSame(ordered, sends);
  }

  lemma ExpectedIdentities(e: Expected, sends: seq<Message>, ordered: seq<Message>)
    requires Expects(e, Firsts(sends)) && Firsts(sends) == (set m <- sends) && IsDoubled(ordered, sends)
    requires |IdentitiesOf(set m <- ordered)| == |ordered|
    ensures |e.identities| == |ordered| && Expects(e, set m <- sends)
  {
    hide IsDoubled, Firsts, IdentitiesOf;
    DoubledIsSame(ordered, sends);
  }
}
