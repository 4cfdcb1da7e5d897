/** One emulated device: what its session generates, chaos rearranges, its outbox bounds, and its connection takes. */
module Devices {
  import opened Telemetry
  import opened Session
  import opened Chaos
  import opened Outboxes
  import opened StateUpdate
  import opened Convergence

  datatype ConnectionChaos = Disconnect | Restart

  ghost predicate SendsStatus(messages: seq<Message>) {
    exists m <- messages :: m.payload.StatusPayload?
  }

  lemma StatusAhead(messages: seq<Message>, i: nat)
    requires i < |messages|
    ensures SendsStatus(messages[i..]) <==> messages[i].payload.StatusPayload? || SendsStatus(messages[i + 1..])
  {
    assert messages[i..] == [messages[i]] + messages[i + 1..];
  }

  method AnyStatus(messages: seq<Message>) returns (any: bool)
    ensures any <==> SendsStatus(messages)
  {
    any := false;
    for i := 0 to |messages|
      invariant any <==> SendsStatus(messages[..i])
    {
      assert messages[..i + 1] == messages[..i] + [messages[i]];
      any := any || messages[i].payload.StatusPayload?;
    }
    assert messages[..|messages|] == messages;
  }

  class DeviceClient {
    const session: DeviceSession
    const chaos: ChaosPolicy
    const outbox: Outbox
    const connection: Connection
    var stopped: bool
    var heartbeatArmed: bool
    var generatedCount: nat
    var writtenCount: nat
    var dropped: nat
    var reconnects: nat
    ghost var pushed: seq<Message>
    ghost var farewells: seq<Message>
    ghost var cleared: nat

    /** What came out of the session and was not lost to a power cycle, in the order it came out. */
    ghost function Kept(): seq<Message>
      requires chaos.Valid()
      reads this, chaos
    {
      InputOf(chaos.plan) + chaos.HeldBack() + farewells
    }

    /**
     * What was queued is a rearrangement of what was generated; what was written and what still
     * waits is what was queued, in that order, without what was dropped; and every message counts.
     */
    ghost predicate Sound()
      reads this, session, chaos, outbox, connection
    {
      && session.Valid() && chaos.Valid()
      && pushed == OutputOf(chaos.plan) + farewells
      && Subsequence(Kept(), session.generated)
      && (farewells != [] ==> stopped && chaos.held.None?)
      && Subsequence(connection.wire + outbox.entries, pushed)
      && writtenCount == |connection.wire|
      && |pushed| == writtenCount + dropped + cleared + |outbox.entries|
    }

    /** A status waits in the slot. */
    ghost predicate HoldsStatus()
      reads this, chaos
    {
      chaos.held.Some? && SendsStatus(chaos.held.value)
    }

    /**
     * A running device will send its state again: its refresh timer is armed, or the status that arms
     * it waits in the slot for the next tick. A stopped one has no timer that could follow its farewell.
     */
    ghost predicate Refreshing()
      reads this, session, chaos
    {
      if stopped then !heartbeatArmed
      else session.generated != [] ==> heartbeatArmed || HoldsStatus()
    }

    ghost predicate Valid()
      reads this, session, chaos, outbox, connection
    {
      Sound() && Refreshing()
    }

    constructor (deviceId: string, profile: Profile, duplicates: bool, reorders: bool, percent: int, maxEntries: nat)
      requires IsProfile(profile)
      ensures Valid() && fresh(session) && fresh(chaos) && fresh(outbox) && fresh(connection)
      ensures connection.wire == [] && session.generated == [] && session.deviceId == deviceId && !stopped
    {
      session := new DeviceSession(deviceId, profile);
      chaos := new ChaosPolicy(duplicates, reorders, percent);
      outbox := new Outbox(maxEntries);
      connection := new Connection();
      stopped, heartbeatArmed, generatedCount, writtenCount, dropped, reconnects := false, false, 0, 0, 0, 0;
      pushed, farewells, cleared := [], [], 0;
    }

    /** Everything chaos released, in order; what the outbox evicts is counted. */
    method Push(messages: seq<Message>)
      requires Subsequence(connection.wire + outbox.entries, pushed)
      requires |pushed| == writtenCount + dropped + cleared + |outbox.entries|
      modifies this`dropped, this`pushed, this`heartbeatArmed, outbox`entries
      ensures pushed == old(pushed) + messages
      ensures Subsequence(connection.wire + outbox.entries, pushed)
      ensures |pushed| == writtenCount + dropped + cleared + |outbox.entries|
      ensures heartbeatArmed == (old(heartbeatArmed) || (!stopped && SendsStatus(messages)))
    {
      hide Subsequence;
      assert messages[..0] == [];
      assert pushed == old(pushed) + messages[..0];
      for i := 0 to |messages|
        invariant pushed == old(pushed) + messages[..i] && heartbeatArmed == old(heartbeatArmed)
        invariant Subsequence(connection.wire + outbox.entries, pushed)
        invariant |pushed| == writtenCount + dropped + cleared + |outbox.entries|
      {
        PushOne(messages[i]);
        assert messages[..i + 1] == messages[..i] + [messages[i]];
      }
      assert messages[..|messages|] == messages;
      var refresh := AnyStatus(messages);
      if refresh {
        ArmHeartbeat();
      }
    }

    /** Armed anew whenever a status was queued, never again once stopped. */
    method ArmHeartbeat()
      modifies this`heartbeatArmed
      ensures heartbeatArmed == (old(heartbeatArmed) || !stopped)
    {
      if !stopped {
        heartbeatArmed := true;
      }
    }

    method PushOne(m: Message)
      requires Subsequence(connection.wire + outbox.entries, pushed)
      requires |pushed| == writtenCount + dropped + cleared + |outbox.entries|
      modifies this`dropped, this`pushed, outbox`entries
      ensures pushed == old(pushed) + [m]
      ensures Subsequence(connection.wire + outbox.entries, pushed)
      ensures |pushed| == writtenCount + dropped + cleared + |outbox.entries|
    {
      hide Subsequence, IsVictim, Evicts;
      ghost var before := outbox.entries;
      var evicted := outbox.Push(m);
      pushed := pushed + [m];
      if evicted.Some? {
        dropped := dropped + 1;
        EvictionKeepsOrder(connection.wire, before, evicted.value, outbox.entries[..|outbox.entries| - 1], old(pushed));
      }
      ghost var kept := outbox.entries[..|outbox.entries| - 1];
      assert outbox.entries == kept + [m];
      SubsequenceSnoc(connection.wire + kept, old(pushed), m);
      assert connection.wire + outbox.entries == connection.wire + kept + [m];
    }

    /** The generation path: chaos may duplicate, delay or reorder what goes into the outbox. */
    method Generate(messages: seq<Message>)
      requires !stopped && session.Valid() && chaos.Valid() && farewells == []
      requires pushed == OutputOf(chaos.plan) && writtenCount == |connection.wire|
      requires Subsequence(InputOf(chaos.plan) + chaos.HeldBack() + messages, session.generated)
      requires Subsequence(connection.wire + outbox.entries, pushed)
      requires |pushed| == writtenCount + dropped + cleared + |outbox.entries|
      requires heartbeatArmed || HoldsStatus() || SendsStatus(messages)
      modifies this`generatedCount, this`dropped, this`pushed, this`heartbeatArmed, chaos, outbox`entries
      ensures Valid() && generatedCount == old(generatedCount) + |messages|
      ensures Kept() == InputOf(old(chaos.plan)) + old(chaos.HeldBack()) + messages
    {
      hide Subsequence, InputOf, OutputOf, Generated;
      assert messages[..0] == [];
      for i := 0 to |messages|
        invariant chaos.Valid() && session.Valid() && !stopped && farewells == []
        invariant generatedCount == old(generatedCount) + i
        invariant pushed == OutputOf(chaos.plan) && writtenCount == |connection.wire|
        invariant InputOf(chaos.plan) + chaos.HeldBack() == InputOf(old(chaos.plan)) + old(chaos.HeldBack()) + messages[..i]
        invariant Subsequence(connection.wire + outbox.entries, pushed)
        invariant |pushed| == writtenCount + dropped + cleared + |outbox.entries|
        invariant heartbeatArmed || HoldsStatus() || SendsStatus(messages[i..])
      {
        GenerateOne(messages[i]);
        StatusAhead(messages, i);
        assert messages[..i + 1] == messages[..i] + [messages[i]];
      }
      assert messages[..|messages|] == messages;
      assert Kept() == InputOf(chaos.plan) + chaos.HeldBack();
    }

    method GenerateOne(m: Message)
      requires chaos.Valid() && !stopped && farewells == [] && pushed == OutputOf(chaos.plan)
      requires Subsequence(connection.wire + outbox.entries, pushed)
      requires |pushed| == writtenCount + dropped + cleared + |outbox.entries|
      modifies this`generatedCount, this`dropped, this`pushed, this`heartbeatArmed, chaos, outbox`entries
      ensures chaos.Valid() && generatedCount == old(generatedCount) + 1 && pushed == OutputOf(chaos.plan)
      ensures InputOf(chaos.plan) + chaos.HeldBack() == InputOf(old(chaos.plan)) + old(chaos.HeldBack()) + [m]
      ensures Subsequence(connection.wire + outbox.entries, pushed)
      ensures |pushed| == writtenCount + dropped + cleared + |outbox.entries|
      ensures old(heartbeatArmed) || old(HoldsStatus()) || m.payload.StatusPayload? ==> heartbeatArmed || HoldsStatus()
    {
      hide Subsequence, InputOf, OutputOf, Generated;
      generatedCount := generatedCount + 1;
      ghost var before := chaos.held;
      var out := chaos.Apply(m);
      StatusGoesOn(chaos, m, before, out);
      Push(out);
    }

    /** Chaos loses no status: one that came or waited goes out now or waits on. */
    lemma StatusGoesOn(chaos: ChaosPolicy, m: Message, before: Option<seq<Message>>, out: seq<Message>)
      requires exists drawn :: chaos.Follows(drawn, m, before, out, chaos.held)
      ensures m.payload.StatusPayload? || (before.Some? && SendsStatus(before.value)) ==>
                SendsStatus(out) || (chaos.held.Some? && SendsStatus(chaos.held.value))
    {
      var drawn :| chaos.Follows(drawn, m, before, out, chaos.held);
      var copies := if chaos.duplicates && drawn[0] then [m, m] else [m];
      assert m in copies;
      if before.Some? && SendsStatus(before.value) {
        var s :| s in before.value && s.payload.StatusPayload?;
        assert s in out;
      }
    }

    /** The session generated more: what is kept is still in order in it. */
    lemma GeneratedMore(kept: seq<Message>, generated: seq<Message>, messages: seq<Message>)
      requires Subsequence(kept, generated)
      ensures Subsequence(kept + messages, generated + messages)
    {
      SubsequenceAppend(kept, generated, messages);
    }

    method Start()
      requires Valid() && !stopped
      modifies this, session, chaos, outbox, connection
      ensures Valid() && !stopped && connection.wire == old(connection.wire)
      ensures |session.generated| == |old(session.generated)| + 1 && old(session.generated) <= session.generated
      ensures session.generated[|old(session.generated)|].payload == StatusPayload(Online)
      ensures Kept() == old(Kept()) + session.generated[|old(session.generated)|..]
    {
      hide Subsequence, InputOf, OutputOf, Generated;
      ghost var kept, before := Kept(), session.generated;
      assert kept == InputOf(chaos.plan) + chaos.HeldBack();
      var messages := session.Start();
      GeneratedMore(kept, before, messages);
      Generate(messages);
    }

    /** One tick, of a timer the start arms; once stopped it does nothing. */
    method OnTick()
      requires Valid() && session.generated != []
      modifies this, session, chaos, outbox, connection
      ensures Valid() && stopped == old(stopped) && old(connection.wire) <= connection.wire
      ensures old(session.generated) <= session.generated
      ensures Kept() == old(Kept()) + session.generated[|old(session.generated)|..]
      ensures stopped ==> session.generated == old(session.generated) && connection.wire == old(connection.wire)
      ensures !stopped ==>
        && session.tickIndex == old(session.tickIndex) + 1 && Pumped(old(connection.refused))
        && generatedCount - old(generatedCount) == |session.generated| - |old(session.generated)|
        && old(session.readings) <= session.readings
        && IsTick(PayloadsOf(session.generated[|old(session.generated)|..]), session.walk, session.tickIndex,
                  old(session.operationsTotal), session.operationsTotal, session.sessionStartedAt,
                  session.readings[|old(session.readings)|..], old(session.state), session.state,
                  session.overheating && !old(session.overheating))
    {
      hide Subsequence, InputOf, OutputOf, Generated, IsTick, PayloadsOf;
      if stopped {
        return;
      }
      ghost var kept, before := Kept(), session.generated;
      assert kept == InputOf(chaos.plan) + chaos.HeldBack();
      var messages := session.Tick();
      assert session.generated[|before|..] == messages;
      GeneratedMore(kept, before, messages);
      Generate(messages);
      Pump();
    }

    /** The refresh timer elapsed: the current state goes out again; once stopped it does nothing. */
    method OnHeartbeat()
      requires Valid()
      modifies this, session, chaos, outbox, connection
      ensures Valid() && stopped == old(stopped) && old(connection.wire) <= connection.wire
      ensures old(session.generated) <= session.generated
      ensures Kept() == old(Kept()) + session.generated[|old(session.generated)|..]
      ensures stopped ==> session.generated == old(session.generated) && connection.wire == old(connection.wire)
      ensures !stopped ==>
        && session.tickIndex == old(session.tickIndex) && Pumped(old(connection.refused))
        && |session.generated| == |old(session.generated)| + 1
        && session.generated[|old(session.generated)|].payload == StatusPayload(old(session.state))
        && generatedCount == old(generatedCount) + 1
    {
      hide Subsequence, InputOf, OutputOf, Generated;
      if stopped {
        return;
      }
      heartbeatArmed := false;
      ghost var kept, before := Kept(), session.generated;
      assert kept == InputOf(chaos.plan) + chaos.HeldBack();
      var messages := session.Heartbeat();
      assert messages[0].payload.StatusPayload? && SendsStatus(messages);
      GeneratedMore(kept, before, messages);
      Generate(messages);
      Pump();
    }

    /** A pump ran: the queue is empty, or the connection refused once. */
    ghost predicate Pumped(refusedBefore: nat)
      reads this, outbox, connection
    {
      connection.refused == refusedBefore + if outbox.entries == [] then 0 else 1
    }

    /** The oldest entries that the connection takes, in order. */
    method Pump()
      requires Valid()
      modifies this`writtenCount, outbox`entries, connection
      ensures Valid() && old(connection.wire) <= connection.wire && Pumped(old(connection.refused))
      ensures connection.wire + outbox.entries == old(connection.wire) + old(outbox.entries)
    {
      hide Subsequence, InputOf, OutputOf, Generated;
      var taken := PumpOutbox(outbox, connection);
      writtenCount := writtenCount + |taken|;
      assert connection.wire + outbox.entries == old(connection.wire) + (taken + outbox.entries);
    }

    method StopGenerating()
      requires Valid()
      modifies this`stopped, this`heartbeatArmed
      ensures Valid() && stopped && !heartbeatArmed
    {
      stopped, heartbeatArmed := true, false;
    }

    /** The slot and the farewell go straight to the outbox, past chaos: the farewell is the last thing queued. */
    method PrepareShutdown()
      requires Valid() && stopped
      modifies this, session, chaos, outbox, connection
      ensures Valid() && stopped && chaos.held.None?
      ensures |session.generated| == |old(session.generated)| + 1 && old(session.generated) <= session.generated
      ensures var last := session.generated[|session.generated| - 1];
        && last.payload == StatusPayload(Offline)
        && pushed != [] && pushed[|pushed| - 1] == last
        && Kept() == old(Kept()) + [last]
    {
      hide Subsequence, InputOf, OutputOf, Generated;
      Release();
      SayFarewell();
    }

    method Release()
      requires Valid() && stopped
      modifies this`dropped, this`pushed, this`heartbeatArmed, chaos, outbox`entries
      ensures Valid() && chaos.held.None? && Kept() == old(Kept())
    {
      hide Subsequence, InputOf, OutputOf, Generated;
      var released := chaos.FlushHeld();
      Push(released);
      assert Kept() == old(Kept());
    }

    method SayFarewell()
      requires Valid() && stopped && chaos.held.None?
      modifies this`dropped, this`pushed, this`heartbeatArmed, this`farewells, session, outbox`entries
      ensures Valid() && |session.generated| == |old(session.generated)| + 1 && old(session.generated) <= session.generated
      ensures var last := session.generated[|session.generated| - 1];
        && last.payload == StatusPayload(Offline)
        && pushed == old(pushed) + [last] && Kept() == old(Kept()) + [last]
    {
      hide Subsequence, InputOf, OutputOf, Generated;
      ghost var kept, before := Kept(), session.generated;
      var messages := session.Farewell();
      GeneratedMore(kept, before, messages);
      farewells := farewells + messages;
      assert Kept() == kept + messages;
      Push(messages);
      assert messages == [messages[0]] && session.generated[|session.generated| - 1] == messages[0];
    }

    /** Transport loss keeps the session and the outbox; a power cycle loses what was in memory. */
    method OnConnectionChaos(mode: ConnectionChaos)
      requires Valid()
      modifies this, session, chaos, outbox, connection
      ensures Valid() && stopped == old(stopped) && connection.wire == old(connection.wire)
      ensures old(session.generated) <= session.generated
      ensures !stopped && mode.Disconnect? ==>
        && Kept() == old(Kept()) && session.generated == old(session.generated) && chaos.held.None?
        && pushed == old(pushed) + (if old(chaos.held).Some? then old(chaos.held).value else [])
      ensures !stopped && mode.Restart? ==>
        && session.sessionId > old(session.sessionId)
        && cleared == old(cleared) + |old(outbox.entries)|
        && |session.generated| == |old(session.generated)| + 1
        && session.generated[|old(session.generated)|].payload == StatusPayload(Online)
        && Kept() == InputOf(old(chaos.plan)) + session.generated[|old(session.generated)|..]
      ensures stopped ==> Kept() == old(Kept()) && session.generated == old(session.generated) && reconnects == old(reconnects)
      ensures !stopped ==> reconnects == old(reconnects) + 1
    {
      hide Subsequence, InputOf, OutputOf, Generated;
      if stopped {
        return;
      }
      reconnects := reconnects + 1;
      match mode
      case Disconnect => FlushAll();
      case Restart => PowerCycle();
    }

    method FlushAll()
      requires Valid() && !stopped
      modifies this`dropped, this`pushed, this`heartbeatArmed, chaos, outbox`entries
      ensures Valid() && Kept() == old(Kept()) && chaos.held.None?
      ensures pushed == old(pushed) + (if old(chaos.held).Some? then old(chaos.held).value else [])
    {
      hide Subsequence, InputOf, OutputOf, Generated;
      var released := chaos.FlushHeld();
      Push(released);
      assert Kept() == old(Kept());
    }

    method PowerCycle()
      requires Valid() && !stopped
      modifies this, session, chaos, outbox, connection
      ensures Valid() && !stopped && connection.wire == old(connection.wire) && reconnects == old(reconnects)
      ensures old(session.generated) <= session.generated && session.sessionId > old(session.sessionId)
      ensures cleared == old(cleared) + |old(outbox.entries)|
      ensures |session.generated| == |old(session.generated)| + 1
      ensures session.generated[|old(session.generated)|].payload == StatusPayload(Online)
      ensures Kept() == InputOf(old(chaos.plan)) + session.generated[|old(session.generated)|..]
    {
      hide Subsequence, InputOf, OutputOf, Generated;
      LoseMemory();
      ghost var kept, before := Kept(), session.generated;
      assert kept == InputOf(chaos.plan) + chaos.HeldBack();
      var messages := session.Restart();
      GeneratedMore(kept, before, messages);
      Generate(messages);
    }

    method LoseMemory()
      requires Valid() && !stopped
      modifies this`cleared, chaos`held, outbox`entries
      ensures Sound() && chaos.held.None? && outbox.entries == [] && cleared == old(cleared) + |old(outbox.entries)|
      ensures Kept() == InputOf(old(chaos.plan))
    {
      hide Subsequence, InputOf, OutputOf, Generated;
      assert Kept() == InputOf(chaos.plan) + chaos.HeldBack();
      SubsequencePrefix(InputOf(chaos.plan), chaos.HeldBack(), session.generated);
      chaos.ClearHeld();
      assert Kept() == InputOf(chaos.plan);
      SubsequencePrefix(connection.wire, outbox.entries, pushed);
      cleared := cleared + |outbox.entries|;
      outbox.Clear();
      assert connection.wire + outbox.entries == connection.wire;
    }
  }

  // ---------- What reaches the wire ----------

  lemma EvictionKeepsOrder(written: seq<Message>, before: seq<Message>, evicted: Message, after: seq<Message>, pushed: seq<Message>)
    requires Subsequence(written + before, pushed) && Evicts(before, evicted, after)
    ensures Subsequence(written + after, pushed) && |after| == |before| - 1
  {
    hide Subsequence, IsVictim;
    var k: nat :| k < |before| && IsVictim(before, k) && evicted == before[k] && after == before[..k] + before[k + 1..];
    SkippedKeepsOrder(written, before, k, pushed);
  }

  lemma SkippedKeepsOrder(written: seq<Message>, before: seq<Message>, k: nat, pushed: seq<Message>)
    requires Subsequence(written + before, pushed) && k < |before|
    ensures Subsequence(written + (before[..k] + before[k + 1..]), pushed)
  {
    hide Subsequence;
    SubsequenceWithout(written + before, pushed, |written| + k);
    assert (written + before)[..|written| + k] + (written + before)[|written| + k + 1..]
        == written + (before[..k] + before[k + 1..]);
  }

  /** Whatever reaches the wire was generated by this device's session. */
  lemma WrittenWasGenerated(d: DeviceClient, m: Message)
    requires d.Valid() && m in d.connection.wire
    ensures m in d.session.generated
  {
    hide Subsequence, InputOf, OutputOf, Generated;
    var queued := d.connection.wire + d.outbox.entries;
    var i :| 0 <= i < |d.connection.wire| && d.connection.wire[i] == m;
    assert queued[i] == m;
    SubsequenceIn(queued, d.pushed, i);
    OutComesIn(d.chaos.plan, m);
    assert m in d.Kept();
    var k :| 0 <= k < |d.Kept()| && d.Kept()[k] == m;
    SubsequenceIn(d.Kept(), d.session.generated, k);
  }

  /**
   * What survives of a device's messages, delivered in any order and any number of times, leaves each
   * section at the one generated last among them, and `lastEvent` at the last of all.
   */
  lemma LatestSurvivorWins(deviceId: string, generated: seq<Message>, deliveries: seq<Delivery>)
    requires Generated(deviceId, generated) && forall x <- deliveries :: x.message in generated
    ensures var d := MergeAll(EMPTY_DOC, deliveries);
      && (forall t: EventType, i: nat :: IsLastSurvivor(generated, deliveries, t, i) ==>
            t in d.sections && d.sections[t] == SectionOf(generated[i], d.sections[t].receivedAt))
      && (forall i: nat :: IsLastOfAll(generated, deliveries, i) ==>
            d.lastEvent.Some? && d.lastEvent.value == LastEventOf(generated[i], d.lastEvent.value.receivedAt))
  {
    MergeAllSummarizes(deliveries);
    var d := MergeAll(EMPTY_DOC, deliveries);
    forall t: EventType, i: nat | IsLastSurvivor(generated, deliveries, t, i)
      ensures t in d.sections && d.sections[t] == SectionOf(generated[i], d.sections[t].receivedAt) {
      LastSurvivorSection(deviceId, generated, deliveries, d, t, i);
    }
    forall i: nat | IsLastOfAll(generated, deliveries, i)
      ensures d.lastEvent.Some? && d.lastEvent.value == LastEventOf(generated[i], d.lastEvent.value.receivedAt) {
      LastSurvivorEvent(deviceId, generated, deliveries, d, i);
    }
  }

  /** The one of its type that was generated last among those delivered. */
  ghost predicate IsLastSurvivor(generated: seq<Message>, deliveries: seq<Delivery>, t: EventType, i: nat) {
    && i < |generated| && generated[i].Type() == t && generated[i] in Messages(deliveries)
    && forall j :: i < j < |generated| && generated[j].Type() == t ==> generated[j] !in Messages(deliveries)
  }

  ghost predicate IsLastOfAll(generated: seq<Message>, deliveries: seq<Delivery>, i: nat) {
    && i < |generated| && generated[i] in Messages(deliveries)
    && forall j :: i < j < |generated| ==> generated[j] !in Messages(deliveries)
  }

  /** Among delivered messages, one that is not generated before `i` and is not newer is the one at `i`. */
  lemma NotNewerIsSame(deviceId: string, generated: seq<Message>, i: nat, j: nat)
    requires Generated(deviceId, generated) && i < |generated| && j <= i && !IsNewer(generated[i].key, generated[j].key)
    ensures j == i
  {
    if j < i {
      KeysIncrease(deviceId, generated, j, i);
    }
  }

  lemma LastSurvivorSection(deviceId: string, generated: seq<Message>, deliveries: seq<Delivery>, d: DeviceDoc, t: EventType, i: nat)
    requires Generated(deviceId, generated) && forall x <- deliveries :: x.message in generated
    requires Summarizes(d, Messages(deliveries)) && IsLastSurvivor(generated, deliveries, t, i)
    ensures t in d.sections && d.sections[t] == SectionOf(generated[i], d.sections[t].receivedAt)
  {
    var messages := Messages(deliveries);
    assert SectionSummarizes(d, t, messages);
    var m :| m in messages && m.Type() == t && d.sections[t] == SectionOf(m, d.sections[t].receivedAt);
    var x :| x in deliveries && x.message == m;
    var j :| 0 <= j < |generated| && generated[j] == m;
    NotNewerIsSame(deviceId, generated, i, j);
  }

  lemma LastSurvivorEvent(deviceId: string, generated: seq<Message>, deliveries: seq<Delivery>, d: DeviceDoc, i: nat)
    requires Generated(deviceId, generated) && forall x <- deliveries :: x.message in generated
    requires Summarizes(d, Messages(deliveries)) && IsLastOfAll(generated, deliveries, i)
    ensures d.lastEvent.Some? && d.lastEvent.value == LastEventOf(generated[i], d.lastEvent.value.receivedAt)
  {
    var messages := Messages(deliveries);
    var e := d.lastEvent.value;
    var m :| m in messages && e == LastEventOf(m, e.receivedAt);
    var x :| x in deliveries && x.message == m;
    var j :| 0 <= j < |generated| && generated[j] == m;
    NotNewerIsSame(deviceId, generated, i, j);
  }
}
