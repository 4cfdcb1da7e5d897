/** What the consumer tells the broker over every run: each delivery at most once, and every one is counted. */
module ConsumerSettlement {
  import opened Telemetry
  import opened ConsumerState
  import opened Consumers
  import opened ConsumerRuns
  import H = Handler

  // ---------- The invariant ----------

  ghost predicate Settled(log: seq<Settlement>, generation: nat, tag: nat) {
    exists e <- log :: e.generation == generation && e.tag == tag
  }

  ghost predicate Distinct(tags: seq<nat>) {
    forall i, j :: 0 <= i < j < |tags| ==> tags[i] != tags[j]
  }

  /** No delivery appears twice in what was sent to the broker, and each of them came. */
  ghost predicate LogOk(log: seq<Settlement>, delivered: set<(nat, nat)>) {
    && (forall i, j :: 0 <= i < j < |log| ==> log[i].generation != log[j].generation || log[i].tag != log[j].tag)
    && (forall e <- log :: (e.generation, e.tag) in delivered)
  }

  /** What a registration holds came, is not settled, and covers the running handlers while it is live. */
  ghost predicate HeldOk(registration: Registration, log: seq<Settlement>, delivered: set<(nat, nat)>) {
    && Distinct(registration.held)
    && (forall tag <- registration.held ::
          (registration.generation, tag) in delivered && !Settled(log, registration.generation, tag))
    && (forall tag <- registration.running :: (registration.generation, tag) in delivered)
    && (registration.live ==> forall tag <- registration.running :: tag in registration.held)
  }

  ghost predicate NoShared(a: Registration, b: Registration) {
    a.generation == b.generation ==> forall tag <- a.held :: tag !in b.held
  }

  ghost predicate HoldingsOk(c: Consumer) {
    && LogOk(c.log, c.delivered)
    && (forall r :: 0 <= r < |c.registrations| ==> HeldOk(c.registrations[r], c.log, c.delivered))
    && NoneShared(c.registrations)
  }

  ghost predicate NoneShared(registrations: seq<Registration>) {
    forall q, r :: 0 <= q < |registrations| && 0 <= r < |registrations| && q != r ==> NoShared(registrations[q], registrations[r])
  }

  function RunningIn(registrations: seq<Registration>): nat {
    if registrations == [] then 0
    else RunningIn(registrations[..|registrations| - 1]) + |registrations[|registrations| - 1].running|
  }

  function NackedIn(log: seq<Settlement>): nat {
    if log == [] then 0 else NackedIn(log[..|log| - 1]) + if log[|log| - 1].kind.Nack? then 1 else 0
  }

  /** Every delivery received is settled one way or another, or still in flight. */
  ghost predicate CountsOk(c: Consumer) {
    var n := c.counters;
    && c.inFlight == RunningIn(c.registrations)
    && n.received == n.acked + n.rejected + n.failed + n.abandoned + c.inFlight
    && n.acked == n.created + n.applied + n.stale
    && n.returned == NackedIn(c.log)
  }

  ghost predicate SettleOk(c: Consumer) {
    HoldingsOk(c) && CountsOk(c)
  }

  // ---------- Steps that settle nothing ----------

  ghost predicate SameHeld(a: Registration, b: Registration) {
    b.generation == a.generation && b.held == a.held && b.running == a.running && (b.live ==> a.live)
  }

  /** Nothing held, settled or counted changes, and no registration comes back to life. */
  ghost predicate SameHoldings(c: Consumer, c': Consumer) {
    && c'.log == c.log && c'.delivered == c.delivered && c'.counters == c.counters && c'.inFlight == c.inFlight
    && |c'.registrations| == |c.registrations|
    && forall r :: 0 <= r < |c.registrations| ==> SameHeld(c.registrations[r], c'.registrations[r])
  }

  /** The same, or one more registration that holds nothing yet. */
  ghost predicate KeepsHoldings(c: Consumer, c': Consumer) {
    || SameHoldings(c, c')
    || (c'.registrations != [] && c'.registrations[|c'.registrations| - 1].held == []
        && c'.registrations[|c'.registrations| - 1].running == {}
        && c' == c.(registrations := c.registrations + [c'.registrations[|c'.registrations| - 1]],
                    queue := c'.queue, await := c'.await))
  }

  lemma {:induction false} RunningOfSame(a: seq<Registration>, b: seq<Registration>)
    requires |a| == |b| && forall r :: 0 <= r < |a| ==> a[r].running == b[r].running
    ensures RunningIn(a) == RunningIn(b)
  {
    if a != [] {
      RunningOfSame(a[..|a| - 1], b[..|b| - 1]);
    }
  }

  lemma {:induction false} RunningAt(registrations: seq<Registration>, r: nat, next: Registration)
    requires r < |registrations|
    ensures RunningIn(registrations) >= |registrations[r].running|
    ensures RunningIn(registrations[r := next]) == RunningIn(registrations) - |registrations[r].running| + |next.running|
  {
    var n := |registrations| - 1;
    if r == n {
      assert registrations[r := next][..n] == registrations[..n];
    } else {
      assert registrations[r := next][..n] == registrations[..n][r := next];
      RunningAt(registrations[..n], r, next);
    }
  }

  lemma SameHoldingsKeepsOk(c: Consumer, c': Consumer)
    requires SettleOk(c) && SameHoldings(c, c')
    ensures SettleOk(c')
  {
    RunningOfSame(c.registrations, c'.registrations);
    hide RunningIn, NackedIn, LogOk, Settled;
  }

  lemma KeepsHoldingsKeepsOk(c: Consumer, c': Consumer)
    requires SettleOk(c) && KeepsHoldings(c, c')
    ensures SettleOk(c')
  {
    if SameHoldings(c, c') {
      SameHoldingsKeepsOk(c, c');
    } else {
      assert c'.registrations[..|c.registrations|] == c.registrations;
      hide NackedIn, LogOk, Settled;
    }
  }

  // ---------- A delivery comes ----------

  lemma MoreDelivered(registration: Registration, log: seq<Settlement>, delivered: set<(nat, nat)>, more: set<(nat, nat)>)
    requires HeldOk(registration, log, delivered) && delivered <= more
    ensures HeldOk(registration, log, more)
  {
    hide Settled;
  }

  /** A tag that never came on this channel is nowhere yet. */
  lemma FreshTag(c: Consumer, generation: nat, tag: nat)
    requires HoldingsOk(c) && (generation, tag) !in c.delivered
    ensures !Settled(c.log, generation, tag)
    ensures forall q :: 0 <= q < |c.registrations| && c.registrations[q].generation == generation ==>
              tag !in c.registrations[q].held && tag !in c.registrations[q].running
  {
    forall q | 0 <= q < |c.registrations| && c.registrations[q].generation == generation
      ensures tag !in c.registrations[q].held && tag !in c.registrations[q].running {
      assert HeldOk(c.registrations[q], c.log, c.delivered);
    }
  }

  lemma MoreHeld(registrations: seq<Registration>, r: nat, next: Registration, tag: nat)
    requires NoneShared(registrations) && r < |registrations| && next.generation == registrations[r].generation
    requires next.held == registrations[r].held + [tag]
    requires forall q :: 0 <= q < |registrations| && registrations[q].generation == next.generation ==> tag !in registrations[q].held
    ensures NoneShared(registrations[r := next])
  {
    var after := registrations[r := next];
    forall p, q | 0 <= p < |after| && 0 <= q < |after| && p != q ensures NoShared(after[p], after[q]) {
      assert NoShared(registrations[p], registrations[q]);
    }
  }

  lemma DeliveryKeepsHoldings(c: Consumer, r: nat, tag: nat)
    requires HoldingsOk(c) && r < |c.registrations| && (c.registrations[r].generation, tag) !in c.delivered
    ensures HoldingsOk(DeliveryCame(c, r, tag))
  {
    var g, c' := c.registrations[r].generation, DeliveryCame(c, r, tag);
    FreshTag(c, g, tag);
    hide Settled;
    forall q | 0 <= q < |c.registrations| ensures HeldOk(c'.registrations[q], c'.log, c'.delivered) {
      MoreDelivered(c.registrations[q], c.log, c.delivered, c'.delivered);
    }
    hide HeldOk, NoneShared;
    if c.registrations[r].live {
      MoreHeld(c.registrations, r, c'.registrations[r], tag);
    }
  }

  lemma DeliveryKeepsCounts(c: Consumer, r: nat, tag: nat)
    requires CountsOk(c) && r < |c.registrations| && tag !in c.registrations[r].running
    ensures CountsOk(DeliveryCame(c, r, tag))
  {
    RunningAt(c.registrations, r, DeliveryCame(c, r, tag).registrations[r]);
  }

  lemma DeliveryKeepsOk(c: Consumer, r: nat, tag: nat)
    requires SettleOk(c) && r < |c.registrations| && (c.registrations[r].generation, tag) !in c.delivered
    ensures SettleOk(DeliveryCame(c, r, tag))
  {
    FreshTag(c, c.registrations[r].generation, tag);
    hide HoldingsOk, CountsOk;
    DeliveryKeepsHoldings(c, r, tag);
    DeliveryKeepsCounts(c, r, tag);
  }

  // ---------- A handler finishes ----------

  /** The handler is no longer in flight; nothing is settled yet. */
  function Finished(c: Consumer, r: nat, tag: nat, result: H.HandlerResult): Consumer
    requires r < |c.registrations| && c.inFlight > 0
  {
    c.(counters := CountedResult(c.counters, result), inFlight := c.inFlight - 1,
       registrations := c.registrations[r := c.registrations[r].(running := c.registrations[r].running - {tag})])
  }

  lemma CountedOnce(n: Stats, result: H.HandlerResult)
    ensures var n' := CountedResult(n, result);
      && n'.received == n.received && n'.returned == n.returned
      && n'.acked + n'.rejected + n'.failed + n'.abandoned == n.acked + n.rejected + n.failed + n.abandoned + 1
      && n'.acked - n'.created - n'.applied - n'.stale == n.acked - n.created - n.applied - n.stale
  {
  }

  lemma FinishKeepsOk(c: Consumer, r: nat, tag: nat, result: H.HandlerResult)
    requires SettleOk(c) && r < |c.registrations| && tag in c.registrations[r].running && c.inFlight > 0
    ensures SettleOk(Finished(c, r, tag, result))
  {
    var c' := Finished(c, r, tag, result);
    RunningAt(c.registrations, r, c'.registrations[r]);
    CountedOnce(c.counters, result);
    hide RunningIn, NackedIn, CountedResult, LogOk, Settled;
  }

  lemma NackedOne(log: seq<Settlement>, e: Settlement)
    ensures NackedIn(log + [e]) == NackedIn(log) + if e.kind.Nack? then 1 else 0
  {
    assert (log + [e])[..|log|] == log;
  }

  lemma {:induction false} DistinctWithout(held: seq<nat>, tag: nat)
    requires Distinct(held)
    ensures Distinct(Without(held, tag))
  {
    if held != [] {
      var tail := held[1..];
      DistinctWithout(tail, tag);
      var rest := Without(tail, tag);
      forall j | 0 <= j < |rest| ensures rest[j] != held[0] {
        assert rest[j] in tail;
      }
    }
  }

  /** The log with one more settlement of a delivery that was held. */
  lemma LogGrows(c: Consumer, r: nat, tag: nat, kind: SettleKind)
    requires HoldingsOk(c) && r < |c.registrations| && tag in c.registrations[r].held
    ensures LogOk(c.log + [Settlement(kind, c.registrations[r].generation, tag)], c.delivered)
  {
    var g := c.registrations[r].generation;
    assert HeldOk(c.registrations[r], c.log, c.delivered);
    forall e <- c.log ensures e.generation != g || e.tag != tag {
    }
  }

  /** An ack or a reject of a delivery the live registration holds. */
  lemma AcknowledgeKeepsOk(c: Consumer, r: nat, tag: nat, kind: SettleKind, sent: bool)
    requires SettleOk(c) && r < |c.registrations| && !kind.Nack?
    requires c.registrations[r].live ==> tag in c.registrations[r].held && tag !in c.registrations[r].running
    ensures SettleOk(Acknowledged(c, r, tag, kind, sent))
  {
    if c.registrations[r].live {
      var c', g := Acknowledged(c, r, tag, kind, sent), c.registrations[r].generation;
      RunningAt(c.registrations, r, c'.registrations[r]);
      NackedOne(c.log, Settlement(kind, g, tag));
      LogGrows(c, r, tag, kind);
      DistinctWithout(c.registrations[r].held, tag);
      hide RunningIn, NackedIn, Distinct;
      assert Distinct(c'.registrations[r].held);
      forall q | 0 <= q < |c'.registrations| ensures HeldOk(c'.registrations[q], c'.log, c'.delivered) {
        assert HeldOk(c.registrations[q], c.log, c.delivered);
        if q != r {
          assert NoShared(c.registrations[r], c.registrations[q]);
        }
      }
      forall p, q | 0 <= p < |c'.registrations| && 0 <= q < |c'.registrations| && p != q
        ensures NoShared(c'.registrations[p], c'.registrations[q]) {
        assert NoShared(c.registrations[p], c.registrations[q]);
      }
    }
  }

  // ---------- What is held is returned ----------

  lemma {:induction false} NackedAll(log: seq<Settlement>, held: seq<nat>, g: nat)
    ensures NackedIn(log + Nacks(held, g)) == NackedIn(log) + |held|
  {
    if held == [] {
      assert log + Nacks(held, g) == log;
    } else {
      var n := |held| - 1;
      assert log + Nacks(held, g) == (log + Nacks(held[..n], g)) + [Settlement(Nack, g, held[n])];
      NackedOne(log + Nacks(held[..n], g), Settlement(Nack, g, held[n]));
      NackedAll(log, held[..n], g);
    }
  }

  lemma NackedLogOk(registration: Registration, log: seq<Settlement>, delivered: set<(nat, nat)>, n: nat)
    requires LogOk(log, delivered) && HeldOk(registration, log, delivered) && n <= |registration.held|
    ensures LogOk(log + Nacks(registration.held[..n], registration.generation), delivered)
  {
    var held, g := registration.held[..n], registration.generation;
    var log' := log + Nacks(held, g);
    forall k | 0 <= k < n ensures held[k] in registration.held {
    }
    forall i, j | 0 <= i < j < |log'| ensures log'[i].generation != log'[j].generation || log'[i].tag != log'[j].tag {
      if i < |log| && j >= |log| {
        assert held[j - |log|] in registration.held;
        assert log[i] in log;
      }
    }
    forall e <- log' ensures (e.generation, e.tag) in delivered {
      var i :| 0 <= i < |log'| && log'[i] == e;
      if i >= |log| {
        assert held[i - |log|] in registration.held;
      }
    }
  }

  /** A delivery of another registration is not among those nacked. */
  lemma OthersUnsettled(other: Registration, registration: Registration, log: seq<Settlement>, delivered: set<(nat, nat)>, n: nat)
    requires HeldOk(other, log, delivered) && NoShared(registration, other) && n <= |registration.held|
    ensures HeldOk(other, log + Nacks(registration.held[..n], registration.generation), delivered)
  {
    var held, g := registration.held[..n], registration.generation;
    var log' := log + Nacks(held, g);
    forall tag <- other.held, e <- log' ensures e.generation != other.generation || e.tag != tag {
      var i :| 0 <= i < |log'| && log'[i] == e;
      if i >= |log| {
        assert held[i - |log|] in registration.held;
      } else {
        assert log[i] in log;
      }
    }
  }

  lemma ReturnKeepsOk(c: Consumer, count: nat)
    requires SettleOk(c) && c.await.Some? && c.await.value.Returning? && c.await.value.r < |c.registrations|
    ensures SettleOk(Returned(c, count))
  {
    var r, c' := c.await.value.r, Returned(c, count);
    var registration, n := c.registrations[r], NackCount(c, r, c.await.value.generation, count);
    RunningAt(c.registrations, r, c'.registrations[r]);
    NackedAll(c.log, registration.held[..n], registration.generation);
    NackedLogOk(registration, c.log, c.delivered, n);
    hide RunningIn, NackedIn, LogOk, Settled, Nacks;
    forall q | 0 <= q < |c'.registrations| ensures HeldOk(c'.registrations[q], c'.log, c'.delivered) {
      if q != r {
        assert NoShared(c.registrations[r], c.registrations[q]);
        OthersUnsettled(c.registrations[q], registration, c.log, c.delivered, n);
      }
    }
    forall p, q | 0 <= p < |c'.registrations| && 0 <= q < |c'.registrations| && p != q
      ensures NoShared(c'.registrations[p], c'.registrations[q]) {
      assert NoShared(c.registrations[p], c.registrations[q]);
    }
  }

  // ---------- Every step ----------

  lemma SameThenSame(a: Consumer, b: Consumer, c: Consumer)
    requires SameHoldings(a, b) && SameHoldings(b, c)
    ensures SameHoldings(a, c)
  {
  }

  /** A change of anything but the registrations and what is settled and counted, and then an event. */
  lemma DispatchHolds(c: Consumer, b: Consumer, e: Event)
    requires SameHoldings(c, b)
    ensures SameHoldings(c, Dispatch(b, e))
  {
    hide Next;
    SameThenSame(c, b, Dispatch(b, e));
  }

  lemma LinkEndHolds(c: Consumer, generation: nat, connection: bool, reason: string, now: int)
    ensures SameHoldings(c, LinkEnded(c, generation, connection, reason, now))
  {
    hide Dispatch;
    var seen := if connection then c.(closed := c.closed + {generation}) else c;
    if generation == c.state.generation {
      UnlinkHolds(c, seen);
      DispatchHolds(c, Unlinked(seen), LinkClosed(generation, reason, now));
    }
  }

  lemma UnlinkHolds(c: Consumer, seen: Consumer)
    requires seen == c.(closed := seen.closed)
    ensures SameHoldings(c, Unlinked(seen))
  {
  }

  lemma ReplyHolds(c: Consumer, reply: Reply, now: int)
    requires c.await.Some? && c.await.value.Replying? && c.await.value.r < |c.registrations|
    ensures SameHoldings(c, Replied(c, reply, now))
  {
    hide Dispatch, LinkEnded;
    var r, ended := c.await.value.r, c.(await := None);
    var g := c.registrations[r].generation;
    var tagged := ended.(registrations := ended.registrations[r := c.registrations[r].(tagged := true)]);
    DispatchHolds(c, tagged.(paused := false), ConsumerRegistered(g));
    LinkEndHolds(Voided(ended, r), g, false, "consume_timed_out", now);
    if reply.TimedOut? {
      SameThenSame(c, Voided(ended, r), Replied(c, reply, now));
    }
  }

  lemma EffectHolds(c: Consumer)
    requires c.await.None? && c.queue != []
    ensures KeepsHoldings(c, EffectBegun(c))
  {
    hide SameHoldings;
    if c.queue[0].effect.Consume? {
      ConsumeHolds(c, c.(queue := c.queue[1..]), c.queue[0].generation);
    } else if c.queue[0].effect.AbortHandlers? || c.queue[0].effect.CloseLink? {
      LastChangeHolds(c, EffectBegun(c));
    } else {
      SameRegistrationsHold(c, EffectBegun(c));
    }
  }

  lemma ConsumeHolds(c: Consumer, rest: Consumer, g: nat)
    requires rest == c.(queue := rest.queue)
    ensures KeepsHoldings(c, ConsumeBegun(rest, g))
  {
    hide SameHoldings;
    if rest.link != Some(g) || CurrentLive(rest) {
      SameRegistrationsHold(c, ConsumeBegun(rest, g));
    }
  }

  lemma SameRegistrationsHold(c: Consumer, c': Consumer)
    requires c'.log == c.log && c'.delivered == c.delivered && c'.counters == c.counters && c'.inFlight == c.inFlight
    requires c'.registrations == c.registrations
    ensures SameHoldings(c, c')
  {
  }

  lemma LastChangeHolds(c: Consumer, c': Consumer)
    requires c'.log == c.log && c'.delivered == c.delivered && c'.counters == c.counters && c'.inFlight == c.inFlight
    requires c'.registrations == CurrentVoided(c).registrations || c'.registrations == CurrentAborted(c).registrations
    ensures SameHoldings(c, c')
  {
  }

  lemma StopHolds(c: Consumer, s: Step)
    requires s.StopCalled? || s.DrainEnds?
    ensures SameHoldings(c, After(c, s))
  {
    hide Dispatch;
    if s.StopCalled? {
      DispatchHolds(c, c.(timers := if c.timers == [] then [] else c.timers[..|c.timers| - 1]), Stop);
    } else if c.draining.Some? {
      var drained := Dispatch(c.(draining := None), Drained(c.draining.value));
      DispatchHolds(c, c.(draining := None), Drained(c.draining.value));
      assert SameHoldings(drained, LinkDropped(CurrentAborted(drained)));
      SameThenSame(c, drained, LinkDropped(CurrentAborted(drained)));
    }
  }

  lemma EventHolds(c: Consumer, s: Step)
    requires s.AttemptEnds? || s.TimerFires? || s.WatchEnds? || s.StoreReports? || s.Starts?
    ensures SameHoldings(c, After(c, s))
  {
    hide Dispatch;
    match s
    case Starts => DispatchHolds(c, c, BackoffElapsed(c.state.generation));
    case AttemptEnds(i, _, reason, now) =>
      if i < |c.attempts| {
        var ended := c.(attempts := c.attempts[..i] + c.attempts[i + 1..]);
        DispatchHolds(c, ended.(link := Some(c.attempts[i])), LinkOpened(c.attempts[i], now));
        DispatchHolds(c, ended, LinkFailed(c.attempts[i], reason));
      }
    case TimerFires(i) =>
      if i < |c.timers| {
        DispatchHolds(c, c.(timers := c.timers[..i] + c.timers[i + 1..]), BackoffElapsed(c.timers[i]));
      }
    case WatchEnds(_) => DispatchHolds(c, c.(watching := false), StoreReady);
    case StoreReports => DispatchHolds(c, c, StoreReady);
  }

  lemma EndHolds(c: Consumer, s: Step)
    requires s.LinkEnds? || s.Cancels? || s.CancelSettled? || s.CloseSettled?
    ensures SameHoldings(c, After(c, s))
  {
    hide Dispatch, LinkEnded;
    if s.LinkEnds? {
      LinkEndHolds(c, s.generation, s.connection, s.reason, s.now);
    } else if s.Cancels? && s.r < |c.registrations| && c.registrations[s.r].live {
      DispatchHolds(c, Voided(c, s.r), BrokerCancelled(c.registrations[s.r].generation));
    }
  }

  lemma OthersHold(c: Consumer, s: Step)
    requires Enabled(c, s) && !s.Handles? && !s.HandlersSettled? && !s.Delivers?
    ensures KeepsHoldings(c, After(c, s))
  {
    hide EffectBegun, Replied, SameHoldings;
    if s.EffectRuns? {
      EffectHolds(c);
    } else if s.ReplyCame? {
      if c.await.value.r < |c.registrations| {
        ReplyHolds(c, s.reply, s.now);
      } else {
        NothingHolds(c);
      }
    } else if s.LinkEnds? || s.Cancels? || s.CancelSettled? || s.CloseSettled? {
      hide After;
      EndHolds(c, s);
    } else if s.StopCalled? || s.DrainEnds? {
      hide After;
      StopHolds(c, s);
    } else {
      hide After;
      EventHolds(c, s);
    }
  }

  lemma NothingHolds(c: Consumer)
    ensures SameHoldings(c, c)
  {
  }

  lemma HandleKeepsOk(c: Consumer, r: nat, tag: nat, result: H.HandlerResult, sent: bool)
    requires SettleOk(c) && r < |c.registrations| && tag in c.registrations[r].running
    ensures c.inFlight > 0 && SettleOk(HandlerEnded(c, r, tag, result, sent))
  {
    RunningAt(c.registrations, r, c.registrations[r]);
    assert HeldOk(c.registrations[r], c.log, c.delivered);
    FinishKeepsOk(c, r, tag, result);
    var done := Finished(c, r, tag, result);
    hide SettleOk, Next;
    match result
    case AckVerdict(_, _, _, _, _) => AcknowledgeKeepsOk(done, r, tag, Ack, sent);
    case Reject(_, _) => AcknowledgeKeepsOk(done, r, tag, SettleKind.Reject, sent);
    case Abandon(_, _) =>
      NothingHolds(done);
      DispatchHolds(done, done, StoreUnavailable);
      SameHoldingsKeepsOk(done, Dispatch(done, StoreUnavailable));
  }

  lemma StepKeepsSettled(c: Consumer, s: Step)
    requires SettleOk(c) && Enabled(c, s)
    ensures SettleOk(After(c, s))
    ensures s.Handles? ==> c.inFlight > 0
  {
    if s.Delivers? {
      DeliveryKeepsOk(c, s.r, s.tag);
    } else if s.Handles? {
      HandleKeepsOk(c, s.r, s.tag, s.result, s.sent);
    } else if s.HandlersSettled? {
      ReturnKeepsOk(c, s.count);
    } else {
      hide SettleOk, After, KeepsHoldings;
      OthersHold(c, s);
      KeepsHoldingsKeepsOk(c, After(c, s));
    }
  }

  // ---------- Every run ----------

  ghost predicate Inv(c: Consumer) {
    LifeOk(c) && SettleOk(c)
  }

  /** Every step keeps both invariants; a handler that ends was in flight. */
  lemma StepKeepsInv(c: Consumer, s: Step)
    requires Inv(c) && Enabled(c, s)
    ensures Inv(After(c, s)) && (s.Handles? ==> c.inFlight > 0)
  {
    hide After, Enabled, LifeOk, SettleOk;
    StepKeepsSettled(c, s);
    StepKeepsLife(c, s);
  }

  ghost function Final(steps: seq<Step>): Consumer
    decreases |steps|
  {
    if steps == [] then NEW_CONSUMER else After(Final(steps[..|steps| - 1]), steps[|steps| - 1])
  }

  ghost predicate IsRun(steps: seq<Step>)
    decreases |steps|
  {
    steps == [] || (IsRun(steps[..|steps| - 1]) && Enabled(Final(steps[..|steps| - 1]), steps[|steps| - 1]))
  }

  lemma NewLifeIsOk()
    ensures LifeOk(NEW_CONSUMER)
  {
    assert PendingJobs(NEW_CONSUMER) == [];
  }

  lemma NewIsOk()
    ensures Inv(NEW_CONSUMER)
  {
    NewLifeIsOk();
    NothingSettled(NEW_CONSUMER);
    hide LifeOk, SettleOk;
  }

  lemma NothingSettled(c: Consumer)
    requires c.log == [] && c.registrations == [] && c.counters == NO_COUNTS && c.inFlight == 0
    ensures SettleOk(c)
  {
  }

  lemma {:induction false} RunKeepsInv(steps: seq<Step>)
    requires IsRun(steps)
    ensures Inv(Final(steps))
    decreases |steps|
  {
    hide LifeOk, SettleOk, After, Enabled;
    NewIsOk();
    if steps != [] {
      var front, last := steps[..|steps| - 1], steps[|steps| - 1];
      RunKeepsInv(front);
      StepKeepsInv(Final(front), last);
    }
  }

  /**
   * In every run at most one registration is live: the last one, on the current link. The queue never
   * asks for another while it is: the guard against a second one is never reached.
   */
  lemma OneLiveRegistration(steps: seq<Step>)
    requires IsRun(steps)
    ensures var c := Final(steps);
      && !c.collided
      && (forall r :: 0 <= r < |c.registrations| && c.registrations[r].live ==>
            r == |c.registrations| - 1 && c.link == Some(c.registrations[r].generation))
      && (c.await.None? && c.queue != [] && c.queue[0].effect.Consume? && c.link == Some(c.queue[0].generation) ==>
            !CurrentLive(c))
  {
    RunKeepsInv(steps);
    var c := Final(steps);
    hide Final, IsRun, SettleOk;
    if c.await.None? && c.queue != [] && c.queue[0].effect.Consume? {
      ConsumeKeepsLife(c);
    }
  }

  /**
   * In every run an open consumer has its link, and once the queue is done its status is the truth:
   * it is active exactly when its registration is live.
   */
  lemma ActiveMeansRegistered(steps: seq<Step>)
    requires IsRun(steps) && Final(steps).state.Open?
    ensures var c := Final(steps);
      && c.link == Some(c.state.generation)
      && (IsConsuming(c.state) <==> c.state.consumer.Active?)
      && (c.state.consumer.Idle? ==> !c.state.storeReady)
      && (c.state.consumer.Active? ==> CurrentLive(c))
      && (c.await.None? && c.queue == [] && CurrentLive(c) ==> c.state.consumer.Active?)
  {
    RunKeepsInv(steps);
    hide Final, IsRun, SettleOk, JobsOk;
  }

  /** In every run: one settlement per delivery at most, and each is of a delivery that came. */
  lemma SettledOnce(steps: seq<Step>)
    requires IsRun(steps)
    ensures var c := Final(steps);
      && (forall i, j :: 0 <= i < j < |c.log| ==> c.log[i].generation != c.log[j].generation || c.log[i].tag != c.log[j].tag)
      && (forall e <- c.log :: (e.generation, e.tag) in c.delivered)
  {
    RunKeepsInv(steps);
    hide Final, IsRun, LifeOk, CountsOk;
  }

  /** In every run every delivery received has one verdict or is still in flight. */
  lemma CountersConserve(steps: seq<Step>)
    requires IsRun(steps)
    ensures var c, n := Final(steps), Final(steps).counters;
      && n.received == n.acked + n.rejected + n.failed + n.abandoned + c.inFlight
      && n.acked == n.created + n.applied + n.stale
      && c.inFlight == RunningIn(c.registrations) && n.returned == NackedIn(c.log)
  {
    RunKeepsInv(steps);
    hide Final, IsRun, LifeOk, HoldingsOk;
  }

  /**
   * What one step of a run adds to the log: an ack or a reject only by the handler of that delivery,
   * through a registration that is live on the current link and holds it; nacks only by a return.
   */
  lemma SettledThroughLive(steps: seq<Step>, s: Step)
    requires IsRun(steps) && Enabled(Final(steps), s)
    ensures var c, c' := Final(steps), After(Final(steps), s);
      || c'.log == c.log
      || (s.HandlersSettled? && c.log <= c'.log && forall i :: |c.log| <= i < |c'.log| ==> c'.log[i].kind.Nack?)
      || (s.Handles? && c.registrations[s.r].live && s.tag in c.registrations[s.r].held
          && c.link == Some(c.registrations[s.r].generation) && !s.result.Abandon?
          && c'.log == c.log + [Settlement(if s.result.Reject? then SettleKind.Reject else Ack, c.registrations[s.r].generation, s.tag)])
  {
    RunKeepsInv(steps);
    hide Final, IsRun;
    StepLogs(Final(steps), s);
  }

  lemma StepLogs(c: Consumer, s: Step)
    requires Inv(c) && Enabled(c, s)
    ensures var c' := After(c, s);
      || c'.log == c.log
      || (s.HandlersSettled? && c.log <= c'.log && forall i :: |c.log| <= i < |c'.log| ==> c'.log[i].kind.Nack?)
      || (s.Handles? && c.registrations[s.r].live && s.tag in c.registrations[s.r].held
          && c.link == Some(c.registrations[s.r].generation) && !s.result.Abandon?
          && c'.log == c.log + [Settlement(if s.result.Reject? then SettleKind.Reject else Ack, c.registrations[s.r].generation, s.tag)])
  {
    if s.Handles? {
      StepKeepsSettled(c, s);
      hide QueueOk, JobsOk, CountsOk, LinkOk, Settled, NoneShared, LogOk, HandlerEnded;
      assert HeldOk(c.registrations[s.r], c.log, c.delivered);
      HandledLogs(c, s.r, s.tag, s.result, s.sent);
    } else if s.HandlersSettled? || s.Delivers? {
      hide Inv, HandlerEnded, NackCount;
    } else {
      hide Inv, After;
      OthersLogNothing(c, s);
    }
  }

  lemma HandledLogs(c: Consumer, r: nat, tag: nat, result: H.HandlerResult, sent: bool)
    requires r < |c.registrations| && c.inFlight > 0
    ensures var log := HandlerEnded(c, r, tag, result, sent).log;
      || log == c.log
      || (c.registrations[r].live && !result.Abandon?
          && log == c.log + [Settlement(if result.Reject? then SettleKind.Reject else Ack, c.registrations[r].generation, tag)])
  {
    hide Next, CountedResult;
  }

  lemma OthersLogNothing(c: Consumer, s: Step)
    requires Enabled(c, s) && !s.Handles? && !s.HandlersSettled? && !s.Delivers?
    ensures After(c, s).log == c.log
  {
    hide After;
    OthersHold(c, s);
  }
}
