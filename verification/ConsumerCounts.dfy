/** What the consumer sends and counts in every run, exactly: no settlement that is due is left out, and no counter is another's. */
module ConsumerCounts {
  import opened Telemetry
  import opened ConsumerState
  import opened Consumers
  import opened ConsumerRuns
  import opened ConsumerSettlement
  import H = Handler

  // ---------- What is due ----------

  /**
   * What a step must send. The end of a handler settles its delivery while the registration is live and
   * the channel takes it; a return gives back everything held, in the order it came, up to the first
   * nack that throws, unless the link is another one or its connection closed.
   */
  ghost function Due(c: Consumer, s: Step): seq<Settlement>
    requires Enabled(c, s)
  {
    match s
    case Handles(r, tag, result, sent) =>
      var registration := c.registrations[r];
      if !registration.live || !sent || result.Abandon? then []
      else [Settlement(if result.AckVerdict? then Ack else SettleKind.Reject, registration.generation, tag)]
    case HandlersSettled(count) =>
      var registration := c.registrations[c.await.value.r];
      if registration.generation != c.await.value.generation || registration.generation in c.closed then []
      else Requeued(registration.held, registration.generation, count)
    case _ => []
  }

  /** A nack with requeue for each of the first `count` tags. */
  ghost function Requeued(held: seq<nat>, generation: nat, count: nat): seq<Settlement>
    decreases count
  {
    if held == [] || count == 0 then []
    else [Settlement(Nack, generation, held[0])] + Requeued(held[1..], generation, count - 1)
  }

  lemma {:induction false} RequeuedAt(held: seq<nat>, generation: nat, count: nat)
    ensures |Requeued(held, generation, count)| == if count < |held| then count else |held|
    ensures forall i :: 0 <= i < |Requeued(held, generation, count)| ==>
              Requeued(held, generation, count)[i] == Settlement(Nack, generation, held[i])
    decreases count
  {
    if held != [] && count > 0 {
      RequeuedAt(held[1..], generation, count - 1);
    }
  }

  lemma ReturnSendsDue(c: Consumer, count: nat)
    requires Enabled(c, HandlersSettled(count))
    ensures Returned(c, count).log == c.log + Due(c, HandlersSettled(count))
    ensures Returned(c, count).counters == c.counters.(returned := c.counters.returned + |Due(c, HandlersSettled(count))|)
    ensures var r := c.await.value.r;
      Returned(c, count).registrations == c.registrations[r := c.registrations[r].(held := [], live := false)]
  {
    var r := c.await.value.r;
    var registration := c.registrations[r];
    RequeuedAt(registration.held, registration.generation, count);
    var n := NackCount(c, r, c.await.value.generation, count);
    assert Nacks(registration.held[..n], registration.generation) == Due(c, HandlersSettled(count));
  }

  lemma HandlerSendsDue(c: Consumer, s: Step)
    requires s.Handles? && Enabled(c, s) && c.inFlight > 0
    ensures After(c, s).log == c.log + Due(c, s)
  {
    hide CountedResult, Next;
  }

  lemma NothingIsDue(c: Consumer, s: Step)
    requires Enabled(c, s) && !s.Handles? && !s.HandlersSettled?
    ensures Due(c, s) == []
  {
  }

  lemma DeliverySendsNone(c: Consumer, s: Step)
    requires s.Delivers? && Enabled(c, s)
    ensures After(c, s).log == c.log
  {
  }

  lemma StepSendsDue(c: Consumer, s: Step)
    requires Enabled(c, s) && (s.Handles? ==> c.inFlight > 0)
    ensures After(c, s).log == c.log + Due(c, s)
  {
    if s.Handles? {
      HandlerSendsDue(c, s);
    } else if s.HandlersSettled? {
      ReturnSendsDue(c, s.count);
    } else {
      hide After, Enabled, Due;
      NothingIsDue(c, s);
      if s.Delivers? {
        DeliverySendsNone(c, s);
      } else {
        OthersLogNothing(c, s);
      }
      assert c.log + [] == c.log;
    }
  }

  /** In every run each step sends exactly what is due. */
  lemma SendsExactlyWhatIsDue(steps: seq<Step>, s: Step)
    requires IsRun(steps) && Enabled(Final(steps), s)
    ensures After(Final(steps), s).log == Final(steps).log + Due(Final(steps), s)
  {
    RunKeepsInv(steps);
    StepKeepsInv(Final(steps), s);
    hide Final, IsRun, Inv, Enabled, After, Due;
    StepSendsDue(Final(steps), s);
  }

  /**
   * In every run a return on its own open link gives back everything it holds when no nack throws, and
   * otherwise the ones before; it counts them, and holds nothing any more.
   */
  lemma ReturnGivesBack(steps: seq<Step>, count: nat)
    requires IsRun(steps) && Enabled(Final(steps), HandlersSettled(count))
    ensures var c, c' := Final(steps), After(Final(steps), HandlersSettled(count));
      var r := c.await.value.r;
      var held, g := c.registrations[r].held, c.registrations[r].generation;
      var n := if g != c.await.value.generation || g in c.closed then 0 else if count < |held| then count else |held|;
      && c'.counters.returned == c.counters.returned + n && |c'.log| == |c.log| + n
      && (forall i :: 0 <= i < n ==> c'.log[|c.log| + i] == Settlement(Nack, g, held[i]))
      && c'.registrations[r].held == [] && !c'.registrations[r].live
  {
    var c := Final(steps);
    hide Final, IsRun;
    ReturnSendsDue(c, count);
    var registration := c.registrations[c.await.value.r];
    RequeuedAt(registration.held, registration.generation, count);
    hide Returned;
  }

  // ---------- Every counter counts its own ----------

  function Bit(b: bool): nat {
    if b then 1 else 0
  }

  /** What one step adds to each counter. */
  ghost function Tally(c: Consumer, s: Step): Stats
    requires Enabled(c, s)
  {
    var ack, reject, abandon := s.Handles? && s.result.AckVerdict?, s.Handles? && s.result.Reject?, s.Handles? && s.result.Abandon?;
    Stats(
      Bit(s.Delivers? && c.registrations[s.r].live),
      Bit(ack),
      Bit(ack && s.result.outcome.Created?),
      Bit(ack && s.result.outcome.Applied?),
      Bit(ack && s.result.outcome.Stale?),
      Bit(ack && s.result.duplicate),
      Bit(ack && s.result.alert == H.AlertResult.Created),
      Bit(ack && s.result.gap),
      Bit(reject && s.result.reason == H.Undecodable),
      Bit(reject && s.result.reason == H.PermanentFailure),
      if s.Handles? && s.result.attempts > 0 then s.result.attempts - 1 else 0,
      |Due(c, s)| * Bit(s.HandlersSettled?),
      Bit(abandon))
  }

  function Plus(a: Stats, b: Stats): Stats {
    Stats(a.received + b.received, a.acked + b.acked, a.created + b.created, a.applied + b.applied, a.stale + b.stale,
          a.duplicate + b.duplicate, a.alerts + b.alerts, a.gaps + b.gaps, a.rejected + b.rejected, a.failed + b.failed,
          a.retries + b.retries, a.returned + b.returned, a.abandoned + b.abandoned)
  }

  ghost function Tallied(steps: seq<Step>): Stats
    requires IsRun(steps)
    decreases |steps|
  {
    if steps == [] then NO_COUNTS
    else Plus(Tallied(steps[..|steps| - 1]), Tally(Final(steps[..|steps| - 1]), steps[|steps| - 1]))
  }

  lemma HandlerTallies(c: Consumer, s: Step)
    requires s.Handles? && Enabled(c, s) && c.inFlight > 0
    ensures After(c, s).counters == Plus(c.counters, Tally(c, s))
  {
    hide Next, Acknowledged;
    var done := Finished(c, s.r, s.tag, s.result);
    SettlesOnly(done, s.r, s.tag, Ack, s.sent);
    SettlesOnly(done, s.r, s.tag, SettleKind.Reject, s.sent);
    hide Due;
  }

  lemma SettlesOnly(c: Consumer, r: nat, tag: nat, kind: SettleKind, sent: bool)
    requires r < |c.registrations|
    ensures Acknowledged(c, r, tag, kind, sent).counters == c.counters
  {
  }

  lemma StepTallies(c: Consumer, s: Step)
    requires Inv(c) && Enabled(c, s)
    ensures After(c, s).counters == Plus(c.counters, Tally(c, s))
  {
    hide LifeOk, SettleOk;
    StepKeepsInv(c, s);
    if s.Handles? {
      HandlerTallies(c, s);
    } else if s.HandlersSettled? {
      ReturnSendsDue(c, s.count);
      hide Due, Returned;
    } else if s.Delivers? {
      hide Inv;
    } else {
      OthersHold(c, s);
      hide After;
    }
  }

  /**
   * In every run each counter is the number of times its own thing happened: deliveries received on a live
   * registration, verdicts by kind, outcomes, duplicates, alerts, gaps, repeated attempts and returns.
   */
  lemma {:induction false} CountersTally(steps: seq<Step>)
    requires IsRun(steps)
    ensures Final(steps).counters == Tallied(steps)
    decreases |steps|
  {
    hide After, Enabled, Inv, Tally, Plus;
    if steps != [] {
      var front, last := steps[..|steps| - 1], steps[|steps| - 1];
      CountersTally(front);
      RunKeepsInv(front);
      StepTallies(Final(front), last);
    }
  }

  // ---------- Paused ----------

  /** Whether the last of the returns and the registrations of a run was a return. */
  ghost predicate LastWasReturn(steps: seq<Step>)
    decreases |steps|
  {
    steps != [] &&
    var front, last := steps[..|steps| - 1], steps[|steps| - 1];
    last.HandlersSettled? || (!Registers(Final(front), last) && LastWasReturn(front))
  }

  /** The reply that makes a registration good. */
  ghost predicate Registers(c: Consumer, s: Step) {
    && s.ReplyCame? && s.reply.Accepted?
    && c.await.Some? && c.await.value.Replying? && c.await.value.r < |c.registrations| && c.registrations[c.await.value.r].live
  }

  lemma EndKeepsPaused(c: Consumer, generation: nat, connection: bool, reason: string, now: int)
    ensures LinkEnded(c, generation, connection, reason, now).paused == c.paused
  {
    hide Next;
  }

  lemma ReplyPauses(c: Consumer, s: Step)
    requires s.ReplyCame? && Enabled(c, s)
    ensures After(c, s).paused == (!Registers(c, s) && c.paused)
  {
    hide Next, LinkEnded;
    if c.await.value.r < |c.registrations| {
      var r := c.await.value.r;
      EndKeepsPaused(Voided(c.(await := None), r), c.registrations[r].generation, false, "consume_timed_out", s.now);
    }
  }

  lemma HandlerKeepsPaused(c: Consumer, r: nat, tag: nat, result: H.HandlerResult, sent: bool)
    requires r < |c.registrations| && c.inFlight > 0
    ensures HandlerEnded(c, r, tag, result, sent).paused == c.paused
  {
    hide Next, CountedResult;
  }

  lemma EffectKeepsPaused(c: Consumer)
    requires c.await.None? && c.queue != []
    ensures EffectBegun(c).paused == c.paused
  {
    hide CurrentVoided;
    VoidKeepsPaused(Popped(c));
  }

  lemma VoidKeepsPaused(c: Consumer)
    ensures CurrentVoided(c).paused == c.paused && CurrentAborted(c).paused == c.paused
  {
  }

  lemma DrainKeepsPaused(c: Consumer, expired: bool)
    requires c.draining.Some?
    ensures DrainOver(c, expired).paused == c.paused
  {
    hide Next;
  }

  lemma PausesBy(c: Consumer, s: Step)
    requires Inv(c) && Enabled(c, s)
    ensures After(c, s).paused == (s.HandlersSettled? || (!Registers(c, s) && c.paused))
  {
    StepKeepsInv(c, s);
    hide Inv, Next, EffectBegun, Replied, LinkEnded, HandlerEnded, DrainOver, Nacks, NackCount;
    match s
    case ReplyCame(_, _) => ReplyPauses(c, s);
    case EffectRuns => EffectKeepsPaused(c);
    case LinkEnds(generation, connection, reason, now) => EndKeepsPaused(c, generation, connection, reason, now);
    case Handles(r, tag, result, sent) => HandlerKeepsPaused(c, r, tag, result, sent);
    case DrainEnds(expired) => DrainKeepsPaused(c, expired);
    case _ =>
  }

  /** In every run the consumer reports itself paused from a return until it is registered again. */
  lemma {:induction false} PausedSinceReturn(steps: seq<Step>)
    requires IsRun(steps)
    ensures Final(steps).paused <==> LastWasReturn(steps)
    decreases |steps|
  {
    hide After, Enabled, Inv, Registers;
    if steps != [] {
      var front, last := steps[..|steps| - 1], steps[|steps| - 1];
      PausedSinceReturn(front);
      RunKeepsInv(front);
      PausesBy(Final(front), last);
    }
  }
}
