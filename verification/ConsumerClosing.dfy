/** How the consumer lets go in every run: registrations are cancelled and aborted, returns wait, links are closed, drains end. */
module ConsumerClosing {
  import opened Telemetry
  import opened ConsumerState
  import opened Consumers
  import opened ConsumerRuns
  import opened ConsumerSettlement
  import opened ConsumerQueue
  import ConsumerProgress
  import H = Handler

  // ---------- What the queue waits for ----------

  /** The wait that an effect leaves behind; every other effect lets the queue go on at once. */
  function WaitOf(c: Consumer, job: Job): Option<Await> {
    var last := |c.registrations| - 1;
    match job.effect
    case Consume => if c.link == Some(job.generation) && !CurrentLive(c) then Some(Replying(|c.registrations|)) else None
    case CancelConsumer => if HasCurrent(c) && c.registrations[last].tagged then Some(Cancelling) else None
    case ReturnHeld => if HasCurrent(c) then Some(Returning(last, job.generation, c.registrations[last].running)) else None
    case CloseLink => if c.link.Some? then Some(Closing) else None
    case _ => None
  }

  lemma EffectWaitsFor(c: Consumer)
    requires Enabled(c, EffectRuns)
    ensures After(c, EffectRuns).await == WaitOf(c, c.queue[0])
  {
    hide CurrentVoided;
    VoidKeepsAwait(c);
  }

  lemma VoidKeepsAwait(c: Consumer)
    ensures var rest := c.(queue := if c.queue == [] then [] else c.queue[1..]);
      CurrentVoided(rest).await == c.await && CurrentAborted(rest).await == c.await
  {
  }

  /** The moment a return began: it is the next effect, and these are the handlers it will wait for. */
  ghost predicate BeginsReturn(steps: seq<Step>, k: nat, waiting: set<nat>) {
    && k < |steps| && steps[k] == EffectRuns
    && var c := Final(steps[..k]);
       c.await.None? && c.queue != [] && c.queue[0].effect.ReturnHeld? && HasCurrent(c)
       && waiting == c.registrations[|c.registrations| - 1].running
  }

  /**
   * In every run a return that is under way waits for all the handlers that ran when it began: what
   * they settle themselves is not returned.
   */
  lemma {:induction false} ReturnWaitsForHandlers(steps: seq<Step>) returns (k: nat)
    requires IsRun(steps) && Final(steps).await.Some? && Final(steps).await.value.Returning?
    ensures BeginsReturn(steps, k, Final(steps).await.value.waiting)
    decreases |steps|
  {
    hide After, Inv, Enabled;
    var front, last := steps[..|steps| - 1], steps[|steps| - 1];
    var c, n := Final(front), |front|;
    assert IsRun(front) && Enabled(c, last) && Final(steps) == After(c, last);
    assert steps[..n] == front;
    hide IsRun, Final;
    if last.EffectRuns? {
      BeginsNow(c);
      k := n;
    } else {
      WaitStays(c, last);
      k := ReturnWaitsForHandlers(front);
      assert steps[..k] == front[..k];
    }
  }

  lemma BeginsNow(c: Consumer)
    requires Enabled(c, EffectRuns) && After(c, EffectRuns).await.Some? && After(c, EffectRuns).await.value.Returning?
    ensures c.await.None? && c.queue != [] && c.queue[0].effect.ReturnHeld? && HasCurrent(c)
    ensures After(c, EffectRuns).await.value.waiting == c.registrations[|c.registrations| - 1].running
  {
    EffectWaitsFor(c);
    hide After;
  }

  lemma WaitStays(c: Consumer, s: Step)
    requires Enabled(c, s) && !s.EffectRuns? && After(c, s).await.Some? && After(c, s).await.value.Returning?
    ensures After(c, s).await == c.await
  {
    if s.HandlersSettled? {
      hide Nacks, NackCount;
    } else {
      AwaitStays(c, s);
      hide After;
    }
  }

  // ---------- Cancels ----------

  predicate IsActive(s: State) {
    s.Open? && s.consumer.Active?
  }

  ghost predicate Queued(c: Consumer, effect: Effect) {
    exists job <- c.queue :: job.effect == effect
  }

  /** A registration that the machine no longer wants is cancelled, or about to be. */
  ghost predicate CancelOk(c: Consumer) {
    CurrentLive(c) && c.registrations[|c.registrations| - 1].tagged && !IsActive(c.state) && !c.state.Stopped? ==>
      |c.registrations| - 1 in c.cancelled || Queued(c, CancelConsumer)
  }

  /** A machine that stops wanting its registration asks for the cancel, unless the registration is gone with the event. */
  lemma UnwantedAsks(s: State, e: Event)
    requires !IsActive(Next(s, e).state) && !Next(s, e).state.Stopped?
    requires IsActive(s) || (e.ConsumerRegistered? && e.generation == s.generation && (s.Draining? || (s.Open? && s.consumer.Registering?)))
    ensures CancelConsumer in Next(s, e).effects || ((e.LinkClosed? || e.BrokerCancelled?) && e.generation == s.generation)
  {
  }

  lemma QueuesAsked(c: Consumer, c': Consumer, e: Option<Event>, effect: Effect)
    requires Queues(c, c', e)
    requires Queued(c, effect) || (e.Some? && effect in Next(c.state, e.value).effects)
    ensures Queued(c', effect)
  {
    hide Next;
    if Queued(c, effect) {
      var job :| job in c.queue && job.effect == effect;
      assert job in c'.queue;
    } else {
      var t := Next(c.state, e.value);
      var i :| 0 <= i < |t.effects| && t.effects[i] == effect;
      var jobs := JobsOf(t.effects, t.state.generation);
      assert jobs[i] in jobs && jobs[i] in c'.queue;
    }
  }

  /** The reply that is waited for came for the last registration. */
  predicate AcceptsLast(c: Consumer, s: Step) {
    && s.ReplyCame? && s.reply.Accepted?
    && c.await.Some? && c.await.value.Replying? && c.await.value.r == |c.registrations| - 1
  }

  /** What one step does to the last registration, when it begins none. */
  ghost predicate LastFollows(c: Consumer, c': Consumer, s: Step) {
    && |c'.registrations| == |c.registrations| && c'.cancelled == c.cancelled
    && (HasCurrent(c) ==>
          var last, last' := c.registrations[|c.registrations| - 1], c'.registrations[|c.registrations| - 1];
          && last'.generation == last.generation
          && (last'.live ==> last.live)
          && (last'.tagged && !last.tagged ==> AcceptsLast(c, s)))
  }

  lemma EndFollows(c: Consumer, s: Step, generation: nat, connection: bool, reason: string, now: int)
    ensures LastFollows(c, LinkEnded(c, generation, connection, reason, now), s)
  {
    hide Next;
  }

  lemma ReplyFollows(c: Consumer, s: Step)
    requires s.ReplyCame? && Enabled(c, s) && RegistrationsOk(c)
    ensures LastFollows(c, After(c, s), s)
  {
    hide Next, LinkEnded;
    if c.await.value.r < |c.registrations| {
      var r := c.await.value.r;
      var voided := Voided(c.(await := None), r);
      assert LastFollows(c, voided, s);
      EndFollows(voided, s, c.registrations[r].generation, false, "consume_timed_out", s.now);
    }
  }

  lemma HandlerFollows(c: Consumer, s: Step)
    requires s.Handles? && Enabled(c, s) && c.inFlight > 0
    ensures LastFollows(c, After(c, s), s)
  {
    hide Next, CountedResult, Without, JobsOf;
  }

  lemma DeliveryFollows(c: Consumer, s: Step)
    requires (s.Delivers? || s.Cancels?) && Enabled(c, s)
    ensures LastFollows(c, After(c, s), s)
  {
    hide Next;
  }

  lemma OverFollows(c: Consumer, s: Step)
    requires (s.StopCalled? || s.DrainEnds? || s.HandlersSettled?) && Enabled(c, s)
    ensures LastFollows(c, After(c, s), s)
  {
    hide Next, Nacks, NackCount;
  }

  lemma StepFollowsLast(c: Consumer, s: Step)
    requires Enabled(c, s) && !s.EffectRuns? && RegistrationsOk(c) && (s.Handles? ==> c.inFlight > 0)
    ensures LastFollows(c, After(c, s), s)
  {
    if s.LinkEnds? {
      EndFollows(c, s, s.generation, s.connection, s.reason, s.now);
    } else if s.ReplyCame? {
      ReplyFollows(c, s);
    } else if s.Handles? {
      HandlerFollows(c, s);
    } else if s.Delivers? || s.Cancels? {
      DeliveryFollows(c, s);
    } else if s.StopCalled? || s.DrainEnds? || s.HandlersSettled? {
      OverFollows(c, s);
    } else {
      hide Next;
    }
  }

  lemma EndVoids(c: Consumer, generation: nat, connection: bool, reason: string, now: int)
    requires generation == c.state.generation && EndEvent(c, generation, reason, now).Some?
    requires CurrentLive(c) ==> c.registrations[|c.registrations| - 1].generation == generation
    ensures !CurrentLive(LinkEnded(c, generation, connection, reason, now))
  {
    hide Next;
  }

  /** The end of the link, and the broker's cancel, come with the registration void. */
  lemma EventVoids(c: Consumer, s: Step)
    requires LinkOk(c) && RegistrationsOk(c) && Enabled(c, s) && CurrentLive(c) && (s.Handles? ==> c.inFlight > 0)
    requires EventOf(c, s).Some? && (EventOf(c, s).value.LinkClosed? || EventOf(c, s).value.BrokerCancelled?)
    requires EventOf(c, s).value.generation == c.state.generation
    ensures !CurrentLive(After(c, s))
  {
    hide Next, LinkEnded;
    assert s.LinkEnds? || s.ReplyCame? || s.Cancels?;
    if s.LinkEnds? {
      EndVoids(c, s.generation, s.connection, s.reason, s.now);
    } else if s.ReplyCame? {
      var r := c.await.value.r;
      EndVoids(Voided(c.(await := None), r), c.registrations[r].generation, false, "consume_timed_out", s.now);
    }
  }

  /** The queue and the event of a step that runs no effect. */
  lemma StepAsks(c: Consumer, s: Step, effect: Effect)
    requires Enabled(c, s) && !s.EffectRuns? && (s.Handles? ==> c.inFlight > 0)
    ensures Queued(c, effect) || (EventOf(c, s).Some? && effect in Next(c.state, EventOf(c, s).value).effects) ==> Queued(After(c, s), effect)
  {
    hide Next, Queued;
    var e := EventOf(c, s);
    if Queued(c, effect) || (e.Some? && effect in Next(c.state, e.value).effects) {
      if s.WatchEnds? {
        WatchQueues(c, s.ready);
        assert Queues(c.(watching := false), After(c, s), e);
        SameQueued(c, c.(watching := false), effect);
        hide After, EventOf;
        QueuesAsked(c.(watching := false), After(c, s), e, effect);
      } else {
        StepQueues(c, s);
        hide After, EventOf;
        QueuesAsked(c, After(c, s), e, effect);
      }
    }
  }

  lemma SameQueued(c: Consumer, c': Consumer, effect: Effect)
    requires c'.queue == c.queue
    ensures Queued(c, effect) == Queued(c', effect)
  {
  }

  /** The reply that is waited for on the link of a machine: the machine hears of the registration. */
  lemma AcceptIsHeard(c: Consumer, s: Step)
    requires LifeOk(c) && Enabled(c, s) && AcceptsLast(c, s) && CurrentLive(c) && !c.state.Stopped?
    ensures EventOf(c, s) == Some(ConsumerRegistered(c.state.generation))
    ensures c.state.Draining? || (c.state.Open? && c.state.consumer.Registering?)
  {
    hide NeverTwice, JobsOk, Consumes, LiveAfter;
  }

  lemma StepKeepsCancel(c: Consumer, s: Step)
    requires Inv(c) && Enabled(c, s) && CancelOk(c)
    ensures CancelOk(After(c, s))
  {
    StepKeepsInv(c, s);
    if s.EffectRuns? {
      EffectKeepsCancel(c);
    } else {
      EventKeepsCancel(c, s);
    }
  }

  lemma EventKeepsCancel(c: Consumer, s: Step)
    requires LifeOk(c) && Enabled(c, s) && CancelOk(c) && !s.EffectRuns? && (s.Handles? ==> c.inFlight > 0)
    ensures CancelOk(After(c, s))
  {
    var c', e, last := After(c, s), EventOf(c, s), |c.registrations| - 1;
    StepFollowsLast(c, s);
    StepIsEvent(c, s);
    StepAsks(c, s, CancelConsumer);
    if CurrentLive(c') && c'.registrations[last].tagged && !IsActive(c'.state) && !c'.state.Stopped? {
      if e.Some? {
        StoppedForGood(c.state, e.value);
      }
      if !c.registrations[last].tagged {
        AcceptIsHeard(c, s);
        UnwantedAsks(c.state, e.value);
      } else if IsActive(c.state) {
        assert e.Some?;
        UnwantedAsks(c.state, e.value);
        if CancelConsumer !in Next(c.state, e.value).effects {
          EventVoids(c, s);
          assert false;
        }
      }
    }
    hide After, EventOf, Next, Enabled, LifeOk, Queued;
  }

  lemma StoppedForGood(s: State, e: Event)
    ensures s.Stopped? ==> Next(s, e).state.Stopped?
  {
  }

  lemma EffectKeepsCancel(c: Consumer)
    requires LifeOk(c) && Enabled(c, EffectRuns) && CancelOk(c)
    ensures CancelOk(EffectBegun(c))
  {
    var c', job := EffectBegun(c), c.queue[0];
    ConsumerProgress.EffectFields(c);
    EffectFollows(c);
    hide EffectBegun, LifeOk;
    if Queued(c, CancelConsumer) && !job.effect.CancelConsumer? {
      var x :| x in c.queue && x.effect == CancelConsumer;
      assert x in c'.queue;
    }
  }

  /** One effect, as the last registration sees it. */
  ghost predicate FollowsEffect(c: Consumer, c': Consumer, job: Job) {
    && c.cancelled <= c'.cancelled
    && (CurrentLive(c') && c'.registrations[|c'.registrations| - 1].tagged ==>
          && CurrentLive(c) && c.registrations[|c.registrations| - 1].tagged && |c'.registrations| == |c.registrations|
          && (job.effect.CancelConsumer? ==> |c.registrations| - 1 in c'.cancelled))
  }

  lemma LastIsKept(c: Consumer, job: Job)
    requires !job.effect.CancelConsumer?
    ensures FollowsEffect(c, CurrentVoided(c), job) && FollowsEffect(c, CurrentAborted(c), job) && FollowsEffect(c, LinkDropped(c), job)
  {
  }

  lemma CalmEffectFollows(c: Consumer, g: nat, job: Job)
    requires !job.effect.CancelConsumer?
    ensures FollowsEffect(c, ConsumeBegun(c, g), job) && FollowsEffect(c, ReturnBegun(c, g), job)
  {
  }

  lemma CancelFollows(c: Consumer, job: Job)
    ensures FollowsEffect(c, CancelBegun(c), job)
  {
  }

  lemma CloseFollows(c: Consumer, job: Job)
    requires FollowsEffect(c, LinkDropped(c), job)
    ensures FollowsEffect(c, CloseBegun(c), job)
  {
    hide LinkDropped;
  }

  lemma SameLast(c: Consumer, c': Consumer, job: Job)
    requires c'.registrations == c.registrations && c'.cancelled == c.cancelled && !job.effect.CancelConsumer?
    ensures FollowsEffect(c, c', job)
  {
  }

  lemma PoppedFollows(c: Consumer, rest: Consumer, c': Consumer, job: Job)
    requires FollowsEffect(rest, c', job) && rest.registrations == c.registrations && rest.cancelled == c.cancelled
    ensures FollowsEffect(c, c', job)
  {
  }

  lemma EffectFollows(c: Consumer)
    requires Enabled(c, EffectRuns)
    ensures FollowsEffect(c, EffectBegun(c), c.queue[0])
  {
    hide FollowsEffect, CurrentVoided, CurrentAborted, LinkDropped, ConsumeBegun, ReturnBegun, CancelBegun, CloseBegun;
    var rest, job := c.(queue := c.queue[1..]), c.queue[0];
    match job.effect {
      case Consume => CalmEffectFollows(rest, job.generation, job);
      case CancelConsumer => CancelFollows(rest, job);
      case AbortHandlers => LastIsKept(rest, job);
      case ReturnHeld => CalmEffectFollows(rest, job.generation, job);
      case CloseLink =>
        LastIsKept(rest, job);
        CloseFollows(rest, job);
      case _ => SameLast(rest, EffectBegun(c), job);
    }
    PoppedFollows(c, rest, EffectBegun(c), job);
  }

  lemma {:induction false} RunKeepsCancel(steps: seq<Step>)
    requires IsRun(steps)
    ensures CancelOk(Final(steps))
    decreases |steps|
  {
    hide After, Enabled, Inv, CancelOk;
    if steps == [] {
      NothingToCancel(Final(steps));
    } else {
      var front, last := steps[..|steps| - 1], steps[|steps| - 1];
      RunKeepsCancel(front);
      RunKeepsInv(front);
      StepKeepsCancel(Final(front), last);
    }
  }

  lemma NothingToCancel(c: Consumer)
    requires c.registrations == []
    ensures CancelOk(c)
  {
  }

  /**
   * In every run, until the consumer has stopped: a registration that is live and that the machine is not
   * consuming through has been cancelled at the broker, or its cancel waits in the queue.
   */
  lemma UnwantedIsCancelled(steps: seq<Step>)
    requires IsRun(steps)
    ensures var c := Final(steps);
      CurrentLive(c) && c.registrations[|c.registrations| - 1].tagged && !IsConsuming(c.state) && !c.state.Stopped? ==>
        |c.registrations| - 1 in c.cancelled || exists job <- c.queue :: job.effect == CancelConsumer
  {
    RunKeepsCancel(steps);
    RunKeepsInv(steps);
    hide Final, IsRun, SettleOk, LinkOk, RegistrationsOk, JobsOk, QueueOk;
  }

  // ---------- Aborts ----------

  /** When the machine aborts: whatever takes the registration away from one that consumes or drains, but a stop. */
  lemma TakenAwayAborts(s: State, e: Event)
    requires (IsActive(s) || s.Draining?) && (e.BrokerCancelled? || e.LinkClosed?) && e.generation == s.generation
    ensures AbortHandlers in Next(s, e).effects
  {
  }

  /**
   * In every run: when the broker cancels, or the link ends, under a consumer that consumes or drains, the
   * handlers of the registration are told to stop: none goes on to an acknowledgement that nothing can carry.
   */
  lemma TakenAwayIsAborted(steps: seq<Step>, s: Step)
    requires IsRun(steps) && Enabled(Final(steps), s) && (s.Cancels? || s.LinkEnds? || s.ReplyCame?)
    requires CurrentLive(Final(steps)) && !CurrentLive(After(Final(steps), s))
    requires IsActive(Final(steps).state) || Final(steps).state.Draining?
    requires s.ReplyCame? ==> s.reply.TimedOut?
    ensures exists job <- After(Final(steps), s).queue :: job.effect == AbortHandlers
  {
    RunKeepsInv(steps);
    var c := Final(steps);
    hide Final, IsRun, SettleOk;
    VoidedByEvent(c, s);
    TakenAwayAborts(c.state, EventOf(c, s).value);
    StepAsks(c, s, AbortHandlers);
    hide After, EventOf, Next, LifeOk, Enabled;
  }

  lemma VoidedByEvent(c: Consumer, s: Step)
    requires LifeOk(c) && Enabled(c, s) && CurrentLive(c) && !CurrentLive(After(c, s)) && !c.state.Stopped?
    requires s.Cancels? || s.LinkEnds? || (s.ReplyCame? && s.reply.TimedOut?)
    ensures EventOf(c, s).Some? && (EventOf(c, s).value.LinkClosed? || EventOf(c, s).value.BrokerCancelled?)
    ensures EventOf(c, s).value.generation == c.state.generation
  {
    hide NeverTwice, StatusTells, JobsOk, Next;
  }

  // ---------- Drains ----------

  /** The drain of a draining machine is under way. */
  ghost predicate DrainUnderWay(c: Consumer) {
    c.state.Draining? ==> c.draining == Some(c.state.generation)
  }

  lemma EndKeepsDrain(c: Consumer, generation: nat, connection: bool, reason: string, now: int)
    ensures LinkEnded(c, generation, connection, reason, now).draining == c.draining
  {
    hide Next;
  }

  lemma DrainFollows(c: Consumer, s: Step)
    requires Enabled(c, s) && !s.StopCalled? && !s.DrainEnds? && (s.Handles? ==> c.inFlight > 0)
    ensures After(c, s).draining == c.draining
  {
    hide Next, LinkEnded, CountedResult;
    match s
    case LinkEnds(generation, connection, reason, now) => EndKeepsDrain(c, generation, connection, reason, now);
    case ReplyCame(_, now) =>
      if c.await.value.r < |c.registrations| {
        var r := c.await.value.r;
        EndKeepsDrain(Voided(c.(await := None), r), c.registrations[r].generation, false, "consume_timed_out", now);
      }
    case _ =>
  }

  lemma IntoDraining(s: State, e: Event)
    requires Next(s, e).state.Draining?
    ensures s.Draining? || e.Stop?
    ensures Next(s, e).state.generation == s.generation && !(e.Drained? && e.generation == s.generation && s.Draining?)
  {
  }

  lemma StepKeepsDrain(c: Consumer, s: Step)
    requires Inv(c) && Enabled(c, s) && DrainUnderWay(c)
    ensures DrainUnderWay(After(c, s))
  {
    StepKeepsInv(c, s);
    StepIsEvent(c, s);
    hide Inv, Next;
    if EventOf(c, s).Some? && After(c, s).state.Draining? {
      IntoDraining(c.state, EventOf(c, s).value);
    }
    if !s.StopCalled? && !s.DrainEnds? {
      DrainFollows(c, s);
      hide After, EventOf;
    }
  }

  lemma {:induction false} RunKeepsDrain(steps: seq<Step>)
    requires IsRun(steps)
    ensures DrainUnderWay(Final(steps))
    decreases |steps|
  {
    hide After, Enabled, Inv;
    if steps != [] {
      var front, last := steps[..|steps| - 1], steps[|steps| - 1];
      RunKeepsDrain(front);
      RunKeepsInv(front);
      StepKeepsDrain(Final(front), last);
    }
  }

  /** In every run a draining consumer has its drain under way, and the end of it, in turn or at the budget, stops it. */
  lemma DrainAlwaysEnds(steps: seq<Step>, expired: bool)
    requires IsRun(steps) && Final(steps).state.Draining?
    ensures Enabled(Final(steps), DrainEnds(expired))
    ensures After(Final(steps), DrainEnds(expired)).state.Stopped?
  {
    RunKeepsDrain(steps);
    hide Final, IsRun;
    DrainStops(Final(steps), expired);
  }

  lemma DrainStops(c: Consumer, expired: bool)
    requires c.state.Draining? && c.draining == Some(c.state.generation)
    ensures DrainOver(c, expired).state.Stopped?
  {
    hide CurrentVoided, CurrentAborted;
    var drained := Dispatch(c.(draining := None), Drained(c.draining.value));
    DropKeepsState(drained);
  }

  lemma DropKeepsState(c: Consumer)
    ensures LinkDropped(CurrentAborted(c)).state == c.state
  {
  }

  // ---------- Links ----------

  /** What one step does to the links: the present one goes only by ending or by being closed. */
  ghost predicate LinksFollow(c: Consumer, c': Consumer) {
    && c.ended <= c'.ended && c.closing <= c'.closing
    && (c.link.Some? && c'.link != c.link ==> c.link.value in c'.ended || c.link.value in c'.closing)
  }

  lemma EndFollowsLinks(c: Consumer, generation: nat, connection: bool, reason: string, now: int)
    requires c.link.Some? ==> c.link.value == c.state.generation
    ensures LinksFollow(c, LinkEnded(c, generation, connection, reason, now))
  {
    hide Next, CurrentVoided;
  }

  lemma DropFollowsLinks(c: Consumer)
    ensures LinksFollow(c, LinkDropped(c))
    ensures CurrentVoided(c).link == c.link && CurrentVoided(c).ended == c.ended && CurrentVoided(c).closing == c.closing
    ensures CurrentAborted(c).link == c.link && CurrentAborted(c).ended == c.ended && CurrentAborted(c).closing == c.closing
  {
  }

  predicate SameLinks(c: Consumer, c': Consumer) {
    c'.link == c.link && c'.ended == c.ended && c'.closing == c.closing
  }

  lemma CalmEffects(c: Consumer, g: nat)
    ensures SameLinks(c, ConsumeBegun(c, g)) && SameLinks(c, CancelBegun(c)) && SameLinks(c, ReturnBegun(c, g))
    ensures SameLinks(c, CurrentAborted(c))
  {
  }

  lemma EffectOnLink(c: Consumer)
    requires Enabled(c, EffectRuns)
    ensures if c.queue[0].effect.CloseLink? then EffectBegun(c).link == None && LinksFollow(c, EffectBegun(c))
            else SameLinks(c, EffectBegun(c))
  {
    var rest := c.(queue := c.queue[1..]);
    CalmEffects(rest, c.queue[0].generation);
    DropFollowsLinks(rest);
    hide ConsumeBegun, CancelBegun, ReturnBegun, CurrentAborted, CurrentVoided;
  }

  lemma EffectFollowsLinks(c: Consumer)
    requires Enabled(c, EffectRuns)
    ensures LinksFollow(c, EffectBegun(c))
  {
    EffectOnLink(c);
    hide EffectBegun;
  }

  lemma OverFollowsLinks(c: Consumer, expired: bool)
    requires c.draining.Some?
    ensures LinksFollow(c, DrainOver(c, expired))
  {
    var drained := Dispatch(c.(draining := None), Drained(c.draining.value));
    DropFollowsLinks(drained);
    DropFollowsLinks(CurrentAborted(drained));
    hide Next, CurrentAborted, LinkDropped;
  }

  lemma QuietFollowsLinks(c: Consumer, s: Step)
    requires Enabled(c, s) && (s.Handles? ==> c.inFlight > 0)
    requires !s.EffectRuns? && !s.LinkEnds? && !s.ReplyCame? && !s.DrainEnds? && !s.AttemptEnds?
    ensures SameLinks(c, After(c, s))
  {
    hide Next, CountedResult, Nacks, NackCount, Without;
    if s.Handles? {
      HandlerOnLink(c, s);
    } else {
      hide HandlerEnded;
    }
  }

  lemma HandlerOnLink(c: Consumer, s: Step)
    requires Enabled(c, s) && s.Handles? && c.inFlight > 0
    ensures SameLinks(c, After(c, s))
  {
    hide Next, CountedResult, Without, JobsOf;
  }

  lemma AttemptFollowsLinks(c: Consumer, s: Step)
    requires LinkOk(c) && s.AttemptEnds? && Enabled(c, s)
    ensures LinksFollow(c, After(c, s))
  {
    hide Next;
  }

  lemma ReplyFollowsLinks(c: Consumer, s: Step)
    requires LinkOk(c) && s.ReplyCame? && Enabled(c, s)
    ensures LinksFollow(c, After(c, s))
  {
    hide Next, LinkEnded;
    if c.await.value.r < |c.registrations| {
      var r := c.await.value.r;
      EndFollowsLinks(Voided(c.(await := None), r), c.registrations[r].generation, false, "consume_timed_out", s.now);
    }
  }

  lemma StepFollowsLinks(c: Consumer, s: Step)
    requires LinkOk(c) && Enabled(c, s) && (s.Handles? ==> c.inFlight > 0)
    ensures LinksFollow(c, After(c, s))
  {
    match s
    case EffectRuns => EffectFollowsLinks(c);
    case LinkEnds(generation, connection, reason, now) => EndFollowsLinks(c, generation, connection, reason, now);
    case ReplyCame(_, _) => ReplyFollowsLinks(c, s);
    case DrainEnds(expired) => OverFollowsLinks(c, expired);
    case AttemptEnds(_, _, _, _) => AttemptFollowsLinks(c, s);
    case _ =>
      QuietFollowsLinks(c, s);
      hide After;
  }

  /** The consumer had the link of `g` at some moment of the run. */
  ghost predicate HadLink(steps: seq<Step>, g: nat) {
    exists k :: 0 <= k <= |steps| && Final(steps[..k]).link == Some(g)
  }

  lemma {:induction false} RunFollowsLinks(steps: seq<Step>, k: nat, g: nat)
    requires IsRun(steps) && k <= |steps| && Final(steps[..k]).link == Some(g)
    ensures var c := Final(steps); c.link == Some(g) || g in c.ended || g in c.closing
    decreases |steps|
  {
    if k == |steps| {
      assert steps[..k] == steps;
    } else {
      var front, last := steps[..|steps| - 1], steps[|steps| - 1];
      assert front[..k] == steps[..k];
      RunFollowsLinks(front, k, g);
      RunKeepsInv(front);
      LinkFollowed(Final(front), last, g);
      hide IsRun, Inv, After, Enabled;
    }
  }

  lemma LinkFollowed(c: Consumer, s: Step, g: nat)
    requires Inv(c) && Enabled(c, s) && (c.link == Some(g) || g in c.ended || g in c.closing)
    ensures var c' := After(c, s); c'.link == Some(g) || g in c'.ended || g in c'.closing
  {
    StepKeepsInv(c, s);
    hide SettleOk, RegistrationsOk, JobsOk, QueueOk;
    StepFollowsLinks(c, s);
    hide After, Enabled, LinkOk;
  }

  /** A stopped machine that still has its link is about to close it. */
  ghost predicate CloseOk(c: Consumer) {
    c.state.Stopped? && c.link.Some? ==> Queued(c, CloseLink)
  }

  /** A machine stops with its link only by asking to close it. */
  lemma StopsByClosing(s: State, e: Event)
    requires Next(s, e).state.Stopped? && !s.Stopped? && (s.Open? || s.Draining?)
    ensures CloseLink in Next(s, e).effects || (e.LinkClosed? && e.generation == s.generation)
  {
  }

  lemma EndUnlinks(c: Consumer, generation: nat, connection: bool, reason: string, now: int)
    requires generation == c.state.generation && EndEvent(c, generation, reason, now).Some?
    requires c.link.Some? ==> c.link.value == generation
    ensures LinkEnded(c, generation, connection, reason, now).link.None?
  {
    hide Next, CurrentVoided;
  }

  lemma EndDropsLink(c: Consumer, s: Step)
    requires LinkOk(c) && Enabled(c, s) && (s.Handles? ==> c.inFlight > 0)
    requires EventOf(c, s).Some? && EventOf(c, s).value.LinkClosed? && EventOf(c, s).value.generation == c.state.generation
    ensures After(c, s).link.None?
  {
    hide Next, LinkEnded, CurrentVoided;
    assert s.LinkEnds? || s.ReplyCame?;
    if s.LinkEnds? {
      EndUnlinks(c, s.generation, s.connection, s.reason, s.now);
    } else {
      var r := c.await.value.r;
      EndUnlinks(Voided(c.(await := None), r), c.registrations[r].generation, false, "consume_timed_out", s.now);
    }
  }

  lemma EndOpensNothing(c: Consumer, generation: nat, connection: bool, reason: string, now: int)
    requires c.link.None?
    ensures LinkEnded(c, generation, connection, reason, now).link.None?
  {
    hide Next, CurrentVoided;
  }

  /** Only the end of an attempt that the machine still waits for gives it a link. */
  lemma NewLink(c: Consumer, s: Step)
    requires Enabled(c, s) && !s.EffectRuns? && (s.Handles? ==> c.inFlight > 0) && After(c, s).link.Some? && c.link.None?
    ensures c.state.Connecting? && EventOf(c, s).Some? && EventOf(c, s).value.LinkOpened?
  {
    hide Next, LinkEnded, CountedResult, CurrentVoided, CurrentAborted;
    match s
    case LinkEnds(generation, connection, reason, now) => EndOpensNothing(c, generation, connection, reason, now);
    case ReplyCame(_, now) =>
      if c.await.value.r < |c.registrations| {
        var r := c.await.value.r;
        EndOpensNothing(Voided(c.(await := None), r), c.registrations[r].generation, false, "consume_timed_out", now);
      }
    case DrainEnds(_) => OverOpensNothing(c, s);
    case _ =>
  }

  lemma OverOpensNothing(c: Consumer, s: Step)
    requires s.DrainEnds? && Enabled(c, s) && c.link.None?
    ensures After(c, s).link.None?
  {
    var drained := Dispatch(c.(draining := None), Drained(c.draining.value));
    DropFollowsLinks(drained);
    hide Next, CurrentVoided, CurrentAborted;
  }

  lemma ConnectingStops(s: State, e: Event)
    requires s.Connecting? && e.LinkOpened?
    ensures !Next(s, e).state.Stopped?
  {
  }

  lemma StepKeepsClose(c: Consumer, s: Step)
    requires LifeOk(c) && Enabled(c, s) && CloseOk(c) && !s.EffectRuns? && (s.Handles? ==> c.inFlight > 0)
    ensures CloseOk(After(c, s))
  {
    var c', e := After(c, s), EventOf(c, s);
    StepIsEvent(c, s);
    StepAsks(c, s, CloseLink);
    if c'.state.Stopped? && c'.link.Some? {
      if c.link.None? {
        NewLink(c, s);
        ConnectingStops(c.state, e.value);
        assert false;
      } else if !c.state.Stopped? {
        assert e.Some?;
        StopsByClosing(c.state, e.value);
        if CloseLink !in Next(c.state, e.value).effects {
          EndDropsLink(c, s);
          assert false;
        }
      }
    }
    hide After, EventOf, Next, Enabled, LifeOk, Queued;
  }

  lemma EffectKeepsClose(c: Consumer)
    requires Enabled(c, EffectRuns) && CloseOk(c)
    ensures CloseOk(EffectBegun(c))
  {
    var c', job := EffectBegun(c), c.queue[0];
    ConsumerProgress.EffectFields(c);
    EffectOnLink(c);
    hide EffectBegun;
    if c'.state.Stopped? && c'.link.Some? {
      var x :| x in c.queue && x.effect == CloseLink;
      assert x in c'.queue;
    }
  }

  lemma {:induction false} RunKeepsClose(steps: seq<Step>)
    requires IsRun(steps)
    ensures CloseOk(Final(steps))
    decreases |steps|
  {
    hide After, Enabled, Inv, CloseOk;
    if steps == [] {
      NothingToClose(Final(steps));
    } else {
      var front, last := steps[..|steps| - 1], steps[|steps| - 1];
      RunKeepsClose(front);
      RunKeepsInv(front);
      OneStepKeepsClose(Final(front), last);
    }
  }

  lemma OneStepKeepsClose(c: Consumer, s: Step)
    requires Inv(c) && Enabled(c, s) && CloseOk(c)
    ensures CloseOk(After(c, s))
  {
    hide LifeOk, SettleOk, CloseOk;
    StepKeepsInv(c, s);
    if s.EffectRuns? {
      EffectKeepsClose(c);
    } else {
      hide After;
      StepKeepsClose(c, s);
    }
  }

  lemma NothingToClose(c: Consumer)
    requires c.link == None
    ensures CloseOk(c)
  {
  }

  /**
   * In every run no link is forgotten: every one the consumer ever had is the present one, has ended, or
   * its close was begun; and a stopped consumer whose queue is done has none.
   */
  lemma LinksAreClosed(steps: seq<Step>)
    requires IsRun(steps)
    ensures var c := Final(steps);
      && (forall g: nat :: HadLink(steps, g) ==> c.link == Some(g) || g in c.ended || g in c.closing)
      && (c.state.Stopped? && c.queue == [] ==> c.link == None)
  {
    RunKeepsClose(steps);
    var c := Final(steps);
    forall g: nat | HadLink(steps, g) ensures c.link == Some(g) || g in c.ended || g in c.closing {
      var k :| 0 <= k <= |steps| && Final(steps[..k]).link == Some(g);
      RunFollowsLinks(steps, k, g);
    }
    hide Final, IsRun;
  }

  // ---------- Links that ended ----------

  /** A link that ends is known to have ended; of the machine's own link, past its attempt, the machine hears at once. */
  ghost predicate EndHeard(c: Consumer, e: Option<Event>, c': Consumer) {
    && c.ended <= c'.ended
    && forall g :: g in c'.ended && g !in c.ended && g == c.state.generation && !c.state.Connecting? ==>
         e.Some? && e.value.LinkClosed? && e.value.generation == g
  }

  lemma EndIsHeard(c: Consumer, generation: nat, connection: bool, reason: string, now: int)
    ensures var c' := LinkEnded(c, generation, connection, reason, now);
      EndHeard(c, EndEvent(c, generation, reason, now), c') && generation in c'.ended
  {
    hide Next, CurrentVoided;
  }

  lemma StepIsHeard(c: Consumer, s: Step)
    requires LinkOk(c) && Enabled(c, s) && (s.Handles? ==> c.inFlight > 0)
    ensures EndHeard(c, EventOf(c, s), After(c, s))
    ensures s.LinkEnds? ==> s.generation in After(c, s).ended
  {
    hide Next;
    match s
    case EffectRuns =>
      EffectEndsNothing(c);
      hide EffectBegun;
    case LinkEnds(generation, connection, reason, now) =>
      EndIsHeard(c, generation, connection, reason, now);
      hide LinkEnded;
    case ReplyCame(_, now) =>
      hide LinkEnded;
      if c.await.value.r < |c.registrations| {
        var r := c.await.value.r;
        EndIsHeard(Voided(c.(await := None), r), c.registrations[r].generation, false, "consume_timed_out", now);
      }
    case DrainEnds(expired) =>
      OverEndsNothing(c, expired);
      hide DrainOver;
    case AttemptEnds(_, _, _, _) =>
    case _ =>
      QuietFollowsLinks(c, s);
      hide After;
  }

  lemma EffectEndsNothing(c: Consumer)
    requires Enabled(c, EffectRuns)
    ensures EffectBegun(c).ended == c.ended
  {
    var rest := c.(queue := c.queue[1..]);
    CalmEffects(rest, c.queue[0].generation);
    DropFollowsLinks(rest);
    hide ConsumeBegun, CancelBegun, ReturnBegun, CurrentAborted, CurrentVoided;
  }

  lemma OverEndsNothing(c: Consumer, expired: bool)
    requires c.draining.Some?
    ensures DrainOver(c, expired).ended == c.ended
  {
    var drained := Dispatch(c.(draining := None), Drained(c.draining.value));
    DropFollowsLinks(drained);
    DropFollowsLinks(CurrentAborted(drained));
    hide Next, CurrentAborted, CurrentVoided;
  }

  ghost predicate HasEnded(steps: seq<Step>, g: nat) {
    exists s <- steps :: s.LinkEnds? && s.generation == g
  }

  ghost predicate EndsKnown(c: Consumer, steps: seq<Step>) {
    && (forall g: nat :: HasEnded(steps, g) ==> g in c.ended)
    && (c.state.Draining? ==> c.state.generation !in c.ended)
  }

  lemma StepKeepsEndsKnown(c: Consumer, front: seq<Step>, s: Step)
    requires Inv(c) && Enabled(c, s) && EndsKnown(c, front)
    ensures EndsKnown(After(c, s), front + [s])
  {
    StepKeepsInv(c, s);
    StepIsHeard(c, s);
    StepIsEvent(c, s);
    hide SettleOk, RegistrationsOk, JobsOk, QueueOk, After, Enabled, EventOf, Next;
    var c' := After(c, s);
    forall g: nat | HasEnded(front + [s], g) ensures g in c'.ended {
      if !(s.LinkEnds? && s.generation == g) {
        assert HasEnded(front, g);
      }
    }
    if c'.state.Draining? {
      IntoDrainingFrom(c.state, EventOf(c, s));
    }
  }

  lemma IntoDrainingFrom(s: State, e: Option<Event>)
    requires StateAfter(s, e).Draining?
    ensures (s.Draining? || s.Open?) && StateAfter(s, e).generation == s.generation
    ensures !(e.Some? && e.value.LinkClosed? && e.value.generation == s.generation)
  {
  }

  lemma NothingEnded(c: Consumer, steps: seq<Step>)
    requires steps == [] && !c.state.Draining?
    ensures EndsKnown(c, steps)
  {
  }

  lemma {:induction false} RunKeepsEndsKnown(steps: seq<Step>)
    requires IsRun(steps)
    ensures EndsKnown(Final(steps), steps)
    decreases |steps|
  {
    hide After, Enabled, Inv, EndsKnown;
    if steps == [] {
      NothingEnded(Final(steps), steps);
    } else {
      var front, last := steps[..|steps| - 1], steps[|steps| - 1];
      RunKeepsEndsKnown(front);
      RunKeepsInv(front);
      StepKeepsEndsKnown(Final(front), front, last);
      assert front + [last] == steps;
    }
  }

  /**
   * In every run the consumer never holds a link that has ended, also not one that ended while its
   * attempt was still under way; and the end of the link of a draining consumer stops it.
   */
  lemma EndedLinksAreGone(steps: seq<Step>, g: nat)
    requires IsRun(steps) && HasEnded(steps, g)
    ensures var c := Final(steps); c.link != Some(g) && !(c.state.Draining? && c.state.generation == g)
  {
    RunKeepsEndsKnown(steps);
    RunKeepsInv(steps);
    hide Final, IsRun, HasEnded, SettleOk, RegistrationsOk, JobsOk, QueueOk;
  }
}
