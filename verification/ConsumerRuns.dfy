/**
 * Every run of the consumer with its broker, its store and its handlers: one live registration at a
 * time, no delivery settled twice, and the status tells what the queue and the registration are.
 */
module ConsumerRuns {
  import opened Telemetry
  import opened ConsumerState
  import opened Consumers
  import H = Handler

  // ---------- The steps ----------

  datatype Step =
    | Starts
    | EffectRuns
    | ReplyCame(reply: Reply, now: int)
    | CancelSettled
    | HandlersSettled(count: nat)
    | CloseSettled
    | LinkEnds(generation: nat, connection: bool, reason: string, now: int)
    | AttemptEnds(i: nat, linked: bool, reason: string, now: int)
    | TimerFires(i: nat)
    | Delivers(r: nat, tag: nat)
    | Cancels(r: nat)
    | Handles(r: nat, tag: nat, result: H.HandlerResult, sent: bool)
    | WatchEnds(ready: bool)
    | StoreReports
    | StopCalled
    | DrainEnds(expired: bool)

  /**
   * What may happen. The broker numbers the deliveries of one channel, so a tag comes once; a return
   * waits for the handlers that were running when it began; everything else may come at any time.
   */
  ghost predicate Enabled(c: Consumer, s: Step) {
    match s
    case Starts => c.state.Backoff? && c.state.generation == 0
    case EffectRuns => c.await.None? && c.queue != []
    case ReplyCame(_, _) => c.await.Some? && c.await.value.Replying?
    case CancelSettled => c.await == Some(Cancelling)
    case HandlersSettled(_) =>
      && c.await.Some? && c.await.value.Returning? && c.await.value.r < |c.registrations|
      && c.await.value.waiting !! c.registrations[c.await.value.r].running
    case CloseSettled => c.await == Some(Closing)
    case LinkEnds(generation, _, _, _) => 0 < generation <= c.state.generation
    case AttemptEnds(i, _, _, _) => i < |c.attempts|
    case TimerFires(i) => i < |c.timers|
    case Delivers(r, tag) => r < |c.registrations| && (c.registrations[r].generation, tag) !in c.delivered
    case Cancels(r) => r < |c.registrations|
    case Handles(r, tag, _, _) => r < |c.registrations| && tag in c.registrations[r].running
    case WatchEnds(_) => c.watching
    case StoreReports => true
    case StopCalled => c.draining.None?
    case DrainEnds(_) => c.draining.Some?
  }

  function After(c: Consumer, s: Step): Consumer {
    match s
    case Starts => Dispatch(c, BackoffElapsed(c.state.generation))
    case EffectRuns => if c.await.None? && c.queue != [] then EffectBegun(c) else c
    case ReplyCame(reply, now) =>
      if c.await.Some? && c.await.value.Replying? && c.await.value.r < |c.registrations| then Replied(c, reply, now) else c
    case CancelSettled => c.(await := None)
    case HandlersSettled(count) =>
      if c.await.Some? && c.await.value.Returning? && c.await.value.r < |c.registrations| then Returned(c, count) else c
    case CloseSettled => c.(await := None)
    case LinkEnds(generation, connection, reason, now) => LinkEnded(c, generation, connection, reason, now)
    case AttemptEnds(i, linked, reason, now) => if i < |c.attempts| then AttemptEnded(c, i, linked, reason, now) else c
    case TimerFires(i) => if i < |c.timers| then TimerFired(c, i) else c
    case Delivers(r, tag) => if r < |c.registrations| then DeliveryCame(c, r, tag) else c
    case Cancels(r) => if r < |c.registrations| then CancelCame(c, r) else c
    case Handles(r, tag, result, sent) =>
      if r < |c.registrations| && c.inFlight > 0 then HandlerEnded(c, r, tag, result, sent) else c
    case WatchEnds(ready) => WatchEnded(c, ready)
    case StoreReports => Dispatch(c, StoreReady)
    case StopCalled => StopBegun(c)
    case DrainEnds(expired) => if c.draining.Some? then DrainOver(c, expired) else c
  }

  /** The event a step hands to the machine, if it hands it one. */
  function EventOf(c: Consumer, s: Step): Option<Event>
    requires s.Handles? ==> s.r < |c.registrations|
  {
    match s
    case Starts => Some(BackoffElapsed(c.state.generation))
    case ReplyCame(reply, now) =>
      if !(c.await.Some? && c.await.value.Replying? && c.await.value.r < |c.registrations|) then None
      else
        var registration := c.registrations[c.await.value.r];
        if reply.Accepted? && registration.live then Some(ConsumerRegistered(registration.generation))
        else if reply.TimedOut? then EndEvent(c, registration.generation, "consume_timed_out", now)
        else None
    case LinkEnds(generation, _, reason, now) => EndEvent(c, generation, reason, now)
    case AttemptEnds(i, linked, reason, now) =>
      if i >= |c.attempts| then None
      else if linked && c.state.Connecting? && c.state.generation == c.attempts[i] && c.attempts[i] !in c.ended then
        Some(LinkOpened(c.attempts[i], now))
      else if c.state.Stopped? then None
      else Some(LinkFailed(c.attempts[i], reason))
    case TimerFires(i) => if i < |c.timers| then Some(BackoffElapsed(c.timers[i])) else None
    case Cancels(r) =>
      if r < |c.registrations| && c.registrations[r].live then Some(BrokerCancelled(c.registrations[r].generation)) else None
    case Handles(_, _, result, _) =>
      if result.Abandon? && result.cause.StoreUnavailable? && c.inFlight > 0 then Some(StoreUnavailable) else None
    case WatchEnds(ready) => if ready then Some(StoreReady) else None
    case StoreReports => Some(StoreReady)
    case StopCalled => Some(Stop)
    case DrainEnds(_) => if c.draining.Some? then Some(Drained(c.draining.value)) else None
    case _ => None
  }

  function EndEvent(c: Consumer, generation: nat, reason: string, now: int): Option<Event> {
    if generation in c.ended || c.state.Connecting? || generation != c.state.generation then None
    else Some(LinkClosed(generation, reason, now))
  }

  function StateAfter(s: State, e: Option<Event>): State {
    match e
    case None => s
    case Some(event) => Next(s, event).state
  }

  lemma EndIsEvent(c: Consumer, generation: nat, connection: bool, reason: string, now: int)
    ensures LinkEnded(c, generation, connection, reason, now).state == StateAfter(c.state, EndEvent(c, generation, reason, now))
  {
    hide Next;
  }

  lemma ReplyIsEvent(c: Consumer, s: Step)
    requires s.ReplyCame?
    ensures After(c, s).state == StateAfter(c.state, EventOf(c, s))
  {
    hide Next, LinkEnded;
    if c.await.Some? && c.await.value.Replying? && c.await.value.r < |c.registrations| {
      var voided := Voided(c.(await := None), c.await.value.r);
      EndIsEvent(voided, c.registrations[c.await.value.r].generation, false, "consume_timed_out", s.now);
    }
  }

  lemma EffectIsNoEvent(c: Consumer)
    requires c.await.None? && c.queue != []
    ensures EffectBegun(c).state == c.state
  {
  }

  /** What a step does to the machine is its event, and nothing else. */
  lemma StepIsEvent(c: Consumer, s: Step)
    requires s.Handles? ==> s.r < |c.registrations|
    ensures After(c, s).state == StateAfter(c.state, EventOf(c, s))
  {
    hide Next, Replied, LinkEnded, EffectBegun, CountedResult;
    match s
    case ReplyCame(_, _) => ReplyIsEvent(c, s);
    case LinkEnds(generation, connection, reason, now) => EndIsEvent(c, generation, connection, reason, now);
    case EffectRuns => if c.await.None? && c.queue != [] { EffectIsNoEvent(c); }
    case _ =>
  }

  // ---------- What the queue will do to the registration ----------

  /** The effects that still run, the return that waits for its handlers first. */
  function PendingJobs(c: Consumer): seq<Job> {
    (if c.await.Some? && c.await.value.Returning? then [Job(ReturnHeld, c.await.value.generation)] else []) + c.queue
  }

  /** Whether the link of `g` has a live registration after one effect. */
  function LiveAfterOne(live: bool, job: Job, g: nat): bool {
    if job.effect.ReturnHeld? || job.effect.CloseLink? then false
    else live || job == Job(Consume, g)
  }

  function LiveAfter(live: bool, jobs: seq<Job>, g: nat): bool
    decreases jobs
  {
    if jobs == [] then live else LiveAfter(LiveAfterOne(live, jobs[0], g), jobs[1..], g)
  }

  /** No effect asks for a registration while one is live. */
  ghost predicate NeverTwice(live: bool, jobs: seq<Job>, g: nat)
    decreases jobs
  {
    jobs == [] ||
    ((jobs[0] == Job(Consume, g) ==> !live) && NeverTwice(LiveAfterOne(live, jobs[0], g), jobs[1..], g))
  }

  function Consumes(jobs: seq<Job>, g: nat): nat {
    if jobs == [] then 0 else (if jobs[0] == Job(Consume, g) then 1 else 0) + Consumes(jobs[1..], g)
  }

  lemma {:induction false} JobsConcat(live: bool, a: seq<Job>, b: seq<Job>, g: nat)
    ensures LiveAfter(live, a + b, g) == LiveAfter(LiveAfter(live, a, g), b, g)
    ensures NeverTwice(live, a + b, g) <==> NeverTwice(live, a, g) && NeverTwice(LiveAfter(live, a, g), b, g)
    ensures Consumes(a + b, g) == Consumes(a, g) + Consumes(b, g)
    decreases a
  {
    if a == [] {
      assert a + b == b;
    } else {
      assert (a + b)[1..] == a[1..] + b && (a + b)[0] == a[0];
      JobsConcat(LiveAfterOne(live, a[0], g), a[1..], b, g);
    }
  }

  /** A registration that died early only makes the queue safer. */
  lemma {:induction false} DeadIsSafer(jobs: seq<Job>, g: nat)
    ensures NeverTwice(true, jobs, g) ==> NeverTwice(false, jobs, g)
    ensures LiveAfter(false, jobs, g) ==> LiveAfter(true, jobs, g)
    decreases jobs
  {
    if jobs != [] {
      DeadIsSafer(jobs[1..], g);
    }
  }

  lemma {:induction false} WithoutConsume(jobs: seq<Job>, g: nat)
    requires Consumes(jobs, g) == 0
    ensures NeverTwice(false, jobs, g) && !LiveAfter(false, jobs, g)
    ensures NeverTwice(true, jobs, g)
    decreases jobs
  {
    if jobs != [] {
      WithoutConsume(jobs[1..], g);
    }
  }

  lemma {:induction false} NoneMeansZero(jobs: seq<Job>, g: nat)
    requires Job(Consume, g) !in jobs
    ensures Consumes(jobs, g) == 0
  {
    if jobs != [] {
      assert jobs[0] in jobs;
      NoneMeansZero(jobs[1..], g);
    }
  }

  // ---------- The invariant ----------

  /** The link is of the current generation and has not ended; an open machine has it. */
  ghost predicate LinkOk(c: Consumer) {
    && (c.link.Some? ==> c.link.value == c.state.generation && (c.state.Open? || c.state.Draining? || c.state.Stopped?)
                         && c.link.value !in c.ended)
    && (c.state.Open? ==> c.link == Some(c.state.generation))
    && (c.draining.Some? ==> c.state.Draining? || c.state.Stopped?)
  }

  /** Only the last registration can be live, on the current link; the queue only waits for the last one. */
  ghost predicate RegistrationsOk(c: Consumer) {
    && (forall r :: 0 <= r < |c.registrations| ==>
          c.registrations[r].generation <= c.state.generation
          && (c.state.Connecting? ==> c.registrations[r].generation < c.state.generation)
          && (c.registrations[r].live ==> r == |c.registrations| - 1 && c.link == Some(c.registrations[r].generation)))
    && (c.await.Some? && c.await.value.Replying? ==> c.await.value.r == |c.registrations| - 1)
    && (c.await.Some? && c.await.value.Returning? ==> c.await.value.r == |c.registrations| - 1)
  }

  ghost predicate JobsOk(c: Consumer) {
    forall job <- c.queue ::
      && job.generation <= c.state.generation
      && (job.effect.CloseLink? ==> c.state.Stopped?)
      && (c.state.Connecting? && job.effect.Consume? ==> job.generation < c.state.generation)
  }

  /** The queue waits for the reply to a registration on the link of `g`. */
  predicate Awaiting(c: Consumer, g: nat) {
    && c.await.Some? && c.await.value.Replying? && c.await.value.r < |c.registrations|
    && c.registrations[c.await.value.r].generation == g
  }

  function Outstanding(c: Consumer, g: nat): nat {
    Consumes(PendingJobs(c), g) + if Awaiting(c, g) then 1 else 0
  }

  /** What each status of an open machine says about the queue and the registration. */
  ghost predicate StatusTells(status: Status, live: bool, jobs: seq<Job>, awaiting: bool, g: nat) {
    match status
    case Idle => Consumes(jobs, g) == 0 && !awaiting && !LiveAfter(live, jobs, g)
    case Registering =>
      if awaiting then Consumes(jobs, g) == 0 && LiveAfter(true, jobs, g)
      else if Consumes(jobs, g) == 0 then !live
      else Consumes(jobs, g) == 1 && LiveAfter(true, jobs, g)
    case Active => Consumes(jobs, g) == 0 && !awaiting && live && LiveAfter(true, jobs, g)
  }

  ghost predicate QueueOk(c: Consumer) {
    c.link.Some? ==>
      && NeverTwice(CurrentLive(c), PendingJobs(c), c.link.value)
      && (c.state.Open? ==>
            StatusTells(c.state.consumer, CurrentLive(c), PendingJobs(c), Awaiting(c, c.link.value), c.link.value))
  }

  ghost predicate LifeOk(c: Consumer) {
    StatusOk(c.state) && LinkOk(c) && RegistrationsOk(c) && JobsOk(c) && QueueOk(c) && !c.collided
  }

  // ---------- What an event appends ----------

  ghost predicate Harmless(jobs: seq<Job>) {
    forall job <- jobs :: !job.effect.Consume? && !job.effect.ReturnHeld? && !job.effect.CloseLink?
  }

  lemma {:induction false} HarmlessJobs(live: bool, jobs: seq<Job>, g: nat)
    requires Harmless(jobs)
    ensures LiveAfter(live, jobs, g) == live && NeverTwice(live, jobs, g) && Consumes(jobs, g) == 0
    decreases jobs
  {
    if jobs != [] {
      assert jobs[0] in jobs;
      HarmlessJobs(live, jobs[1..], g);
    }
  }

  lemma OneJob(live: bool, job: Job, g: nat)
    ensures LiveAfter(live, [job], g) == LiveAfterOne(live, job, g)
    ensures NeverTwice(live, [job], g) <==> (job == Job(Consume, g) ==> !live)
    ensures Consumes([job], g) == if job == Job(Consume, g) then 1 else 0
  {
    assert [job][1..] == [];
  }

  /** Harmless jobs around at most one that matters. */
  lemma Appended(live: bool, jobs: seq<Job>, before: seq<Job>, job: Job, rest: seq<Job>, g: nat)
    requires Harmless(before) && Harmless(rest)
    ensures var all := jobs + (before + [job] + rest);
      && LiveAfter(live, all, g) == LiveAfterOne(LiveAfter(live, jobs, g), job, g)
      && (NeverTwice(live, all, g) <==>
            NeverTwice(live, jobs, g) && (job == Job(Consume, g) ==> !LiveAfter(live, jobs, g)))
      && Consumes(all, g) == Consumes(jobs, g) + if job == Job(Consume, g) then 1 else 0
  {
    hide LiveAfter, NeverTwice, Consumes, LiveAfterOne, Harmless;
    var after := LiveAfter(live, jobs, g);
    JobsConcat(live, jobs, before + [job] + rest, g);
    JobsConcat(after, before + [job], rest, g);
    JobsConcat(after, before, [job], g);
    HarmlessJobs(after, before, g);
    OneJob(after, job, g);
    HarmlessJobs(LiveAfterOne(after, job, g), rest, g);
  }

  lemma AppendedHarmless(live: bool, jobs: seq<Job>, more: seq<Job>, g: nat)
    requires Harmless(more)
    ensures LiveAfter(live, jobs + more, g) == LiveAfter(live, jobs, g)
    ensures NeverTwice(live, jobs + more, g) <==> NeverTwice(live, jobs, g)
    ensures Consumes(jobs + more, g) == Consumes(jobs, g)
  {
    hide LiveAfter, NeverTwice, Consumes, Harmless;
    JobsConcat(live, jobs, more, g);
    HarmlessJobs(LiveAfter(live, jobs, g), more, g);
  }

  /** The part of the invariant an event has to keep. */
  ghost predicate ShapeOk(s: State, live: bool, jobs: seq<Job>, awaiting: bool) {
    && NeverTwice(live, jobs, s.generation)
    && (s.Open? ==> StatusTells(s.consumer, live, jobs, awaiting, s.generation))
  }

  lemma AppendHarmlessKeepsShape(s: State, live: bool, jobs: seq<Job>, awaiting: bool, more: seq<Job>)
    requires ShapeOk(s, live, jobs, awaiting) && Harmless(more)
    ensures ShapeOk(s, live, jobs + more, awaiting)
  {
    AppendedHarmless(live, jobs, more, s.generation);
    AppendedHarmless(true, jobs, more, s.generation);
    hide LiveAfter, NeverTwice, Consumes, Harmless;
  }

  lemma ConsumeKeepsShape(s: State, live: bool, jobs: seq<Job>, before: seq<Job>)
    requires NeverTwice(live, jobs, s.generation) && !LiveAfter(live, jobs, s.generation) && Harmless(before)
    requires Consumes(jobs, s.generation) == 0 && s.Open? && s.consumer == Registering
    ensures ShapeOk(s, live, jobs + (before + [Job(Consume, s.generation)]), false)
  {
    var job := Job(Consume, s.generation);
    assert before + [job] + [] == before + [job];
    Appended(live, jobs, before, job, [], s.generation);
    Appended(true, jobs, before, job, [], s.generation);
    hide LiveAfter, NeverTwice, Consumes, Harmless;
  }

  lemma ReturnKeepsShape(s: State, live: bool, jobs: seq<Job>, before: seq<Job>, g: nat, rest: seq<Job>)
    requires NeverTwice(live, jobs, s.generation) && Harmless(before) && Harmless(rest)
    requires Consumes(jobs, s.generation) == 0 && s.Open? && s.consumer == Idle
    ensures ShapeOk(s, live, jobs + (before + [Job(ReturnHeld, g)] + rest), false)
  {
    var job := Job(ReturnHeld, g);
    Appended(live, jobs, before, job, rest, s.generation);
    hide LiveAfter, NeverTwice, Consumes, Harmless;
  }

  /** Any event but the ones that come with a change of their own. */
  predicate IsPlain(e: Event) {
    e.StoreReady? || e.StoreUnavailable? || e.Stop? || e.Drained? || e.BackoffElapsed? || e.LinkFailed?
  }

  lemma PlainKeepsShape(s: State, live: bool, jobs: seq<Job>, awaiting: bool, e: Event)
    requires StatusOk(s) && ShapeOk(s, live, jobs, awaiting) && IsPlain(e) && (s.Open? || s.Draining? || s.Stopped?)
    ensures var t := Next(s, e);
      ShapeOk(t.state, live, jobs + JobsOf(t.effects, t.state.generation), awaiting) && t.state.generation == s.generation
  {
    hide LiveAfter, NeverTwice, Consumes;
    var g, t := s.generation, Next(s, e);
    var more := JobsOf(t.effects, g);
    if s.Open? && s.consumer.Idle? && e.StoreReady? {
      assert more == [] + [Job(Consume, g)];
      ConsumeKeepsShape(t.state, live, jobs, []);
    } else if s.Open? && s.consumer.Active? && e.StoreUnavailable? {
      assert more == [Job(CancelConsumer, g), Job(AbortHandlers, g)] + [Job(ReturnHeld, g)] + [Job(WatchStore, g)];
      ReturnKeepsShape(t.state, live, jobs, [Job(CancelConsumer, g), Job(AbortHandlers, g)], g, [Job(WatchStore, g)]);
    } else if s.Draining? && e.Drained? && e.generation == g {
      assert more == [Job(AbortHandlers, g)] + [Job(CloseLink, g)] + [];
      Appended(live, jobs, [Job(AbortHandlers, g)], Job(CloseLink, g), [], g);
    } else {
      AppendHarmlessKeepsShape(s, live, jobs, awaiting, more);
      PlainStatus(s, e);
    }
  }

  lemma PlainStatus(s: State, e: Event)
    requires StatusOk(s) && IsPlain(e) && (s.Open? || s.Draining? || s.Stopped?)
    requires !(s.Open? && s.consumer.Idle? && e.StoreReady?) && !(s.Open? && s.consumer.Active? && e.StoreUnavailable?)
    ensures var t := Next(s, e);
      && (t.state.Open? ==> s.Open? && t.state.consumer == s.consumer) && t.state.generation == s.generation
  {
  }

  // ---------- Dispatching ----------

  lemma DispatchPending(c: Consumer, e: Event)
    ensures var t := Next(c.state, e);
      PendingJobs(Dispatch(c, e)) == PendingJobs(c) + JobsOf(t.effects, t.state.generation)
  {
    hide Next;
  }

  /** What a transition asks for fits the state it leads to. */
  lemma EffectsFit(s: State, e: Event)
    ensures var t := Next(s, e);
      && s.generation <= t.state.generation
      && (CloseLink in t.effects ==> t.state.Stopped?)
      && (Consume in t.effects ==> t.state.Open?)
      && (s.Stopped? ==> t.state.Stopped?)
      && (t.state.Connecting? ==> s.Connecting? || s.generation < t.state.generation)
      && (t.state.Open? ==> s.Open? || (s.Connecting? && e.LinkOpened?))
      && (t.state.Draining? ==> s.Open? || s.Draining?)
      && (s.Draining? ==> t.state.Draining? || t.state.Stopped?)
      && (s.Open? || s.Draining? || s.Stopped? ==>
            t.state.generation == s.generation && (t.state.Backoff? ==> e.LinkClosed?) && !t.state.Connecting?)
  {
  }

  lemma DispatchKeepsJobs(c: Consumer, e: Event)
    requires JobsOk(c)
    ensures JobsOk(Dispatch(c, e))
  {
    EffectsFit(c.state, e);
    hide Next;
    var t := Next(c.state, e);
    var c' := Dispatch(c, e);
    forall job <- c'.queue
      ensures job.generation <= c'.state.generation && (job.effect.CloseLink? ==> c'.state.Stopped?)
              && (c'.state.Connecting? && job.effect.Consume? ==> job.generation < c'.state.generation) {
      if job !in c.queue {
        assert job in JobsOf(t.effects, t.state.generation);
        assert job.effect in t.effects;
      }
    }
  }

  /** The link and the registrations, when the machine keeps its link. */
  lemma DispatchKeepsLink(c: Consumer, e: Event)
    requires LinkOk(c) && RegistrationsOk(c) && !e.LinkClosed? && !e.LinkOpened?
    ensures LinkOk(Dispatch(c, e)) && RegistrationsOk(Dispatch(c, e))
  {
    EffectsFit(c.state, e);
    hide Next;
  }

  lemma PlainKeepsLife(c: Consumer, e: Event)
    requires LifeOk(c) && IsPlain(e)
    ensures LifeOk(Dispatch(c, e))
  {
    StepKeepsStatus(c.state, e);
    DispatchKeepsJobs(c, e);
    DispatchKeepsLink(c, e);
    DispatchPending(c, e);
    if c.link.Some? {
      PlainKeepsShape(c.state, CurrentLive(c), PendingJobs(c), Awaiting(c, c.state.generation), e);
    }
    hide Next, NeverTwice, StatusTells, JobsOk, RegistrationsOk, PendingJobs;
  }

  // ---------- Steps that change no life ----------

  /** The same machine, link, queue and registrations, up to what the registrations hold. */
  ghost predicate SameLife(c: Consumer, c': Consumer) {
    && c'.state == c.state && c'.link == c.link && c'.ended == c.ended && c'.await == c.await && c'.queue == c.queue
    && c'.draining == c.draining && c'.collided == c.collided && |c'.registrations| == |c.registrations|
    && forall r :: 0 <= r < |c.registrations| ==>
         c'.registrations[r].generation == c.registrations[r].generation && c'.registrations[r].live == c.registrations[r].live
  }

  lemma SameLifeParts(c: Consumer, c': Consumer)
    requires LinkOk(c) && RegistrationsOk(c) && JobsOk(c) && SameLife(c, c')
    ensures LinkOk(c') && RegistrationsOk(c') && JobsOk(c')
    ensures CurrentLive(c') == CurrentLive(c) && PendingJobs(c') == PendingJobs(c)
    ensures forall g :: Awaiting(c', g) == Awaiting(c, g)
  {
  }

  lemma SameLifeKeepsLife(c: Consumer, c': Consumer)
    requires LifeOk(c) && SameLife(c, c')
    ensures LifeOk(c')
  {
    SameLifeParts(c, c');
    hide NeverTwice, StatusTells, LinkOk, RegistrationsOk, JobsOk, PendingJobs;
  }

  lemma HandledKeepsLife(c: Consumer, r: nat, tag: nat, result: H.HandlerResult, sent: bool)
    requires LifeOk(c) && r < |c.registrations| && c.inFlight > 0
    ensures LifeOk(HandlerEnded(c, r, tag, result, sent))
  {
    hide LifeOk, Next;
    var registration := c.registrations[r];
    var done := c.(counters := CountedResult(c.counters, result), inFlight := c.inFlight - 1,
                   registrations := c.registrations[r := registration.(running := registration.running - {tag})]);
    SameLifeKeepsLife(c, done);
    match result
    case AckVerdict(_, _, _, _, _) => SameLifeKeepsLife(done, Acknowledged(done, r, tag, Ack, sent));
    case Reject(_, _) => SameLifeKeepsLife(done, Acknowledged(done, r, tag, Reject, sent));
    case Abandon(_, _) => PlainKeepsLife(done, StoreUnavailable);
  }

  lemma DeliveredKeepsLife(c: Consumer, r: nat, tag: nat)
    requires LifeOk(c) && r < |c.registrations|
    ensures LifeOk(DeliveryCame(c, r, tag))
  {
    hide LifeOk;
    SameLifeKeepsLife(c, DeliveryCame(c, r, tag));
  }

  // ---------- The link comes and goes ----------

  lemma OpenedKeepsShape(s: State, jobs: seq<Job>, now: int)
    requires s.Connecting? && StatusOk(s) && Consumes(jobs, s.generation) == 0
    ensures var t := Next(s, LinkOpened(s.generation, now));
      ShapeOk(t.state, false, jobs + JobsOf(t.effects, t.state.generation), false)
  {
    hide LiveAfter, NeverTwice, Consumes;
    var g, t := s.generation, Next(s, LinkOpened(s.generation, now));
    WithoutConsume(jobs, g);
    if s.storeReady {
      assert JobsOf(t.effects, g) == [] + [Job(Consume, g)];
      ConsumeKeepsShape(t.state, false, jobs, []);
    } else {
      assert jobs + JobsOf(t.effects, g) == jobs;
    }
  }

  lemma LinkOpenedKeepsLife(c: Consumer, now: int)
    requires LifeOk(c) && c.state.Connecting? && c.state.generation !in c.ended
    ensures LifeOk(Dispatch(c.(link := Some(c.state.generation)), LinkOpened(c.state.generation, now)))
  {
    var g, linked := c.state.generation, c.(link := Some(c.state.generation));
    var e := LinkOpened(g, now);
    var c' := Dispatch(linked, e);
    assert c'.state.Open? && c'.state.generation == g && StatusOk(c'.state);
    DispatchKeepsJobs(linked, e);
    DispatchPending(linked, e);
    assert !CurrentLive(c) && c.draining.None?;
    assert Job(Consume, g) !in PendingJobs(c);
    NoneMeansZero(PendingJobs(c), g);
    OpenedKeepsShape(c.state, PendingJobs(c), now);
    hide Next, NeverTwice, StatusTells, JobsOk, PendingJobs, Consumes;
    assert RegistrationsOk(c') && LinkOk(c');
  }

  lemma AttemptKeepsLife(c: Consumer, i: nat, linked: bool, reason: string, now: int)
    requires LifeOk(c) && i < |c.attempts|
    ensures LifeOk(AttemptEnded(c, i, linked, reason, now))
  {
    hide LifeOk, Next;
    var generation, ended := c.attempts[i], c.(attempts := c.attempts[..i] + c.attempts[i + 1..]);
    SameLifeKeepsLife(c, ended);
    if linked && c.state.Connecting? && c.state.generation == generation && generation !in c.ended {
      LinkOpenedKeepsLife(ended, now);
    } else {
      PlainKeepsLife(ended, LinkFailed(generation, reason));
    }
  }

  /** Without a link nothing is live and the queue cannot hurt. */
  lemma ClosedKeepsLife(c: Consumer, e: Event)
    requires StatusOk(c.state) && JobsOk(c) && !c.collided && c.link.None?
    requires (c.draining.Some? ==> c.state.Draining? || c.state.Stopped?)
    requires forall r :: 0 <= r < |c.registrations| ==> c.registrations[r].generation <= c.state.generation && !c.registrations[r].live
    requires c.await.Some? && c.await.value.Replying? ==> c.await.value.r == |c.registrations| - 1
    requires c.await.Some? && c.await.value.Returning? ==> c.await.value.r == |c.registrations| - 1
    requires e.LinkClosed? && e.generation == c.state.generation && !c.state.Connecting?
    ensures LifeOk(Dispatch(c, e))
  {
    StepKeepsStatus(c.state, e);
    DispatchKeepsJobs(c, e);
    var c' := Dispatch(c, e);
    assert c'.state.generation == c.state.generation && !c'.state.Open? && !c'.state.Connecting?;
    hide Next, JobsOk;
  }

  lemma UnlinkedParts(c: Consumer)
    requires LinkOk(c) && RegistrationsOk(c)
    ensures var c' := Unlinked(c);
      && c'.state == c.state && c'.queue == c.queue && c'.collided == c.collided && c'.draining == c.draining
      && c'.await == c.await && c'.link.None? && |c'.registrations| == |c.registrations|
      && forall r :: 0 <= r < |c.registrations| ==> c'.registrations[r].generation <= c.state.generation && !c'.registrations[r].live
  {
  }

  /** An end that is not the first of the current link only leaves its mark. */
  lemma MarkedEndKeepsLife(c: Consumer, ended: set<nat>, closed: set<nat>)
    requires LifeOk(c) && (c.link.Some? ==> c.link.value !in ended)
    ensures LifeOk(c.(ended := ended, closed := closed))
  {
    hide NeverTwice, StatusTells;
    var c' := c.(ended := ended, closed := closed);
    assert PendingJobs(c') == PendingJobs(c);
  }

  lemma LinkEndedKeepsLife(c: Consumer, generation: nat, connection: bool, reason: string, now: int)
    requires LifeOk(c)
    ensures LifeOk(LinkEnded(c, generation, connection, reason, now))
  {
    hide NeverTwice, StatusTells, Next, JobsOk, RegistrationsOk, QueueOk;
    var seen := if connection then c.(closed := c.closed + {generation}) else c;
    MarkedEndKeepsLife(c, c.ended, seen.closed);
    if generation in c.ended {
    } else if (c.state.Connecting? && c.state.generation == generation) || generation != c.state.generation {
      MarkedEndKeepsLife(seen, c.ended + {generation}, seen.closed);
    } else {
      UnlinkedParts(seen);
      SameQueueKeepsJobs(seen, Unlinked(seen));
      RegistrationWaits(seen);
      ClosedKeepsLife(Unlinked(seen), LinkClosed(generation, reason, now));
    }
  }

  lemma SameQueueKeepsJobs(c: Consumer, c': Consumer)
    requires JobsOk(c) && c'.queue == c.queue && c'.state == c.state
    ensures JobsOk(c')
  {
  }

  lemma RegistrationWaits(c: Consumer)
    requires RegistrationsOk(c)
    ensures c.await.Some? && c.await.value.Replying? ==> c.await.value.r == |c.registrations| - 1
    ensures c.await.Some? && c.await.value.Returning? ==> c.await.value.r == |c.registrations| - 1
  {
  }

  // ---------- A registration dies ----------

  lemma DeadKeepsShape(s: State, jobs: seq<Job>, awaiting: bool)
    requires ShapeOk(s, true, jobs, awaiting) && !(s.Open? && s.consumer.Active?)
    ensures ShapeOk(s, false, jobs, awaiting)
  {
    DeadIsSafer(jobs, s.generation);
  }

  lemma CancelledKeepsShape(s: State, jobs: seq<Job>, awaiting: bool)
    requires StatusOk(s) && ShapeOk(s, true, jobs, awaiting) && (s.Open? || s.Draining? || s.Stopped?)
    ensures var t := Next(s, BrokerCancelled(s.generation));
      ShapeOk(t.state, false, jobs + JobsOf(t.effects, t.state.generation), awaiting)
  {
    hide LiveAfter, NeverTwice, Consumes;
    var g, t := s.generation, Next(s, BrokerCancelled(s.generation));
    if s.Open? && s.consumer.Active? {
      WithoutConsume(jobs, g);
      assert JobsOf(t.effects, g) == [Job(AbortHandlers, g)] + [Job(Consume, g)];
      ConsumeKeepsShape(t.state, false, jobs, [Job(AbortHandlers, g)]);
    } else {
      DeadKeepsShape(s, jobs, awaiting);
      assert t.state == s;
      AppendHarmlessKeepsShape(s, false, jobs, awaiting, JobsOf(t.effects, g));
    }
  }

  /** The registration is void; everything but the shape of the queue is as before. */
  lemma VoidedParts(c: Consumer, r: nat)
    requires LifeOk(c) && r < |c.registrations|
    ensures var c' := Voided(c, r);
      LinkOk(c') && RegistrationsOk(c') && JobsOk(c') && PendingJobs(c') == PendingJobs(c)
      && (c.registrations[r].live ==> CurrentLive(c) && !CurrentLive(c') && c.link == Some(c.registrations[r].generation))
      && (c.link.Some? ==> Awaiting(c', c.link.value) == Awaiting(c, c.link.value))
  {
    hide NeverTwice, StatusTells;
  }

  lemma CancelKeepsLife(c: Consumer, r: nat)
    requires LifeOk(c) && r < |c.registrations|
    ensures LifeOk(CancelCame(c, r))
  {
    if c.registrations[r].live {
      VoidedParts(c, r);
      var voided, e := Voided(c, r), BrokerCancelled(c.registrations[r].generation);
      StepKeepsStatus(c.state, e);
      DispatchKeepsJobs(voided, e);
      DispatchKeepsLink(voided, e);
      DispatchPending(voided, e);
      CancelledKeepsShape(c.state, PendingJobs(c), Awaiting(c, c.state.generation));
      EffectsFit(c.state, e);
      hide Next, NeverTwice, StatusTells, JobsOk, RegistrationsOk, PendingJobs;
    }
  }

  // ---------- What ends a wait ----------

  lemma IdleAwaitKeepsLife(c: Consumer)
    requires LifeOk(c) && c.await.Some? && (c.await.value.Cancelling? || c.await.value.Closing?)
    ensures LifeOk(c.(await := None))
  {
    hide NeverTwice, StatusTells;
    assert PendingJobs(c.(await := None)) == PendingJobs(c);
  }

  /** The reply of a live registration makes the machine active, or lets it undo the registration. */
  lemma RegisteredKeepsShape(s: State, jobs: seq<Job>)
    requires StatusOk(s) && ShapeOk(s, true, jobs, true) && (s.Open? || s.Draining? || s.Stopped?)
    ensures var t := Next(s, ConsumerRegistered(s.generation));
      ShapeOk(t.state, true, jobs + JobsOf(t.effects, t.state.generation), false)
  {
    hide LiveAfter, NeverTwice, Consumes;
    var g, t := s.generation, Next(s, ConsumerRegistered(s.generation));
    var more := JobsOf(t.effects, g);
    if s.Open? && !s.storeReady {
      assert more == [Job(CancelConsumer, g), Job(AbortHandlers, g)] + [Job(ReturnHeld, g)] + [];
      ReturnKeepsShape(t.state, true, jobs, [Job(CancelConsumer, g), Job(AbortHandlers, g)], g, []);
    } else {
      AppendedHarmless(true, jobs, more, g);
    }
  }

  /** The registration that was waited for, as its reply leaves it. */
  function Answered(c: Consumer, registration: Registration): Consumer
    requires c.await.Some? && c.await.value.Replying? && c.await.value.r < |c.registrations|
  {
    c.(await := None, registrations := c.registrations[c.await.value.r := registration])
  }

  /** Everything but the shape of the queue. */
  lemma AnsweredParts(c: Consumer, registration: Registration)
    requires LifeOk(c) && c.await.Some? && c.await.value.Replying? && c.await.value.r < |c.registrations|
    requires var before := c.registrations[c.await.value.r];
      registration.generation == before.generation && (registration.live ==> before.live)
    ensures var c' := Answered(c, registration);
      LinkOk(c') && RegistrationsOk(c') && JobsOk(c') && PendingJobs(c') == PendingJobs(c)
      && CurrentLive(c') == registration.live && forall g :: !Awaiting(c', g)
    ensures c.registrations[c.await.value.r].live == CurrentLive(c)
    ensures CurrentLive(c) ==> c.link == Some(registration.generation) && Awaiting(c, c.state.generation)
  {
    hide NeverTwice, StatusTells;
  }

  /** A reply to a registration that is not live leaves an open machine where it is. */
  lemma UnansweredKeepsLife(c: Consumer, registration: Registration)
    requires LifeOk(c) && c.await.Some? && c.await.value.Replying? && c.await.value.r < |c.registrations|
    requires registration.generation == c.registrations[c.await.value.r].generation && !registration.live
    ensures LifeOk(Answered(c, registration))
  {
    AnsweredParts(c, registration);
    if c.link.Some? {
      UnansweredKeepsShape(c.state, CurrentLive(c), PendingJobs(c), Awaiting(c, c.link.value));
    }
    hide NeverTwice, StatusTells, JobsOk, RegistrationsOk, LinkOk, PendingJobs;
  }

  lemma LiveReplyKeepsLife(c: Consumer, registration: Registration, now: int)
    requires LifeOk(c) && c.await.Some? && c.await.value.Replying? && c.await.value.r < |c.registrations|
    requires c.registrations[c.await.value.r].live
    requires registration == c.registrations[c.await.value.r].(tagged := true)
    ensures LifeOk(Dispatch(Answered(c, registration), ConsumerRegistered(registration.generation)))
  {
    var tagged, e := Answered(c, registration), ConsumerRegistered(registration.generation);
    AnsweredParts(c, registration);
    StepKeepsStatus(c.state, e);
    DispatchKeepsJobs(tagged, e);
    DispatchKeepsLink(tagged, e);
    DispatchPending(tagged, e);
    EffectsFit(c.state, e);
    RegisteredKeepsShape(c.state, PendingJobs(c));
    hide Next, NeverTwice, StatusTells, JobsOk, RegistrationsOk, PendingJobs;
  }

  lemma ReplyKeepsLife(c: Consumer, reply: Reply, now: int)
    requires LifeOk(c) && c.await.Some? && c.await.value.Replying? && c.await.value.r < |c.registrations|
    ensures LifeOk(Replied(c, reply, now))
  {
    hide LifeOk, Next;
    var registration := c.registrations[c.await.value.r];
    match reply
    case Accepted =>
      var tagged := registration.(tagged := true);
      if registration.live {
        LiveReplyKeepsLife(c, tagged, now);
        SameLifeKeepsLife(Dispatch(Answered(c, tagged), ConsumerRegistered(registration.generation)), Replied(c, Accepted, now));
      } else {
        UnansweredKeepsLife(c, tagged);
      }
    case Refused =>
      UnansweredKeepsLife(c, registration.(live := false));
    case TimedOut =>
      UnansweredKeepsLife(c, registration.(live := false));
      LinkEndedKeepsLife(Answered(c, registration.(live := false)), registration.generation, false, "consume_timed_out", now);
  }

  lemma UnansweredKeepsShape(s: State, live: bool, jobs: seq<Job>, awaiting: bool)
    requires ShapeOk(s, live, jobs, awaiting) && (live ==> awaiting)
    ensures ShapeOk(s, false, jobs, false)
  {
    DeadIsSafer(jobs, s.generation);
  }

  lemma ReturnedKeepsShape(s: State, live: bool, g: nat, queue: seq<Job>, awaiting: bool)
    requires ShapeOk(s, live, [Job(ReturnHeld, g)] + queue, awaiting) && !awaiting
    ensures ShapeOk(s, false, queue, awaiting)
  {
    var job := Job(ReturnHeld, g);
    var jobs := [job] + queue;
    assert jobs[0] == job && jobs[1..] == queue;
    DeadIsSafer(queue, s.generation);
    WithoutConsumeIf(queue, s.generation);
  }

  lemma WithoutConsumeIf(jobs: seq<Job>, g: nat)
    ensures Consumes(jobs, g) == 0 ==> !LiveAfter(false, jobs, g)
  {
    if Consumes(jobs, g) == 0 {
      WithoutConsume(jobs, g);
    }
  }

  /** The handlers settled and what was held is returned: the registration is void, the queue goes on. */
  lemma ReturnedKeepsLife(c: Consumer, count: nat)
    requires LifeOk(c) && c.await.Some? && c.await.value.Returning? && c.await.value.r < |c.registrations|
    ensures LifeOk(Returned(c, count))
  {
    var c' := Returned(c, count);
    if c.link.Some? {
      ReturnedKeepsShape(c.state, CurrentLive(c), c.await.value.generation, c.queue, Awaiting(c, c.link.value));
      assert PendingJobs(c') == c.queue;
    }
    hide NeverTwice, StatusTells, Nacks, NackCount;
    assert !CurrentLive(c');
    assert RegistrationsOk(c');
  }

  // ---------- The effects ----------

  lemma FirstJob(jobs: seq<Job>, live: bool, g: nat)
    requires jobs != []
    ensures LiveAfter(live, jobs, g) == LiveAfter(LiveAfterOne(live, jobs[0], g), jobs[1..], g)
    ensures NeverTwice(live, jobs, g) <==>
      (jobs[0] == Job(Consume, g) ==> !live) && NeverTwice(LiveAfterOne(live, jobs[0], g), jobs[1..], g)
    ensures Consumes(jobs, g) == (if jobs[0] == Job(Consume, g) then 1 else 0) + Consumes(jobs[1..], g)
  {
  }

  /** Taking the first job off the queue, when it does at once what `LiveAfterOne` says. */
  lemma FirstJobKeepsShape(s: State, live: bool, jobs: seq<Job>)
    requires jobs != [] && ShapeOk(s, live, jobs, false)
    ensures var job := jobs[0];
      ShapeOk(s, LiveAfterOne(live, job, s.generation), jobs[1..], job == Job(Consume, s.generation))
      && (job == Job(Consume, s.generation) ==> !live)
  {
    var g := s.generation;
    FirstJob(jobs, live, g);
    FirstJob(jobs, true, g);
    DeadIsSafer(jobs[1..], g);
    WithoutConsumeIf(jobs[1..], g);
    hide LiveAfter, NeverTwice, Consumes;
  }

  /** The queue one job shorter, while the job has done nothing yet. */
  function Popped(c: Consumer): Consumer
    requires c.queue != []
  {
    c.(queue := c.queue[1..])
  }

  lemma PoppedParts(c: Consumer)
    requires LifeOk(c) && c.await.None? && c.queue != []
    ensures LinkOk(Popped(c)) && RegistrationsOk(Popped(c)) && JobsOk(Popped(c))
    ensures PendingJobs(c) == c.queue && PendingJobs(Popped(c)) == c.queue[1..]
    ensures c.queue[0].effect.CloseLink? ==> c.state.Stopped?
    ensures c.link.Some? ==> ShapeOk(c.state, CurrentLive(c), c.queue, false) && c.link.value == c.state.generation
  {
    hide NeverTwice, StatusTells;
    assert c.queue[0] in c.queue;
    forall job <- c.queue[1..] ensures job in c.queue {
    }
  }

  /** An effect that leaves the registration and the link alone. */
  lemma CalmEffectKeepsLife(c: Consumer, c': Consumer)
    requires LifeOk(c) && c.await.None? && c.queue != [] && SameLife(Popped(c), c'.(await := None))
    requires c'.await.None? || c'.await.value == Cancelling
    requires LiveAfterOne(CurrentLive(c), c.queue[0], c.state.generation) == CurrentLive(c) || c.link.None?
    requires c.queue[0] != Job(Consume, c.state.generation) || c.link.None?
    ensures LifeOk(c')
  {
    hide NeverTwice, StatusTells, LiveAfterOne, LinkOk, RegistrationsOk, JobsOk;
    PoppedParts(c);
    var calm := c'.(await := None);
    SameLifeParts(Popped(c), calm);
    CancellingParts(calm, c');
    if c.link.Some? {
      FirstJobKeepsShape(c.state, CurrentLive(c), c.queue);
    }
  }

  lemma CancellingParts(c: Consumer, c': Consumer)
    requires LinkOk(c) && RegistrationsOk(c) && JobsOk(c) && c.await.None?
    requires c' == c || c' == c.(await := Some(Cancelling))
    ensures LinkOk(c') && RegistrationsOk(c') && JobsOk(c') && PendingJobs(c') == c.queue
    ensures forall g :: !Awaiting(c', g)
  {
  }

  /** A registration is begun: the last one, the only live one, and the one the queue waits for. */
  lemma BegunParts(c: Consumer, g: nat)
    requires LinkOk(c) && RegistrationsOk(c) && JobsOk(c) && c.await.None? && c.link == Some(g) && !CurrentLive(c)
    ensures var c' := ConsumeBegun(c, g);
      && c'.state == c.state && c'.link == c.link && c'.collided == c.collided
      && LinkOk(c') && RegistrationsOk(c') && JobsOk(c')
      && CurrentLive(c') && Awaiting(c', g) && PendingJobs(c') == c.queue
  {
    var c' := ConsumeBegun(c, g);
    assert RegistrationsOk(c') by {
      hide JobsOk;
    }
    assert JobsOk(c') by {
      hide RegistrationsOk;
    }
  }

  lemma ConsumeKeepsLife(c: Consumer)
    requires LifeOk(c) && c.await.None? && c.queue != [] && c.queue[0].effect.Consume?
    ensures LifeOk(EffectBegun(c))
    ensures c.link == Some(c.queue[0].generation) ==> !CurrentLive(c)
  {
    var g := c.queue[0].generation;
    PoppedParts(c);
    if c.link != Some(g) {
      hide LifeOk, PendingJobs;
      CalmEffectKeepsLife(c, EffectBegun(c));
    } else {
      hide NeverTwice, StatusTells, LinkOk, RegistrationsOk, JobsOk, PendingJobs;
      FirstJobKeepsShape(c.state, CurrentLive(c), c.queue);
      BegunParts(Popped(c), g);
    }
  }

  lemma ReturnBeginKeepsLife(c: Consumer)
    requires LifeOk(c) && c.await.None? && c.queue != [] && c.queue[0].effect.ReturnHeld?
    ensures LifeOk(EffectBegun(c))
  {
    PoppedParts(c);
    if HasCurrent(c) {
      ReturnWaitsKeepsLife(c);
    } else {
      hide LifeOk, PendingJobs;
      CalmEffectKeepsLife(c, EffectBegun(c));
    }
  }

  lemma ReturnWaitsKeepsLife(c: Consumer)
    requires LifeOk(c) && c.await.None? && c.queue != [] && c.queue[0].effect.ReturnHeld? && HasCurrent(c)
    ensures LifeOk(ReturnBegun(Popped(c), c.queue[0].generation))
  {
    hide NeverTwice, StatusTells, JobsOk;
    PoppedParts(c);
    var c' := ReturnBegun(Popped(c), c.queue[0].generation);
    assert PendingJobs(c') == [c.queue[0]] + c.queue[1..] == c.queue;
    SameQueueKeepsJobs(Popped(c), c');
  }

  lemma LinkDropKeepsLife(c: Consumer, c': Consumer)
    requires StatusOk(c.state) && LinkOk(c) && RegistrationsOk(c) && JobsOk(c) && !c.collided && !c.state.Open?
    requires c' == LinkDropped(c).(await := c'.await) && (c'.await == c.await || c'.await == Some(Closing))
    ensures LifeOk(c')
  {
  }

  lemma EffectKeepsLife(c: Consumer)
    requires LifeOk(c) && c.await.None? && c.queue != []
    ensures LifeOk(EffectBegun(c))
  {
    match c.queue[0].effect
    case Consume => ConsumeKeepsLife(c);
    case ReturnHeld => ReturnBeginKeepsLife(c);
    case CloseLink => CloseKeepsLife(c);
    case _ =>
      hide LifeOk, PendingJobs;
      CalmEffectKeepsLife(c, EffectBegun(c));
  }

  lemma CloseKeepsLife(c: Consumer)
    requires LifeOk(c) && c.await.None? && c.queue != [] && c.queue[0].effect.CloseLink?
    ensures LifeOk(EffectBegun(c))
  {
    PoppedParts(c);
    LifeParts(c);
    hide LifeOk, LinkOk, RegistrationsOk, JobsOk, PendingJobs;
    LinkDropKeepsLife(Popped(c), EffectBegun(c));
  }

  lemma LifeParts(c: Consumer)
    requires LifeOk(c)
    ensures StatusOk(c.state) && !c.collided
  {
    hide LinkOk, RegistrationsOk, JobsOk, NeverTwice, StatusTells;
  }

  // ---------- Every step ----------

  lemma StopKeepsLife(c: Consumer)
    requires LifeOk(c)
    ensures LifeOk(StopBegun(c))
  {
    var cleared := c.(timers := if c.timers == [] then [] else c.timers[..|c.timers| - 1]);
    SameLifeKeepsLife(c, cleared);
    PlainKeepsLife(cleared, Stop);
    hide NeverTwice, StatusTells, JobsOk, RegistrationsOk, Next;
    var stopped := Dispatch(cleared, Stop);
    if stopped.state.Draining? {
      assert PendingJobs(StopBegun(c)) == PendingJobs(stopped);
      assert JobsOk(StopBegun(c)) by {
        SameQueueKeepsJobs(stopped, StopBegun(c));
      }
      assert RegistrationsOk(StopBegun(c)) by {
        SameRegistrations(stopped, StopBegun(c));
      }
    }
  }

  lemma SameRegistrations(c: Consumer, c': Consumer)
    requires RegistrationsOk(c) && c'.registrations == c.registrations && c'.state == c.state
    requires c'.link == c.link && c'.await == c.await
    ensures RegistrationsOk(c')
  {
  }

  lemma DrainOverKeepsLife(c: Consumer, expired: bool)
    requires LifeOk(c) && c.draining.Some?
    ensures LifeOk(DrainOver(c, expired))
  {
    var cleared, e := c.(draining := None), Drained(c.draining.value);
    assert LifeOk(cleared) by {
      hide NeverTwice, StatusTells;
      assert PendingJobs(cleared) == PendingJobs(c);
    }
    PlainKeepsLife(cleared, e);
    EffectsFit(c.state, e);
    if expired {
      var drained := Dispatch(cleared, e);
      hide Next, NeverTwice, StatusTells;
      SameLifeKeepsLife(drained, CurrentAborted(drained));
      LinkDropKeepsLife(CurrentAborted(drained), DrainOver(c, expired));
    }
  }

  lemma TimerKeepsLife(c: Consumer, s: Step)
    requires LifeOk(c) && Enabled(c, s) && (s.Starts? || s.TimerFires? || s.WatchEnds? || s.StoreReports?)
    ensures LifeOk(After(c, s))
  {
    hide LifeOk, Next;
    match s
    case Starts => PlainKeepsLife(c, BackoffElapsed(c.state.generation));
    case TimerFires(i) =>
      var fired := c.(timers := c.timers[..i] + c.timers[i + 1..]);
      SameLifeKeepsLife(c, fired);
      PlainKeepsLife(fired, BackoffElapsed(c.timers[i]));
    case WatchEnds(_) =>
      SameLifeKeepsLife(c, c.(watching := false));
      PlainKeepsLife(c.(watching := false), StoreReady);
    case StoreReports => PlainKeepsLife(c, StoreReady);
  }

  /** Every step keeps what the life of the consumer rests on. */
  lemma StepKeepsLife(c: Consumer, s: Step)
    requires LifeOk(c) && Enabled(c, s)
    requires s.Handles? ==> c.inFlight > 0
    ensures LifeOk(After(c, s))
  {
    assert c.await.Some? && (c.await.value.Replying? || c.await.value.Returning?) ==> c.await.value.r == |c.registrations| - 1;
    if s.Starts? || s.TimerFires? || s.WatchEnds? || s.StoreReports? {
      TimerKeepsLife(c, s);
    } else {
      hide LifeOk, Replied, Returned, LinkEnded, AttemptEnded, DeliveryCame, CancelCame, HandlerEnded, StopBegun, DrainOver, EffectBegun;
      match s
      case EffectRuns => EffectKeepsLife(c);
      case ReplyCame(reply, now) => if c.await.value.r < |c.registrations| { ReplyKeepsLife(c, reply, now); }
      case CancelSettled => IdleAwaitKeepsLife(c);
      case HandlersSettled(count) => ReturnedKeepsLife(c, count);
      case CloseSettled => IdleAwaitKeepsLife(c);
      case LinkEnds(generation, connection, reason, now) => LinkEndedKeepsLife(c, generation, connection, reason, now);
      case AttemptEnds(i, linked, reason, now) => AttemptKeepsLife(c, i, linked, reason, now);
      case Delivers(r, tag) => DeliveredKeepsLife(c, r, tag);
      case Cancels(r) => CancelKeepsLife(c, r);
      case Handles(r, tag, result, sent) => HandledKeepsLife(c, r, tag, result, sent);
      case StopCalled => StopKeepsLife(c);
      case DrainEnds(expired) => DrainOverKeepsLife(c, expired);
    }
  }
}
