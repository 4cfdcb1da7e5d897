/** In every run a consumer that has no link has exactly one thing under way that can get it one. */
module ConsumerProgress {
  import opened Telemetry
  import opened ConsumerState
  import opened Consumers
  import opened ConsumerRuns
  import S = ConsumerSettlement

  // ---------- What is under way ----------

  function CountIn(generations: seq<nat>, g: nat): nat {
    if generations == [] then 0 else (if generations[0] == g then 1 else 0) + CountIn(generations[1..], g)
  }

  predicate Opens(job: Job, g: nat) {
    job.effect.OpenLink? && job.generation == g
  }

  predicate Schedules(job: Job, g: nat) {
    job.effect.ScheduleBackoff? && job.generation == g
  }

  function OpensIn(jobs: seq<Job>, g: nat): nat {
    if jobs == [] then 0 else (if Opens(jobs[0], g) then 1 else 0) + OpensIn(jobs[1..], g)
  }

  function SchedulesIn(jobs: seq<Job>, g: nat): nat {
    if jobs == [] then 0 else (if Schedules(jobs[0], g) then 1 else 0) + SchedulesIn(jobs[1..], g)
  }

  /** The attempts of a generation that run or are about to. */
  function Opening(c: Consumer, g: nat): nat {
    CountIn(c.attempts, g) + OpensIn(c.queue, g)
  }

  /** The backoff timers of a generation that are armed or about to be. */
  function BackingOff(c: Consumer, g: nat): nat {
    CountIn(c.timers, g) + SchedulesIn(c.queue, g)
  }

  ghost predicate NothingBeyond(c: Consumer) {
    forall g: nat :: g > c.state.generation ==> Opening(c, g) == 0 && BackingOff(c, g) == 0
  }

  ghost predicate OneUnderWay(c: Consumer) {
    var g := c.state.generation;
    match c.state
    case Backoff(_, _, _) => Opening(c, g) == 0 && BackingOff(c, g) == if g == 0 then 0 else 1
    case Connecting(_, _, _) => Opening(c, g) == 1 && BackingOff(c, g) == 0
    case Stopped(_, _) => true
    case _ => Opening(c, g) == 0 && BackingOff(c, g) == 0
  }

  ghost predicate ProgressOk(c: Consumer) {
    NothingBeyond(c) && OneUnderWay(c) && (c.state.Connecting? || c.state.Open? || c.state.Draining? ==> c.state.generation > 0)
  }

  // ---------- Counting ----------

  lemma {:induction false} CountConcat(a: seq<nat>, b: seq<nat>, g: nat)
    ensures CountIn(a + b, g) == CountIn(a, g) + CountIn(b, g)
  {
    if a == [] {
      assert a + b == b;
    } else {
      assert (a + b)[1..] == a[1..] + b;
      CountConcat(a[1..], b, g);
    }
  }

  lemma {:induction false} JobsCountConcat(a: seq<Job>, b: seq<Job>, g: nat)
    ensures OpensIn(a + b, g) == OpensIn(a, g) + OpensIn(b, g)
    ensures SchedulesIn(a + b, g) == SchedulesIn(a, g) + SchedulesIn(b, g)
  {
    if a == [] {
      assert a + b == b;
    } else {
      assert (a + b)[1..] == a[1..] + b;
      JobsCountConcat(a[1..], b, g);
    }
  }

  lemma OneCounted(x: nat, g: nat)
    ensures CountIn([x], g) == if x == g then 1 else 0
  {
    assert [x][1..] == [];
  }

  lemma {:induction false} CountWithout(generations: seq<nat>, i: nat, g: nat)
    requires i < |generations|
    ensures CountIn(generations[..i] + generations[i + 1..], g) == CountIn(generations, g) - if generations[i] == g then 1 else 0
  {
    var tail := generations[i..];
    assert generations == generations[..i] + tail && tail[1..] == generations[i + 1..];
    CountConcat(generations[..i], tail, g);
    CountConcat(generations[..i], generations[i + 1..], g);
  }

  /** The jobs of one transition, which never asks for two of them. */
  lemma FewJobs(s: State, e: Event, g: nat)
    ensures var t := Next(s, e);
      var jobs := JobsOf(t.effects, t.state.generation);
      && OpensIn(jobs, g) == (if s.Backoff? && t.state.Connecting? && g == t.state.generation then 1 else 0)
      && SchedulesIn(jobs, g) ==
           (if !s.Backoff? && t.state.Backoff? && g == t.state.generation then 1 else 0)
  {
    hide OpensIn, SchedulesIn;
    var t := Next(s, e);
    FourJobs(JobsOf(t.effects, t.state.generation), g);
  }

  predicate OpensAt(jobs: seq<Job>, i: nat, g: nat) {
    i < |jobs| && Opens(jobs[i], g)
  }

  predicate SchedulesAt(jobs: seq<Job>, i: nat, g: nat) {
    i < |jobs| && Schedules(jobs[i], g)
  }

  function One(b: bool): nat {
    if b then 1 else 0
  }

  lemma FourJobs(jobs: seq<Job>, g: nat)
    requires |jobs| <= 4
    ensures OpensIn(jobs, g) == One(OpensAt(jobs, 0, g)) + One(OpensAt(jobs, 1, g)) + One(OpensAt(jobs, 2, g)) + One(OpensAt(jobs, 3, g))
    ensures SchedulesIn(jobs, g)
         == One(SchedulesAt(jobs, 0, g)) + One(SchedulesAt(jobs, 1, g)) + One(SchedulesAt(jobs, 2, g)) + One(SchedulesAt(jobs, 3, g))
  {
    JobTail(jobs, 0, g);
    JobTail(jobs, 1, g);
    JobTail(jobs, 2, g);
    JobTail(jobs, 3, g);
    JobTail(jobs, 4, g);
    assert jobs[0..] == jobs;
    hide OpensIn, SchedulesIn;
  }

  function OpensFrom(jobs: seq<Job>, i: nat, g: nat): nat {
    if i <= |jobs| then OpensIn(jobs[i..], g) else 0
  }

  function SchedulesFrom(jobs: seq<Job>, i: nat, g: nat): nat {
    if i <= |jobs| then SchedulesIn(jobs[i..], g) else 0
  }

  lemma JobTail(jobs: seq<Job>, i: nat, g: nat)
    ensures OpensFrom(jobs, i, g) == One(OpensAt(jobs, i, g)) + OpensFrom(jobs, i + 1, g)
    ensures SchedulesFrom(jobs, i, g) == One(SchedulesAt(jobs, i, g)) + SchedulesFrom(jobs, i + 1, g)
    ensures i >= |jobs| ==> OpensFrom(jobs, i, g) == 0 && SchedulesFrom(jobs, i, g) == 0
  {
    if i < |jobs| {
      assert jobs[i..][1..] == jobs[i + 1..];
    }
  }

  // ---------- Events ----------

  /** Nothing that is under way changes. */
  ghost predicate SameUnderWay(c: Consumer, c': Consumer) {
    c'.state == c.state && forall g: nat :: Opening(c', g) == Opening(c, g) && BackingOff(c', g) == BackingOff(c, g)
  }

  lemma DispatchCounts(c: Consumer, e: Event, g: nat)
    ensures var t := Next(c.state, e);
      && Opening(Dispatch(c, e), g) == Opening(c, g) + (if c.state.Backoff? && t.state.Connecting? && g == t.state.generation then 1 else 0)
      && BackingOff(Dispatch(c, e), g) ==
           BackingOff(c, g) + (if !c.state.Backoff? && t.state.Backoff? && g == t.state.generation then 1 else 0)
  {
    var t := Next(c.state, e);
    FewJobs(c.state, e, g);
    JobsCountConcat(c.queue, JobsOf(t.effects, t.state.generation), g);
    hide Next;
  }

  /** Where a transition can lead. */
  lemma WhereTo(s: State, e: Event)
    ensures var t := Next(s, e).state;
      && (t.Backoff? && !s.Backoff? ==>
            t.generation == s.generation && ((s.Connecting? && e.LinkFailed? && e.generation == s.generation) || (s.Open? && e.LinkClosed?)))
      && (t.Connecting? && !s.Connecting? ==>
            s.Backoff? && t.generation == s.generation + 1 && e.BackoffElapsed? && e.generation == s.generation)
      && (s.Connecting? && !t.Connecting? ==>
            t.Stopped? || (t.Open? && e.LinkOpened? && e.generation == s.generation) || (t.Backoff? && e.LinkFailed?))
      && (s.Backoff? && !t.Backoff? ==> t.Stopped? || t.Connecting?)
      && (s.Stopped? ==> t.Stopped?)
      && (s.Open? || s.Draining? ==> !t.Connecting?) && (s.Draining? ==> t.Draining? || t.Stopped?)
      && (!t.Connecting? || s.Connecting? ==> t.generation == s.generation)
      && (t.Draining? ==> s.Open? || s.Draining?) && (t.Open? ==> s.Open? || s.Connecting?)
      && (s.Backoff? && e.BackoffElapsed? && e.generation == s.generation ==> t.Connecting?)
      && (s.Connecting? && (e.LinkFailed? || e.LinkOpened?) && e.generation == s.generation ==> !t.Connecting?)
  {
  }

  /** An event that is neither the end of the attempt nor of the backoff of this generation. */
  lemma EventKeepsProgress(c: Consumer, b: Consumer, e: Event)
    requires ProgressOk(c) && SameUnderWay(c, b)
    requires !(e.LinkFailed? || e.LinkOpened? || e.BackoffElapsed?) || e.generation != c.state.generation
    ensures ProgressOk(Dispatch(b, e))
  {
    WhereTo(c.state, e);
    DispatchCountsAll(b, e);
    hide Next, Opening, BackingOff;
  }

  lemma DispatchCountsAll(c: Consumer, e: Event)
    ensures var t, c' := Next(c.state, e), Dispatch(c, e);
      && (forall g: nat :: Opening(c', g) == Opening(c, g) + (if c.state.Backoff? && t.state.Connecting? && g == t.state.generation then 1 else 0))
      && (forall g: nat :: BackingOff(c', g) ==
            BackingOff(c, g) + (if !c.state.Backoff? && t.state.Backoff? && g == t.state.generation then 1 else 0))
  {
    var t, c' := Next(c.state, e), Dispatch(c, e);
    forall g: nat
      ensures Opening(c', g) == Opening(c, g) + (if c.state.Backoff? && t.state.Connecting? && g == t.state.generation then 1 else 0) {
      DispatchCounts(c, e, g);
    }
    forall g: nat
      ensures BackingOff(c', g) ==
              BackingOff(c, g) + (if !c.state.Backoff? && t.state.Backoff? && g == t.state.generation then 1 else 0) {
      DispatchCounts(c, e, g);
    }
  }

  // ---------- Attempts and timers ----------

  lemma EndedAttempt(c: Consumer, i: nat)
    requires i < |c.attempts|
    ensures var c' := c.(attempts := c.attempts[..i] + c.attempts[i + 1..]);
      forall g: nat :: Opening(c', g) == Opening(c, g) - (if c.attempts[i] == g then 1 else 0) && BackingOff(c', g) == BackingOff(c, g)
  {
    var c' := c.(attempts := c.attempts[..i] + c.attempts[i + 1..]);
    forall g: nat ensures Opening(c', g) == Opening(c, g) - (if c.attempts[i] == g then 1 else 0) && BackingOff(c', g) == BackingOff(c, g) {
      CountWithout(c.attempts, i, g);
    }
  }

  lemma FiredTimer(c: Consumer, i: nat)
    requires i < |c.timers|
    ensures var c' := c.(timers := c.timers[..i] + c.timers[i + 1..]);
      forall g: nat :: Opening(c', g) == Opening(c, g) && BackingOff(c', g) == BackingOff(c, g) - (if c.timers[i] == g then 1 else 0)
  {
    var c' := c.(timers := c.timers[..i] + c.timers[i + 1..]);
    forall g: nat ensures Opening(c', g) == Opening(c, g) && BackingOff(c', g) == BackingOff(c, g) - (if c.timers[i] == g then 1 else 0) {
      CountWithout(c.timers, i, g);
    }
  }

  lemma AttemptKeepsProgress(c: Consumer, i: nat, linked: bool, reason: string, now: int)
    requires ProgressOk(c) && i < |c.attempts|
    ensures ProgressOk(AttemptEnded(c, i, linked, reason, now))
    ensures c.attempts[i] == c.state.generation && c.state.Connecting? ==> !AttemptEnded(c, i, linked, reason, now).state.Connecting?
  {
    var generation, ended := c.attempts[i], c.(attempts := c.attempts[..i] + c.attempts[i + 1..]);
    EndedAttempt(c, i);
    var opens := linked && c.state.Connecting? && c.state.generation == generation && generation !in c.ended;
    SameFields(ended, ended.(link := Some(generation)));
    if opens {
      AttemptLeads(c, ended.(link := Some(generation)), LinkOpened(generation, now));
    } else {
      AttemptLeads(c, ended, LinkFailed(generation, reason));
      if c.state.Stopped? {
        StoppedIsProgress(c, ended);
      }
    }
  }

  lemma StoppedIsProgress(c: Consumer, c': Consumer)
    requires ProgressOk(c) && c.state.Stopped? && c'.state == c.state
    requires forall g: nat :: Opening(c', g) <= Opening(c, g) && BackingOff(c', g) == BackingOff(c, g)
    ensures ProgressOk(c')
  {
    hide Opening, BackingOff;
  }

  /** The end of an attempt that is no longer under way. */
  lemma AttemptLeads(c: Consumer, b: Consumer, e: Event)
    requires ProgressOk(c) && b.state == c.state && (e.LinkOpened? || e.LinkFailed?)
    requires forall g: nat :: Opening(b, g) == Opening(c, g) - One(e.generation == g) && BackingOff(b, g) == BackingOff(c, g)
    ensures ProgressOk(Dispatch(b, e))
    ensures e.generation == c.state.generation && c.state.Connecting? ==> !Dispatch(b, e).state.Connecting?
  {
    DispatchCountsAll(b, e);
    WhereTo(c.state, e);
    hide Next, Opening, BackingOff;
  }

  lemma TimerKeepsProgress(c: Consumer, i: nat)
    requires ProgressOk(c) && i < |c.timers|
    ensures ProgressOk(TimerFired(c, i))
    ensures c.timers[i] == c.state.generation && c.state.Backoff? ==> TimerFired(c, i).state.Connecting?
  {
    FiredTimer(c, i);
    var fired, e := c.(timers := c.timers[..i] + c.timers[i + 1..]), BackoffElapsed(c.timers[i]);
    DispatchCountsAll(fired, e);
    WhereTo(c.state, e);
    hide Next, Opening, BackingOff;
  }

  lemma StartKeepsProgress(c: Consumer)
    requires ProgressOk(c) && c.state.Backoff? && c.state.generation == 0
    ensures ProgressOk(Dispatch(c, BackoffElapsed(0)))
  {
    DispatchCountsAll(c, BackoffElapsed(0));
    WhereTo(c.state, BackoffElapsed(0));
    hide Next, Opening, BackingOff;
  }

  lemma StopKeepsProgress(c: Consumer)
    requires ProgressOk(c)
    ensures ProgressOk(StopBegun(c))
  {
    hide Opening, BackingOff, Next, Dispatch;
    var b := c.(timers := if c.timers == [] then [] else c.timers[..|c.timers| - 1]);
    LastTimer(c);
    StopLeads(c, b);
    SameFields(Dispatch(b, Stop), StopBegun(c));
    SameKeepsProgress(Dispatch(b, Stop), StopBegun(c));
  }

  lemma StopLeads(c: Consumer, b: Consumer)
    requires ProgressOk(c) && b.state == c.state
    requires forall g: nat :: Opening(b, g) == Opening(c, g) && BackingOff(b, g) <= BackingOff(c, g)
    ensures ProgressOk(Dispatch(b, Stop))
  {
    DispatchCountsAll(b, Stop);
    WhereTo(c.state, Stop);
    NeverBackToWork(c.state);
    hide Opening, BackingOff, Next;
  }

  lemma NeverBackToWork(s: State)
    ensures Next(s, Stop).state.Stopped? || Next(s, Stop).state.Draining?
  {
  }

  lemma LastTimer(c: Consumer)
    ensures var b := c.(timers := if c.timers == [] then [] else c.timers[..|c.timers| - 1]);
      forall g: nat :: Opening(b, g) == Opening(c, g) && BackingOff(b, g) <= BackingOff(c, g)
  {
    if c.timers != [] {
      var n := |c.timers| - 1;
      FiredTimer(c, n);
      assert c.timers[..n] + c.timers[n + 1..] == c.timers[..n];
    }
  }

  // ---------- The queue ----------

  lemma EffectKeepsProgress(c: Consumer)
    requires ProgressOk(c) && c.await.None? && c.queue != []
    ensures ProgressOk(EffectBegun(c))
  {
    var c', job := EffectBegun(c), c.queue[0];
    EffectFields(c);
    hide EffectBegun;
    forall g: nat ensures Opening(c', g) == Opening(c, g) && BackingOff(c', g) == BackingOff(c, g) {
      OneCounted(job.generation, g);
      CountConcat(c.attempts, [job.generation], g);
      CountConcat(c.timers, [job.generation], g);
    }
    hide Opening, BackingOff;
  }

  lemma EffectFields(c: Consumer)
    requires c.await.None? && c.queue != []
    ensures var c', job := EffectBegun(c), c.queue[0];
      && c'.state == c.state && c'.queue == c.queue[1..]
      && c'.attempts == (if job.effect.OpenLink? then c.attempts + [job.generation] else c.attempts)
      && c'.timers == (if job.effect.ScheduleBackoff? then c.timers + [job.generation] else c.timers)
  {
    hide ConsumeBegun, CancelBegun, CurrentAborted, ReturnBegun, CloseBegun;
    EffectLeaves(c.(queue := c.queue[1..]), c.queue[0].generation);
  }

  predicate SamePlan(c: Consumer, c': Consumer) {
    c'.state == c.state && c'.queue == c.queue && c'.attempts == c.attempts && c'.timers == c.timers
  }

  lemma EffectLeaves(c: Consumer, g: nat)
    ensures SamePlan(c, ConsumeBegun(c, g)) && SamePlan(c, CancelBegun(c)) && SamePlan(c, CurrentAborted(c))
    ensures SamePlan(c, ReturnBegun(c, g)) && SamePlan(c, CloseBegun(c))
  {
  }

  // ---------- Every step ----------

  lemma SameKeepsProgress(c: Consumer, c': Consumer)
    requires ProgressOk(c) && SameUnderWay(c, c')
    ensures ProgressOk(c')
  {
    hide Opening, BackingOff;
  }

  lemma SameFields(c: Consumer, c': Consumer)
    requires c'.state == c.state && c'.attempts == c.attempts && c'.timers == c.timers && c'.queue == c.queue
    ensures SameUnderWay(c, c')
  {
  }

  lemma LinkEndKeepsProgress(c: Consumer, generation: nat, connection: bool, reason: string, now: int)
    requires ProgressOk(c)
    ensures ProgressOk(LinkEnded(c, generation, connection, reason, now))
  {
    hide ProgressOk, Dispatch;
    var c', seen := LinkEnded(c, generation, connection, reason, now), if connection then c.(closed := c.closed + {generation}) else c;
    if generation in c.ended || (c.state.Connecting? && c.state.generation == generation) || generation != c.state.generation {
      SameFields(c, c');
      SameKeepsProgress(c, c');
    } else {
      SameFields(c, Unlinked(seen));
      EventKeepsProgress(c, Unlinked(seen), LinkClosed(generation, reason, now));
    }
  }

  lemma ReplyKeepsProgress(c: Consumer, reply: Reply, now: int)
    requires ProgressOk(c) && c.await.Some? && c.await.value.Replying? && c.await.value.r < |c.registrations|
    ensures ProgressOk(Replied(c, reply, now))
  {
    hide ProgressOk, Dispatch, LinkEnded;
    var r, ended := c.await.value.r, c.(await := None);
    var g := c.registrations[r].generation;
    var tagged := ended.(registrations := ended.registrations[r := c.registrations[r].(tagged := true)]);
    SameFields(c, tagged);
    SameKeepsProgress(c, tagged);
    SameFields(c, tagged.(paused := false));
    EventKeepsProgress(c, tagged.(paused := false), ConsumerRegistered(g));
    SameFields(c, Voided(ended, r));
    SameKeepsProgress(c, Voided(ended, r));
    LinkEndKeepsProgress(Voided(ended, r), g, false, "consume_timed_out", now);
  }

  lemma HandleKeepsProgress(c: Consumer, r: nat, tag: nat, result: S.H.HandlerResult, sent: bool)
    requires ProgressOk(c) && r < |c.registrations| && c.inFlight > 0
    ensures ProgressOk(HandlerEnded(c, r, tag, result, sent))
  {
    hide ProgressOk, Dispatch, CountedResult;
    var done, c' := S.Finished(c, r, tag, result), HandlerEnded(c, r, tag, result, sent);
    if result.Abandon? && result.cause.StoreUnavailable? {
      SameFields(c, done);
      EventKeepsProgress(c, done, StoreUnavailable);
    } else {
      SameFields(c, c');
      SameKeepsProgress(c, c');
    }
  }

  lemma DrainKeepsProgress(c: Consumer, expired: bool)
    requires ProgressOk(c) && c.draining.Some?
    ensures ProgressOk(DrainOver(c, expired))
  {
    hide ProgressOk, Dispatch;
    var cleared, e := c.(draining := None), Drained(c.draining.value);
    SameFields(c, cleared);
    EventKeepsProgress(c, cleared, e);
    SameFields(Dispatch(cleared, e), DrainOver(c, expired));
    SameKeepsProgress(Dispatch(cleared, e), DrainOver(c, expired));
  }

  lemma StepKeepsProgress(c: Consumer, s: Step)
    requires ProgressOk(c) && Enabled(c, s) && (s.Handles? ==> c.inFlight > 0)
    ensures ProgressOk(After(c, s))
  {
    hide ProgressOk, Dispatch, EffectBegun, Replied, LinkEnded, AttemptEnded, TimerFired, HandlerEnded, StopBegun, DrainOver;
    match s
    case Starts => assert c.state.generation == 0; StartKeepsProgress(c);
    case EffectRuns => EffectKeepsProgress(c);
    case ReplyCame(reply, now) =>
      if c.await.value.r < |c.registrations| {
        ReplyKeepsProgress(c, reply, now);
      }
    case LinkEnds(generation, connection, reason, now) => LinkEndKeepsProgress(c, generation, connection, reason, now);
    case AttemptEnds(i, linked, reason, now) => AttemptKeepsProgress(c, i, linked, reason, now);
    case TimerFires(i) => TimerKeepsProgress(c, i);
    case Cancels(r) =>
      SameFields(c, Voided(c, r));
      EventKeepsProgress(c, Voided(c, r), BrokerCancelled(c.registrations[r].generation));
    case Handles(r, tag, result, sent) => HandleKeepsProgress(c, r, tag, result, sent);
    case WatchEnds(ready) =>
      SameFields(c, c.(watching := false));
      SameKeepsProgress(c, c.(watching := false));
      EventKeepsProgress(c, c.(watching := false), StoreReady);
    case StoreReports =>
      SameFields(c, c);
      EventKeepsProgress(c, c, StoreReady);
    case StopCalled => StopKeepsProgress(c);
    case DrainEnds(expired) => DrainKeepsProgress(c, expired);
    case _ =>
      SameFields(c, After(c, s));
      SameKeepsProgress(c, After(c, s));
  }

  lemma {:induction false} RunKeepsProgress(steps: seq<Step>)
    requires S.IsRun(steps)
    ensures ProgressOk(S.Final(steps))
    decreases |steps|
  {
    hide ProgressOk, After, Enabled, S.Inv;
    if steps == [] {
      NothingUnderWay(NEW_CONSUMER);
    } else {
      var front, last := steps[..|steps| - 1], steps[|steps| - 1];
      RunKeepsProgress(front);
      S.RunKeepsInv(front);
      assert last.Handles? ==> S.Final(front).inFlight > 0 by {
        S.StepKeepsInv(S.Final(front), last);
      }
      StepKeepsProgress(S.Final(front), last);
    }
  }

  lemma NothingUnderWay(c: Consumer)
    requires c.attempts == [] && c.timers == [] && c.queue == [] && c.state == INITIAL_STATE
    ensures ProgressOk(c)
  {
  }

  /**
   * In every run, once started: a connecting consumer has exactly one attempt of its own generation,
   * running or about to, and its end, however it goes, ends the connecting; a backing-off one has
   * exactly one timer of its own generation, and when it fires the consumer connects again.
   */
  lemma OneWayOn(steps: seq<Step>)
    requires S.IsRun(steps)
    ensures var c := S.Final(steps);
      var g := c.state.generation;
      && (c.state.Connecting? ==>
            && Opening(c, g) == 1 && BackingOff(c, g) == 0
            && forall i, linked, reason, now :: 0 <= i < |c.attempts| && c.attempts[i] == g ==>
                 !AttemptEnded(c, i, linked, reason, now).state.Connecting?)
      && (c.state.Backoff? && g > 0 ==>
            && BackingOff(c, g) == 1 && Opening(c, g) == 0
            && forall i :: 0 <= i < |c.timers| && c.timers[i] == g ==> TimerFired(c, i).state.Connecting?)
  {
    RunKeepsProgress(steps);
    var c := S.Final(steps);
    hide S.Final, S.IsRun, Opening, BackingOff, AttemptEnded, TimerFired;
    forall i, linked, reason, now | 0 <= i < |c.attempts| && c.attempts[i] == c.state.generation && c.state.Connecting?
      ensures !AttemptEnded(c, i, linked, reason, now).state.Connecting? {
      AttemptKeepsProgress(c, i, linked, reason, now);
    }
    forall i | 0 <= i < |c.timers| && c.timers[i] == c.state.generation && c.state.Backoff?
      ensures TimerFired(c, i).state.Connecting? {
      TimerKeepsProgress(c, i);
    }
  }
}
