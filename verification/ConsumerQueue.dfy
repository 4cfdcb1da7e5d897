/** What the serial queue of effects guarantees in every run: a lost store is watched, and a return follows its abort. */
module ConsumerQueue {
  import opened Telemetry
  import opened ConsumerState
  import opened Consumers
  import opened ConsumerRuns
  import ConsumerProgress
  import S = ConsumerSettlement

  // ---------- One step ----------

  /** What the event of a step asks for goes behind what is queued already. */
  ghost predicate Queues(c: Consumer, c': Consumer, e: Option<Event>) {
    && c'.watching == c.watching
    && c'.queue == c.queue + match e case None => [] case Some(v) => JobsOf(Next(c.state, v).effects, Next(c.state, v).state.generation)
  }

  lemma EndQueues(c: Consumer, generation: nat, connection: bool, reason: string, now: int)
    ensures Queues(c, LinkEnded(c, generation, connection, reason, now), EndEvent(c, generation, reason, now))
  {
    hide Next;
  }

  lemma ReplyQueues(c: Consumer, s: Step)
    requires s.ReplyCame? && Enabled(c, s)
    ensures Queues(c, After(c, s), EventOf(c, s))
  {
    hide Next, LinkEnded, EndEvent;
    if c.await.value.r < |c.registrations| {
      var r := c.await.value.r;
      EndQueues(Voided(c.(await := None), r), c.registrations[r].generation, false, "consume_timed_out", s.now);
      SameEnd(c, Voided(c.(await := None), r), c.registrations[r].generation, "consume_timed_out", s.now);
    }
  }

  lemma SameEnd(c: Consumer, c': Consumer, generation: nat, reason: string, now: int)
    requires c'.ended == c.ended && c'.state == c.state
    ensures EndEvent(c', generation, reason, now) == EndEvent(c, generation, reason, now)
  {
  }

  lemma HandleQueues(c: Consumer, s: Step)
    requires s.Handles? && Enabled(c, s) && c.inFlight > 0
    ensures Queues(c, After(c, s), EventOf(c, s))
  {
    hide Next, CountedResult;
  }

  lemma StepQueues(c: Consumer, s: Step)
    requires Enabled(c, s) && !s.EffectRuns? && !s.WatchEnds? && (s.Handles? ==> c.inFlight > 0)
    ensures Queues(c, After(c, s), EventOf(c, s))
  {
    if s.ReplyCame? {
      ReplyQueues(c, s);
    } else if s.Handles? {
      HandleQueues(c, s);
    } else if s.LinkEnds? {
      EndQueues(c, s.generation, s.connection, s.reason, s.now);
    } else {
      hide Next, Replied, LinkEnded, HandlerEnded, Returned, DeliveryCame;
      match s
      case HandlersSettled(count) => ReturnKeepsQueue(c, count);
      case Delivers(r, tag) => DeliveryKeepsQueue(c, r, tag);
      case _ =>
    }
  }

  lemma ReturnKeepsQueue(c: Consumer, count: nat)
    requires c.await.Some? && c.await.value.Returning? && c.await.value.r < |c.registrations|
    ensures var c' := Returned(c, count); c'.queue == c.queue && c'.watching == c.watching
  {
  }

  lemma DeliveryKeepsQueue(c: Consumer, r: nat, tag: nat)
    requires r < |c.registrations|
    ensures var c' := DeliveryCame(c, r, tag); c'.queue == c.queue && c'.watching == c.watching
  {
  }

  // ---------- The watch over a lost store ----------

  /** A watch of the store runs, or is about to. */
  ghost predicate Watched(c: Consumer) {
    c.watching || exists job <- c.queue :: job.effect.WatchStore?
  }

  /** The consumer learned that a ready store was gone, while it was not draining. */
  ghost predicate LosesStore(c: Consumer, s: Step) {
    c.state.storeReady && !After(c, s).state.storeReady && !c.state.Draining?
  }

  /** A ready store was lost, and no watch has ended without it since. */
  ghost predicate WatchOwed(steps: seq<Step>)
    decreases |steps|
  {
    steps != [] &&
    var front, last := steps[..|steps| - 1], steps[|steps| - 1];
    LosesStore(S.Final(front), last) || (last != WatchEnds(false) && WatchOwed(front))
  }

  ghost predicate WatchOk(c: Consumer, owed: bool) {
    owed && !c.state.storeReady && !c.state.Draining? && !c.state.Stopped? ==> Watched(c)
  }

  /** A loss asks for a watch, and so does nothing but a loss make a working machine one without its store. */
  lemma LossAsks(s: State, e: Event)
    requires StatusOk(s) && !Next(s, e).state.storeReady && !Next(s, e).state.Draining? && !Next(s, e).state.Stopped?
    ensures !s.Draining? && !s.Stopped?
    ensures s.storeReady ==> WatchStore in Next(s, e).effects
    ensures !e.StoreReady?
  {
  }

  lemma QueuedIsWatched(c: Consumer, c': Consumer, e: Option<Event>)
    requires Queues(c, c', e)
    requires Watched(c) || (e.Some? && WatchStore in Next(c.state, e.value).effects)
    ensures Watched(c')
  {
    hide Next;
    if Watched(c) {
      if !c.watching {
        var job :| job in c.queue && job.effect.WatchStore?;
        assert job in c'.queue;
      }
    } else {
      var t := Next(c.state, e.value);
      var i :| 0 <= i < |t.effects| && t.effects[i] == WatchStore;
      var jobs := JobsOf(t.effects, t.state.generation);
      assert jobs[i] in jobs && jobs[i] in c'.queue;
    }
  }

  lemma EffectWatches(c: Consumer)
    requires c.await.None? && c.queue != [] && Watched(c)
    ensures Watched(EffectBegun(c))
  {
    ConsumerProgress.EffectFields(c);
    WatchBegins(c.(queue := c.queue[1..]), c.queue[0]);
    hide EffectBegun;
    var c' := EffectBegun(c);
    if !c.watching && !c.queue[0].effect.WatchStore? {
      var job :| job in c.queue && job.effect.WatchStore?;
      assert job in c'.queue;
    }
  }

  lemma WatchBegins(rest: Consumer, job: Job)
    ensures Performed(rest, job).watching == (rest.watching || job.effect.WatchStore?)
  {
    hide CurrentVoided;
    assert CurrentVoided(rest).watching == rest.watching by {
      VoidKeepsWatch(rest);
    }
  }

  lemma VoidKeepsWatch(c: Consumer)
    ensures CurrentVoided(c).watching == c.watching
  {
  }

  lemma StepKeepsWatch(c: Consumer, s: Step, owed: bool)
    requires S.Inv(c) && Enabled(c, s) && WatchOk(c, owed)
    ensures WatchOk(After(c, s), LosesStore(c, s) || (s != WatchEnds(false) && owed))
  {
    S.StepKeepsInv(c, s);
    hide LinkOk, RegistrationsOk, JobsOk, QueueOk, S.SettleOk, EffectBegun, Next;
    var c', e := After(c, s), EventOf(c, s);
    StepIsEvent(c, s);
    if e.Some? && !c'.state.storeReady && !c'.state.Draining? && !c'.state.Stopped? {
      LossAsks(c.state, e.value);
    }
    if s.EffectRuns? {
      if Watched(c) {
        EffectWatches(c);
      }
    } else if !s.WatchEnds? {
      StepQueues(c, s);
      hide After, EventOf;
      if Watched(c) || (e.Some? && WatchStore in Next(c.state, e.value).effects) {
        QueuedIsWatched(c, c', e);
      }
    }
  }

  lemma {:induction false} RunKeepsWatch(steps: seq<Step>)
    requires S.IsRun(steps)
    ensures WatchOk(S.Final(steps), WatchOwed(steps))
    decreases |steps|
  {
    hide After, Enabled, S.Inv, WatchOk, LosesStore;
    if steps == [] {
      NothingOwed(S.Final(steps));
    } else {
      var front, last := steps[..|steps| - 1], steps[|steps| - 1];
      RunKeepsWatch(front);
      S.RunKeepsInv(front);
      StepKeepsWatch(S.Final(front), last, WatchOwed(front));
    }
  }

  lemma NothingOwed(c: Consumer)
    ensures WatchOk(c, false)
  {
  }

  /**
   * In every run a working consumer that lost a ready store has a watch over it, running or about to,
   * until one ends with the store ready again or without it.
   */
  lemma LostStoreIsWatched(steps: seq<Step>)
    requires S.IsRun(steps) && WatchOwed(steps)
    ensures var c := S.Final(steps);
      !c.state.storeReady && !c.state.Draining? && !c.state.Stopped? ==> Watched(c)
  {
    RunKeepsWatch(steps);
  }

  // ---------- A return follows its abort ----------

  /** A return is behind an abort in the queue, or the registration is aborted already. */
  ghost predicate AbortsFirst(aborted: bool, jobs: seq<Job>) {
    && (jobs != [] && jobs[0].effect.ReturnHeld? ==> aborted)
    && (forall i {:trigger jobs[i]} :: 0 < i < |jobs| && jobs[i].effect.ReturnHeld? ==> jobs[i - 1].effect.AbortHandlers?)
  }

  /** The handlers of the last registration were told to stop, if there is one. */
  predicate Aborted(c: Consumer) {
    HasCurrent(c) ==> c.registrations[|c.registrations| - 1].aborted
  }

  ghost predicate ReturnsOk(c: Consumer) {
    AbortsFirst(Aborted(c), PendingJobs(c))
  }

  /** A transition that asks for a return asks for the abort right before it. */
  lemma AsksAbortFirst(s: State, e: Event, g: nat)
    ensures AbortsFirst(false, JobsOf(Next(s, e).effects, g))
  {
  }

  lemma AppendedReturns(aborted: bool, jobs: seq<Job>, more: seq<Job>)
    requires AbortsFirst(aborted, jobs) && AbortsFirst(false, more)
    ensures AbortsFirst(aborted, jobs + more)
  {
    var all := jobs + more;
    forall i | 0 < i < |all| && all[i].effect.ReturnHeld? ensures all[i - 1].effect.AbortHandlers? {
      if i < |jobs| {
        assert jobs[i].effect.ReturnHeld?;
      } else {
        assert more[i - |jobs|].effect.ReturnHeld?;
      }
    }
  }

  lemma PoppedReturns(aborted: bool, jobs: seq<Job>)
    requires jobs != [] && AbortsFirst(aborted, jobs)
    ensures AbortsFirst(jobs[0].effect.AbortHandlers?, jobs[1..])
  {
  }

  lemma MoreAborted(aborted: bool, more: bool, jobs: seq<Job>)
    requires AbortsFirst(aborted, jobs) && (aborted ==> more)
    ensures AbortsFirst(more, jobs)
  {
  }

  /** No registration begins, and no abort is taken back. */
  ghost predicate KeepsAborts(c: Consumer, c': Consumer) {
    |c'.registrations| == |c.registrations| && (Aborted(c) ==> Aborted(c'))
  }

  lemma EndKeepsAborts(c: Consumer, generation: nat, connection: bool, reason: string, now: int)
    ensures KeepsAborts(c, LinkEnded(c, generation, connection, reason, now))
  {
    hide Dispatch, Unlinked;
    var seen := if connection then c.(closed := c.closed + {generation}) else c;
    UnlinkKeepsAborts(seen);
    DispatchKeepsAborts(Unlinked(seen), LinkClosed(generation, reason, now));
  }

  lemma UnlinkKeepsAborts(c: Consumer)
    ensures KeepsAborts(c, Unlinked(c))
  {
  }

  lemma DispatchKeepsAborts(c: Consumer, e: Event)
    ensures Dispatch(c, e).registrations == c.registrations
  {
    hide Next;
  }

  lemma AnswerKeepsAborts(c: Consumer, s: Step)
    requires Enabled(c, s) && (s.ReplyCame? || s.HandlersSettled?)
    ensures KeepsAborts(c, After(c, s))
  {
    hide Next, LinkEnded, Nacks, NackCount;
    if s.ReplyCame? && c.await.value.r < |c.registrations| {
      var r := c.await.value.r;
      var voided := Voided(c.(await := None), r);
      assert KeepsAborts(c, voided);
      EndKeepsAborts(voided, c.registrations[r].generation, false, "consume_timed_out", s.now);
    }
  }

  lemma DeliveryKeepsAborts(c: Consumer, s: Step)
    requires Enabled(c, s) && (s.Delivers? || s.Cancels?)
    ensures KeepsAborts(c, After(c, s))
  {
    hide Next;
  }

  lemma HandlerKeepsAborts(c: Consumer, s: Step)
    requires Enabled(c, s) && s.Handles?
    ensures KeepsAborts(c, After(c, s))
  {
    hide Next, CountedResult;
  }

  lemma OverKeepsAborts(c: Consumer, s: Step)
    requires Enabled(c, s) && s.DrainEnds?
    ensures KeepsAborts(c, After(c, s))
  {
    hide Next;
  }

  lemma AbortsStay(c: Consumer, s: Step)
    requires Enabled(c, s) && !s.EffectRuns?
    ensures KeepsAborts(c, After(c, s))
  {
    if s.LinkEnds? {
      EndKeepsAborts(c, s.generation, s.connection, s.reason, s.now);
    } else if s.ReplyCame? || s.HandlersSettled? {
      AnswerKeepsAborts(c, s);
    } else if s.Delivers? || s.Cancels? {
      DeliveryKeepsAborts(c, s);
    } else if s.Handles? {
      HandlerKeepsAborts(c, s);
    } else if s.DrainEnds? {
      OverKeepsAborts(c, s);
    } else {
      hide Next;
    }
  }

  lemma AwaitStays(c: Consumer, s: Step)
    requires Enabled(c, s) && !s.EffectRuns? && !s.HandlersSettled?
    ensures var c' := After(c, s);
      if s.ReplyCame? || s.CancelSettled? || s.CloseSettled?
      then !c.await.value.Returning? && (c'.await.Some? ==> !c'.await.value.Returning?)
      else c'.await == c.await
  {
    if s.ReplyCame? {
      ReplyEndsAwait(c, s);
    } else {
      hide Next, CountedResult, Unlinked, Voided, CurrentVoided, CurrentAborted;
    }
  }

  lemma ReplyEndsAwait(c: Consumer, s: Step)
    requires Enabled(c, s) && s.ReplyCame?
    ensures After(c, s).await.Some? ==> !After(c, s).await.value.Returning?
  {
    hide Next;
  }

  /** What is pending grows by what the event asks for, and loses a return only when it is over. */
  lemma StepPending(c: Consumer, s: Step)
    requires Enabled(c, s) && !s.EffectRuns? && (s.Handles? ==> c.inFlight > 0)
    ensures s.HandlersSettled? ==> PendingJobs(c) != [] && PendingJobs(c)[0].effect.ReturnHeld?
                                   && PendingJobs(After(c, s)) == PendingJobs(c)[1..]
    ensures !s.HandlersSettled? ==> PendingJobs(After(c, s)) == PendingJobs(c) + match EventOf(c, s)
      case None => []
      case Some(e) => JobsOf(Next(c.state, e).effects, Next(c.state, e).state.generation)
  {
    hide After, EventOf, Next;
    if s.HandlersSettled? {
      ReturnPending(c, s);
    } else {
      AwaitStays(c, s);
      if s.WatchEnds? {
        WatchQueues(c, s.ready);
      } else {
        StepQueues(c, s);
      }
      hide Enabled;
    }
  }

  lemma ReturnPending(c: Consumer, s: Step)
    requires Enabled(c, s) && s.HandlersSettled?
    ensures PendingJobs(c) != [] && PendingJobs(c)[0].effect.ReturnHeld?
    ensures PendingJobs(After(c, s)) == PendingJobs(c)[1..]
  {
    hide NackCount, Nacks;
  }

  lemma WatchQueues(c: Consumer, ready: bool)
    ensures var s := WatchEnds(ready);
      After(c, s).queue == c.queue + match EventOf(c, s)
        case None => []
        case Some(e) => JobsOf(Next(c.state, e).effects, Next(c.state, e).state.generation)
  {
    hide Next;
  }

  lemma StepKeepsReturns(c: Consumer, s: Step)
    requires Enabled(c, s) && !s.EffectRuns? && (s.Handles? ==> c.inFlight > 0) && ReturnsOk(c)
    ensures ReturnsOk(After(c, s))
  {
    hide After, EventOf, Next, PendingJobs, AbortsFirst, Aborted;
    var c', e := After(c, s), EventOf(c, s);
    AbortsStay(c, s);
    StepPending(c, s);
    hide Enabled;
    var pending := PendingJobs(c);
    MoreAborted(Aborted(c), Aborted(c'), pending);
    if s.HandlersSettled? {
      PoppedReturns(Aborted(c'), pending);
      MoreAborted(false, Aborted(c'), pending[1..]);
    } else if e.Some? {
      var t := Next(c.state, e.value);
      AsksAbortFirst(c.state, e.value, t.state.generation);
      AppendedReturns(Aborted(c'), pending, JobsOf(t.effects, t.state.generation));
    } else {
      assert pending + [] == pending;
    }
  }

  lemma EffectKeepsReturns(c: Consumer)
    requires c.await.None? && c.queue != [] && ReturnsOk(c)
    ensures ReturnsOk(EffectBegun(c))
  {
    hide AbortsFirst, EffectBegun, Aborted;
    EffectPending(c);
    assert PendingJobs(c) == c.queue;
    hide PendingJobs;
    var c', rest := EffectBegun(c), c.queue[1..];
    PoppedReturns(Aborted(c), c.queue);
    if PendingJobs(c') == rest {
      MoreAborted(c.queue[0].effect.AbortHandlers?, Aborted(c'), rest);
    } else {
      MoreAborted(Aborted(c), Aborted(c'), c.queue);
    }
  }

  lemma EffectPending(c: Consumer)
    requires c.await.None? && c.queue != []
    ensures var c' := EffectBegun(c);
      && (c.queue[0].effect.AbortHandlers? ==> Aborted(c'))
      && (PendingJobs(c') == c.queue[1..] || (PendingJobs(c') == c.queue && (Aborted(c) ==> Aborted(c'))))
  {
    ConsumerProgress.EffectFields(c);
    if c.queue[0].effect.ReturnHeld? {
      assert [c.queue[0]] + c.queue[1..] == c.queue;
      assert c.queue[0] == Job(ReturnHeld, c.queue[0].generation);
    } else {
      NoReturnAwaited(Popped(c), c.queue[0]);
      hide EffectBegun;
    }
  }

  lemma NoReturnAwaited(rest: Consumer, job: Job)
    requires rest.await.None? && !job.effect.ReturnHeld?
    ensures var c' := Performed(rest, job);
      && (c'.await.Some? ==> !c'.await.value.Returning?)
      && (job.effect.AbortHandlers? ==> Aborted(c'))
  {
    hide CurrentVoided;
  }

  lemma {:induction false} RunKeepsReturns(steps: seq<Step>)
    requires S.IsRun(steps)
    ensures ReturnsOk(S.Final(steps))
    decreases |steps|
  {
    hide After, Enabled, S.Inv, ReturnsOk;
    if steps == [] {
      NothingReturned(S.Final(steps));
    } else {
      var front, last := steps[..|steps| - 1], steps[|steps| - 1];
      RunKeepsReturns(front);
      S.RunKeepsInv(front);
      OneStepKeepsReturns(S.Final(front), last);
    }
  }

  lemma OneStepKeepsReturns(c: Consumer, s: Step)
    requires S.Inv(c) && Enabled(c, s) && ReturnsOk(c)
    ensures ReturnsOk(After(c, s))
  {
    hide S.Inv, ReturnsOk;
    if s.EffectRuns? {
      EffectKeepsReturns(c);
    } else {
      hide After;
      S.StepKeepsInv(c, s);
      StepKeepsReturns(c, s);
    }
  }

  lemma NothingReturned(c: Consumer)
    requires c.queue == [] && c.await.None?
    ensures ReturnsOk(c)
  {
    assert PendingJobs(c) == [];
  }

  /**
   * In every run what a registration holds is only returned after its handlers were told to stop: the
   * registration that a return works on is aborted.
   */
  lemma ReturnsAfterAbort(steps: seq<Step>)
    requires S.IsRun(steps)
    ensures var c := S.Final(steps);
      && (c.await.Some? && c.await.value.Returning? ==>
            c.await.value.r < |c.registrations| && c.registrations[c.await.value.r].aborted)
      && (c.await.None? && c.queue != [] && c.queue[0].effect.ReturnHeld? ==> Aborted(c))
  {
    RunKeepsReturns(steps);
    S.RunKeepsInv(steps);
    hide S.Final, S.IsRun;
    ReturnsAreAborted(S.Final(steps));
  }

  lemma ReturnsAreAborted(c: Consumer)
    requires RegistrationsOk(c) && ReturnsOk(c)
    ensures c.await.Some? && c.await.value.Returning? ==>
              c.await.value.r < |c.registrations| && c.registrations[c.await.value.r].aborted
    ensures c.await.None? && c.queue != [] && c.queue[0].effect.ReturnHeld? ==> Aborted(c)
  {
    if c.await.Some? && c.await.value.Returning? {
      assert PendingJobs(c)[0].effect.ReturnHeld?;
    } else if c.await.None? {
      assert PendingJobs(c) == c.queue;
    }
  }
}
