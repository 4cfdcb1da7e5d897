/** The publisher as the object it is: fields changed in place, and an event queue its effects re-enter. */
module AmqpPublishers {
  import opened Telemetry
  import opened PublisherState
  import opened Ledgers
  import opened Publishers

  // ---------- The ledger stays well formed ----------

  lemma {:induction false} SendAllKeepsWellFormed(p: Pub, entries: seq<Entry>, env: Env)
    requires WellFormed(p.ledger)
    ensures WellFormed(SendAll(p, entries, env).0.ledger)
    decreases entries
  {
    hide WellFormed, MarkedSent, OnSent, PublishTriggers;
    if entries != [] {
      var e := entries[0];
      MarkKeepsWellFormed(p.ledger, e.id, p.state.generation);
      var sent := SendQueued(p, e, env).0;
      var counted := if e.wasSent then sent.(republished := sent.republished + 1) else sent;
      SendAllKeepsWellFormed(counted, entries[1..], env);
    }
  }

  lemma {:induction false} EffectsKeepWellFormed(p: Pub, effects: seq<Effect>, env: Env)
    requires WellFormed(p.ledger)
    ensures WellFormed(RunEffects(p, effects, env).0.ledger)
    decreases effects
  {
    hide WellFormed, SendAll, PendingOf;
    if effects != [] {
      LoseKeepsWellFormed(p.ledger);
      SendAllKeepsWellFormed(p, PendingOf(p.ledger.entries), env);
      EffectsKeepWellFormed(RunEffect(p, effects[0], env).0, effects[1..], env);
    }
  }

  lemma {:induction false} DrainKeepsWellFormed(p: Pub, queue: seq<Event>, env: Env)
    requires WellFormed(p.ledger)
    ensures WellFormed(Drain(p, queue, env).ledger)
    decreases Successes(queue), |queue|
  {
    hide WellFormed, RunEffects;
    if queue != [] {
      var t := Next(p.state, queue[0]);
      EffectsKeepWellFormed(Entered(p, t.state), t.effects, env);
      var (p', queued) := RunEffects(Entered(p, t.state), t.effects, env);
      QueueShrinks(p, queue, env);
      DrainKeepsWellFormed(p', queue[1..] + queued, env);
    }
  }

  lemma SendNowKeepsWellFormed(p: Pub, e: Entry, env: Env)
    requires WellFormed(p.ledger)
    ensures WellFormed(SendNow(p, e, env).ledger)
  {
    hide WellFormed, Drain, MarkedSent, OnSent;
    if p.link.Some? {
      var o, generation := env.publish(e.id), p.state.generation;
      var took := if o.taken then Take(p, e) else p;
      DrainKeepsWellFormed(took, [Trigger(generation, "channel_closed", env.now)], env);
      var closed := if o.closes then Dispatch(took, Trigger(generation, "channel_closed", env.now), env) else took;
      DrainKeepsWellFormed(closed, [Trigger(generation, "publish_threw", env.now)], env);
      MarkKeepsWellFormed(closed.ledger, e.id, closed.state.generation);
    }
  }

  // ---------- The loops, one round at a time ----------

  lemma EffectsFirst(p: Pub, effects: seq<Effect>, i: nat, env: Env)
    requires i < |effects|
    ensures var first := RunEffect(p, effects[i], env);
      var rest := RunEffects(first.0, effects[i + 1..], env);
      RunEffects(p, effects[i..], env) == (rest.0, first.1 + rest.1)
  {
    hide RunEffect;
    assert effects[i..][0] == effects[i] && effects[i..][1..] == effects[i + 1..];
  }

  function Counted(p: Pub, e: Entry): Pub {
    if e.wasSent then p.(republished := p.republished + 1) else p
  }

  lemma SendsFirst(p: Pub, entries: seq<Entry>, i: nat, env: Env)
    requires i < |entries|
    ensures var first := SendQueued(p, entries[i], env);
      var rest := SendAll(Counted(first.0, entries[i]), entries[i + 1..], env);
      SendAll(p, entries[i..], env) ==
        if first.0.broken || !env.publish(entries[i].id).taken then first else (rest.0, first.1 + rest.1)
  {
    hide SendQueued;
    assert entries[i..][0] == entries[i] && entries[i..][1..] == entries[i + 1..];
  }

  lemma DrainFirst(p: Pub, queue: seq<Event>, env: Env)
    requires queue != []
    ensures var t := Next(p.state, queue[0]);
      var (p', queued) := RunEffects(Entered(p, t.state), t.effects, env);
      && Drain(p, queue, env) == Drain(p', queue[1..] + queued, env)
      && (Successes(queue[1..] + queued) < Successes(queue)
          || (Successes(queue[1..] + queued) == Successes(queue) && |queue[1..] + queued| < |queue|))
  {
    hide Next, RunEffects, Entered;
    QueueShrinks(p, queue, env);
  }

  lemma NothingToDrain(p: Pub, env: Env)
    ensures Drain(p, [], env) == p
  {
  }

  /** What is queued now and what the rest queues is what the whole queues. */
  ghost predicate Remains(start: seq<Event>, whole: (Pub, seq<Event>), queue: seq<Event>, rest: (Pub, seq<Event>)) {
    rest.0 == whole.0 && queue + rest.1 == start + whole.1
  }

  lemma RemainsOneLess(start: seq<Event>, whole: (Pub, seq<Event>), queue: seq<Event>, first: seq<Event>,
                       here: (Pub, seq<Event>), rest: (Pub, seq<Event>))
    requires Remains(start, whole, queue, here) && here == (rest.0, first + rest.1)
    ensures Remains(start, whole, queue + first, rest)
  {
    assert (queue + first) + rest.1 == queue + (first + rest.1);
  }

  lemma RemainsAll(start: seq<Event>, whole: (Pub, seq<Event>))
    ensures Remains(start, whole, start, whole)
  {
  }

  lemma NothingRemains(start: seq<Event>, whole: (Pub, seq<Event>), queue: seq<Event>, p: Pub, env: Env)
    requires Remains(start, whole, queue, RunEffects(p, [], env))
    ensures p == whole.0 && queue == start + whole.1
  {
    assert queue + [] == queue;
  }

  lemma LastSend(start: seq<Event>, whole: (Pub, seq<Event>), queue: seq<Event>, first: (Pub, seq<Event>))
    requires Remains(start, whole, queue, first)
    ensures first.0 == whole.0 && queue + first.1 == start + whole.1
  {
  }

  lemma NothingToSend(start: seq<Event>, whole: (Pub, seq<Event>), queue: seq<Event>, p: Pub, env: Env)
    requires Remains(start, whole, queue, SendAll(p, [], env))
    ensures p == whole.0 && queue == start + whole.1
  {
    assert queue + [] == queue;
  }

  // ---------- The class ----------

  class AmqpPublisher {
    const ledger: Ledger
    const stallClock: StallClock
    const confirmTimeoutMs: nat
    var queue: seq<Event>
    var dispatching: bool
    var state: State
    var link: Option<nat>
    var attempts: seq<nat>
    var closes: seq<Close>
    var timers: seq<nat>
    var told: bool
    var confirmed: nat
    var republished: nat
    var returned: nat
    var broken: bool
    ghost var taken: seq<Wire>
    ghost var confirmations: seq<nat>

    ghost function View(): Pub
      reads this, ledger, stallClock
    {
      Pub(state, link, ledger.View(), stallClock.startedAt, attempts, closes, timers,
          told, confirmed, republished, returned, taken, confirmations, broken)
    }

    /** Between two turns: nothing is queued and no effect runs. */
    ghost predicate AtRest()
      reads this, ledger
    {
      !dispatching && queue == [] && WellFormed(ledger.View())
    }

    constructor (heartbeatSeconds: nat)
      ensures AtRest() && View() == NEW_PUBLISHER
      ensures confirmTimeoutMs == 3 * heartbeatSeconds * 1000
      ensures fresh(ledger) && fresh(stallClock)
    {
      ledger := new Ledger();
      stallClock := new StallClock();
      confirmTimeoutMs := 3 * heartbeatSeconds * 1000;
      queue, dispatching, state, link := [], false, INITIAL_STATE, None;
      attempts, closes, timers, told := [], [], [], false;
      confirmed, republished, returned, broken := 0, 0, 0, false;
      taken, confirmations := [], [];
    }

    /** An event dispatched while effects run waits in the queue of the loop that runs them. */
    method Dispatch(e: Event, env: Env)
      requires dispatching || queue == []
      modifies this, ledger, stallClock
      ensures dispatching == old(dispatching)
      ensures old(dispatching) ==> View() == old(View()) && queue == old(queue) + [e]
      ensures !old(dispatching) ==> View() == Publishers.Dispatch(old(View()), e, env) && queue == []
      decreases if dispatching then 0 else 1, 0
    {
      queue := queue + [e];
      if dispatching {
        return;
      }
      hide Next, RunEffects, Drain, Successes, Entered, IsReady;
      assert queue == [e];
      dispatching := true;
      while queue != []
        invariant dispatching
        invariant Drain(View(), queue, env) == Publishers.Dispatch(old(View()), e, env)
        decreases Successes(queue), |queue|
      {
        ghost var before, waiting := View(), queue;
        var next := queue[0];
        queue := queue[1..];
        DrainFirst(before, waiting, env);
        Handle(next, env);
      }
      dispatching := false;
      NothingToDrain(View(), env);
    }

    /** One event: the transition, the listeners when readiness changed, then the effects in order. */
    method Handle(e: Event, env: Env)
      requires dispatching
      modifies this, ledger, stallClock
      ensures dispatching
      ensures var t := Next(old(View()).state, e);
        var (p, queued) := RunEffects(Entered(old(View()), t.state), t.effects, env);
        View() == p && queue == old(queue) + queued
      decreases 0, 5
    {
      hide Next, RunEffects;
      var wasReady := IsReady(state);
      var t := Next(state, e);
      state := t.state;
      if IsReady(state) != wasReady {
        told := IsReady(state);
      }
      RunAll(t.effects, env);
    }

    method RunAll(effects: seq<Effect>, env: Env)
      requires dispatching
      modifies this, ledger, stallClock
      ensures dispatching
      ensures var (p, queued) := RunEffects(old(View()), effects, env);
        View() == p && queue == old(queue) + queued
      decreases 0, 4
    {
      hide RunEffects, RunEffect, Remains;
      ghost var start, whole := queue, RunEffects(View(), effects, env);
      assert effects[0..] == effects;
      assert Remains(start, whole, queue, RunEffects(View(), effects[0..], env)) by {
        RemainsAll(start, whole);
      }
      var i := 0;
      while i < |effects|
        invariant i <= |effects| && dispatching
        invariant Remains(start, whole, queue, RunEffects(View(), effects[i..], env))
      {
        ghost var p, queued := View(), queue;
        EffectsFirst(p, effects, i, env);
        Run(effects[i], env);
        ghost var first := RunEffect(p, effects[i], env);
        RemainsOneLess(start, whole, queued, first.1, RunEffects(p, effects[i..], env), RunEffects(first.0, effects[i + 1..], env));
        i := i + 1;
      }
      assert effects[i..] == [];
      NothingRemains(start, whole, queue, View(), env);
    }

    method Run(effect: Effect, env: Env)
      requires dispatching
      modifies this, ledger, stallClock
      ensures dispatching
      ensures var (p, queued) := RunEffect(old(View()), effect, env);
        View() == p && queue == old(queue) + queued
      decreases 0, 3
    {
      match effect
      case StartAttempt =>
        attempts := attempts + [state.generation];
      case Lose =>
        ledger.Lose();
      case SendPending =>
        SendAllPending(env);
      case RestartStallClock =>
        stallClock.Restart(env.now);
      case CloseModel =>
        closes := closes + [Close(state.generation, link)];
      case StartBackoff(_, _) =>
        timers := timers + [state.generation];
    }

    /** Sends every pending entry in insertion order; stops at the first publish that throws. */
    method SendAllPending(env: Env)
      requires dispatching
      modifies this, ledger, stallClock
      ensures dispatching
      ensures var (p, queued) := SendAll(old(View()), PendingOf(old(View()).ledger.entries), env);
        View() == p && queue == old(queue) + queued
      decreases 0, 2
    {
      hide SendAll, SendQueued, Remains, PendingOf;
      var pending := ledger.PendingEntries();
      ghost var start, whole := queue, SendAll(View(), pending, env);
      assert pending[0..] == pending;
      assert Remains(start, whole, queue, SendAll(View(), pending[0..], env)) by {
        RemainsAll(start, whole);
      }
      var i := 0;
      while i < |pending|
        invariant i <= |pending| && dispatching
        invariant Remains(start, whole, queue, SendAll(View(), pending[i..], env))
      {
        ghost var p, queued := View(), queue;
        SendsFirst(p, pending, i, env);
        var again := pending[i].wasSent;
        var sent := Send(pending[i], env);
        ghost var first := SendQueued(p, pending[i], env);
        if !sent {
          LastSend(start, whole, queued, first);
          return;
        }
        if again {
          republished := republished + 1;
        }
        RemainsOneLess(start, whole, queued, first.1, SendAll(p, pending[i..], env),
                       SendAll(Counted(first.0, pending[i]), pending[i + 1..], env));
        i := i + 1;
      }
      assert pending[i..] == [];
      NothingToSend(start, whole, queue, View(), env);
    }

    /** Publishes one entry on the current channel and reports whether the channel took it. */
    method Send(e: Entry, env: Env) returns (sent: bool)
      requires dispatching || queue == []
      modifies this, ledger, stallClock
      ensures dispatching == old(dispatching)
      ensures sent == (!broken && env.publish(e.id).taken)
      ensures old(dispatching) ==>
        var (p, queued) := SendQueued(old(View()), e, env);
        View() == p && queue == old(queue) + queued
      ensures !old(dispatching) ==> View() == SendNow(old(View()), e, env) && queue == []
      decreases if dispatching then 0 else 1, 1
    {
      if link.None? {
        broken := true;
        return false;
      }
      var generation, o := state.generation, env.publish(e.id);
      if o.taken {
        taken := taken + [Wire(generation, e.id, e.args)];
      }
      if o.closes {
        Dispatch(Trigger(generation, "channel_closed", env.now), env);
      }
      if !o.taken {
        Dispatch(Trigger(generation, "publish_threw", env.now), env);
        return false;
      }
      if state.generation == generation {
        ledger.MarkSent(e.id, generation);
        stallClock.Sent(env.now, ledger.sentCount);
      }
      return !broken;
    }

    method Start(env: Env)
      requires AtRest()
      modifies this, ledger, stallClock
      ensures AtRest() && View() == Publishers.Start(old(View()), env)
    {
      DrainKeepsWellFormed(View(), [BackoffElapsed(state.generation)], env);
      Dispatch(BackoffElapsed(state.generation), env);
    }

    method Publish(args: PublishArgs, owner: nat, env: Env)
      requires AtRest()
      modifies this, ledger, stallClock
      ensures AtRest() && View() == Publishers.Publish(old(View()), args, owner, env)
    {
      AddKeepsWellFormed(ledger.View(), args, owner);
      var entry := ledger.Add(args, owner);
      if state.Ready? {
        SendNowKeepsWellFormed(View(), entry, env);
        var _ := Send(entry, env);
      }
    }

    method OnConfirm(generation: nat, id: nat, nacked: bool, env: Env) returns (removed: Option<Entry>)
      requires AtRest()
      modifies this, ledger, stallClock
      ensures AtRest() && View() == Publishers.OnConfirm(old(View()), generation, id, nacked, env)
      ensures removed ==
        if generation == old(state.generation) && !nacked && IndexOf(old(ledger.entries), id) < |old(ledger.entries)|
        then Some(old(ledger.entries)[IndexOf(old(ledger.entries), id)]) else None
    {
      hide WellFormed, Drain, SentIn, Next;
      removed := None;
      if generation != state.generation {
        return;
      }
      if nacked {
        DrainKeepsWellFormed(View(), [Trigger(generation, "nacked", env.now)], env);
        Dispatch(Trigger(generation, "nacked", env.now), env);
        return;
      }
      ConfirmKeepsWellFormed(ledger.View(), id);
      removed := ledger.Confirm(id);
      confirmed := confirmed + 1;
      if removed.Some? {
        confirmations := confirmations + [id];
      }
      stallClock.Acked(env.now, ledger.sentCount);
    }

    method OnReturn(generation: nat, env: Env)
      requires AtRest()
      modifies this, ledger, stallClock
      ensures AtRest() && View() == Publishers.OnReturn(old(View()), generation, env)
    {
      if generation != state.generation {
        return;
      }
      returned := returned + 1;
      DrainKeepsWellFormed(View(), [Trigger(generation, "returned", env.now)], env);
      Dispatch(Trigger(generation, "returned", env.now), env);
    }

    /** The end of the attempt at position `i`, whatever its outcome. */
    method EndAttempt(i: nat, end: AttemptEnd, env: Env)
      requires AtRest() && i < |attempts|
      modifies this, ledger, stallClock
      ensures AtRest() && View() == OnAttemptEnd(old(View()), i, end, env)
    {
      var generation := attempts[i];
      attempts := attempts[..i] + attempts[i + 1..];
      if end == SetupResolved(true) && MayContinue(state, generation) {
        link := Some(generation);
        DrainKeepsWellFormed(View(), [AttemptSucceeded(generation, env.now)], env);
        Dispatch(AttemptSucceeded(generation, env.now), env);
        return;
      }
      if state.Stopped? {
        return;
      }
      DrainKeepsWellFormed(View(), [AttemptFailed(generation, EndReason(end))], env);
      Dispatch(AttemptFailed(generation, EndReason(end)), env);
    }

    /** The close at position `i` is over: the reference is dropped if it is still that model's. */
    method EndClose(i: nat, env: Env)
      requires AtRest() && i < |closes|
      modifies this, ledger, stallClock
      ensures AtRest() && View() == OnCloseEnd(old(View()), i, env)
    {
      var close := closes[i];
      closes := closes[..i] + closes[i + 1..];
      if close.link.Some? {
        if link == close.link {
          link := None;
        }
      }
      DrainKeepsWellFormed(View(), [CloseFinished(close.generation)], env);
      Dispatch(CloseFinished(close.generation), env);
    }

    method FireTimer(i: nat, env: Env)
      requires AtRest() && i < |timers|
      modifies this, ledger, stallClock
      ensures AtRest() && View() == OnTimer(old(View()), i, env)
    {
      var generation := timers[i];
      timers := timers[..i] + timers[i + 1..];
      DrainKeepsWellFormed(View(), [BackoffElapsed(generation)], env);
      Dispatch(BackoffElapsed(generation), env);
    }

    method CheckStall(env: Env)
      requires AtRest()
      modifies this, ledger, stallClock
      ensures AtRest() && View() == Publishers.CheckStall(old(View()), confirmTimeoutMs, env)
    {
      var stalled := IsStalled(stallClock.startedAt, env.now, confirmTimeoutMs);
      if IsConfirmStall(state, ledger.sentCount, stalled) {
        DrainKeepsWellFormed(View(), [Trigger(state.generation, "confirm_stall", env.now)], env);
        Dispatch(Trigger(state.generation, "confirm_stall", env.now), env);
      }
    }

    method StopPublisher(env: Env)
      requires AtRest()
      modifies this, ledger, stallClock
      ensures AtRest() && View() == StopNow(old(View()), env)
    {
      if timers != [] {
        timers := timers[..|timers| - 1];
      }
      DrainKeepsWellFormed(View(), [Stop], env);
      Dispatch(Stop, env);
    }
  }
}
