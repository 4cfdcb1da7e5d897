/**
 * The shell around the publisher's state machine, as functions on its whole state: the event queue
 * and its effects, the sends, the confirm callbacks, and the continuations that are still running.
 */
module Publishers {
  import opened Telemetry
  import opened PublisherState
  import opened Ledgers

  /** A close of the model kept in `link`, still running; it ends in `CloseFinished(generation)`. */
  datatype Close = Close(generation: nat, link: Option<nat>)

  /** One publish the channel of a generation took. */
  datatype Wire = Wire(generation: nat, id: nat, args: PublishArgs)

  /** How one `channel.publish` call goes: taken or thrown, and whether the channel's close listener ran inside it. */
  datatype Outcome = Outcome(taken: bool, closes: bool)

  /** The environment of one step: the clock, and how each publish made during the step goes. */
  datatype Env = Env(now: int, publish: nat -> Outcome)

  /**
   * The publisher. A model, its channel and its attempt are named by the generation that opened
   * them. `attempts`, `closes` and `timers` are the continuations still running; `told` is what the
   * readiness listeners heard last; `taken` and `confirmations` record what the channels took and
   * whose `onConfirmed` ran; `broken` is the throw of a send without a channel.
   */
  datatype Pub = Pub(
    state: State, link: Option<nat>, ledger: LedgerState, clock: Option<int>,
    attempts: seq<nat>, closes: seq<Close>, timers: seq<nat>,
    told: bool, confirmed: nat, republished: nat, returned: nat,
    taken: seq<Wire>, confirmations: seq<nat>, broken: bool)

  const NEW_PUBLISHER :=
    Pub(INITIAL_STATE, None, EMPTY_LEDGER, None, [], [], [], false, 0, 0, 0, [], [], false)

  // ---------- Sending ----------

  /** The channel of the current generation took the entry. */
  function Take(p: Pub, e: Entry): Pub {
    p.(taken := p.taken + [Wire(p.state.generation, e.id, e.args)])
  }

  function MarkSentNow(p: Pub, e: Entry, now: int): Pub {
    var ledger := MarkedSent(p.ledger, e.id, p.state.generation);
    p.(ledger := ledger, clock := OnSent(p.clock, now, ledger.sentCount))
  }

  /** The triggers one publish call dispatches, in order. */
  function PublishTriggers(generation: nat, o: Outcome, now: int): (triggers: seq<Event>)
    ensures forall e <- triggers :: e.Trigger? && e.generation == generation
    ensures triggers == [] <==> o.taken && !o.closes
  {
    (if o.closes then [Trigger(generation, "channel_closed", now)] else [])
    + (if o.taken then [] else [Trigger(generation, "publish_threw", now)])
  }

  /** One send while effects run: its triggers are queued behind them. */
  function SendQueued(p: Pub, e: Entry, env: Env): (Pub, seq<Event>) {
    if p.link.None? then (p.(broken := true), [])
    else
      var o := env.publish(e.id);
      (if o.taken then MarkSentNow(Take(p, e), e, env.now) else p, PublishTriggers(p.state.generation, o, env.now))
  }

  /** `send_pending`: in insertion order, up to the first publish that throws. */
  function SendAll(p: Pub, entries: seq<Entry>, env: Env): (Pub, seq<Event>)
    decreases entries
  {
    if entries == [] then (p, [])
    else
      var e := entries[0];
      var (sent, triggers) := SendQueued(p, e, env);
      if sent.broken || !env.publish(e.id).taken then (sent, triggers)
      else
        var counted := if e.wasSent then sent.(republished := sent.republished + 1) else sent;
        var (rest, more) := SendAll(counted, entries[1..], env);
        (rest, triggers + more)
  }

  // ---------- Events and effects ----------

  function RunEffect(p: Pub, effect: Effect, env: Env): (Pub, seq<Event>) {
    match effect
    case StartAttempt => (p.(attempts := p.attempts + [p.state.generation]), [])
    case Lose => (p.(ledger := AllLost(p.ledger)), [])
    case SendPending => SendAll(p, PendingOf(p.ledger.entries), env)
    case RestartStallClock => (p.(clock := Some(env.now)), [])
    case CloseModel => (p.(closes := p.closes + [Close(p.state.generation, p.link)]), [])
    case StartBackoff(_, _) => (p.(timers := p.timers + [p.state.generation]), [])
  }

  function RunEffects(p: Pub, effects: seq<Effect>, env: Env): (Pub, seq<Event>)
    decreases effects
  {
    if effects == [] then (p, [])
    else
      var (p', queued) := RunEffect(p, effects[0], env);
      var (p'', more) := RunEffects(p', effects[1..], env);
      (p'', queued + more)
  }

  /** The new state, and the listeners told when readiness changed. */
  function Entered(p: Pub, state: State): Pub {
    p.(state := state, told := if IsReady(state) != IsReady(p.state) then IsReady(state) else p.told)
  }

  function Successes(queue: seq<Event>): nat {
    if queue == [] then 0 else (if queue[0].AttemptSucceeded? then 1 else 0) + Successes(queue[1..])
  }

  /** The dispatch loop: each event's effects run to their end, what they dispatch waits behind. */
  function Drain(p: Pub, queue: seq<Event>, env: Env): Pub
    decreases Successes(queue), |queue|
  {
    if queue == [] then p
    else
      var t := Next(p.state, queue[0]);
      var (p', queued) := RunEffects(Entered(p, t.state), t.effects, env);
      QueueShrinks(p, queue, env);
      Drain(p', queue[1..] + queued, env)
  }

  function Dispatch(p: Pub, e: Event, env: Env): Pub {
    Drain(p, [e], env)
  }

  // ---------- Termination of the loop ----------

  lemma {:induction false} SuccessesConcat(a: seq<Event>, b: seq<Event>)
    ensures Successes(a + b) == Successes(a) + Successes(b)
  {
    if a == [] {
      assert a + b == b;
    } else {
      assert (a + b)[1..] == a[1..] + b;
      SuccessesConcat(a[1..], b);
    }
  }

  lemma {:induction false} TriggersAreNoSuccess(events: seq<Event>)
    requires forall e <- events :: e.Trigger?
    ensures Successes(events) == 0
  {
    if events != [] {
      assert events[0] in events;
      TriggersAreNoSuccess(events[1..]);
    }
  }

  lemma {:induction false} SendsQueueTriggers(p: Pub, entries: seq<Entry>, env: Env)
    ensures forall e <- SendAll(p, entries, env).1 :: e.Trigger?
    decreases entries
  {
    if entries != [] {
      var e := entries[0];
      var sent := SendQueued(p, e, env).0;
      var counted := if e.wasSent then sent.(republished := sent.republished + 1) else sent;
      SendsQueueTriggers(counted, entries[1..], env);
    }
  }

  lemma {:induction false} EffectsQueueTriggers(p: Pub, effects: seq<Effect>, env: Env)
    ensures forall e <- RunEffects(p, effects, env).1 :: e.Trigger?
    ensures SendPending !in effects ==> RunEffects(p, effects, env).1 == []
    decreases effects
  {
    if effects != [] {
      if effects[0].SendPending? {
        SendsQueueTriggers(p, PendingOf(p.ledger.entries), env);
      }
      EffectsQueueTriggers(RunEffect(p, effects[0], env).0, effects[1..], env);
    }
  }

  /** Only a success sends, and a send only queues triggers: the loop ends. */
  lemma QueueShrinks(p: Pub, queue: seq<Event>, env: Env)
    requires queue != []
    ensures var t := Next(p.state, queue[0]);
      var queued := RunEffects(Entered(p, t.state), t.effects, env).1;
      Successes(queue[1..] + queued) < Successes(queue)
      || (Successes(queue[1..] + queued) == Successes(queue) && |queue[1..] + queued| < |queue|)
  {
    var t := Next(p.state, queue[0]);
    var queued := RunEffects(Entered(p, t.state), t.effects, env).1;
    EffectsQueueTriggers(Entered(p, t.state), t.effects, env);
    TriggersAreNoSuccess(queued);
    SuccessesConcat(queue[1..], queued);
  }

  // ---------- The entry points ----------

  /** `publish`: into the ledger, and out at once in `ready`, blocked or not. */
  function Publish(p: Pub, args: PublishArgs, owner: nat, env: Env): Pub {
    var e := NewEntry(p.ledger, args, owner);
    var added := p.(ledger := Added(p.ledger, args, owner));
    if p.state.Ready? then SendNow(added, e, env) else added
  }

  /** One send outside the loop: a trigger runs to its end before the send goes on. */
  function SendNow(p: Pub, e: Entry, env: Env): Pub {
    if p.link.None? then p.(broken := true)
    else
      var o, generation := env.publish(e.id), p.state.generation;
      var took := if o.taken then Take(p, e) else p;
      var closed := if o.closes then Dispatch(took, Trigger(generation, "channel_closed", env.now), env) else took;
      if !o.taken then Dispatch(closed, Trigger(generation, "publish_threw", env.now), env)
      else if closed.state.generation == generation then MarkSentNow(closed, e, env.now)
      else closed
  }

  /** The confirm callback of one publish; a callback of a recycled generation is ignored. */
  function OnConfirm(p: Pub, generation: nat, id: nat, nacked: bool, env: Env): Pub {
    if generation != p.state.generation then p
    else if nacked then Dispatch(p, Trigger(generation, "nacked", env.now), env)
    else
      var ledger := Confirmed(p.ledger, id);
      p.(ledger := ledger, confirmed := p.confirmed + 1,
         confirmations := if IndexOf(p.ledger.entries, id) < |p.ledger.entries| then p.confirmations + [id] else p.confirmations,
         clock := OnAck(env.now, ledger.sentCount))
  }

  function OnReturn(p: Pub, generation: nat, env: Env): Pub {
    if generation != p.state.generation then p
    else Dispatch(p.(returned := p.returned + 1), Trigger(generation, "returned", env.now), env)
  }

  /** How a connection attempt ends; `channel` is false when a check on the way already failed. */
  datatype AttemptEnd = ConnectFailed | SetupTimedOut | SetupFailed | SetupResolved(channel: bool)

  predicate MayContinue(s: State, generation: nat) {
    s.Connecting? && s.generation == generation && s.failure.None?
  }

  function EndReason(end: AttemptEnd): string {
    match end
    case ConnectFailed => "connect_failed"
    case SetupTimedOut => "setup_timed_out"
    case SetupFailed => "setup_failed"
    case SetupResolved(_) => "superseded"
  }

  function OnAttemptEnd(p: Pub, i: nat, end: AttemptEnd, env: Env): Pub
    requires i < |p.attempts|
  {
    var generation := p.attempts[i];
    var ended := p.(attempts := p.attempts[..i] + p.attempts[i + 1..]);
    if end == SetupResolved(true) && MayContinue(p.state, generation) then
      Dispatch(ended.(link := Some(generation)), AttemptSucceeded(generation, env.now), env)
    else if p.state.Stopped? then ended
    else Dispatch(ended, AttemptFailed(generation, EndReason(end)), env)
  }

  /** A close of a model is over, however it went: the reference is dropped if it is still that model's. */
  function OnCloseEnd(p: Pub, i: nat, env: Env): Pub
    requires i < |p.closes|
  {
    var close := p.closes[i];
    var ended := p.(closes := p.closes[..i] + p.closes[i + 1..],
                    link := if close.link.Some? && p.link == close.link then None else p.link);
    Dispatch(ended, CloseFinished(close.generation), env)
  }

  function OnTimer(p: Pub, i: nat, env: Env): Pub
    requires i < |p.timers|
  {
    Dispatch(p.(timers := p.timers[..i] + p.timers[i + 1..]), BackoffElapsed(p.timers[i]), env)
  }

  function CheckStall(p: Pub, timeoutMs: nat, env: Env): Pub {
    if IsConfirmStall(p.state, p.ledger.sentCount, IsStalled(p.clock, env.now, timeoutMs)) then
      Dispatch(p, Trigger(p.state.generation, "confirm_stall", env.now), env)
    else p
  }

  function Start(p: Pub, env: Env): Pub {
    Dispatch(p, BackoffElapsed(p.state.generation), env)
  }

  /** `stop`: the last armed timer is the one the shell still holds. */
  function StopNow(p: Pub, env: Env): Pub {
    var timers := if p.timers == [] then [] else p.timers[..|p.timers| - 1];
    Dispatch(p.(timers := timers), Stop, env)
  }
}
