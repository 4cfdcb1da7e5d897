/**
 * The shell around the consumer's state machine, as functions on its whole state: the serial queue
 * of effects that lags behind the events, the registrations with what they hold, and settlement.
 */
module Consumers {
  import opened Telemetry
  import opened ConsumerState
  import H = Handler
  import U = StateUpdate

  /** One `consume` call on the link of a generation; `running` are the tags whose handlers have not finished. */
  datatype Registration = Registration(
    generation: nat, held: seq<nat>, running: set<nat>, tagged: bool, live: bool, aborted: bool)

  /** An effect with the generation of the transition that asked for it. */
  datatype Job = Job(effect: Effect, generation: nat)

  /** The effect the queue waits for: a consume reply, a cancel, handlers before a return, or a close. */
  datatype Await =
    | Replying(r: nat)
    | Cancelling
    | Returning(r: nat, generation: nat, waiting: set<nat>)
    | Closing

  datatype SettleKind = Ack | Reject | Nack

  /** One settlement sent to the broker, on the channel of a generation. */
  datatype Settlement = Settlement(kind: SettleKind, generation: nat, tag: nat)

  datatype Stats = Stats(
    received: nat, acked: nat, created: nat, applied: nat, stale: nat, duplicate: nat, alerts: nat, gaps: nat,
    rejected: nat, failed: nat, retries: nat, returned: nat, abandoned: nat)

  /**
   * The consumer. Links and handles are named by the generation that opened them: `ended` and
   * `closed` are those whose end and whose connection close were seen. `collided` is the guard that
   * refuses a second registration. `log` records what was sent to the broker, `delivered` what came,
   * `cancelled` the registrations whose cancel was sent and `closing` the links whose close was begun.
   */
  datatype Consumer = Consumer(
    state: State, link: Option<nat>, ended: set<nat>, closed: set<nat>,
    registrations: seq<Registration>, await: Option<Await>, queue: seq<Job>,
    attempts: seq<nat>, timers: seq<nat>, watching: bool, draining: Option<nat>, paused: bool,
    inFlight: nat, counters: Stats, collided: bool,
    log: seq<Settlement>, delivered: set<(nat, nat)>, cancelled: set<nat>, closing: set<nat>)

  const NO_COUNTS := Stats(0, 0, 0, 0, 0, 0, 0, 0, 0, 0, 0, 0, 0)

  const NEW_CONSUMER :=
    Consumer(INITIAL_STATE, None, {}, {}, [], None, [], [], [], false, None, false, 0, NO_COUNTS, false, [], {}, {}, {})

  // ---------- Events ----------

  function JobsOf(effects: seq<Effect>, generation: nat): (jobs: seq<Job>)
    ensures |jobs| == |effects|
    ensures forall i :: 0 <= i < |effects| ==> jobs[i] == Job(effects[i], generation)
  {
    seq(|effects|, i requires 0 <= i < |effects| => Job(effects[i], generation))
  }

  /** The event is applied at once; its effects wait behind those of every earlier one. */
  function Dispatch(c: Consumer, e: Event): Consumer {
    var t := Next(c.state, e);
    c.(state := t.state, queue := c.queue + JobsOf(t.effects, t.state.generation))
  }

  // ---------- The registrations ----------

  /** The last registration is the only one the shell still knows. */
  predicate HasCurrent(c: Consumer) {
    c.registrations != []
  }

  predicate CurrentLive(c: Consumer) {
    HasCurrent(c) && c.registrations[|c.registrations| - 1].live
  }

  function Voided(c: Consumer, r: nat): Consumer
    requires r < |c.registrations|
  {
    c.(registrations := c.registrations[r := c.registrations[r].(live := false)])
  }

  function CurrentVoided(c: Consumer): Consumer {
    if HasCurrent(c) then Voided(c, |c.registrations| - 1) else c
  }

  function CurrentAborted(c: Consumer): Consumer {
    if HasCurrent(c) then
      var r := |c.registrations| - 1;
      c.(registrations := c.registrations[r := c.registrations[r].(aborted := true)])
    else c
  }

  // ---------- The effects ----------

  /** `#consume` up to its call: one registration, unless the link is another's or one is live. */
  function ConsumeBegun(c: Consumer, generation: nat): Consumer {
    if c.link != Some(generation) then c
    else if CurrentLive(c) then c.(collided := true)
    else
      c.(registrations := c.registrations + [Registration(generation, [], {}, false, true, false)],
         await := Some(Replying(|c.registrations|)))
  }

  function CancelBegun(c: Consumer): Consumer {
    if HasCurrent(c) && c.registrations[|c.registrations| - 1].tagged then
      c.(await := Some(Cancelling), cancelled := c.cancelled + {|c.registrations| - 1})
    else c
  }

  function ReturnBegun(c: Consumer, generation: nat): Consumer {
    if HasCurrent(c) then
      var r := |c.registrations| - 1;
      c.(await := Some(Returning(r, generation, c.registrations[r].running)))
    else c
  }

  /** The part of `#closeLink` that runs at once. */
  function LinkDropped(c: Consumer): Consumer {
    CurrentVoided(c).(link := None, closing := if c.link.Some? then c.closing + {c.link.value} else c.closing)
  }

  function CloseBegun(c: Consumer): Consumer {
    LinkDropped(c).(await := if c.link.Some? then Some(Closing) else None)
  }

  /** One effect, up to its first wait. */
  function Performed(c: Consumer, job: Job): Consumer {
    match job.effect
    case OpenLink => c.(attempts := c.attempts + [job.generation])
    case ScheduleBackoff(_, _) => c.(timers := c.timers + [job.generation])
    case Consume => ConsumeBegun(c, job.generation)
    case CancelConsumer => CancelBegun(c)
    case AbortHandlers => CurrentAborted(c)
    case ReturnHeld => ReturnBegun(c, job.generation)
    case WatchStore => c.(watching := true)
    case CloseLink => CloseBegun(c)
  }

  /** The next effect of the queue. */
  function EffectBegun(c: Consumer): Consumer
    requires c.await.None? && c.queue != []
  {
    Performed(c.(queue := c.queue[1..]), c.queue[0])
  }

  // ---------- What ends a wait ----------

  datatype Reply = Accepted | Refused | TimedOut

  function Replied(c: Consumer, reply: Reply, now: int): Consumer
    requires c.await.Some? && c.await.value.Replying? && c.await.value.r < |c.registrations|
  {
    var r, ended := c.await.value.r, c.(await := None);
    var registration := c.registrations[r];
    match reply
    case Refused => Voided(ended, r)
    case TimedOut => LinkEnded(Voided(ended, r), registration.generation, false, "consume_timed_out", now)
    case Accepted =>
      var tagged := ended.(registrations := ended.registrations[r := registration.(tagged := true)]);
      if registration.live then Dispatch(tagged.(paused := false), ConsumerRegistered(registration.generation)) else tagged
  }

  /** The consumer as the end of its link leaves it, before the event: no link, and its registration void. */
  function Unlinked(c: Consumer): Consumer {
    var g := c.state.generation;
    var isLast := HasCurrent(c) && c.registrations[|c.registrations| - 1].generation == g;
    c.(registrations := if isLast then CurrentVoided(c).registrations else c.registrations,
       link := if c.link == Some(g) then None else c.link, ended := c.ended + {g})
  }

  /** The first end of a link; while its attempt is in flight the attempt reports it, later ends change nothing. */
  function LinkEnded(c: Consumer, generation: nat, connection: bool, reason: string, now: int): Consumer {
    var seen := if connection then c.(closed := c.closed + {generation}) else c;
    if generation in c.ended then seen
    else if (c.state.Connecting? && c.state.generation == generation) || generation != c.state.generation then
      seen.(ended := seen.ended + {generation})
    else
      Dispatch(Unlinked(seen), LinkClosed(generation, reason, now))
  }

  function Nacks(held: seq<nat>, generation: nat): seq<Settlement> {
    seq(|held|, i requires 0 <= i < |held| => Settlement(Nack, generation, held[i]))
  }

  /** How many of the held deliveries a return nacks: none on another link, at most `count` before one throws. */
  function NackCount(c: Consumer, r: nat, generation: nat, count: nat): nat
    requires r < |c.registrations|
  {
    var registration := c.registrations[r];
    if registration.generation != generation || generation in c.closed then 0
    else if count < |registration.held| then count else |registration.held|
  }

  function Returned(c: Consumer, count: nat): Consumer
    requires c.await.Some? && c.await.value.Returning? && c.await.value.r < |c.registrations|
  {
    var r := c.await.value.r;
    var registration := c.registrations[r];
    var n := NackCount(c, r, c.await.value.generation, count);
    c.(await := None, paused := true,
       registrations := c.registrations[r := registration.(held := [], live := false)],
       counters := c.counters.(returned := c.counters.returned + n),
       log := c.log + Nacks(registration.held[..n], registration.generation))
  }

  // ---------- Deliveries ----------

  /** A delivery: dispatched to its own handler, or left alone on a void registration. */
  function DeliveryCame(c: Consumer, r: nat, tag: nat): Consumer
    requires r < |c.registrations|
  {
    var registration := c.registrations[r];
    var seen := c.(delivered := c.delivered + {(registration.generation, tag)});
    if !registration.live then seen
    else
      seen.(registrations := c.registrations[r := registration.(held := registration.held + [tag],
                                                                running := registration.running + {tag})],
            counters := c.counters.(received := c.counters.received + 1), inFlight := c.inFlight + 1)
  }

  /** The broker cancelled the consumer and returned its deliveries: every tag of it is void. */
  function CancelCame(c: Consumer, r: nat): Consumer
    requires r < |c.registrations|
  {
    if !c.registrations[r].live then c
    else Dispatch(Voided(c, r), BrokerCancelled(c.registrations[r].generation))
  }

  function Without(held: seq<nat>, tag: nat): (rest: seq<nat>)
    ensures forall t :: t in rest <==> t in held && t != tag
  {
    if held == [] then []
    else if held[0] == tag then Without(held[1..], tag)
    else
      assert held == [held[0]] + held[1..];
      [held[0]] + Without(held[1..], tag)
  }

  /** One ack or reject, only through a live registration; `sent` is false when the channel threw. */
  function Acknowledged(c: Consumer, r: nat, tag: nat, kind: SettleKind, sent: bool): Consumer
    requires r < |c.registrations|
  {
    var registration := c.registrations[r];
    if !registration.live then c
    else
      c.(registrations := c.registrations[r := registration.(held := Without(registration.held, tag))],
         log := if sent then c.log + [Settlement(kind, registration.generation, tag)] else c.log)
  }

  function CountedResult(n: Stats, result: H.HandlerResult): Stats {
    var tried := n.(retries := n.retries + if result.attempts > 1 then result.attempts - 1 else 0);
    match result
    case AckVerdict(outcome, duplicate, alert, gap, _) =>
      tried.(acked := n.acked + 1,
             created := n.created + if outcome.Created? then 1 else 0,
             applied := n.applied + if outcome.Applied? then 1 else 0,
             stale := n.stale + if outcome.Stale? then 1 else 0,
             duplicate := n.duplicate + if duplicate then 1 else 0,
             alerts := n.alerts + if alert.Created? then 1 else 0,
             gaps := n.gaps + if gap then 1 else 0)
    case Reject(reason, _) =>
      if reason.PermanentFailure? then tried.(failed := n.failed + 1) else tried.(rejected := n.rejected + 1)
    case Abandon(_, _) => tried.(abandoned := n.abandoned + 1)
  }

  /** One handler finished: counted, then acknowledged, rejected, or left to the broker. */
  function HandlerEnded(c: Consumer, r: nat, tag: nat, result: H.HandlerResult, sent: bool): Consumer
    requires r < |c.registrations| && c.inFlight > 0
  {
    var registration := c.registrations[r];
    var done := c.(counters := CountedResult(c.counters, result), inFlight := c.inFlight - 1,
                   registrations := c.registrations[r := registration.(running := registration.running - {tag})]);
    match result
    case AckVerdict(_, _, _, _, _) => Acknowledged(done, r, tag, Ack, sent)
    case Reject(_, _) => Acknowledged(done, r, tag, Reject, sent)
    case Abandon(cause, _) => if cause.StoreUnavailable? then Dispatch(done, StoreUnavailable) else done
  }

  // ---------- Attempts, timers, the store watch, stop ----------

  function AttemptEnded(c: Consumer, i: nat, linked: bool, reason: string, now: int): Consumer
    requires i < |c.attempts|
  {
    var generation, ended := c.attempts[i], c.(attempts := c.attempts[..i] + c.attempts[i + 1..]);
    if linked && c.state.Connecting? && c.state.generation == generation && generation !in c.ended then
      Dispatch(ended.(link := Some(generation)), LinkOpened(generation, now))
    else if c.state.Stopped? then ended
    else Dispatch(ended, LinkFailed(generation, reason))
  }

  function TimerFired(c: Consumer, i: nat): Consumer
    requires i < |c.timers|
  {
    Dispatch(c.(timers := c.timers[..i] + c.timers[i + 1..]), BackoffElapsed(c.timers[i]))
  }

  function WatchEnded(c: Consumer, ready: bool): Consumer {
    var ended := c.(watching := false);
    if ready then Dispatch(ended, StoreReady) else ended
  }

  function StopBegun(c: Consumer): Consumer {
    var stopped := Dispatch(c.(timers := if c.timers == [] then [] else c.timers[..|c.timers| - 1]), Stop);
    if stopped.state.Draining? then stopped.(draining := Some(stopped.state.generation)) else stopped
  }

  /** The drain is over; one that ran out of budget also aborts and closes at once, ahead of the queue. */
  function DrainOver(c: Consumer, expired: bool): Consumer
    requires c.draining.Some?
  {
    var drained := Dispatch(c.(draining := None), Drained(c.draining.value));
    if expired then LinkDropped(CurrentAborted(drained)) else drained
  }
}
