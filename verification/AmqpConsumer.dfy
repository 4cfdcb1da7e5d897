/** The consumer as the object it is: registrations that are mutated one by one, and an effect queue run in order. */
module AmqpConsumers {
  import opened Telemetry
  import opened ConsumerState
  import opened Consumers
  import H = Handler
  import R = ConsumerRuns
  import S = ConsumerSettlement

  /** One `consume` call: what it holds, whose handlers run, and whether it is still good. */
  class Subscription {
    const generation: nat
    var held: seq<nat>
    var running: set<nat>
    var tagged: bool
    var live: bool
    var aborted: bool

    ghost function View(): Registration
      reads this
    {
      Registration(generation, held, running, tagged, live, aborted)
    }

    constructor (generation: nat)
      ensures View() == Registration(generation, [], {}, false, true, false)
    {
      this.generation := generation;
      held, running, tagged, live, aborted := [], {}, false, true, false;
    }

    method Forget(tag: nat)
      modifies this`held
      ensures held == Without(old(held), tag)
    {
      var kept: seq<nat> := [];
      for i := 0 to |held|
        invariant kept + Without(held[i..], tag) == Without(held, tag)
      {
        assert held[i..][0] == held[i] && held[i..][1..] == held[i + 1..];
        if held[i] != tag {
          kept := kept + [held[i]];
        }
      }
      held := kept;
    }
  }

  /** One step of a run, on the view of the object. */
  lemma StepKept(c: Consumer, s: R.Step)
    requires S.Inv(c) && R.Enabled(c, s)
    ensures S.Inv(R.After(c, s)) && (s.Handles? ==> c.inFlight > 0)
  {
    hide S.Inv, R.After, R.Enabled;
    S.StepKeepsInv(c, s);
  }

  lemma NewKept(c: Consumer)
    requires c == NEW_CONSUMER
    ensures S.Inv(c)
  {
    hide S.Inv;
    S.NewIsOk();
  }

  class AmqpConsumer {
    var state: State
    var link: Option<nat>
    var ended: set<nat>
    var closed: set<nat>
    var subscriptions: seq<Subscription>
    var await: Option<Await>
    var queue: seq<Job>
    var attempts: seq<nat>
    var timers: seq<nat>
    var watching: bool
    var draining: Option<nat>
    var paused: bool
    var inFlight: nat
    var counters: Stats
    var collided: bool
    ghost var log: seq<Settlement>
    ghost var delivered: set<(nat, nat)>
    ghost var cancelled: set<nat>
    ghost var closing: set<nat>

    /** Every registration is an object of its own. */
    ghost predicate Separate()
      reads this`subscriptions
    {
      forall i, j :: 0 <= i < j < |subscriptions| ==> subscriptions[i] != subscriptions[j]
    }

    ghost function Registrations(): seq<Registration>
      reads this`subscriptions, subscriptions
    {
      var all := subscriptions;
      seq(|all|, i requires 0 <= i < |all| reads all => all[i].View())
    }

    ghost function View(): Consumer
      reads this, subscriptions
    {
      Consumer(state, link, ended, closed, Registrations(), await, queue, attempts, timers, watching, draining, paused,
               inFlight, counters, collided, log, delivered, cancelled, closing)
    }

    /** The invariants that hold in every run: of the life of the registrations, and of what is settled. */
    ghost predicate Valid()
      reads this, subscriptions
    {
      Separate() && S.Inv(View())
    }

    constructor ()
      ensures Valid() && View() == NEW_CONSUMER
    {
      state, link, ended, closed := INITIAL_STATE, None, {}, {};
      subscriptions, await, queue := [], None, [];
      attempts, timers, watching, draining, paused := [], [], false, None, false;
      inFlight, counters, collided := 0, NO_COUNTS, false;
      log, delivered, cancelled, closing := [], {}, {}, {};
      new;
      hide S.Inv;
      NewKept(View());
    }

    // ---------- Events ----------

    /** The event at once, its effects behind those of every earlier one. */
    method Dispatch(e: Event)
      modifies this`state, this`queue
      ensures View() == Consumers.Dispatch(old(View()), e)
    {
      var t := Next(state, e);
      state := t.state;
      queue := queue + JobsOf(t.effects, state.generation);
    }

    method Void(r: nat)
      requires Separate() && r < |subscriptions|
      modifies subscriptions[r]
      ensures View() == Voided(old(View()), r)
    {
      subscriptions[r].live := false;
      assert Registrations() == old(Registrations())[r := subscriptions[r].View()];
    }

    method VoidCurrent()
      requires Separate()
      modifies subscriptions
      ensures View() == CurrentVoided(old(View()))
    {
      if |subscriptions| > 0 {
        Void(|subscriptions| - 1);
      }
    }

    method AbortCurrent()
      requires Separate()
      modifies subscriptions
      ensures View() == CurrentAborted(old(View()))
    {
      if |subscriptions| > 0 {
        var r := |subscriptions| - 1;
        subscriptions[r].aborted := true;
        assert Registrations() == old(Registrations())[r := subscriptions[r].View()];
      }
    }

    // ---------- The effects ----------

    /** The next effect of the queue, up to its first wait. */
    method RunEffect()
      requires Valid() && await.None? && queue != []
      modifies this, subscriptions
      ensures Valid() && View() == EffectBegun(old(View()))
    {
      StepKept(View(), R.EffectRuns);
      hide Performed;
      var job := queue[0];
      queue := queue[1..];
      Perform(job);
    }

    method Perform(job: Job)
      requires Separate() && await.None?
      modifies this, subscriptions
      ensures Separate() && View() == Performed(old(View()), job)
    {
      hide ConsumeBegun, CancelBegun, ReturnBegun, CloseBegun, CurrentAborted;
      match job.effect
      case OpenLink => attempts := attempts + [job.generation];
      case ScheduleBackoff(_, _) => timers := timers + [job.generation];
      case Consume => BeginConsume(job.generation);
      case CancelConsumer => BeginCancel();
      case AbortHandlers => AbortCurrent();
      case ReturnHeld => BeginReturn(job.generation);
      case WatchStore => watching := true;
      case CloseLink => BeginClose();
    }

    method BeginConsume(generation: nat)
      requires Separate()
      modifies this`subscriptions, this`await, this`collided
      ensures Separate() && View() == ConsumeBegun(old(View()), generation)
    {
      if link != Some(generation) {
        return;
      }
      if |subscriptions| > 0 && subscriptions[|subscriptions| - 1].live {
        collided := true;
        return;
      }
      var subscription := new Subscription(generation);
      await := Some(Replying(|subscriptions|));
      subscriptions := subscriptions + [subscription];
      assert Registrations() == old(Registrations()) + [subscription.View()];
    }

    method BeginCancel()
      modifies this`await, this`cancelled
      ensures View() == CancelBegun(old(View()))
    {
      if |subscriptions| > 0 && subscriptions[|subscriptions| - 1].tagged {
        await := Some(Cancelling);
        cancelled := cancelled + {|subscriptions| - 1};
      }
    }

    method BeginReturn(generation: nat)
      modifies this`await
      ensures View() == ReturnBegun(old(View()), generation)
    {
      if |subscriptions| > 0 {
        var r := |subscriptions| - 1;
        await := Some(Returning(r, generation, subscriptions[r].running));
      }
    }

    /** The part of `#closeLink` that runs at once. */
    method DropLink()
      requires Separate()
      modifies this`link, this`closing, subscriptions
      ensures View() == LinkDropped(old(View()))
    {
      VoidCurrent();
      closing := if link.Some? then closing + {link.value} else closing;
      link := None;
    }

    method BeginClose()
      requires Separate() && await.None?
      modifies this`link, this`await, this`closing, subscriptions
      ensures Separate() && View() == CloseBegun(old(View()))
    {
      hide LinkDropped;
      if link.Some? {
        DropLink();
        await := Some(Closing);
      } else {
        DropLink();
      }
    }

    // ---------- What ends a wait ----------

    method OnReply(reply: Reply, now: int)
      requires Valid() && await.Some? && await.value.Replying? && await.value.r < |subscriptions|
      modifies this, subscriptions
      ensures Valid() && View() == Replied(old(View()), reply, now)
    {
      StepKept(View(), R.ReplyCame(reply, now));
      hide LinkEnded, Consumers.Dispatch;
      var r := await.value.r;
      await := None;
      match reply
      case Refused => Void(r);
      case TimedOut =>
        Void(r);
        LoseLink(subscriptions[r].generation, false, "consume_timed_out", now);
      case Accepted => Register(r);
    }

    /** The reply came with a consumer tag; a registration that died before is left alone. */
    method Register(r: nat)
      requires Separate() && r < |subscriptions|
      modifies this, subscriptions
      ensures Separate() && subscriptions == old(subscriptions)
      ensures var c := old(View());
        var tagged := c.(registrations := c.registrations[r := c.registrations[r].(tagged := true)]);
        View() == if c.registrations[r].live
                  then Consumers.Dispatch(tagged.(paused := false), ConsumerRegistered(c.registrations[r].generation))
                  else tagged
    {
      hide Next;
      subscriptions[r].tagged := true;
      assert Registrations() == old(Registrations())[r := subscriptions[r].View()];
      if subscriptions[r].live {
        paused := false;
        Dispatch(ConsumerRegistered(subscriptions[r].generation));
      }
    }

    /** The first end of a link; while its attempt is in flight the attempt reports it. */
    method OnLinkEnded(generation: nat, connection: bool, reason: string, now: int)
      requires Valid() && 0 < generation <= state.generation
      modifies this, subscriptions
      ensures Valid() && subscriptions == old(subscriptions)
      ensures View() == LinkEnded(old(View()), generation, connection, reason, now)
    {
      StepKept(View(), R.LinkEnds(generation, connection, reason, now));
      hide S.Inv;
      LoseLink(generation, connection, reason, now);
    }

    /** The machine hears of an end only if it is the first one of its own link. */
    method LoseLink(generation: nat, connection: bool, reason: string, now: int)
      requires Separate()
      modifies this, subscriptions
      ensures Separate() && subscriptions == old(subscriptions)
      ensures View() == LinkEnded(old(View()), generation, connection, reason, now)
    {
      hide Unlinked, Next;
      if connection {
        closed := closed + {generation};
      }
      if generation in ended {
        return;
      }
      if (state.Connecting? && state.generation == generation) || generation != state.generation {
        ended := ended + {generation};
        return;
      }
      Unlink();
      Dispatch(LinkClosed(generation, reason, now));
    }

    /** No link of this generation any more, and its registration is void. */
    method Unlink()
      requires Separate()
      modifies this`link, this`ended, subscriptions
      ensures Separate() && View() == Unlinked(old(View()))
    {
      VoidIfLast(state.generation);
      ended := ended + {state.generation};
      if link == Some(state.generation) {
        link := None;
      }
    }

    method VoidIfLast(generation: nat)
      requires Separate()
      modifies subscriptions
      ensures var c := old(View());
        var isLast := HasCurrent(c) && c.registrations[|c.registrations| - 1].generation == generation;
        Registrations() == if isLast then CurrentVoided(c).registrations else c.registrations
    {
      hide CurrentVoided;
      if |subscriptions| > 0 && subscriptions[|subscriptions| - 1].generation == generation {
        VoidCurrent();
      }
    }

    /** Once the handlers settled: a nack for every delivery still held, up to the first one that throws. */
    method ReturnAll(count: nat)
      requires Valid() && await.Some? && await.value.Returning? && await.value.r < |subscriptions|
      requires await.value.waiting !! subscriptions[await.value.r].running
      modifies this, subscriptions
      ensures Valid() && View() == Returned(old(View()), count)
    {
      StepKept(View(), R.HandlersSettled(count));
      hide S.Inv;
      ReturnHeld(count);
    }

    /** The registration empty and void, the queue free to go on. */
    method ReturnHeld(count: nat)
      requires Separate() && await.Some? && await.value.Returning? && await.value.r < |subscriptions|
      modifies this, subscriptions
      ensures Separate() && View() == Returned(old(View()), count)
    {
      hide NackCount, Nacks;
      var r, generation := await.value.r, await.value.generation;
      var returned := NackHeld(r, generation, count);
      var subscription := subscriptions[r];
      subscription.held := [];
      subscription.live := false;
      assert Registrations() == old(Registrations())[r := subscription.View()];
      await, paused := None, true;
      counters := counters.(returned := counters.returned + returned);
    }

    /** Nothing is nacked on another link or on one that closed. */
    method NackHeld(r: nat, generation: nat, count: nat) returns (returned: nat)
      requires Separate() && r < |subscriptions|
      modifies this`log
      ensures returned == NackCount(old(View()), r, generation, count)
      ensures returned <= |subscriptions[r].held|
      ensures log == old(log) + Nacks(subscriptions[r].held[..returned], subscriptions[r].generation)
    {
      var subscription := subscriptions[r];
      returned := 0;
      if subscription.generation != generation || generation in closed {
        return;
      }
      while returned < |subscription.held| && returned < count
        modifies this`log
        invariant returned <= |subscription.held| && returned <= count
        invariant log == old(log) + Nacks(subscription.held[..returned], generation)
      {
        assert Nacks(subscription.held[..returned + 1], generation)
            == Nacks(subscription.held[..returned], generation) + [Settlement(Nack, generation, subscription.held[returned])];
        log := log + [Settlement(Nack, generation, subscription.held[returned])];
        returned := returned + 1;
      }
    }

    // ---------- Deliveries ----------

    /** A delivery; on a void registration it is left alone. */
    method OnDelivery(r: nat, tag: nat)
      requires Valid() && r < |subscriptions|
      requires (subscriptions[r].generation, tag) !in delivered
      modifies this`counters, this`inFlight, this`delivered, subscriptions[r]
      ensures Valid() && View() == DeliveryCame(old(View()), r, tag)
    {
      StepKept(View(), R.Delivers(r, tag));
      hide S.Inv;
      Receive(r, tag);
    }

    /** Held, counted and handed to its handler while the registration is live. */
    method Receive(r: nat, tag: nat)
      requires Separate() && r < |subscriptions|
      modifies this`counters, this`inFlight, this`delivered, subscriptions[r]
      ensures Separate() && View() == DeliveryCame(old(View()), r, tag)
    {
      var subscription := subscriptions[r];
      delivered := delivered + {(subscription.generation, tag)};
      if !subscription.live {
        assert Registrations() == old(Registrations());
        return;
      }
      subscription.held := subscription.held + [tag];
      subscription.running := subscription.running + {tag};
      assert Registrations() == old(Registrations())[r := subscription.View()];
      counters := counters.(received := counters.received + 1);
      inFlight := inFlight + 1;
    }

    /** The broker's cancel: the registration is void before the machine hears of it. */
    method OnCancel(r: nat)
      requires Valid() && r < |subscriptions|
      modifies this, subscriptions
      ensures Valid() && View() == CancelCame(old(View()), r)
    {
      StepKept(View(), R.Cancels(r));
      hide Next;
      if !subscriptions[r].live {
        return;
      }
      Void(r);
      Dispatch(BrokerCancelled(subscriptions[r].generation));
    }

    /** One handler finished: counted, then acknowledged, rejected, or left to the broker. */
    method OnHandled(r: nat, tag: nat, result: H.HandlerResult, sent: bool)
      requires Valid() && r < |subscriptions| && inFlight > 0
      requires tag in subscriptions[r].running
      modifies this, subscriptions
      ensures Valid() && View() == HandlerEnded(old(View()), r, tag, result, sent)
    {
      StepKept(View(), R.Handles(r, tag, result, sent));
      hide S.Inv;
      Settle(r, tag, result, sent);
    }

    /** The accounting of one verdict, and then its settlement. */
    method Settle(r: nat, tag: nat, result: H.HandlerResult, sent: bool)
      requires Separate() && r < |subscriptions| && inFlight > 0
      modifies this, subscriptions
      ensures Separate() && View() == HandlerEnded(old(View()), r, tag, result, sent)
    {
      hide Next, CountedResult, Acknowledged, Consumers.Dispatch;
      var subscription := subscriptions[r];
      counters := CountedResult(counters, result);
      inFlight := inFlight - 1;
      subscription.running := subscription.running - {tag};
      assert Registrations() == old(Registrations())[r := subscription.View()];
      match result
      case AckVerdict(_, _, _, _, _) => Acknowledge(r, tag, Ack, sent);
      case Reject(_, _) => Acknowledge(r, tag, SettleKind.Reject, sent);
      case Abandon(cause, _) =>
        if cause.StoreUnavailable? {
          Dispatch(StoreUnavailable);
        }
    }

    /** Nothing is acknowledged through a void registration. */
    method Acknowledge(r: nat, tag: nat, kind: SettleKind, sent: bool)
      requires Separate() && r < |subscriptions|
      modifies this`log, subscriptions
      ensures View() == Acknowledged(old(View()), r, tag, kind, sent)
    {
      var subscription := subscriptions[r];
      if !subscription.live {
        return;
      }
      subscription.Forget(tag);
      assert Registrations() == old(Registrations())[r := subscription.View()];
      if sent {
        log := log + [Settlement(kind, subscription.generation, tag)];
      }
    }

    // ---------- Attempts, timers, the store watch, stop ----------

    /** The first attempt at once. */
    method Start()
      requires Valid() && state.Backoff? && state.generation == 0
      modifies this`state, this`queue
      ensures Valid() && View() == Consumers.Dispatch(old(View()), BackoffElapsed(0))
    {
      StepKept(View(), R.Starts);
      hide S.Inv, Next;
      Dispatch(BackoffElapsed(state.generation));
    }

    /** The entry point reports the store ready. */
    method ReportStoreReady()
      requires Valid()
      modifies this`state, this`queue
      ensures Valid() && View() == Consumers.Dispatch(old(View()), StoreReady)
    {
      StepKept(View(), R.StoreReports);
      hide S.Inv, Next;
      Dispatch(StoreReady);
    }

    /** A cancel or a close came to its end: the queue goes on. */
    method EndWait()
      requires Valid() && (await == Some(Cancelling) || await == Some(Closing))
      modifies this`await
      ensures Valid() && View() == old(View()).(await := None)
    {
      StepKept(View(), if await == Some(Cancelling) then R.CancelSettled else R.CloseSettled);
      hide S.Inv;
      await := None;
    }

    method EndAttempt(i: nat, linked: bool, reason: string, now: int)
      requires Valid() && i < |attempts|
      modifies this`attempts, this`link, this`state, this`queue
      ensures Valid() && View() == AttemptEnded(old(View()), i, linked, reason, now)
    {
      StepKept(View(), R.AttemptEnds(i, linked, reason, now));
      hide S.Inv;
      Attempted(i, linked, reason, now);
    }

    /** The link is taken while its attempt may continue; a failure is reported unless the machine stopped. */
    method Attempted(i: nat, linked: bool, reason: string, now: int)
      requires Separate() && i < |attempts|
      modifies this`attempts, this`link, this`state, this`queue
      ensures Separate() && View() == AttemptEnded(old(View()), i, linked, reason, now)
    {
      hide Next;
      var generation := attempts[i];
      attempts := attempts[..i] + attempts[i + 1..];
      if linked && state.Connecting? && state.generation == generation && generation !in ended {
        link := Some(generation);
        Dispatch(LinkOpened(generation, now));
        return;
      }
      if state.Stopped? {
        return;
      }
      Dispatch(LinkFailed(generation, reason));
    }

    method FireTimer(i: nat)
      requires Valid() && i < |timers|
      modifies this`timers, this`state, this`queue
      ensures Valid() && View() == TimerFired(old(View()), i)
    {
      StepKept(View(), R.TimerFires(i));
      hide Next;
      var generation := timers[i];
      timers := timers[..i] + timers[i + 1..];
      Dispatch(BackoffElapsed(generation));
    }

    method EndWatch(ready: bool)
      requires Valid() && watching
      modifies this`watching, this`state, this`queue
      ensures Valid() && View() == WatchEnded(old(View()), ready)
    {
      StepKept(View(), R.WatchEnds(ready));
      hide Next;
      watching := false;
      if ready {
        Dispatch(StoreReady);
      }
    }

    method BeginStop()
      requires Valid() && draining.None?
      modifies this`timers, this`state, this`queue, this`draining
      ensures Valid() && View() == StopBegun(old(View()))
    {
      StepKept(View(), R.StopCalled);
      hide S.Inv;
      Halt();
    }

    /** The last timer is disarmed, and a machine that is open begins to drain. */
    method Halt()
      requires Separate()
      modifies this`timers, this`state, this`queue, this`draining
      ensures Separate() && View() == StopBegun(old(View()))
    {
      hide Next;
      if timers != [] {
        timers := timers[..|timers| - 1];
      }
      Dispatch(Stop);
      if state.Draining? {
        draining := Some(state.generation);
      }
    }

    method EndDrain(expired: bool)
      requires Valid() && draining.Some?
      modifies this`draining, this`state, this`queue, this`link, this`closing, subscriptions
      ensures Valid() && View() == DrainOver(old(View()), expired)
    {
      StepKept(View(), R.DrainEnds(expired));
      hide S.Inv;
      FinishDrain(expired);
    }

    /** The machine stops; a drain that ran out of budget aborts and drops the link at once. */
    method FinishDrain(expired: bool)
      requires Separate() && draining.Some?
      modifies this`draining, this`state, this`queue, this`link, this`closing, subscriptions
      ensures Separate() && View() == DrainOver(old(View()), expired)
    {
      hide Next, LinkDropped, CurrentAborted;
      var generation := draining.value;
      draining := None;
      Dispatch(Drained(generation));
      if expired {
        AbortCurrent();
        DropLink();
      }
    }
  }
}
