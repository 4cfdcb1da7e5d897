/** The lifecycle of the processing consumer as a pure state machine. */
module ConsumerState {

  /** Inside `Open`: no registration, one whose reply is pending, or a registered one. */
  datatype Status = Idle | Registering | Active

  datatype State =
    | Backoff(generation: nat, attempt: nat, storeReady: bool)
    | Connecting(generation: nat, attempt: nat, storeReady: bool)
    | Open(generation: nat, attempt: nat, storeReady: bool, consumer: Status, openedAt: int)
    | Draining(generation: nat, storeReady: bool)
    | Stopped(generation: nat, storeReady: bool)

  datatype Event =
    | BackoffElapsed(generation: nat)
    | LinkOpened(generation: nat, now: int)
    | LinkFailed(generation: nat, reason: string)
    | LinkClosed(generation: nat, reason: string, now: int)
    | ConsumerRegistered(generation: nat)
    | BrokerCancelled(generation: nat)
    | Drained(generation: nat)
    | StoreReady
    | StoreUnavailable
    | Stop

  datatype Effect =
    | OpenLink
    | ScheduleBackoff(attempt: nat, reason: string)
    | Consume
    | CancelConsumer
    | AbortHandlers
    | ReturnHeld
    | WatchStore
    | CloseLink

  datatype Transition = To(state: State, effects: seq<Effect>)

  const LINK_RESET_AFTER_MS := 10_000

  const INITIAL_STATE := Backoff(0, 0, false)

  predicate IsConsuming(s: State) {
    s.Open? && s.consumer.Active? && s.storeReady
  }

  function Next(s: State, e: Event): Transition {
    if s.Stopped? then To(s, [])
    else match e
      case Stop => FromStop(s)
      case StoreReady => FromStoreReady(s)
      case StoreUnavailable => FromStoreUnavailable(s)
      case _ => if e.generation != s.generation then To(s, []) else FromLinkEvent(s, e)
  }

  function FromStop(s: State): Transition
    requires !s.Stopped?
  {
    match s
    case Backoff(g, _, ready) => To(Stopped(g, ready), [])
    case Connecting(g, _, ready) => To(Stopped(g, ready), [CloseLink])
    case Open(g, _, ready, consumer, _) => To(Draining(g, ready), if consumer.Active? then [CancelConsumer] else [])
    case Draining(_, _) => To(s, [])
  }

  function WithStore(s: State, ready: bool): State {
    match s
    case Backoff(g, attempt, _) => Backoff(g, attempt, ready)
    case Connecting(g, attempt, _) => Connecting(g, attempt, ready)
    case Open(g, attempt, _, consumer, openedAt) => Open(g, attempt, ready, consumer, openedAt)
    case Draining(g, _) => Draining(g, ready)
    case Stopped(g, _) => Stopped(g, ready)
  }

  function FromStoreReady(s: State): Transition {
    if s.Open? && s.consumer.Idle? && !s.storeReady then
      To(Open(s.generation, s.attempt, true, Registering, s.openedAt), [Consume])
    else
      To(WithStore(s, true), [])
  }

  function FromStoreUnavailable(s: State): Transition {
    if s.Open? && s.consumer.Active? then
      To(Open(s.generation, s.attempt, false, Idle, s.openedAt), [CancelConsumer, AbortHandlers, ReturnHeld, WatchStore])
    else if s.Draining? then
      To(WithStore(s, false), [])
    else
      To(WithStore(s, false), if s.storeReady then [WatchStore] else [])
  }

  function FromLinkEvent(s: State, e: Event): Transition
    requires !s.Stopped?
  {
    match s
    case Backoff(g, attempt, ready) =>
      if e.BackoffElapsed? then To(Connecting(g + 1, attempt, ready), [OpenLink]) else To(s, [])
    case Connecting(_, _, _) => FromConnecting(s, e)
    case Open(_, _, _, _, _) => FromOpen(s, e)
    case Draining(_, _) => FromDraining(s, e)
  }

  function FromConnecting(s: State, e: Event): Transition
    requires s.Connecting?
  {
    match e
    case LinkOpened(_, now) =>
      To(Open(s.generation, s.attempt, s.storeReady, if s.storeReady then Registering else Idle, now),
         if s.storeReady then [Consume] else [])
    case LinkFailed(_, reason) =>
      To(Backoff(s.generation, s.attempt + 1, s.storeReady), [ScheduleBackoff(s.attempt + 1, reason)])
    case _ => To(s, [])
  }

  function FromOpen(s: State, e: Event): Transition
    requires s.Open?
  {
    match e
    case LinkClosed(_, reason, now) =>
      var attempt := if now - s.openedAt >= LINK_RESET_AFTER_MS then 0 else s.attempt + 1;
      To(Backoff(s.generation, attempt, s.storeReady), [AbortHandlers, ScheduleBackoff(attempt, reason)])
    case ConsumerRegistered(_) =>
      if !s.consumer.Registering? then To(s, [])
      else if s.storeReady then To(Open(s.generation, s.attempt, true, Active, s.openedAt), [])
      else To(Open(s.generation, s.attempt, false, Idle, s.openedAt), [CancelConsumer, AbortHandlers, ReturnHeld])
    case BrokerCancelled(_) =>
      if !s.consumer.Active? then To(s, [])
      else if s.storeReady then To(Open(s.generation, s.attempt, true, Registering, s.openedAt), [AbortHandlers, Consume])
      else To(Open(s.generation, s.attempt, false, Idle, s.openedAt), [AbortHandlers])
    case _ => To(s, [])
  }

  function FromDraining(s: State, e: Event): Transition
    requires s.Draining?
  {
    match e
    case Drained(_) => To(Stopped(s.generation, s.storeReady), [AbortHandlers, CloseLink])
    case LinkClosed(_, _, _) => To(Stopped(s.generation, s.storeReady), [AbortHandlers])
    case BrokerCancelled(_) => To(s, [AbortHandlers])
    case ConsumerRegistered(_) => To(s, [CancelConsumer])
    case _ => To(s, [])
  }

  // ---------- The machine over whole runs ----------

  /** An active consumer knows the store ready, an idle one knows it gone. */
  ghost predicate StatusOk(s: State) {
    s.Open? ==> (s.consumer.Active? ==> s.storeReady) && (s.consumer.Idle? ==> !s.storeReady)
  }

  lemma StepKeepsStatus(s: State, e: Event)
    requires StatusOk(s)
    ensures StatusOk(Next(s, e).state)
  {
  }

  function NextAll(s: State, events: seq<Event>): State
    decreases events
  {
    if events == [] then s else NextAll(Next(s, events[0]).state, events[1..])
  }

  function CountOf(effects: seq<Effect>, effect: Effect): nat {
    if effects == [] then 0 else (if effects[0] == effect then 1 else 0) + CountOf(effects[1..], effect)
  }

  /** How often an effect is asked for over a run. */
  function Asked(s: State, events: seq<Event>, effect: Effect): nat
    decreases events
  {
    if events == [] then 0
    else CountOf(Next(s, events[0]).effects, effect) + Asked(Next(s, events[0]).state, events[1..], effect)
  }

  /** How often a consumer that was not draining learned that a ready store was gone. */
  function StoreLosses(s: State, events: seq<Event>): nat
    decreases events
  {
    if events == [] then 0
    else
      var next := Next(s, events[0]).state;
      (if s.storeReady && !next.storeReady && !s.Draining? then 1 else 0) + StoreLosses(next, events[1..])
  }

  /** Over every run: the readiness report is the active status, and one watch is asked for per loss of the store. */
  lemma {:induction false} OneWatchPerLoss(s: State, events: seq<Event>)
    requires StatusOk(s)
    ensures Asked(s, events, WatchStore) == StoreLosses(s, events)
    ensures StatusOk(NextAll(s, events))
    ensures var after := NextAll(s, events); IsConsuming(after) <==> after.Open? && after.consumer.Active?
    decreases events
  {
    if events != [] {
      StepKeepsStatus(s, events[0]);
      OneWatch(s, events[0]);
      OneWatchPerLoss(Next(s, events[0]).state, events[1..]);
    }
  }

  lemma OneWatch(s: State, e: Event)
    requires StatusOk(s)
    ensures CountOf(Next(s, e).effects, WatchStore) ==
            if s.storeReady && !Next(s, e).state.storeReady && !s.Draining? then 1 else 0
  {
    hide CountOf;
    CountOfFew(Next(s, e).effects, WatchStore);
  }

  function Bit(effects: seq<Effect>, i: nat, effect: Effect): nat {
    if i < |effects| && effects[i] == effect then 1 else 0
  }

  lemma CountOfFew(effects: seq<Effect>, effect: Effect)
    requires |effects| <= 4
    ensures CountOf(effects, effect)
         == Bit(effects, 0, effect) + Bit(effects, 1, effect) + Bit(effects, 2, effect) + Bit(effects, 3, effect)
  {
    CountTail(effects, 0, effect);
    CountTail(effects, 1, effect);
    CountTail(effects, 2, effect);
    CountTail(effects, 3, effect);
    assert effects[0..] == effects;
  }

  function CountFrom(effects: seq<Effect>, i: nat, effect: Effect): nat {
    if i <= |effects| then CountOf(effects[i..], effect) else 0
  }

  lemma CountTail(effects: seq<Effect>, i: nat, effect: Effect)
    ensures CountFrom(effects, i, effect) == Bit(effects, i, effect) + CountFrom(effects, i + 1, effect)
  {
    if i < |effects| {
      assert effects[i..][1..] == effects[i + 1..];
    }
  }

  /** What the store last reported of itself, `ready` before the first report. */
  function LastReport(ready: bool, events: seq<Event>): bool
    decreases events
  {
    if events == [] then ready
    else
      LastReport(if events[0].StoreReady? then true else if events[0].StoreUnavailable? then false else ready, events[1..])
  }

  lemma {:induction false} StoppedStays(s: State, events: seq<Event>)
    requires s.Stopped?
    ensures NextAll(s, events) == s
    decreases events
  {
    if events != [] {
      StoppedStays(Next(s, events[0]).state, events[1..]);
    }
  }

  /** Over every run, whatever else happens to links and registrations: until the stop the machine knows what the store last said. */
  lemma {:induction false} StoreReadyIsLastReport(s: State, events: seq<Event>)
    requires StatusOk(s)
    ensures !NextAll(s, events).Stopped? ==> NextAll(s, events).storeReady == LastReport(s.storeReady, events)
    decreases events
  {
    if events != [] {
      StepKeepsStatus(s, events[0]);
      var next := Next(s, events[0]).state;
      if next.Stopped? {
        StoppedStays(next, events[1..]);
      } else {
        StoreReadyIsLastReport(next, events[1..]);
      }
    }
  }

  /** Nothing is consumed before the store reported itself ready for the first time, nor after it reported itself gone. */
  lemma ConsumesOnlyWhileReady(events: seq<Event>)
    ensures IsConsuming(NextAll(INITIAL_STATE, events)) ==> LastReport(false, events)
  {
    StoreReadyIsLastReport(INITIAL_STATE, events);
  }

  /** How one link went: its attempt failed, or it opened and closed. */
  datatype LinkLife = NeverOpened | Lasted(openedAt: int, closedAt: int)

  /** The link that an event ends, if it ends one; `since` is when the present one opened. */
  function EndedBy(s: State, e: Event, since: int): seq<LinkLife> {
    if s.Connecting? && Next(s, e).state.Backoff? then [NeverOpened]
    else if s.Open? && Next(s, e).state.Backoff? && e.LinkClosed? then [Lasted(since, e.now)]
    else []
  }

  function OpenSince(s: State, e: Event, since: int): int {
    if s.Connecting? && e.LinkOpened? then e.now else since
  }

  /** The links that ended over a run. */
  function LinksEnded(s: State, events: seq<Event>, since: int): seq<LinkLife>
    decreases events
  {
    if events == [] then []
    else EndedBy(s, events[0], since) + LinksEnded(Next(s, events[0]).state, events[1..], OpenSince(s, events[0], since))
  }

  predicate IsFailure(link: LinkLife) {
    link.NeverOpened? || link.closedAt - link.openedAt < 10_000
  }

  /** How many of the last links failed or closed too soon, one after the other. */
  function FailuresInARow(links: seq<LinkLife>): nat {
    if links == [] || !IsFailure(links[|links| - 1]) then 0 else FailuresInARow(links[..|links| - 1]) + 1
  }

  predicate HasAttempt(s: State) {
    s.Backoff? || s.Connecting? || s.Open?
  }

  lemma OneMoreEnded(before: seq<LinkLife>, ended: LinkLife)
    ensures FailuresInARow(before + [ended]) == if IsFailure(ended) then FailuresInARow(before) + 1 else 0
  {
    assert (before + [ended])[..|before|] == before;
  }

  lemma AttemptCountsOne(s: State, e: Event, since: int, before: seq<LinkLife>)
    requires HasAttempt(s) && s.attempt == FailuresInARow(before) && (s.Open? ==> s.openedAt == since)
    ensures var next := Next(s, e).state;
      HasAttempt(next) ==>
        next.attempt == FailuresInARow(before + EndedBy(s, e, since)) && (next.Open? ==> next.openedAt == OpenSince(s, e, since))
  {
    hide FailuresInARow;
    var ended := EndedBy(s, e, since);
    if ended == [] {
      assert before + ended == before;
    } else {
      OneMoreEnded(before, ended[0]);
      assert before + ended == before + [ended[0]];
    }
  }

  /** Over every run the attempt number, which sets the backoff, is the number of links that failed in a row. */
  lemma {:induction false} AttemptCountsFailures(s: State, events: seq<Event>, since: int, before: seq<LinkLife>)
    requires HasAttempt(s) && s.attempt == FailuresInARow(before) && (s.Open? ==> s.openedAt == since)
    ensures var after := NextAll(s, events);
      HasAttempt(after) ==> after.attempt == FailuresInARow(before + LinksEnded(s, events, since))
    decreases events
  {
    hide FailuresInARow, Next, EndedBy, OpenSince;
    if events == [] {
      assert before + LinksEnded(s, events, since) == before;
    } else {
      var e, next := events[0], Next(s, events[0]).state;
      AttemptCountsOne(s, e, since, before);
      if HasAttempt(next) {
        var ended, later := EndedBy(s, e, since), OpenSince(s, e, since);
        AttemptCountsFailures(next, events[1..], later, before + ended);
        assert before + (ended + LinksEnded(next, events[1..], later)) == before + ended + LinksEnded(next, events[1..], later);
      } else {
        StoppingStays(next, events[1..]);
      }
    }
  }

  lemma {:induction false} NextAllSnoc(s: State, events: seq<Event>, e: Event)
    ensures NextAll(s, events + [e]) == Next(NextAll(s, events), e).state
    decreases events
  {
    if events == [] {
      assert NextAll(Next(s, e).state, [e][1..]) == Next(s, e).state;
      assert [] + [e] == [e];
    } else {
      assert (events + [e])[0] == events[0] && (events + [e])[1..] == events[1..] + [e];
      NextAllSnoc(Next(s, events[0]).state, events[1..], e);
    }
  }

  /** A backoff is asked for exactly on the way into one, for the attempt and the reason that led there. */
  lemma BacksOffOnce(s: State, e: Event)
    ensures var t := Next(s, e);
      if !s.Backoff? && t.state.Backoff? then
        && (e.LinkFailed? || e.LinkClosed?)
        && (forall x <- t.effects :: x.ScheduleBackoff? <==> x == ScheduleBackoff(t.state.attempt, e.reason))
        && ScheduleBackoff(t.state.attempt, e.reason) in t.effects
      else forall x <- t.effects :: !x.ScheduleBackoff?
  {
  }

  /**
   * Over every run each backoff that is asked for is as long as the links that failed in a row make it,
   * and one is asked for each time a link or an attempt fails.
   */
  lemma BackoffsFollowFailures(s: State, events: seq<Event>, e: Event, since: int, before: seq<LinkLife>)
    requires HasAttempt(s) && s.attempt == FailuresInARow(before) && (s.Open? ==> s.openedAt == since)
    ensures var at, t := NextAll(s, events), Next(NextAll(s, events), e);
      if !at.Backoff? && t.state.Backoff? then
        && (e.LinkFailed? || e.LinkClosed?)
        && ScheduleBackoff(FailuresInARow(before + LinksEnded(s, events + [e], since)), e.reason) in t.effects
      else forall x <- t.effects :: !x.ScheduleBackoff?
  {
    AttemptCountsFailures(s, events + [e], since, before);
    NextAllSnoc(s, events, e);
    BacksOffOnce(NextAll(s, events), e);
    hide Next, NextAll, FailuresInARow, LinksEnded;
  }

  lemma {:induction false} StoppingStays(s: State, events: seq<Event>)
    requires !HasAttempt(s)
    ensures !HasAttempt(NextAll(s, events))
    decreases events
  {
    if events != [] {
      StoppingStays(Next(s, events[0]).state, events[1..]);
    }
  }

  /**
   * What an active consumer asks for when it stops being one: the cancel unless the registration is
   * already gone, the abort unless it is a graceful stop, and a return of what it holds only when the
   * store went away.
   */
  lemma LeavingActiveCleansUp(s: State, e: Event)
    requires s.Open? && s.consumer.Active? && !(Next(s, e).state.Open? && Next(s, e).state.consumer.Active?)
    ensures var effects := Next(s, e).effects;
      && (CancelConsumer in effects <==> !e.LinkClosed? && !e.BrokerCancelled?)
      && (AbortHandlers in effects <==> !e.Stop?)
      && (ReturnHeld in effects <==> e.StoreUnavailable?)
  {
  }

  /** What is held is only ever returned after the cancel and the abort, and nothing is held back by a drain that ended. */
  lemma ReturnsAfterCancel(s: State, e: Event)
    ensures var effects := Next(s, e).effects;
      && (ReturnHeld in effects ==> effects[..3] == [CancelConsumer, AbortHandlers, ReturnHeld])
      && (s.Draining? && Next(s, e).state.Stopped? ==> AbortHandlers in effects && (CloseLink in effects <==> !e.LinkClosed?))
  {
  }
}
