/** The lifecycle of the ingest publisher as a pure state machine. */
module PublisherState {
  import opened Telemetry

  /** In `Connecting`, `failure` is the reason of the first recycle trigger during the attempt. */
  datatype State =
    | Connecting(generation: nat, attempt: nat, blocked: bool, failure: Option<string>)
    | Ready(generation: nat, attempt: nat, blocked: bool, readySince: int)
    | Recycling(generation: nat, attempt: nat, reason: string)
    | Backoff(generation: nat, attempt: nat, reason: string)
    | Stopped(generation: nat)

  datatype Event =
    | BackoffElapsed(generation: nat)
    | AttemptSucceeded(generation: nat, now: int)
    | AttemptFailed(generation: nat, reason: string)
    | Trigger(generation: nat, reason: string, now: int)
    | CloseFinished(generation: nat)
    | Blocked(generation: nat)
    | Unblocked(generation: nat)
    | Stop

  /** The effects the shell runs, in order; log lines are left out. */
  datatype Effect =
    | StartAttempt
    | Lose
    | SendPending
    | RestartStallClock
    | CloseModel
    | StartBackoff(attempt: nat, reason: string)

  datatype Transition = To(state: State, effects: seq<Effect>)

  const BACKOFF_RESET_AFTER_MS := 10_000

  const INITIAL_STATE := Backoff(0, 0, "start")

  predicate IsReady(s: State) {
    s.Ready? && !s.blocked
  }

  predicate IsConfirmStall(s: State, sentCount: nat, stalled: bool) {
    s.Ready? && !s.blocked && sentCount > 0 && stalled
  }

  function Next(s: State, e: Event): Transition {
    if s.Stopped? then To(s, [])
    else if e.Stop? then To(Stopped(s.generation + 1), if s.Backoff? then [] else [CloseModel])
    else if e.generation != s.generation then To(s, [])
    else match s
      case Backoff(_, _, _) => FromBackoff(s, e)
      case Connecting(_, _, _, _) => FromConnecting(s, e)
      case Ready(_, _, _, _) => FromReady(s, e)
      case Recycling(_, _, _) => FromRecycling(s, e)
  }

  function FromBackoff(s: State, e: Event): Transition
    requires s.Backoff?
  {
    if e.BackoffElapsed? then
      To(Connecting(s.generation + 1, s.attempt, false, None), [Lose, StartAttempt])
    else
      To(s, [])
  }

  function FromConnecting(s: State, e: Event): Transition
    requires s.Connecting?
  {
    match e
    case AttemptSucceeded(_, now) =>
      if s.failure.Some? then
        To(Backoff(s.generation, s.attempt + 1, s.failure.value),
           [CloseModel, StartBackoff(s.attempt + 1, s.failure.value)])
      else
        To(Ready(s.generation, s.attempt, s.blocked, now), [SendPending, RestartStallClock])
    case AttemptFailed(_, reason) =>
      var cause := if s.failure.Some? then s.failure.value else reason;
      To(Backoff(s.generation, s.attempt + 1, cause), [StartBackoff(s.attempt + 1, cause)])
    case Trigger(_, reason, _) =>
      To(if s.failure.Some? then s else Connecting(s.generation, s.attempt, s.blocked, Some(reason)), [])
    case Blocked(_) => To(Connecting(s.generation, s.attempt, true, s.failure), [])
    case Unblocked(_) => To(Connecting(s.generation, s.attempt, false, s.failure), [])
    case _ => To(s, [])
  }

  function FromReady(s: State, e: Event): Transition
    requires s.Ready?
  {
    match e
    case Trigger(_, reason, now) =>
      var attempt := if now - s.readySince >= BACKOFF_RESET_AFTER_MS then 0 else s.attempt + 1;
      To(Recycling(s.generation + 1, attempt, reason), [Lose, CloseModel])
    case Blocked(_) => To(Ready(s.generation, s.attempt, true, s.readySince), [])
    case Unblocked(_) => if s.blocked then To(Ready(s.generation, s.attempt, false, s.readySince), [RestartStallClock]) else To(s, [])
    case _ => To(s, [])
  }

  function FromRecycling(s: State, e: Event): Transition
    requires s.Recycling?
  {
    if e.CloseFinished? then
      To(Backoff(s.generation, s.attempt, s.reason), [StartBackoff(s.attempt, s.reason)])
    else
      To(s, [])
  }

  // ---------- The machine over whole runs ----------

  function NextAll(s: State, events: seq<Event>): State
    decreases events
  {
    if events == [] then s else NextAll(Next(s, events[0]).state, events[1..])
  }

  /** A connection attempt that met a trigger never becomes ready, and backs off with that trigger's reason. */
  lemma {:induction false} FirstTriggerIsTheCause(s: State, events: seq<Event>)
    requires s.Connecting? && s.failure.Some?
    ensures var after := NextAll(s, events);
      after.generation == s.generation ==>
        || (after.Connecting? && after.failure == s.failure && after.attempt == s.attempt)
        || after == Backoff(s.generation, s.attempt + 1, s.failure.value)
    decreases events
  {
    if events != [] {
      var next := Next(s, events[0]).state;
      if next.Connecting? {
        FirstTriggerIsTheCause(next, events[1..]);
      } else {
        GenerationNeverFalls(next, events[1..]);
        if next.Backoff? {
          BackoffStays(next, events[1..]);
        }
      }
    }
  }

  lemma {:induction false} GenerationNeverFalls(s: State, events: seq<Event>)
    ensures NextAll(s, events).generation >= s.generation
    decreases events
  {
    if events != [] {
      GenerationNeverFalls(Next(s, events[0]).state, events[1..]);
    }
  }

  lemma {:induction false} BackoffStays(s: State, events: seq<Event>)
    requires s.Backoff?
    ensures NextAll(s, events).generation == s.generation ==> NextAll(s, events) == s
    decreases events
  {
    if events != [] {
      var next := Next(s, events[0]).state;
      if next == s {
        BackoffStays(next, events[1..]);
      } else {
        GenerationNeverFalls(next, events[1..]);
      }
    }
  }

  /** How one connection went: it never became ready, or it was ready until its first trigger. */
  datatype ConnectionLife = NeverReady | WasReady(since: int, until: int)

  /** The connection that an event ends, if it ends one; `since` is when the present one became ready. */
  function EndedBy(s: State, e: Event, since: int): seq<ConnectionLife> {
    if s.Connecting? && Next(s, e).state.Backoff? then [NeverReady]
    else if s.Ready? && Next(s, e).state.Recycling? && e.Trigger? then [WasReady(since, e.now)]
    else []
  }

  function ReadySince(s: State, e: Event, since: int): int {
    if s.Connecting? && e.AttemptSucceeded? then e.now else since
  }

  /** The connections that ended over a run. */
  function ConnectionsEnded(s: State, events: seq<Event>, since: int): seq<ConnectionLife>
    decreases events
  {
    if events == [] then []
    else EndedBy(s, events[0], since) + ConnectionsEnded(Next(s, events[0]).state, events[1..], ReadySince(s, events[0], since))
  }

  predicate IsFailure(connection: ConnectionLife) {
    connection.NeverReady? || connection.until - connection.since < 10_000
  }

  /** How many of the last connections failed or were recycled too soon, one after the other. */
  function FailuresInARow(connections: seq<ConnectionLife>): nat {
    if connections == [] || !IsFailure(connections[|connections| - 1]) then 0
    else FailuresInARow(connections[..|connections| - 1]) + 1
  }

  lemma OneMoreEnded(before: seq<ConnectionLife>, ended: ConnectionLife)
    ensures FailuresInARow(before + [ended]) == if IsFailure(ended) then FailuresInARow(before) + 1 else 0
  {
    assert (before + [ended])[..|before|] == before;
  }

  lemma AttemptCountsOne(s: State, e: Event, since: int, before: seq<ConnectionLife>)
    requires !s.Stopped? && s.attempt == FailuresInARow(before) && (s.Ready? ==> s.readySince == since)
    ensures var next := Next(s, e).state;
      !next.Stopped? ==>
        next.attempt == FailuresInARow(before + EndedBy(s, e, since)) && (next.Ready? ==> next.readySince == ReadySince(s, e, since))
  {
    hide FailuresInARow;
    var ended := EndedBy(s, e, since);
    if ended == [] {
      assert before + ended == before;
    } else {
      OneMoreEnded(before, ended[0]);
      assert before + ended == before + [ended[0]];
    }
  }

  /** Over every run the attempt number, which sets the backoff, is the number of connections that failed in a row. */
  lemma {:induction false} AttemptCountsFailures(s: State, events: seq<Event>, since: int, before: seq<ConnectionLife>)
    requires !s.Stopped? && s.attempt == FailuresInARow(before) && (s.Ready? ==> s.readySince == since)
    ensures var after := NextAll(s, events);
      !after.Stopped? ==> after.attempt == FailuresInARow(before + ConnectionsEnded(s, events, since))
    decreases events
  {
    hide FailuresInARow, Next, EndedBy, ReadySince;
    if events == [] {
      assert before + ConnectionsEnded(s, events, since) == before;
    } else {
      var e, next := events[0], Next(s, events[0]).state;
      AttemptCountsOne(s, e, since, before);
      if next.Stopped? {
        StoppedStays(next, events[1..]);
      } else {
        var ended, later := EndedBy(s, e, since), ReadySince(s, e, since);
        AttemptCountsFailures(next, events[1..], later, before + ended);
        assert before + (ended + ConnectionsEnded(next, events[1..], later)) == before + ended + ConnectionsEnded(next, events[1..], later);
      }
    }
  }

  lemma {:induction false} NextAllSnoc(s: State, events: seq<Event>, e: Event)
    ensures NextAll(s, events + [e]) == Next(NextAll(s, events), e).state
    decreases events
  {
    if events == [] {
      assert NextAll(Next(s, e).state, [e][1..]) == Next(s, e).state;
      assert [] + [e] == [e];
    } else {
      assert (events + [e])[0] == events[0] && (events + [e])[1..] == events[1..] + [e];
      NextAllSnoc(Next(s, events[0]).state, events[1..], e);
    }
  }

  /** A backoff is asked for exactly on the way into one, for the attempt and the reason it was entered with. */
  lemma BacksOffOnce(s: State, e: Event)
    ensures var t := Next(s, e);
      if !s.Backoff? && t.state.Backoff? then
        && (forall x <- t.effects :: x.StartBackoff? <==> x == StartBackoff(t.state.attempt, t.state.reason))
        && StartBackoff(t.state.attempt, t.state.reason) in t.effects
      else forall x <- t.effects :: !x.StartBackoff?
  {
  }

  /**
   * Over every run each backoff that is asked for is as long as the connections that failed in a row make
   * it, and one is asked for each time the machine has to wait.
   */
  lemma BackoffsFollowFailures(s: State, events: seq<Event>, e: Event, since: int, before: seq<ConnectionLife>)
    requires !s.Stopped? && s.attempt == FailuresInARow(before) && (s.Ready? ==> s.readySince == since)
    ensures var at, t := NextAll(s, events), Next(NextAll(s, events), e);
      if !at.Backoff? && t.state.Backoff? then
        StartBackoff(FailuresInARow(before + ConnectionsEnded(s, events + [e], since)), t.state.reason) in t.effects
      else forall x <- t.effects :: !x.StartBackoff?
  {
    AttemptCountsFailures(s, events + [e], since, before);
    NextAllSnoc(s, events, e);
    BacksOffOnce(NextAll(s, events), e);
    hide Next, NextAll, FailuresInARow, ConnectionsEnded;
  }

  lemma {:induction false} StoppedStays(s: State, events: seq<Event>)
    requires s.Stopped?
    ensures NextAll(s, events) == s
    decreases events
  {
    if events != [] {
      StoppedStays(s, events[1..]);
    }
  }

  /** A blocked connection is not ready again before it is unblocked, whatever else happens to it. */
  lemma {:induction false} BlockedUntilUnblocked(s: State, events: seq<Event>)
    requires (s.Connecting? || s.Ready?) && s.blocked && Unblocked(s.generation) !in events
    ensures NextAll(s, events).generation == s.generation ==> !IsReady(NextAll(s, events))
    decreases events
  {
    if events != [] {
      assert events == [events[0]] + events[1..];
      var next := Next(s, events[0]).state;
      if (next.Connecting? || next.Ready?) && next.generation == s.generation {
        BlockedUntilUnblocked(next, events[1..]);
      } else {
        GenerationNeverFalls(next, events[1..]);
        if next.Backoff? {
          BackoffStays(next, events[1..]);
        }
      }
    }
  }

  /** Whether the last block or unblock of a generation was a block; `blocked` before the first one. */
  function LastBlocked(events: seq<Event>, generation: nat, blocked: bool): bool
    decreases events
  {
    if events == [] then blocked
    else
      LastBlocked(events[1..], generation,
                  if events[0] == Blocked(generation) then true
                  else if events[0] == Unblocked(generation) then false
                  else blocked)
  }

  /**
   * Over every run a connection is ready exactly when the last the broker said of it was not a block,
   * whether it said so while connecting or once ready.
   */
  lemma {:induction false} ReadyExactlyWhileUnblocked(s: State, events: seq<Event>)
    requires s.Connecting? || s.Ready?
    ensures var after := NextAll(s, events);
      after.generation == s.generation && after.Ready? ==> (IsReady(after) <==> !LastBlocked(events, s.generation, s.blocked))
    decreases events
  {
    if events != [] {
      var next := Next(s, events[0]).state;
      if (next.Connecting? || next.Ready?) && next.generation == s.generation {
        ReadyExactlyWhileUnblocked(next, events[1..]);
      } else {
        GenerationNeverFalls(next, events[1..]);
        if next.Backoff? {
          BackoffStays(next, events[1..]);
        }
      }
    }
  }
}
