/**
 * What every entry point of the publisher keeps between two turns: the ledger agrees with the state,
 * one continuation runs, the channels took everything once and in order, and no entry is dropped.
 */
module PublisherSteps {
  import opened Telemetry
  import opened PublisherState
  import opened Ledgers
  import opened Publishers

  // ---------- The publisher at rest ----------

  ghost predicate LedgerOk(p: Pub) {
    && WellFormed(p.ledger)
    && (p.state.Ready? ==> forall e <- p.ledger.entries :: e.state == Sent(p.state.generation))
    && (!p.state.Ready? && !p.state.Stopped? ==> forall e <- p.ledger.entries :: e.state == Pending)
  }

  /** Exactly one continuation, of the current generation; none before the start. After a stop the link is being closed. */
  ghost predicate OneContinuation(p: Pub, started: bool) {
    match p.state
    case Connecting(g, _, _, _) => p.attempts == [g] && p.closes == [] && p.timers == [] && p.link == None
    case Ready(g, _, _, _) => p.attempts == [] && p.closes == [] && p.timers == [] && p.link == Some(g)
    case Recycling(g, _, _) => p.attempts == [] && p.closes == [Close(g, p.link)] && p.timers == [] && p.link.Some?
    case Backoff(g, _, _) => p.attempts == [] && p.closes == [] && p.timers == (if started then [g] else []) && p.link == None
    case Stopped(_) => p.timers == [] && (p.link.Some? ==> exists close <- p.closes :: close.link == p.link)
  }

  ghost predicate Before(a: Wire, b: Wire) {
    a.generation < b.generation || (a.generation == b.generation && a.id < b.id)
  }

  /** Within a generation every entry is taken at most once, in id order; only a ready publisher has wires of its generation. */
  ghost predicate TakenOk(p: Pub) {
    && (forall i, j :: 0 <= i < j < |p.taken| ==> Before(p.taken[i], p.taken[j]))
    && (forall wire <- p.taken :: 0 < wire.id < p.ledger.nextId && wire.generation <= p.state.generation)
    && (forall wire <- p.taken :: wire.generation == p.state.generation ==> p.state.Ready?)
    && (p.state.Ready? ==> forall e <- p.ledger.entries :: Wire(p.state.generation, e.id, e.args) in p.taken)
  }

  ghost predicate Quiet(p: Pub, started: bool) {
    && LedgerOk(p) && OneContinuation(p, started) && TakenOk(p)
    && !p.broken && p.told == IsReady(p.state)
    && (!started ==> p.state == INITIAL_STATE)
  }

  // ---------- One event through the loop ----------

  lemma DispatchSimple(p: Pub, e: Event, env: Env)
    requires SendPending !in Next(p.state, e).effects
    ensures Dispatch(p, e, env) == RunEffects(Entered(p, Next(p.state, e).state), Next(p.state, e).effects, env).0
  {
    var t := Next(p.state, e);
    var result := RunEffects(Entered(p, t.state), t.effects, env);
    EffectsQueueTriggers(Entered(p, t.state), t.effects, env);
    assert [e][1..] + result.1 == [];
    assert Drain(p, [e], env) == Drain(result.0, [], env);
  }

  lemma RunOne(p: Pub, a: Effect, env: Env)
    ensures RunEffects(p, [a], env) == RunEffect(p, a, env)
  {
    assert [a][1..] == [];
    var (p', queued) := RunEffect(p, a, env);
    assert RunEffects(p', [], env) == (p', []);
    assert queued + [] == queued;
  }

  lemma RunTwo(p: Pub, a: Effect, b: Effect, env: Env)
    ensures var first := RunEffect(p, a, env);
      var second := RunEffect(first.0, b, env);
      RunEffects(p, [a, b], env) == (second.0, first.1 + second.1)
  {
    assert [a, b][1..] == [b];
    RunOne(RunEffect(p, a, env).0, b, env);
  }

  /** What a trigger does to a ready publisher. */
  function Recycled(p: Pub, reason: string, now: int): Pub
    requires p.state.Ready?
  {
    var attempt := if now - p.state.readySince >= BACKOFF_RESET_AFTER_MS then 0 else p.state.attempt + 1;
    p.(state := Recycling(p.state.generation + 1, attempt, reason),
       told := if IsReady(p.state) then false else p.told,
       ledger := AllLost(p.ledger),
       closes := p.closes + [Close(p.state.generation + 1, p.link)])
  }

  lemma TriggerRecycles(p: Pub, reason: string, env: Env)
    requires p.state.Ready?
    ensures Dispatch(p, Trigger(p.state.generation, reason, env.now), env) == Recycled(p, reason, env.now)
  {
    var e := Trigger(p.state.generation, reason, env.now);
    DispatchSimple(p, e, env);
    RunTwo(Entered(p, Next(p.state, e).state), Lose, CloseModel, env);
  }

  lemma IgnoredEvent(p: Pub, e: Event, env: Env)
    requires Next(p.state, e) == To(p.state, [])
    ensures Dispatch(p, e, env) == p
  {
    DispatchSimple(p, e, env);
  }

  lemma {:induction false} StaleTriggers(p: Pub, queue: seq<Event>, env: Env)
    requires forall e <- queue :: e.Trigger? && e.generation != p.state.generation
    ensures Drain(p, queue, env) == p
    decreases |queue|
  {
    if queue != [] {
      assert queue[0] in queue;
      var rest := queue[1..];
      assert rest + [] == rest;
      StaleTriggers(p, rest, env);
    }
  }

  /** Any number of triggers of the current generation recycle a ready publisher once. */
  lemma TriggersRecycleOnce(p: Pub, queue: seq<Event>, env: Env)
    requires p.state.Ready? && queue != []
    requires forall e <- queue :: e.Trigger? && e.generation == p.state.generation
    ensures Drain(p, queue, env) == Recycled(p, queue[0].reason, queue[0].now)
  {
    hide AllLost, SendAll, PendingOf;
    assert queue[0] in queue;
    var t := Next(p.state, queue[0]);
    RunTwo(Entered(p, t.state), Lose, CloseModel, env);
    var rest := queue[1..];
    assert rest + [] == rest;
    StaleTriggers(Recycled(p, queue[0].reason, queue[0].now), rest, env);
  }

  lemma RecycledIsQuiet(p: Pub, reason: string, now: int)
    requires WellFormed(p.ledger) && p.state.Ready? && p.told == IsReady(p.state) && !p.broken
    requires p.attempts == [] && p.closes == [] && p.timers == [] && p.link.Some?
    requires forall i, j :: 0 <= i < j < |p.taken| ==> Before(p.taken[i], p.taken[j])
    requires forall wire <- p.taken :: 0 < wire.id < p.ledger.nextId && wire.generation <= p.state.generation
    ensures Quiet(Recycled(p, reason, now), true)
  {
    LoseKeepsWellFormed(p.ledger);
  }

  // ---------- Sending the whole ledger ----------

  function WiresOf(entries: seq<Entry>, generation: nat): seq<Wire> {
    seq(|entries|, i requires 0 <= i < |entries| => Wire(generation, entries[i].id, entries[i].args))
  }

  /** The same entries, up to what was sent; one that was sent once stays so. */
  ghost predicate SameEntries(a: LedgerState, b: LedgerState) {
    && a.nextId == b.nextId && |a.entries| == |b.entries|
    && forall i :: 0 <= i < |a.entries| ==>
         && a.entries[i].id == b.entries[i].id && a.entries[i].args == b.entries[i].args && a.entries[i].owner == b.entries[i].owner
         && (a.entries[i].wasSent ==> b.entries[i].wasSent)
  }

  /** Sent up to `k`, pending from there on. */
  ghost predicate SentUpTo(p: Pub, k: nat) {
    && k <= |p.ledger.entries|
    && (forall i :: 0 <= i < k ==> p.ledger.entries[i].state == Sent(p.state.generation))
    && (forall i :: k <= i < |p.ledger.entries| ==> p.ledger.entries[i].state == Pending)
  }

  lemma MarkNext(p: Pub, k: nat, now: int)
    requires WellFormed(p.ledger) && SentUpTo(p, k) && k < |p.ledger.entries|
    ensures var p' := MarkSentNow(p, p.ledger.entries[k], now);
      && WellFormed(p'.ledger) && SentUpTo(p', k + 1) && SameEntries(p.ledger, p'.ledger)
      && p'.ledger.entries[k + 1..] == p.ledger.entries[k + 1..]
      && (forall i :: 0 <= i < |p.ledger.entries| && i != k ==> p'.ledger.entries[i].wasSent == p.ledger.entries[i].wasSent)
  {
    var id := p.ledger.entries[k].id;
    IndexOfPresent(p.ledger.entries, k);
    MarkKeepsWellFormed(p.ledger, id, p.state.generation);
  }

  /** How many of the entries were sent on an earlier connection. */
  function AgainIn(entries: seq<Entry>): nat {
    if entries == [] then 0 else (if entries[0].wasSent then 1 else 0) + AgainIn(entries[1..])
  }

  /** From position `k` the channel took the next `n` entries in order, all of them unless one threw. */
  ghost predicate Sends(p: Pub, k: nat, n: nat, p': Pub, triggers: seq<Event>) {
    && k + n <= |p.ledger.entries|
    && p' == p.(ledger := p'.ledger, clock := p'.clock, republished := p'.republished, taken := p'.taken)
    && WellFormed(p'.ledger) && SameEntries(p.ledger, p'.ledger)
    && p'.taken == p.taken + WiresOf(p.ledger.entries[k..k + n], p.state.generation)
    && p'.republished == p.republished + AgainIn(p.ledger.entries[k..k + n])
    && (forall e <- triggers :: e.Trigger? && e.generation == p.state.generation)
    && (triggers == [] ==> n == |p.ledger.entries| - k && SentUpTo(p', |p.ledger.entries|))
    && (forall i :: 0 <= i < |p.ledger.entries| && !(k <= i < k + n) ==> p'.ledger.entries[i].wasSent == p.ledger.entries[i].wasSent)
  }

  lemma SendsNothing(p: Pub, k: nat, triggers: seq<Event>)
    requires WellFormed(p.ledger) && SentUpTo(p, k)
    requires forall e <- triggers :: e.Trigger? && e.generation == p.state.generation
    requires triggers == [] ==> k == |p.ledger.entries|
    ensures Sends(p, k, 0, p, triggers)
  {
    assert p.ledger.entries[k..k + 0] == [];
    assert p.taken + WiresOf([], p.state.generation) == p.taken;
  }

  /** The publisher after the channel took the entry at `k`. */
  function AfterTaken(p: Pub, k: nat, now: int): Pub
    requires k < |p.ledger.entries|
  {
    var e := p.ledger.entries[k];
    var sent := MarkSentNow(Take(p, e), e, now);
    if e.wasSent then sent.(republished := sent.republished + 1) else sent
  }

  lemma SendsOneMore(p: Pub, k: nat, n: nat, now: int, p': Pub, first: seq<Event>, rest: seq<Event>)
    requires k < |p.ledger.entries| && SameEntries(p.ledger, AfterTaken(p, k, now).ledger)
    requires Sends(AfterTaken(p, k, now), k + 1, n, p', rest)
    requires forall i :: 0 <= i < |p.ledger.entries| && i != k ==> AfterTaken(p, k, now).ledger.entries[i].wasSent == p.ledger.entries[i].wasSent
    requires AfterTaken(p, k, now).ledger.entries[k + 1..] == p.ledger.entries[k + 1..]
    requires forall e <- first :: e.Trigger? && e.generation == p.state.generation
    ensures Sends(p, k, n + 1, p', first + rest)
  {
    hide WellFormed, MarkedSent, SentUpTo, IndexOf, OnSent;
    var e, g, next := p.ledger.entries[k], p.state.generation, AfterTaken(p, k, now);
    assert WiresOf(p.ledger.entries[k..k + (n + 1)], g) == [Wire(g, e.id, e.args)] + WiresOf(next.ledger.entries[k + 1..k + 1 + n], g);
    assert p.taken + ([Wire(g, e.id, e.args)] + WiresOf(next.ledger.entries[k + 1..k + 1 + n], g))
        == p.taken + [Wire(g, e.id, e.args)] + WiresOf(next.ledger.entries[k + 1..k + 1 + n], g);
    var mine := p.ledger.entries[k..k + (n + 1)];
    assert mine[0] == e && mine[1..] == p.ledger.entries[k + 1..][..n] == next.ledger.entries[k + 1..][..n] == next.ledger.entries[k + 1..k + 1 + n];
    if first + rest == [] {
      assert rest == [];
    }
  }

  /** One step of `send_pending`, at position `k`. */
  lemma SendAllUnfolds(p: Pub, k: nat, env: Env)
    requires p.link.Some? && !p.broken && k < |p.ledger.entries|
    ensures var o, next := env.publish(p.ledger.entries[k].id), AfterTaken(p, k, env.now);
      var triggers := PublishTriggers(p.state.generation, o, env.now);
      SendAll(p, p.ledger.entries[k..], env) ==
        if !o.taken then (p, triggers)
        else
          var (p', more) := SendAll(next, p.ledger.entries[k + 1..], env);
          (p', triggers + more)
  {
    hide MarkedSent, PublishTriggers, OnSent;
    var entries := p.ledger.entries[k..];
    assert entries[0] == p.ledger.entries[k] && entries[1..] == p.ledger.entries[k + 1..];
  }

  /** The entry at `k` taken and marked: the sending goes on behind it. */
  lemma TakenNext(p: Pub, k: nat, now: int)
    requires WellFormed(p.ledger) && SentUpTo(p, k) && k < |p.ledger.entries|
    ensures var next := AfterTaken(p, k, now);
      && next.state == p.state && next.link == p.link && next.broken == p.broken
      && WellFormed(next.ledger) && SentUpTo(next, k + 1) && SameEntries(p.ledger, next.ledger)
      && |next.ledger.entries| == |p.ledger.entries| && next.ledger.entries[k + 1..] == p.ledger.entries[k + 1..]
      && forall i :: 0 <= i < |p.ledger.entries| && i != k ==> next.ledger.entries[i].wasSent == p.ledger.entries[i].wasSent
  {
    MarkNext(Take(p, p.ledger.entries[k]), k, now);
    hide WellFormed, MarkedSent, OnSent;
  }

  lemma PublishTriggersOf(g: nat, o: Outcome, now: int)
    ensures forall e <- PublishTriggers(g, o, now) :: e.Trigger? && e.generation == g
    ensures !o.taken ==> PublishTriggers(g, o, now) != []
  {
  }

  /** `send_pending` from position `k`. */
  lemma {:induction false} SendAllSends(p: Pub, k: nat, env: Env) returns (n: nat)
    requires p.state.Ready? && p.link.Some? && !p.broken && WellFormed(p.ledger) && SentUpTo(p, k)
    requires k <= |p.ledger.entries|
    ensures Sends(p, k, n, SendAll(p, p.ledger.entries[k..], env).0, SendAll(p, p.ledger.entries[k..], env).1)
    decreases |p.ledger.entries| - k
  {
    n := 0;
    if k == |p.ledger.entries| {
      SendsNothing(p, k, []);
      return;
    }
    hide WellFormed, Sends, SendAll, SentUpTo, SameEntries, AfterTaken, MarkedSent, OnSent;
    PublishTriggersOf(p.state.generation, env.publish(p.ledger.entries[k].id), env.now);
    hide PublishTriggers;
    SendAllUnfolds(p, k, env);
    var triggers := PublishTriggers(p.state.generation, env.publish(p.ledger.entries[k].id), env.now);
    if !env.publish(p.ledger.entries[k].id).taken {
      SendsNothing(p, k, triggers);
      return;
    }
    TakenNext(p, k, env.now);
    var next := AfterTaken(p, k, env.now);
    var rest := SendAllSends(next, k + 1, env);
    n := rest + 1;
    var (p', more) := SendAll(next, next.ledger.entries[k + 1..], env);
    SendsOneMore(p, k, rest, env.now, p', triggers, more);
  }

  lemma SuccessDispatched(p: Pub, env: Env)
    requires p.state.Connecting? && p.state.failure.None?
    ensures var e := AttemptSucceeded(p.state.generation, env.now);
      var (sending, triggers) := SendAll(Entered(p, Next(p.state, e).state), PendingOf(p.ledger.entries), env);
      Dispatch(p, e, env) == Drain(sending.(clock := Some(env.now)), triggers, env)
  {
    hide SendAll, PendingOf;
    var e := AttemptSucceeded(p.state.generation, env.now);
    var entered := Entered(p, Next(p.state, e).state);
    RunTwo(entered, SendPending, RestartStallClock, env);
    var triggers := SendAll(entered, PendingOf(p.ledger.entries), env).1;
    assert triggers + [] == triggers;
    assert [e][1..] + triggers == triggers;
  }

  lemma {:induction false} PublishTriggersNow(p: Pub, entries: seq<Entry>, env: Env)
    ensures forall e <- SendAll(p, entries, env).1 :: e.Trigger? && e.now == env.now
    decreases entries
  {
    if entries != [] {
      var e := entries[0];
      var sent := SendQueued(p, e, env).0;
      var counted := if e.wasSent then sent.(republished := sent.republished + 1) else sent;
      PublishTriggersNow(counted, entries[1..], env);
    }
  }

  /** Why a send recycles: the channel closed inside the call, or else the call threw. */
  function TroubleOf(o: Outcome): string {
    if o.closes then "channel_closed" else "publish_threw"
  }

  /** The first entry whose publish does not go through, if there is one. */
  function FirstTrouble(entries: seq<Entry>, env: Env): Option<string> {
    if entries == [] then None
    else
      var o := env.publish(entries[0].id);
      if o.taken && !o.closes then FirstTrouble(entries[1..], env) else Some(TroubleOf(o))
  }

  lemma {:induction false} TroubleIsFirst(p: Pub, entries: seq<Entry>, env: Env)
    requires p.link.Some? && !p.broken
    ensures var triggers := SendAll(p, entries, env).1;
      match FirstTrouble(entries, env)
      case None => triggers == []
      case Some(reason) => triggers != [] && triggers[0] == Trigger(p.state.generation, reason, env.now)
    decreases entries
  {
    if entries != [] {
      var e := entries[0];
      var sent := SendQueued(p, e, env).0;
      var counted := if e.wasSent then sent.(republished := sent.republished + 1) else sent;
      hide MarkedSent, OnSent;
      TroubleIsFirst(counted, entries[1..], env);
    }
  }

  /** A successful attempt: the whole ledger goes out on the new channel, or the connection is recycled at once. */
  lemma SuccessSendsAll(p: Pub, env: Env) returns (sent: Pub, n: nat)
    requires p.state.Connecting? && p.state.failure.None? && p.link == Some(p.state.generation) && !p.broken
    requires LedgerOk(p)
    ensures n <= |p.ledger.entries|
    ensures sent == p.(state := Ready(p.state.generation, p.state.attempt, p.state.blocked, env.now),
                       told := if !p.state.blocked then true else p.told,
                       ledger := sent.ledger, clock := sent.clock, republished := sent.republished, taken := sent.taken)
    ensures WellFormed(sent.ledger) && SameEntries(p.ledger, sent.ledger)
    ensures sent.taken == p.taken + WiresOf(p.ledger.entries[..n], p.state.generation)
    ensures forall i :: n <= i < |p.ledger.entries| ==> sent.ledger.entries[i].wasSent == p.ledger.entries[i].wasSent
    ensures sent.republished == p.republished + AgainIn(p.ledger.entries[..n])
    ensures var p' := Dispatch(p, AttemptSucceeded(p.state.generation, env.now), env);
      match FirstTrouble(p.ledger.entries, env)
      case None => p' == sent && n == |p.ledger.entries| && SentUpTo(sent, n) && sent.clock == Some(env.now)
      case Some(reason) => p' == Recycled(sent, reason, env.now)
  {
    hide WellFormed, SameEntries, SentUpTo, SendAll, WiresOf, PendingOf;
    var entered := Entered(p, Next(p.state, AttemptSucceeded(p.state.generation, env.now)).state);
    NoneSent(p.ledger.entries);
    assert SentUpTo(entered, 0) by {
      NothingSent(entered);
    }
    assert entered.ledger.entries[0..] == p.ledger.entries;
    n := SendAllSends(entered, 0, env);
    var (sending, triggers) := SendAll(entered, p.ledger.entries, env);
    sent := sending.(clock := Some(env.now));
    SuccessDispatched(p, env);
    SentUpToIgnoresClock(sending, sent, n);
    TroubleIsFirst(entered, p.ledger.entries, env);
    if triggers != [] {
      TriggersRecycleOnce(sent, triggers, env);
      PublishTriggersNow(entered, p.ledger.entries, env);
      assert triggers[0] in triggers;
    }
  }

  lemma NothingSent(p: Pub)
    requires forall e <- p.ledger.entries :: e.state == Pending
    ensures SentUpTo(p, 0)
  {
  }

  lemma SentUpToIgnoresClock(p: Pub, p': Pub, n: nat)
    requires p'.ledger == p.ledger && p'.state == p.state
    ensures SentUpTo(p, n) == SentUpTo(p', n)
  {
  }

  // ---------- Nothing leaves the ledger ----------

  /** What counts as sent now, and did not before, a channel took. */
  ghost predicate NewlySentTaken(p: Pub, p': Pub)
    requires |p.ledger.entries| == |p'.ledger.entries|
  {
    forall i :: 0 <= i < |p.ledger.entries| && p'.ledger.entries[i].wasSent && !p.ledger.entries[i].wasSent ==>
      exists wire <- p'.taken :: wire.id == p.ledger.entries[i].id
  }

  /** The entries, ids and confirmations are kept; the channels only took wires of entries. */
  ghost predicate Carries(p: Pub, p': Pub) {
    && SameEntries(p.ledger, p'.ledger) && NewlySentTaken(p, p')
    && p'.confirmations == p.confirmations && p'.confirmed == p.confirmed
    && p.state.generation <= p'.state.generation
    && (forall wire <- p.taken :: wire in p'.taken)
    && (forall wire <- p'.taken :: wire in p.taken
          || (p.state.generation <= wire.generation && exists e <- p.ledger.entries :: wire.id == e.id && wire.args == e.args))
  }

  lemma RecycledCarries(p: Pub, sent: Pub, reason: string, now: int)
    requires Carries(p, sent) && sent.state.Ready?
    ensures Carries(p, Recycled(sent, reason, now))
  {
  }

  lemma TakenCarries(p: Pub, e: Entry)
    requires e in p.ledger.entries
    ensures Carries(p, Take(p, e))
  {
  }

  lemma SentCarries(p: Pub, sent: Pub, entries: seq<Entry>)
    requires SameEntries(p.ledger, sent.ledger) && forall e <- entries :: e in p.ledger.entries
    requires forall i :: 0 <= i < |p.ledger.entries| && sent.ledger.entries[i].wasSent && !p.ledger.entries[i].wasSent ==>
               p.ledger.entries[i] in entries
    requires sent.confirmations == p.confirmations && sent.confirmed == p.confirmed
    requires sent.state.generation == p.state.generation
    requires sent.taken == p.taken + WiresOf(entries, p.state.generation)
    ensures Carries(p, sent)
  {
    var wires := WiresOf(entries, p.state.generation);
    forall wire <- sent.taken | wire !in p.taken
      ensures exists e <- p.ledger.entries :: wire.id == e.id && wire.args == e.args
    {
      var i :| 0 <= i < |wires| && wires[i] == wire;
      assert entries[i] in entries;
    }
    forall wire <- p.taken ensures wire in sent.taken {
    }
    forall i | 0 <= i < |p.ledger.entries| && sent.ledger.entries[i].wasSent && !p.ledger.entries[i].wasSent
      ensures exists wire <- sent.taken :: wire.id == p.ledger.entries[i].id {
      var k :| 0 <= k < |entries| && entries[k] == p.ledger.entries[i];
      assert sent.taken[|p.taken| + k] == wires[k];
    }
  }

  // ---------- Every entry point keeps the publisher quiet ----------

  lemma TriggerKeepsQuiet(p: Pub, started: bool, generation: nat, reason: string, env: Env)
    requires Quiet(p, started)
    ensures var p' := Dispatch(p, Trigger(generation, reason, env.now), env);
      && Quiet(p', started) && Carries(p, p')
      && (p.state.Ready? && generation == p.state.generation ==> p' == Recycled(p, reason, env.now))
      && (!p.state.Ready? ==> p'.ledger == p.ledger && !p'.state.Ready?)
      && p'.clock == p.clock && (generation != p.state.generation ==> p' == p)
  {
    var e := Trigger(generation, reason, env.now);
    if p.state.Ready? && generation == p.state.generation {
      TriggerRecycles(p, reason, env);
      RecycledIsQuiet(p, reason, env.now);
    } else {
      DispatchSimple(p, e, env);
    }
  }

  lemma BlockKeepsQuiet(p: Pub, started: bool, e: Event, env: Env)
    requires Quiet(p, started) && (e.Blocked? || e.Unblocked?)
    ensures var p' := Dispatch(p, e, env);
      && Quiet(p', started) && Carries(p, p') && p'.ledger == p.ledger
      && p'.state == Next(p.state, e).state
      && p'.clock == if e.Unblocked? && e.generation == p.state.generation && p.state.Ready? && p.state.blocked then Some(env.now) else p.clock
  {
    DispatchSimple(p, e, env);
    RunOne(Entered(p, Next(p.state, e).state), RestartStallClock, env);
  }

  lemma ElapsedKeepsQuiet(p: Pub, env: Env)
    requires p.state.Backoff? && LedgerOk(p) && TakenOk(p) && !p.broken && p.told == IsReady(p.state)
    requires p.attempts == [] && p.closes == [] && p.timers == [] && p.link == None
    ensures var p' := Dispatch(p, BackoffElapsed(p.state.generation), env);
      Quiet(p', true) && Carries(p, p') && p'.state.Connecting?
  {
    var e := BackoffElapsed(p.state.generation);
    DispatchSimple(p, e, env);
    RunTwo(Entered(p, Next(p.state, e).state), Lose, StartAttempt, env);
    LoseKeepsWellFormed(p.ledger);
  }

  lemma StartKeepsQuiet(p: Pub, env: Env)
    requires Quiet(p, false)
    ensures var p' := Start(p, env);
      Quiet(p', true) && Carries(p, p') && p'.state.Connecting?
  {
    ElapsedKeepsQuiet(p, env);
  }

  lemma TimerKeepsQuiet(p: Pub, i: nat, env: Env)
    requires Quiet(p, true) && i < |p.timers|
    ensures var p' := OnTimer(p, i, env);
      Quiet(p', true) && Carries(p, p') && p'.state.Connecting?
  {
    ElapsedKeepsQuiet(p.(timers := p.timers[..i] + p.timers[i + 1..]), env);
  }

  lemma CloseKeepsQuiet(p: Pub, i: nat, env: Env)
    requires Quiet(p, true) && i < |p.closes|
    ensures var p' := OnCloseEnd(p, i, env);
      Quiet(p', true) && Carries(p, p') && !p'.state.Ready?
  {
    var close := p.closes[i];
    var ended := p.(closes := p.closes[..i] + p.closes[i + 1..],
                    link := if close.link.Some? && p.link == close.link then None else p.link);
    var e := CloseFinished(close.generation);
    DispatchSimple(ended, e, env);
    if p.state.Recycling? {
      RunOne(Entered(ended, Next(ended.state, e).state), StartBackoff(p.state.attempt, p.state.reason), env);
    }
  }

  lemma StopKeepsQuiet(p: Pub, env: Env)
    requires Quiet(p, true)
    ensures var p' := StopNow(p, env);
      Quiet(p', true) && Carries(p, p') && p'.state.Stopped?
  {
    var timers := if p.timers == [] then [] else p.timers[..|p.timers| - 1];
    var cleared := p.(timers := timers);
    DispatchSimple(cleared, Stop, env);
    RunOne(Entered(cleared, Next(p.state, Stop).state), CloseModel, env);
  }

  /** What was sent in id order on a new generation keeps the order of what was taken. */
  lemma AllSentInOrder(p: Pub, sent: Pub, n: nat)
    requires LedgerOk(p) && TakenOk(p) && p.state.Connecting? && sent.state.Ready? && n <= |p.ledger.entries|
    requires sent.state.generation == p.state.generation && sent.taken == p.taken + WiresOf(p.ledger.entries[..n], p.state.generation)
    requires SameEntries(p.ledger, sent.ledger)
    ensures forall i, j :: 0 <= i < j < |sent.taken| ==> Before(sent.taken[i], sent.taken[j])
    ensures forall wire <- sent.taken :: 0 < wire.id < sent.ledger.nextId && wire.generation <= sent.state.generation
  {
    hide SentIn;
    var wires := WiresOf(p.ledger.entries[..n], p.state.generation);
    forall i | 0 <= i < |wires| ensures 0 < wires[i].id < p.ledger.nextId {
      assert p.ledger.entries[i] in p.ledger.entries;
    }
    forall i, j | 0 <= i < j < |sent.taken| ensures Before(sent.taken[i], sent.taken[j]) {
      if j >= |p.taken| && i < |p.taken| {
        assert p.taken[i] in p.taken;
      }
    }
  }

  /** The state after a successful attempt, when no publish threw. */
  lemma AllSentIsQuiet(p: Pub, sent: Pub, n: nat)
    requires LedgerOk(p) && TakenOk(p) && p.state.Connecting? && sent.state.Ready? && n <= |p.ledger.entries|
    requires sent.state.generation == p.state.generation && sent.taken == p.taken + WiresOf(p.ledger.entries[..n], p.state.generation)
    requires WellFormed(sent.ledger) && SameEntries(p.ledger, sent.ledger)
    ensures forall i, j :: 0 <= i < j < |sent.taken| ==> Before(sent.taken[i], sent.taken[j])
    ensures forall wire <- sent.taken :: 0 < wire.id < sent.ledger.nextId && wire.generation <= sent.state.generation
    ensures n == |p.ledger.entries| && SentUpTo(sent, n) ==> LedgerOk(sent) && TakenOk(sent)
    ensures forall e <- p.ledger.entries[..n] :: e in p.ledger.entries
  {
    AllSentInOrder(p, sent, n);
    hide WellFormed, Before;
    var wires := WiresOf(p.ledger.entries[..n], p.state.generation);
    if n == |p.ledger.entries| && SentUpTo(sent, n) {
      forall e <- sent.ledger.entries ensures Wire(p.state.generation, e.id, e.args) in sent.taken {
        var i :| 0 <= i < |sent.ledger.entries| && sent.ledger.entries[i] == e;
        assert wires[i] == Wire(p.state.generation, e.id, e.args) && sent.taken[|p.taken| + i] == wires[i];
      }
    }
  }

  lemma SuccessKeepsQuiet(p: Pub, env: Env)
    requires p.state.Connecting? && p.state.failure.None? && p.link == Some(p.state.generation) && !p.broken
    requires p.attempts == [] && p.closes == [] && p.timers == [] && p.told == IsReady(p.state)
    requires LedgerOk(p) && TakenOk(p)
    ensures var p' := Dispatch(p, AttemptSucceeded(p.state.generation, env.now), env);
      && Quiet(p', true) && Carries(p, p')
      && (p'.state.Ready? ==> p'.clock == Some(env.now))
  {
    var sent, n := SuccessSendsAll(p, env);
    var p' := Dispatch(p, AttemptSucceeded(p.state.generation, env.now), env);
    AllSentIsQuiet(p, sent, n);
    SentCarries(p, sent, p.ledger.entries[..n]);
    if p' != sent || !sent.state.Ready? || sent.clock != Some(env.now) || n != |p.ledger.entries| || !SentUpTo(sent, n) {
      var reason :| p' == Recycled(sent, reason, env.now);
      RecycledIsQuiet(sent, reason, env.now);
      RecycledCarries(p, sent, reason, env.now);
    }
  }

  lemma AttemptKeepsQuiet(p: Pub, i: nat, end: AttemptEnd, env: Env)
    requires Quiet(p, true) && i < |p.attempts|
    ensures var p' := OnAttemptEnd(p, i, end, env);
      && Quiet(p', true) && Carries(p, p')
      && (p'.state.Ready? ==> p'.clock == Some(env.now) && !p.state.Ready?)
  {
    var generation := p.attempts[i];
    var ended := p.(attempts := p.attempts[..i] + p.attempts[i + 1..]);
    if end == SetupResolved(true) && MayContinue(p.state, generation) {
      SuccessKeepsQuiet(ended.(link := Some(generation)), env);
    } else if p.state.Connecting? {
      var e := AttemptFailed(generation, EndReason(end));
      var t := Next(ended.state, e);
      DispatchSimple(ended, e, env);
      RunOne(Entered(ended, t.state), StartBackoff(t.state.attempt, t.state.reason), env);
    }
  }

  lemma ConfirmKeepsQuiet(p: Pub, generation: nat, id: nat, env: Env)
    requires Quiet(p, true)
    ensures var p' := OnConfirm(p, generation, id, false, env);
      && Quiet(p', true) && p'.state == p.state && p'.taken == p.taken
      && (generation != p.state.generation ==> p' == p)
  {
    if generation == p.state.generation {
      ConfirmKeepsWellFormed(p.ledger, id);
      ConfirmRemoves(p.ledger, id);
    }
  }

  // ---------- Publishing ----------

  /** The publisher with one more entry, pending for now. */
  function WithEntry(p: Pub, args: PublishArgs, owner: nat): Pub {
    p.(ledger := Added(p.ledger, args, owner))
  }

  lemma AddedEntry(p: Pub, args: PublishArgs, owner: nat)
    requires WellFormed(p.ledger)
    ensures var added, e := WithEntry(p, args, owner), NewEntry(p.ledger, args, owner);
      && WellFormed(added.ledger) && added.ledger.nextId == p.ledger.nextId + 1
      && added.ledger.entries == p.ledger.entries + [e]
      && added.ledger.sentCount == p.ledger.sentCount
      && e in added.ledger.entries && IndexOf(added.ledger.entries, e.id) == |p.ledger.entries|
  {
    AddKeepsWellFormed(p.ledger, args, owner);
    var added := WithEntry(p, args, owner);
    assert added.ledger.entries[|p.ledger.entries|] == NewEntry(p.ledger, args, owner);
    IndexOfPresent(added.ledger.entries, |p.ledger.entries|);
  }

  /** One more wire, of the entry just added, keeps the order of what was taken. */
  lemma TakesNewest(p: Pub, args: PublishArgs, owner: nat)
    requires TakenOk(p) && WellFormed(p.ledger)
    ensures var took := Take(WithEntry(p, args, owner), NewEntry(p.ledger, args, owner));
      && (forall i, j :: 0 <= i < j < |took.taken| ==> Before(took.taken[i], took.taken[j]))
      && (forall wire <- took.taken :: 0 < wire.id < took.ledger.nextId && wire.generation <= took.state.generation)
      && (forall wire <- p.taken :: wire in took.taken)
      && Wire(p.state.generation, p.ledger.nextId, args) in took.taken
  {
    hide Increasing;
    var took := Take(WithEntry(p, args, owner), NewEntry(p.ledger, args, owner));
    assert took.taken[|p.taken|] == Wire(p.state.generation, p.ledger.nextId, args);
    forall i, j | 0 <= i < j < |took.taken| ensures Before(took.taken[i], took.taken[j]) {
      if j == |p.taken| {
        assert p.taken[i] in p.taken;
      }
    }
  }

  /** The publish went through: the entry is sent like all the others. */
  lemma SentNowIsQuiet(p: Pub, args: PublishArgs, owner: nat, now: int)
    requires Quiet(p, true) && p.state.Ready?
    ensures var added, e := WithEntry(p, args, owner), NewEntry(p.ledger, args, owner);
      var p' := MarkSentNow(Take(added, e), e, now);
      && Quiet(p', true) && Carries(added, p')
      && p'.clock == OnSent(p.clock, now, p.ledger.sentCount + 1)
      && p'.ledger.sentCount == p.ledger.sentCount + 1 && p'.state == p.state
  {
    hide Increasing, Before, SentIn, Added, IndexOf, WellFormed;
    var added, e := WithEntry(p, args, owner), NewEntry(p.ledger, args, owner);
    var p' := MarkSentNow(Take(added, e), e, now);
    AddedEntry(p, args, owner);
    TakesNewest(p, args, owner);
    TakenCarries(added, e);
    MarkKeepsWellFormed(added.ledger, e.id, p.state.generation);
    var k := |p.ledger.entries|;
    assert p'.ledger.entries == p.ledger.entries + [e.(state := Sent(p.state.generation), wasSent := true)];
    forall x <- p'.ledger.entries
      ensures x.state == Sent(p.state.generation) && Wire(p.state.generation, x.id, x.args) in p'.taken {
      var i :| 0 <= i < |p'.ledger.entries| && p'.ledger.entries[i] == x;
      if i < k {
        assert p.ledger.entries[i] in p.ledger.entries;
      }
    }
  }

  /** The channel closed inside the publish, or the publish threw: one recycle, and the entry waits. */
  lemma FailedSendIsQuiet(p: Pub, args: PublishArgs, owner: nat, taken: bool, reason: string, now: int)
    requires Quiet(p, true) && p.state.Ready?
    ensures var added, e := WithEntry(p, args, owner), NewEntry(p.ledger, args, owner);
      var p' := Recycled(TakenIf(added, e, taken), reason, now);
      Quiet(p', true) && Carries(added, p')
  {
    var added, e := WithEntry(p, args, owner), NewEntry(p.ledger, args, owner);
    AddedEntry(p, args, owner);
    TakesNewest(p, args, owner);
    TakenCarries(added, e);
    hide Increasing, Before, SentIn;
    var took := TakenIf(added, e, taken);
    assert Carries(added, took);
    RecycledIsQuiet(took, reason, now);
    RecycledCarries(added, took, reason, now);
  }

  function TakenIf(p: Pub, e: Entry, taken: bool): Pub {
    if taken then Take(p, e) else p
  }

  /** The two ways a send outside the loop ends. */
  lemma SendNowEnds(p: Pub, e: Entry, env: Env)
    requires p.state.Ready? && p.link.Some?
    ensures var o := env.publish(e.id);
      var p' := SendNow(p, e, env);
      if o.taken && !o.closes then p' == MarkSentNow(Take(p, e), e, env.now)
      else p' == Recycled(TakenIf(p, e, o.taken), TroubleOf(o), env.now)
  {
    hide WellFormed, MarkedSent;
    var o := env.publish(e.id);
    var took := TakenIf(p, e, o.taken);
    if o.closes {
      TriggerRecycles(took, "channel_closed", env);
      if !o.taken {
        IgnoredEvent(Recycled(took, "channel_closed", env.now), Trigger(p.state.generation, "publish_threw", env.now), env);
      }
    } else if !o.taken {
      TriggerRecycles(took, "publish_threw", env);
    }
  }

  lemma SendNowKeepsQuiet(p: Pub, args: PublishArgs, owner: nat, env: Env)
    requires Quiet(p, true) && p.state.Ready?
    ensures var added := WithEntry(p, args, owner);
      var p' := SendNow(added, NewEntry(p.ledger, args, owner), env);
      && Quiet(p', true) && Carries(added, p')
      && (p'.state.Ready? ==> p'.clock == OnSent(p.clock, env.now, p.ledger.sentCount + 1)
                              && p'.ledger.sentCount == p.ledger.sentCount + 1 && p'.state == p.state)
  {
    var added, e := WithEntry(p, args, owner), NewEntry(p.ledger, args, owner);
    var o, p' := env.publish(e.id), SendNow(added, e, env);
    SendNowEnds(added, e, env);
    if o.taken && !o.closes {
      SentNowIsQuiet(p, args, owner, env.now);
    } else {
      var reason :| p' == Recycled(TakenIf(added, e, o.taken), reason, env.now);
      FailedSendIsQuiet(p, args, owner, o.taken, reason, env.now);
    }
  }

  lemma PublishKeepsQuiet(p: Pub, started: bool, args: PublishArgs, owner: nat, env: Env)
    requires Quiet(p, started)
    ensures var p' := Publish(p, args, owner, env);
      && Quiet(p', started) && Carries(WithEntry(p, args, owner), p')
      && (p'.state.Ready? ==> p.state == p'.state && p'.clock == OnSent(p.clock, env.now, p.ledger.sentCount + 1)
                              && p'.ledger.sentCount == p.ledger.sentCount + 1)
  {
    if p.state.Ready? {
      SendNowKeepsQuiet(p, args, owner, env);
    } else {
      AddedEntry(p, args, owner);
    }
  }
}
