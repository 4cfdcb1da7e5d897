/**
 * Every run of the publisher with its channels and the broker: what is confirmed was enqueued, what
 * is not confirmed is kept, and the publisher is never stuck.
 */
module PublisherRuns {
  import opened Telemetry
  import opened PublisherState
  import opened Ledgers
  import opened Publishers
  import opened PublisherSteps

  // ---------- The world ----------

  /**
   * The publisher and what surrounds it: the arguments accepted so far (id `n` is at `n - 1`), the
   * wires the broker enqueued, returned and answered, the clock, and since when the publisher has
   * been waiting for an ack without a break.
   */
  datatype World = World(
    p: Pub, accepted: seq<PublishArgs>, enqueued: set<Wire>, returned: set<Wire>, answered: set<Wire>,
    started: bool, timeoutMs: nat, time: int, waitingSince: Option<int>)

  datatype Happening =
    | Started
    | PublishCalled(args: PublishArgs, owner: nat)
    | AttemptEnded(i: nat, end: AttemptEnd)
    | CloseEnded(i: nat)
    | TimerFired(i: nat)
    | Enqueues(wire: Wire)
    | Returns(wire: Wire)
    | Acks(wire: Wire)
    | Nacks(wire: Wire)
    | Triggers(generation: nat, reason: string)
    | Blocks(generation: nat)
    | Unblocks(generation: nat)
    | StallChecked
    | StopCalled

  function Begin(timeoutMs: nat, time: int): World {
    World(NEW_PUBLISHER, [], {}, {}, {}, false, timeoutMs, time, None)
  }

  /**
   * What the environment may do. The broker answers each wire once, acks only what it enqueued or
   * has already returned, and never enqueues what it returned; the clock does not go back.
   */
  ghost predicate Enabled(w: World, h: Happening, env: Env) {
    && env.now >= w.time
    && match h
       case Started => !w.started
       case PublishCalled(_, _) => true
       case AttemptEnded(i, _) => i < |w.p.attempts|
       case CloseEnded(i) => i < |w.p.closes|
       case TimerFired(i) => i < |w.p.timers|
       case Enqueues(wire) => wire in w.p.taken && wire !in w.returned
       case Returns(wire) => wire in w.p.taken && wire !in w.enqueued && wire !in w.returned && wire !in w.answered
       case Acks(wire) => wire in w.p.taken && wire !in w.answered && (wire in w.enqueued || wire in w.returned)
       case Nacks(wire) => wire in w.p.taken && wire !in w.answered
       case Triggers(_, _) => true
       case Blocks(_) => true
       case Unblocks(_) => true
       case StallChecked => w.started
       case StopCalled => w.started
  }

  function React(w: World, h: Happening, env: Env): Pub {
    match h
    case Started => Start(w.p, env)
    case PublishCalled(args, owner) => Publish(w.p, args, owner, env)
    case AttemptEnded(i, end) => if i < |w.p.attempts| then OnAttemptEnd(w.p, i, end, env) else w.p
    case CloseEnded(i) => if i < |w.p.closes| then OnCloseEnd(w.p, i, env) else w.p
    case TimerFired(i) => if i < |w.p.timers| then OnTimer(w.p, i, env) else w.p
    case Enqueues(_) => w.p
    case Returns(wire) => OnReturn(w.p, wire.generation, env)
    case Acks(wire) => OnConfirm(w.p, wire.generation, wire.id, false, env)
    case Nacks(wire) => OnConfirm(w.p, wire.generation, wire.id, true, env)
    case Triggers(generation, reason) => Dispatch(w.p, Trigger(generation, reason, env.now), env)
    case Blocks(generation) => Dispatch(w.p, Blocked(generation), env)
    case Unblocks(generation) => Dispatch(w.p, Unblocked(generation), env)
    case StallChecked => CheckStall(w.p, w.timeoutMs, env)
    case StopCalled => StopNow(w.p, env)
  }

  /** Ready, not blocked, and something is sent: the wait for an ack is on. */
  predicate Waiting(p: Pub) {
    IsReady(p.state) && p.ledger.sentCount > 0
  }

  /** The same wait goes on: the same connection, and no ack in between. */
  predicate SameWait(p: Pub, p': Pub) {
    Waiting(p) && Waiting(p') && p.state.generation == p'.state.generation && p.confirmed == p'.confirmed
  }

  function Step(w: World, h: Happening, env: Env): World {
    var p' := React(w, h, env);
    World(p',
          if h.PublishCalled? then w.accepted + [h.args] else w.accepted,
          if h.Enqueues? then w.enqueued + {h.wire} else w.enqueued,
          if h.Returns? then w.returned + {h.wire} else w.returned,
          if h.Acks? || h.Nacks? then w.answered + {h.wire} else w.answered,
          w.started || h.Started?,
          w.timeoutMs,
          env.now,
          if SameWait(w.p, p') then w.waitingSince else if Waiting(p') then Some(env.now) else None)
  }

  // ---------- The invariant ----------

  /** The arguments of every entry and of every wire are the accepted ones of its id. */
  ghost predicate ArgsOk(w: World) {
    && |w.accepted| == w.p.ledger.nextId - 1
    && (forall e <- w.p.ledger.entries :: 0 < e.id <= |w.accepted| && e.args == w.accepted[e.id - 1])
    && (forall wire <- w.p.taken :: 0 < wire.id <= |w.accepted| && wire.args == w.accepted[wire.id - 1])
  }

  /** The broker only enqueues and returns what it was sent; a return has already ended its generation. */
  ghost predicate BrokerOk(w: World) {
    && (forall wire <- w.enqueued :: wire in w.p.taken && wire !in w.returned)
    && (forall wire <- w.returned :: wire.generation < w.p.state.generation)
  }

  /** A wire of the current generation that waits for its answer still has its entry. */
  ghost predicate UnansweredKept(w: World) {
    forall wire <- w.p.taken :: wire.generation == w.p.state.generation && wire !in w.answered ==> Has(w.p.ledger, wire.id)
  }

  ghost predicate EnqueuedAs(w: World, id: nat) {
    exists wire <- w.enqueued :: wire.id == id
  }

  /** Confirmed ids are distinct, gone from the ledger, and enqueued; the counts add up. */
  ghost predicate ConfirmedOk(w: World) {
    && (forall i, j :: 0 <= i < j < |w.p.confirmations| ==> w.p.confirmations[i] != w.p.confirmations[j])
    && (forall id <- w.p.confirmations :: 0 < id < w.p.ledger.nextId && !Has(w.p.ledger, id) && EnqueuedAs(w, id))
    && w.p.confirmed == |w.p.confirmations|
    && (forall id :: 0 < id < w.p.ledger.nextId ==> Has(w.p.ledger, id) || id in w.p.confirmations)
    && |w.p.ledger.entries| + |w.p.confirmations| == w.p.ledger.nextId - 1
  }

  ghost predicate Account(w: World) {
    ArgsOk(w) && BrokerOk(w) && UnansweredKept(w) && ConfirmedOk(w)
  }

  /** While the wait is on, the stall clock started with it, neither before nor after. */
  ghost predicate StallOk(w: World) {
    && (w.waitingSince.Some? ==> w.waitingSince.value <= w.time)
    && (Waiting(w.p) ==> w.p.clock.Some? && w.waitingSince == w.p.clock)
  }

  ghost predicate Inv(w: World) {
    Quiet(w.p, w.started) && Account(w) && StallOk(w)
  }

  // ---------- Steps that confirm nothing ----------

  lemma SameEntriesHas(a: LedgerState, b: LedgerState, id: nat)
    requires SameEntries(a, b)
    ensures Has(a, id) == Has(b, id)
  {
    if Has(a, id) {
      var i :| 0 <= i < |a.entries| && a.entries[i].id == id;
      assert b.entries[i] in b.entries;
    }
    if Has(b, id) {
      var i :| 0 <= i < |b.entries| && b.entries[i].id == id;
      assert a.entries[i] in a.entries;
    }
  }

  ghost predicate NoneAhead(p: Pub) {
    forall wire <- p.taken :: wire.generation <= p.state.generation
  }

  lemma CarryKeepsArgs(w: World, w': World)
    requires ArgsOk(w) && Carries(w.p, w'.p) && w'.accepted == w.accepted
    ensures ArgsOk(w')
  {
    forall e <- w'.p.ledger.entries ensures 0 < e.id <= |w.accepted| && e.args == w.accepted[e.id - 1] {
      var i :| 0 <= i < |w'.p.ledger.entries| && w'.p.ledger.entries[i] == e;
      assert w.p.ledger.entries[i] in w.p.ledger.entries;
    }
  }

  lemma CarryKeepsUnanswered(w: World, w': World)
    requires UnansweredKept(w) && NoneAhead(w.p) && Carries(w.p, w'.p) && w.answered <= w'.answered
    ensures UnansweredKept(w')
  {
    forall wire <- w'.p.taken | wire.generation == w'.p.state.generation && wire !in w'.answered
      ensures Has(w'.p.ledger, wire.id) {
      SameEntriesHas(w.p.ledger, w'.p.ledger, wire.id);
    }
  }

  lemma CarryKeepsConfirmed(w: World, w': World)
    requires ConfirmedOk(w) && Carries(w.p, w'.p) && w.enqueued <= w'.enqueued
    ensures ConfirmedOk(w')
  {
    forall id <- w'.p.confirmations ensures !Has(w'.p.ledger, id) && EnqueuedAs(w', id) {
      SameEntriesHas(w.p.ledger, w'.p.ledger, id);
      var wire :| wire in w.enqueued && wire.id == id;
      assert wire in w'.enqueued;
    }
    forall id | 0 < id < w'.p.ledger.nextId ensures Has(w'.p.ledger, id) || id in w'.p.confirmations {
      SameEntriesHas(w.p.ledger, w'.p.ledger, id);
    }
  }

  /** The account is kept by every step that keeps the entries. */
  lemma CarryKeepsAccount(w: World, w': World)
    requires Account(w) && NoneAhead(w.p) && Carries(w.p, w'.p)
    requires w'.accepted == w.accepted && w.enqueued <= w'.enqueued && w.answered <= w'.answered
    requires BrokerOk(w')
    ensures Account(w')
  {
    CarryKeepsArgs(w, w');
    CarryKeepsUnanswered(w, w');
    CarryKeepsConfirmed(w, w');
  }

  // ---------- Publishing and confirming ----------

  lemma AddedHas(p: Pub, args: PublishArgs, owner: nat, id: nat)
    requires WellFormed(p.ledger)
    ensures Has(WithEntry(p, args, owner).ledger, id) <==> Has(p.ledger, id) || id == p.ledger.nextId
  {
    AddedEntry(p, args, owner);
    var ledger := WithEntry(p, args, owner).ledger;
    hide Increasing, SentIn, Added, WellFormed;
    if Has(p.ledger, id) {
      var x :| x in p.ledger.entries && x.id == id;
      assert x in ledger.entries;
    }
  }

  lemma AddKeepsConfirmed(w: World, args: PublishArgs, owner: nat)
    requires ConfirmedOk(w) && WellFormed(w.p.ledger)
    ensures ConfirmedOk(w.(p := WithEntry(w.p, args, owner), accepted := w.accepted + [args]))
  {
    var w' := w.(p := WithEntry(w.p, args, owner), accepted := w.accepted + [args]);
    AddedEntry(w.p, args, owner);
    hide WellFormed, Has;
    forall id <- w.p.confirmations ensures !Has(w'.p.ledger, id) && EnqueuedAs(w', id) {
      AddedHas(w.p, args, owner, id);
      var wire :| wire in w.enqueued && wire.id == id;
      assert wire in w'.enqueued;
    }
    forall id | 0 < id < w'.p.ledger.nextId ensures Has(w'.p.ledger, id) || id in w'.p.confirmations {
      AddedHas(w.p, args, owner, id);
    }
  }

  /** The world just after `publish` put the entry into the ledger. */
  lemma AddKeepsAccount(w: World, args: PublishArgs, owner: nat)
    requires Account(w) && WellFormed(w.p.ledger)
    ensures Account(w.(p := WithEntry(w.p, args, owner), accepted := w.accepted + [args]))
  {
    AddedEntry(w.p, args, owner);
    AddKeepsConfirmed(w, args, owner);
    var w' := w.(p := WithEntry(w.p, args, owner), accepted := w.accepted + [args]);
    hide Increasing, SentIn, ConfirmedOk, Added, Has;
    forall wire <- w.p.taken | wire.generation == w.p.state.generation && wire !in w.answered
      ensures Has(w'.p.ledger, wire.id) {
      AddedHas(w.p, args, owner, wire.id);
    }
  }

  lemma UniqueWire(p: Pub, a: Wire, b: Wire)
    requires TakenOk(p) && a in p.taken && b in p.taken && a.generation == b.generation && a.id == b.id
    ensures a == b
  {
    var i :| 0 <= i < |p.taken| && p.taken[i] == a;
    var j :| 0 <= j < |p.taken| && p.taken[j] == b;
  }

  lemma PublishKeepsInv(w: World, args: PublishArgs, owner: nat, env: Env)
    requires Inv(w) && env.now >= w.time
    ensures Inv(Step(w, PublishCalled(args, owner), env))
  {
    hide WellFormed, Added, ArgsOk, BrokerOk, UnansweredKept, ConfirmedOk, LedgerOk, OneContinuation, Carries, SendNow;
    assert WellFormed(w.p.ledger) by {
      QuietParts(w.p, w.started);
    }
    var w' := Step(w, PublishCalled(args, owner), env);
    PublishKeepsQuiet(w.p, w.started, args, owner, env);
    var mid := w.(p := WithEntry(w.p, args, owner), accepted := w.accepted + [args]);
    AddKeepsAccount(w, args, owner);
    CarryKeepsBroker(mid, w');
    CarryKeepsAccount(mid, w');
  }

  lemma QuietParts(p: Pub, started: bool)
    requires Quiet(p, started)
    ensures WellFormed(p.ledger) && NoneAhead(p) && TakenOk(p)
  {
  }

  lemma CarryKeepsBroker(w: World, w': World)
    requires BrokerOk(w) && Carries(w.p, w'.p) && w'.enqueued == w.enqueued && w'.returned == w.returned
    ensures BrokerOk(w')
  {
  }

  lemma AckKeepsUnanswered(w: World, wire: Wire, env: Env)
    requires UnansweredKept(w) && TakenOk(w.p) && WellFormed(w.p.ledger) && wire in w.p.taken
    requires wire.generation == w.p.state.generation
    ensures UnansweredKept(Step(w, Acks(wire), env))
  {
    var w' := Step(w, Acks(wire), env);
    ConfirmRemoves(w.p.ledger, wire.id);
    hide Increasing, SentIn, Confirmed;
    forall other <- w'.p.taken | other.generation == w'.p.state.generation && other !in w'.answered
      ensures Has(w'.p.ledger, other.id) {
      if other.id == wire.id {
        UniqueWire(w.p, other, wire);
      }
      var e :| e in w.p.ledger.entries && e.id == other.id;
      assert e in w'.p.ledger.entries;
    }
  }

  lemma AckEffect(w: World, wire: Wire, env: Env)
    requires wire.generation == w.p.state.generation && Has(w.p.ledger, wire.id)
    ensures var w' := Step(w, Acks(wire), env);
      && w'.p.ledger == Confirmed(w.p.ledger, wire.id) && w'.p.confirmed == w.p.confirmed + 1
      && w'.p.confirmations == w.p.confirmations + [wire.id] && w'.enqueued == w.enqueued
  {
    PresentAt(w.p.ledger.entries, wire.id);
  }

  lemma AckKeepsConfirmed(w: World, wire: Wire, env: Env)
    requires ConfirmedOk(w) && WellFormed(w.p.ledger) && wire in w.enqueued
    requires wire.generation == w.p.state.generation && Has(w.p.ledger, wire.id)
    ensures ConfirmedOk(Step(w, Acks(wire), env))
    ensures Step(w, Acks(wire), env).p.confirmations == w.p.confirmations + [wire.id]
  {
    var w', id := Step(w, Acks(wire), env), wire.id;
    ConfirmRemoves(w.p.ledger, id);
    AckEffect(w, wire, env);
    assert w'.p.ledger.nextId == w.p.ledger.nextId;
    hide Increasing, SentIn, Confirmed, WellFormed, Step;
    forall x <- w'.p.confirmations ensures 0 < x < w'.p.ledger.nextId && !Has(w'.p.ledger, x) && EnqueuedAs(w', x) {
      if x in w.p.confirmations {
        var other :| other in w.enqueued && other.id == x;
        assert other in w'.enqueued;
      }
    }
    forall x | 0 < x < w'.p.ledger.nextId ensures Has(w'.p.ledger, x) || x in w'.p.confirmations {
      if Has(w.p.ledger, x) && x != id {
        var e :| e in w.p.ledger.entries && e.id == x;
        assert e in w'.p.ledger.entries;
      } else {
        assert x in w.p.confirmations || x == w'.p.confirmations[|w.p.confirmations|];
      }
    }
  }

  lemma CurrentAckIsOwed(w: World, wire: Wire, env: Env)
    requires UnansweredKept(w) && BrokerOk(w) && Enabled(w, Acks(wire), env) && wire.generation == w.p.state.generation
    ensures wire in w.enqueued && wire !in w.returned && Has(w.p.ledger, wire.id)
  {
  }

  /** An ack of the current generation confirms the entry of its wire, which the broker enqueued. */
  lemma AckKeepsAccount(w: World, wire: Wire, env: Env)
    requires Inv(w) && Enabled(w, Acks(wire), env) && wire.generation == w.p.state.generation
    ensures Account(Step(w, Acks(wire), env))
    ensures wire in w.enqueued && wire !in w.returned && Has(w.p.ledger, wire.id)
    ensures Step(w, Acks(wire), env).p.confirmations == w.p.confirmations + [wire.id]
    ensures 0 < wire.id <= |w.accepted| && wire.args == w.accepted[wire.id - 1]
  {
    hide ConfirmedOk, Quiet, Increasing, SentIn, UnansweredKept, StallOk;
    QuietParts(w.p, w.started);
    CurrentAckIsOwed(w, wire, env);
    AckKeepsUnanswered(w, wire, env);
    AckKeepsConfirmed(w, wire, env);
    ConfirmRemoves(w.p.ledger, wire.id);
  }

  // ---------- Every step ----------

  /** A wait that goes on keeps its clock; a new one starts it now. */
  ghost predicate ClockOk(p: Pub, p': Pub, now: int) {
    Waiting(p') ==> p'.clock == if SameWait(p, p') then p.clock else Some(now)
  }

  /** The entry point kept the publisher quiet, dropped no entry, and kept the clock right. */
  ghost predicate Calm(w: World, h: Happening, env: Env) {
    && Quiet(React(w, h, env), w.started || h.Started?)
    && Carries(w.p, React(w, h, env))
    && ClockOk(w.p, React(w, h, env), env.now)
    && (h.Returns? ==> h.wire.generation < React(w, h, env).state.generation)
  }

  lemma CalmStepKeepsInv(w: World, h: Happening, env: Env)
    requires Inv(w) && Enabled(w, h, env) && !h.PublishCalled? && Calm(w, h, env)
    ensures Inv(Step(w, h, env))
  {
    hide Quiet, ArgsOk, UnansweredKept, ConfirmedOk, React;
    assert NoneAhead(w.p) by {
      QuietParts(w.p, w.started);
    }
    CarryKeepsAccount(w, Step(w, h, env));
  }

  lemma TriggerIsCalm(p: Pub, started: bool, generation: nat, reason: string, env: Env)
    requires Quiet(p, started)
    ensures var p' := Dispatch(p, Trigger(generation, reason, env.now), env);
      Quiet(p', started) && Carries(p, p') && ClockOk(p, p', env.now)
  {
    TriggerKeepsQuiet(p, started, generation, reason, env);
    hide LedgerOk, OneContinuation, TakenOk, Carries, Dispatch;
  }

  lemma BlockIsCalm(p: Pub, started: bool, e: Event, env: Env)
    requires Quiet(p, started) && (e.Blocked? || e.Unblocked?)
    ensures var p' := Dispatch(p, e, env);
      Quiet(p', started) && Carries(p, p') && ClockOk(p, p', env.now)
  {
    BlockKeepsQuiet(p, started, e, env);
    hide LedgerOk, OneContinuation, TakenOk, Dispatch;
  }

  lemma ReturnIsCalm(p: Pub, generation: nat, env: Env)
    requires Quiet(p, true) && generation <= p.state.generation && (generation == p.state.generation ==> p.state.Ready?)
    ensures var p' := OnReturn(p, generation, env);
      && Quiet(p', true) && Carries(p, p') && ClockOk(p, p', env.now)
      && generation < p'.state.generation
  {
    if generation == p.state.generation {
      var counted := p.(returned := p.returned + 1);
      TriggerKeepsQuiet(counted, true, generation, "returned", env);
    } else {
      assert OnReturn(p, generation, env) == p;
    }
  }

  /** A channel of a publisher that has not started took nothing, and no continuation runs. */
  lemma NothingBeforeStart(w: World, h: Happening, env: Env)
    requires Inv(w) && Enabled(w, h, env)
    ensures w.started || h.Started? || h.PublishCalled? || h.Triggers? || h.Blocks? || h.Unblocks?
  {
  }

  predicate IsCurrentAck(w: World, h: Happening) {
    h.Acks? && h.wire.generation == w.p.state.generation
  }

  lemma CallbackIsCalm(w: World, h: Happening, env: Env)
    requires Inv(w) && Enabled(w, h, env) && (h.Enqueues? || h.Returns? || h.Acks? || h.Nacks?) && !IsCurrentAck(w, h)
    ensures Calm(w, h, env)
  {
    NothingBeforeStart(w, h, env);
    hide LedgerOk, OneContinuation, Account;
    match h
    case Enqueues(_) =>
      assert Carries(w.p, w.p);
    case Returns(wire) =>
      ReturnIsCalm(w.p, wire.generation, env);
    case Nacks(wire) =>
      assert Carries(w.p, w.p);
      TriggerIsCalm(w.p, w.started, wire.generation, "nacked", env);
    case Acks(_) =>
      assert Carries(w.p, w.p);
  }

  lemma ContinuationIsCalm(w: World, h: Happening, env: Env)
    requires Inv(w) && Enabled(w, h, env) && (h.Started? || h.AttemptEnded? || h.CloseEnded? || h.TimerFired?)
    ensures Calm(w, h, env)
  {
    hide LedgerOk, TakenOk, Account, StallOk, Carries, Start, OnAttemptEnd, OnCloseEnd, OnTimer;
    NothingBeforeStart(w, h, env);
    match h
    case Started =>
      StartKeepsQuiet(w.p, env);
    case AttemptEnded(i, end) =>
      AttemptKeepsQuiet(w.p, i, end, env);
    case CloseEnded(i) =>
      CloseKeepsQuiet(w.p, i, env);
    case TimerFired(i) =>
      TimerKeepsQuiet(w.p, i, env);
  }

  lemma SignalIsCalm(w: World, h: Happening, env: Env)
    requires Inv(w) && Enabled(w, h, env)
    requires h.Triggers? || h.Blocks? || h.Unblocks? || h.StallChecked? || h.StopCalled?
    ensures Calm(w, h, env)
  {
    hide LedgerOk, TakenOk, OneContinuation, Account, StallOk, Dispatch, StopNow;
    match h
    case Triggers(generation, reason) =>
      TriggerIsCalm(w.p, w.started, generation, reason, env);
    case Blocks(generation) =>
      BlockIsCalm(w.p, w.started, Blocked(generation), env);
    case Unblocks(generation) =>
      BlockIsCalm(w.p, w.started, Unblocked(generation), env);
    case StallChecked =>
      assert Carries(w.p, w.p);
      TriggerIsCalm(w.p, w.started, w.p.state.generation, "confirm_stall", env);
    case StopCalled =>
      StopKeepsQuiet(w.p, env);
  }

  /** Every step but a publish and an ack of the current generation keeps all entries. */
  lemma StepIsCalm(w: World, h: Happening, env: Env)
    requires Inv(w) && Enabled(w, h, env) && !h.PublishCalled? && !IsCurrentAck(w, h)
    ensures Calm(w, h, env)
  {
    if h.Enqueues? || h.Returns? || h.Acks? || h.Nacks? {
      CallbackIsCalm(w, h, env);
    } else if h.Started? || h.AttemptEnded? || h.CloseEnded? || h.TimerFired? {
      ContinuationIsCalm(w, h, env);
    } else {
      SignalIsCalm(w, h, env);
    }
  }

  /** Every step of the world keeps the invariant. */
  lemma StepKeepsInv(w: World, h: Happening, env: Env)
    requires Inv(w) && Enabled(w, h, env)
    ensures Inv(Step(w, h, env))
  {
    hide Quiet, Account, Calm, Carries;
    if h.PublishCalled? {
      PublishKeepsInv(w, h.args, h.owner, env);
    } else if IsCurrentAck(w, h) {
      AckKeepsInv(w, h.wire, env);
    } else {
      StepIsCalm(w, h, env);
      CalmStepKeepsInv(w, h, env);
    }
  }

  lemma AckKeepsInv(w: World, wire: Wire, env: Env)
    requires Inv(w) && Enabled(w, Acks(wire), env) && wire.generation == w.p.state.generation
    ensures Inv(Step(w, Acks(wire), env))
  {
    NothingBeforeStart(w, Acks(wire), env);
    ConfirmKeepsQuiet(w.p, wire.generation, wire.id, env);
    AckKeepsAccount(w, wire, env);
    PresentAt(w.p.ledger.entries, wire.id);
    AckStartsWait(w.p, wire, env);
    hide Quiet, Account, OnConfirm, Has, Enabled;
  }

  /** An ack ends the wait there was; when messages are still sent, a new one starts with its clock. */
  lemma AckStartsWait(p: Pub, wire: Wire, env: Env)
    requires wire.generation == p.state.generation && IndexOf(p.ledger.entries, wire.id) < |p.ledger.entries|
    ensures var p' := OnConfirm(p, wire.generation, wire.id, false, env);
      p'.confirmed == p.confirmed + 1 && (Waiting(p') ==> p'.clock == Some(env.now))
  {
  }

  // ---------- Every run ----------

  datatype Move = Move(h: Happening, env: Env)

  ghost function Final(timeoutMs: nat, time: int, moves: seq<Move>): World
    decreases |moves|
  {
    if moves == [] then Begin(timeoutMs, time)
    else
      var last := moves[|moves| - 1];
      Step(Final(timeoutMs, time, moves[..|moves| - 1]), last.h, last.env)
  }

  ghost predicate IsRun(timeoutMs: nat, time: int, moves: seq<Move>)
    decreases |moves|
  {
    moves == [] ||
    var front, last := moves[..|moves| - 1], moves[|moves| - 1];
    IsRun(timeoutMs, time, front) && Enabled(Final(timeoutMs, time, front), last.h, last.env)
  }

  lemma {:induction false} RunKeepsInv(timeoutMs: nat, time: int, moves: seq<Move>)
    requires IsRun(timeoutMs, time, moves)
    ensures Inv(Final(timeoutMs, time, moves))
    decreases |moves|
  {
    if moves != [] {
      hide Inv, Step, Enabled;
      var front, last := moves[..|moves| - 1], moves[|moves| - 1];
      RunKeepsInv(timeoutMs, time, front);
      StepKeepsInv(Final(timeoutMs, time, front), last.h, last.env);
    }
  }

  /**
   * In every run: each accepted message is either confirmed or in the ledger with its own arguments,
   * never both and never neither; a confirmed one was confirmed once and enqueued as it was accepted.
   */
  lemma NothingConfirmedIsLost(timeoutMs: nat, time: int, moves: seq<Move>)
    requires IsRun(timeoutMs, time, moves)
    ensures var w := Final(timeoutMs, time, moves);
      && (forall id :: 0 < id <= |w.accepted| ==> (id in w.p.confirmations <==> !Has(w.p.ledger, id)))
      && (forall e <- w.p.ledger.entries :: 0 < e.id <= |w.accepted| && e.args == w.accepted[e.id - 1])
      && (forall i, j :: 0 <= i < j < |w.p.confirmations| ==> w.p.confirmations[i] != w.p.confirmations[j])
      && (forall id <- w.p.confirmations :: 0 < id <= |w.accepted|
            && exists wire <- w.enqueued :: wire.id == id && wire.args == w.accepted[id - 1])
      && |w.accepted| == w.p.confirmed + |w.p.ledger.entries| && w.p.confirmed == |w.p.confirmations|
  {
    RunKeepsInv(timeoutMs, time, moves);
    hide Final, IsRun;
    AccountMeans(Final(timeoutMs, time, moves));
  }

  lemma AccountMeans(w: World)
    requires Account(w)
    ensures forall id :: 0 < id <= |w.accepted| ==> (id in w.p.confirmations <==> !Has(w.p.ledger, id))
    ensures forall id <- w.p.confirmations ::
              0 < id <= |w.accepted| && exists wire <- w.enqueued :: wire.id == id && wire.args == w.accepted[id - 1]
    ensures forall e <- w.p.ledger.entries :: 0 < e.id <= |w.accepted| && e.args == w.accepted[e.id - 1]
    ensures forall i, j :: 0 <= i < j < |w.p.confirmations| ==> w.p.confirmations[i] != w.p.confirmations[j]
    ensures |w.accepted| == w.p.confirmed + |w.p.ledger.entries| && w.p.confirmed == |w.p.confirmations|
  {
    forall id <- w.p.confirmations
      ensures 0 < id <= |w.accepted| && exists wire <- w.enqueued :: wire.id == id && wire.args == w.accepted[id - 1] {
      assert EnqueuedAs(w, id);
      var wire :| wire in w.enqueued && wire.id == id;
      assert wire in w.p.taken;
    }
  }

  /**
   * The only step that takes an entry out of the ledger is an ack of the current generation, of a wire
   * the broker enqueued: a returned message, a nacked one and one acked on an older generation stay.
   */
  lemma LeavesOnlyOnCurrentAck(timeoutMs: nat, time: int, moves: seq<Move>, move: Move, e: Entry)
    requires IsRun(timeoutMs, time, moves) && e in Final(timeoutMs, time, moves).p.ledger.entries
    requires Enabled(Final(timeoutMs, time, moves), move.h, move.env)
    requires !Has(Step(Final(timeoutMs, time, moves), move.h, move.env).p.ledger, e.id)
    ensures var w := Final(timeoutMs, time, moves);
      && IsCurrentAck(w, move.h) && move.h.wire.id == e.id
      && move.h.wire in w.enqueued && move.h.wire !in w.returned && move.h.wire.args == e.args
      && Step(w, move.h, move.env).p.confirmations == w.p.confirmations + [e.id]
  {
    RunKeepsInv(timeoutMs, time, moves);
    var w := Final(timeoutMs, time, moves);
    hide Final, IsRun;
    StepLeaves(w, move.h, move.env, e);
  }

  lemma StepLeaves(w: World, h: Happening, env: Env, e: Entry)
    requires Inv(w) && Enabled(w, h, env) && e in w.p.ledger.entries && !Has(Step(w, h, env).p.ledger, e.id)
    ensures IsCurrentAck(w, h) && h.wire.id == e.id
    ensures h.wire in w.enqueued && h.wire !in w.returned && h.wire.args == e.args
    ensures Step(w, h, env).p.confirmations == w.p.confirmations + [e.id]
  {
    hide ConfirmedOk, UnansweredKept, OneContinuation, TakenOk, Increasing, SentIn, OnConfirm;
    if h.PublishCalled? {
      PublishLeavesNone(w.p, w.started, h.args, h.owner, env, e);
      assert false;
    } else if IsCurrentAck(w, h) {
      AckKeepsAccount(w, h.wire, env);
      AckLeaves(w.p, h.wire.id, env, e);
    } else {
      StepIsCalm(w, h, env);
      SameEntriesHas(w.p.ledger, React(w, h, env).ledger, e.id);
      assert false;
    }
  }

  lemma AckLeaves(p: Pub, id: nat, env: Env, e: Entry)
    requires WellFormed(p.ledger) && e in p.ledger.entries
    requires !Has(OnConfirm(p, p.state.generation, id, false, env).ledger, e.id)
    ensures id == e.id
  {
    ConfirmRemoves(p.ledger, id);
  }

  lemma PublishLeavesNone(p: Pub, started: bool, args: PublishArgs, owner: nat, env: Env, e: Entry)
    requires Quiet(p, started) && e in p.ledger.entries
    ensures Has(Publish(p, args, owner, env).ledger, e.id)
  {
    PublishKeepsQuiet(p, started, args, owner, env);
    assert e in WithEntry(p, args, owner).ledger.entries;
    SameEntriesHas(WithEntry(p, args, owner).ledger, Publish(p, args, owner, env).ledger, e.id);
  }

  /** In every run, what is sent follows the state, and the channels took each entry once and in order. */
  lemma SentExactlyWhileReady(timeoutMs: nat, time: int, moves: seq<Move>)
    requires IsRun(timeoutMs, time, moves)
    ensures var p := Final(timeoutMs, time, moves).p;
      && p.ledger.sentCount == SentIn(p.ledger.entries)
      && (p.state.Ready? ==>
            && p.ledger.sentCount == |p.ledger.entries|
            && forall e <- p.ledger.entries :: e.state == Sent(p.state.generation) && Wire(p.state.generation, e.id, e.args) in p.taken)
      && (!p.state.Ready? && !p.state.Stopped? ==>
            p.ledger.sentCount == 0 && forall e <- p.ledger.entries :: e.state == Pending)
      && (forall i, j :: 0 <= i < j < |p.taken| && p.taken[i].generation == p.taken[j].generation ==>
            p.taken[i].id < p.taken[j].id)
  {
    RunKeepsInv(timeoutMs, time, moves);
    var w := Final(timeoutMs, time, moves);
    hide Final, IsRun, Account, StallOk, OneContinuation;
    if w.p.state.Ready? {
      AllSent(w.p.ledger.entries);
    } else if !w.p.state.Stopped? {
      NoneSent(w.p.ledger.entries);
    }
  }

  /** The step every state but `Ready` waits for, and what it leads to. */
  /**
   * Where the end of an attempt leads from `s`: with its channel and no trigger met, to ready, or past
   * it when the sending recycles; otherwise to a backoff, with the trigger met or its own reason.
   */
  ghost predicate AttemptLeads(s: State, end: AttemptEnd, s': State)
    requires s.Connecting?
  {
    if end == SetupResolved(true) && s.failure.None? then
      (s'.Ready? && s'.generation == s.generation) || (s'.Recycling? && s'.generation == s.generation + 1)
    else
      && s'.Backoff? && s'.generation == s.generation && s'.attempt == s.attempt + 1
      && match s.failure
         case Some(reason) => s'.reason == reason
         case None =>
           match end
           case ConnectFailed => s'.reason == "connect_failed"
           case SetupTimedOut => s'.reason == "setup_timed_out"
           case SetupFailed => s'.reason == "setup_failed"
           case SetupResolved(_) => s'.reason == "superseded"
  }

  ghost predicate MovesOn(p: Pub, env: Env) {
    match p.state
    case Connecting(g, _, _, _) =>
      p.attempts == [g] && forall end :: AttemptLeads(p.state, end, OnAttemptEnd(p, 0, end, env).state)
    case Recycling(g, attempt, reason) =>
      |p.closes| == 1 && OnCloseEnd(p, 0, env).state == Backoff(g, attempt, reason)
    case Backoff(g, attempt, _) =>
      p.timers == [g] && OnTimer(p, 0, env).state == Connecting(g + 1, attempt, false, None)
    case Ready(g, _, _, _) =>
      p.link == Some(g)
    case Stopped(_) =>
      p.timers == []
  }

  /**
   * In every run, once started: the state holds exactly one continuation, of its own generation, and
   * that one leads out of it. A send always finds its channel, and the listeners know the readiness.
   */
  lemma NeverStuck(timeoutMs: nat, time: int, moves: seq<Move>, env: Env)
    requires IsRun(timeoutMs, time, moves)
    ensures var w := Final(timeoutMs, time, moves);
      && !w.p.broken && w.p.told == IsReady(w.p.state)
      && OneContinuation(w.p, w.started)
      && (w.started ==> MovesOn(w.p, env))
  {
    RunKeepsInv(timeoutMs, time, moves);
    var w := Final(timeoutMs, time, moves);
    hide Final, IsRun, Account, StallOk;
    if w.started {
      ContinuationMovesOn(w.p, env);
    }
  }

  lemma ContinuationMovesOn(p: Pub, env: Env)
    requires Quiet(p, true)
    ensures MovesOn(p, env)
  {
    hide LedgerOk, TakenOk;
    match p.state
    case Connecting(g, _, _, _) =>
      forall end ensures AttemptLeads(p.state, end, OnAttemptEnd(p, 0, end, env).state) {
        AttemptLeadsOn(p, end, env);
      }
    case Recycling(g, attempt, reason) =>
      CloseLeadsOn(p, env);
    case Backoff(g, attempt, _) =>
      TimerLeadsOn(p, env);
    case _ =>
  }

  lemma AttemptLeadsOn(p: Pub, end: AttemptEnd, env: Env)
    requires Quiet(p, true) && p.state.Connecting?
    ensures AttemptLeads(p.state, end, OnAttemptEnd(p, 0, end, env).state)
  {
    var generation := p.attempts[0];
    var ended := p.(attempts := p.attempts[..0] + p.attempts[1..]);
    if end == SetupResolved(true) && MayContinue(p.state, generation) {
      var sent, n := SuccessSendsAll(ended.(link := Some(generation)), env);
    } else {
      var e := AttemptFailed(generation, EndReason(end));
      var t := Next(ended.state, e);
      DispatchSimple(ended, e, env);
      RunOne(Entered(ended, t.state), StartBackoff(t.state.attempt, t.state.reason), env);
    }
  }

  lemma CloseLeadsOn(p: Pub, env: Env)
    requires OneContinuation(p, true) && p.state.Recycling?
    ensures |p.closes| == 1 && OnCloseEnd(p, 0, env).state == Backoff(p.state.generation, p.state.attempt, p.state.reason)
  {
    var ended := p.(closes := p.closes[..0] + p.closes[1..], link := None);
    var e := CloseFinished(p.state.generation);
    DispatchSimple(ended, e, env);
    RunOne(Entered(ended, Next(ended.state, e).state), StartBackoff(p.state.attempt, p.state.reason), env);
  }

  lemma TimerLeadsOn(p: Pub, env: Env)
    requires OneContinuation(p, true) && p.state.Backoff?
    ensures p.timers == [p.state.generation]
    ensures OnTimer(p, 0, env).state == Connecting(p.state.generation + 1, p.state.attempt, false, None)
  {
    var fired := p.(timers := p.timers[..0] + p.timers[1..]);
    var e := BackoffElapsed(p.state.generation);
    DispatchSimple(fired, e, env);
    RunTwo(Entered(fired, Next(p.state, e).state), Lose, StartAttempt, env);
  }

  // ---------- The stall clock over a run ----------

  lemma {:induction false} TimeNeverFalls(timeoutMs: nat, time: int, moves: seq<Move>, k: nat)
    requires IsRun(timeoutMs, time, moves) && k <= |moves|
    ensures IsRun(timeoutMs, time, moves[..k])
    ensures Final(timeoutMs, time, moves[..k]).time <= Final(timeoutMs, time, moves).time
    decreases |moves|
  {
    if k == |moves| {
      assert moves[..k] == moves;
    } else {
      var front := moves[..|moves| - 1];
      assert front[..k] == moves[..k];
      TimeNeverFalls(timeoutMs, time, front, k);
    }
  }

  /** `waitingSince` is what it says: every world of the run after that moment is in the same wait. */
  lemma {:induction false} WaitingSinceMeans(timeoutMs: nat, time: int, moves: seq<Move>, k: nat)
    requires IsRun(timeoutMs, time, moves) && Waiting(Final(timeoutMs, time, moves).p) && k <= |moves|
    requires var since := Final(timeoutMs, time, moves).waitingSince;
      since.Some? && Final(timeoutMs, time, moves[..k]).time > since.value
    ensures SameWait(Final(timeoutMs, time, moves[..k]).p, Final(timeoutMs, time, moves).p)
    decreases |moves|
  {
    var w := Final(timeoutMs, time, moves);
    if k == |moves| {
      assert moves[..k] == moves;
    } else {
      var front := moves[..|moves| - 1];
      assert front[..k] == moves[..k];
      TimeNeverFalls(timeoutMs, time, moves, k);
      var before := Final(timeoutMs, time, front);
      hide Final, React;
      assert SameWait(before.p, w.p) && w.waitingSince == before.waitingSince by {
        WaitGoesOn(timeoutMs, time, moves, k);
      }
      WaitingSinceMeans(timeoutMs, time, front, k);
    }
  }

  lemma WaitGoesOn(timeoutMs: nat, time: int, moves: seq<Move>, k: nat)
    requires IsRun(timeoutMs, time, moves) && Waiting(Final(timeoutMs, time, moves).p) && k < |moves|
    requires var w := Final(timeoutMs, time, moves);
      w.waitingSince.Some? && w.waitingSince.value < Final(timeoutMs, time, moves[..k]).time <= w.time
    ensures var before, w := Final(timeoutMs, time, moves[..|moves| - 1]), Final(timeoutMs, time, moves);
      SameWait(before.p, w.p) && w.waitingSince == before.waitingSince
  {
    hide React;
  }

  /**
   * A confirm stall recycles the connection only if, for more than the whole timeout, that same
   * connection was ready and unblocked, something was sent on it, and no ack arrived.
   */
  lemma StallMeansSilence(timeoutMs: nat, time: int, moves: seq<Move>, env: Env)
    requires IsRun(timeoutMs, time, moves)
    requires var w := Final(timeoutMs, time, moves);
      env.now >= w.time && CheckStall(w.p, timeoutMs, env) != w.p
    ensures var w := Final(timeoutMs, time, moves);
      && CheckStall(w.p, timeoutMs, env) == Recycled(w.p, "confirm_stall", env.now)
      && w.waitingSince.Some? && env.now - w.waitingSince.value > timeoutMs
      && forall k :: 0 <= k <= |moves| && Final(timeoutMs, time, moves[..k]).time > w.waitingSince.value ==>
           SameWait(Final(timeoutMs, time, moves[..k]).p, w.p)
  {
    RunKeepsInv(timeoutMs, time, moves);
    var w := Final(timeoutMs, time, moves);
    TriggerRecycles(w.p, "confirm_stall", env);
    hide Final, IsRun, Quiet, Account;
    forall k | 0 <= k <= |moves| && Final(timeoutMs, time, moves[..k]).time > w.waitingSince.value
      ensures SameWait(Final(timeoutMs, time, moves[..k]).p, w.p) {
      WaitingSinceMeans(timeoutMs, time, moves, k);
    }
  }

  /**
   * And it always does: once that wait has lasted longer than the timeout, the next check recycles the
   * connection. A steady stream of sends does not hide a broker that stopped answering.
   */
  lemma SilenceMeansStall(timeoutMs: nat, time: int, moves: seq<Move>, env: Env)
    requires IsRun(timeoutMs, time, moves)
    ensures var w := Final(timeoutMs, time, moves);
      CheckStall(w.p, timeoutMs, env) ==
        if Waiting(w.p) && w.waitingSince.Some? && env.now - w.waitingSince.value > timeoutMs
        then Recycled(w.p, "confirm_stall", env.now)
        else w.p
  {
    RunKeepsInv(timeoutMs, time, moves);
    var w := Final(timeoutMs, time, moves);
    hide Final, IsRun, Quiet, Account;
    if w.p.state.Ready? {
      TriggerRecycles(w.p, "confirm_stall", env);
    }
  }

  // ---------- Every send is answered or still waited for ----------

  /** No entry of a ready publisher has had the answer to its send. */
  ghost predicate AnswersOk(w: World) {
    && (forall wire <- w.answered :: wire in w.p.taken)
    && (w.p.state.Ready? ==> forall e <- w.p.ledger.entries :: Wire(w.p.state.generation, e.id, e.args) !in w.answered)
  }

  /** What an answer that is not an ack leaves: a nack of the current generation ends it. */
  lemma NackEndsGeneration(w: World, wire: Wire, env: Env)
    requires Inv(w) && Enabled(w, Nacks(wire), env)
    ensures var p' := React(w, Nacks(wire), env);
      if wire.generation == w.p.state.generation then p' == Recycled(w.p, "nacked", env.now) else p' == w.p
  {
    hide Account, StallOk, LedgerOk, OneContinuation;
    if wire.generation == w.p.state.generation {
      TriggerRecycles(w.p, "nacked", env);
    }
  }

  /** A calm step: the entries are the same, and an answer that came is of a generation that is over now. */
  lemma CalmKeepsAnswers(w: World, w': World)
    requires AnswersOk(w) && TakenOk(w.p) && Carries(w.p, w'.p) && w.answered <= w'.answered
    requires forall wire <- w'.answered :: wire in w.answered || (wire in w.p.taken && (w'.p.state.Ready? ==> wire.generation < w'.p.state.generation))
    ensures AnswersOk(w')
  {
    hide Before;
    if w'.p.state.Ready? {
      forall e <- w'.p.ledger.entries ensures Wire(w'.p.state.generation, e.id, e.args) !in w'.answered {
        var i :| 0 <= i < |w'.p.ledger.entries| && w'.p.ledger.entries[i] == e;
        assert w.p.ledger.entries[i] in w.p.ledger.entries;
      }
    }
  }

  lemma AckKeepsAnswers(w: World, wire: Wire, env: Env)
    requires AnswersOk(w) && Inv(w) && Enabled(w, Acks(wire), env) && wire.generation == w.p.state.generation
    ensures AnswersOk(Step(w, Acks(wire), env))
  {
    AckLeavesOthers(w.p, wire, env);
    hide Inv, OnConfirm, Has;
  }

  lemma AckLeavesOthers(p: Pub, wire: Wire, env: Env)
    requires WellFormed(p.ledger) && wire.generation == p.state.generation
    ensures var p' := OnConfirm(p, wire.generation, wire.id, false, env);
      p'.state == p.state && p'.taken == p.taken && forall e <- p'.ledger.entries :: e in p.ledger.entries && e.id != wire.id
  {
    ConfirmRemoves(p.ledger, wire.id);
    hide Increasing, SentIn, Confirmed;
  }

  lemma PublishKeepsAnswers(w: World, args: PublishArgs, owner: nat, env: Env)
    requires AnswersOk(w) && Inv(w)
    ensures AnswersOk(Step(w, PublishCalled(args, owner), env))
  {
    QuietParts(w.p, w.started);
    PublishKeepsQuiet(w.p, w.started, args, owner, env);
    AddedEntry(w.p, args, owner);
    hide Inv, Quiet, Publish, WellFormed, IndexOf, Carries, TakenOk, AnswersOk;
    AddedKeepsAnswers(w, WithEntry(w.p, args, owner), NewEntry(w.p.ledger, args, owner), Step(w, PublishCalled(args, owner), env));
  }

  /** The answers are about wires of earlier entries, so none is about the entry just added. */
  lemma AddedKeepsAnswers(w: World, added: Pub, e: Entry, w': World)
    requires AnswersOk(w) && TakenOk(w.p)
    requires added.ledger.entries == w.p.ledger.entries + [e] && e.id == w.p.ledger.nextId && added.taken == w.p.taken
    requires Carries(added, w'.p) && (w'.p.state.Ready? ==> w.p.state == w'.p.state) && w'.answered == w.answered
    ensures AnswersOk(w')
  {
    hide Before, NewlySentTaken;
    if w'.p.state.Ready? {
      forall e' <- w'.p.ledger.entries ensures Wire(w'.p.state.generation, e'.id, e'.args) !in w.answered {
        var i :| 0 <= i < |w'.p.ledger.entries| && w'.p.ledger.entries[i] == e';
        if i < |w.p.ledger.entries| {
          assert w.p.ledger.entries[i] in w.p.ledger.entries;
        }
      }
    }
  }

  lemma StepKeepsAnswers(w: World, h: Happening, env: Env)
    requires AnswersOk(w) && Inv(w) && Enabled(w, h, env)
    ensures AnswersOk(Step(w, h, env))
  {
    if h.PublishCalled? {
      PublishKeepsAnswers(w, h.args, h.owner, env);
    } else if IsCurrentAck(w, h) {
      AckKeepsAnswers(w, h.wire, env);
    } else {
      StepIsCalm(w, h, env);
      if h.Nacks? {
        NackEndsGeneration(w, h.wire, env);
      }
      QuietParts(w.p, w.started);
      hide Account, StallOk, Quiet, React, AnswersOk, TakenOk, WellFormed;
      CalmKeepsAnswers(w, Step(w, h, env));
    }
  }

  lemma {:induction false} RunKeepsAnswers(timeoutMs: nat, time: int, moves: seq<Move>)
    requires IsRun(timeoutMs, time, moves)
    ensures AnswersOk(Final(timeoutMs, time, moves))
    decreases |moves|
  {
    if moves != [] {
      hide Inv, Step, Enabled, AnswersOk;
      var front, last := moves[..|moves| - 1], moves[|moves| - 1];
      RunKeepsInv(timeoutMs, time, front);
      RunKeepsAnswers(timeoutMs, time, front);
      StepKeepsAnswers(Final(timeoutMs, time, front), last.h, last.env);
    }
  }

  /**
   * In every run each entry of a ready publisher was sent on this very connection and neither acked,
   * nacked nor returned on it: an answer can still come, and until then the stall check watches it.
   */
  lemma EverySendAwaitsItsAnswer(timeoutMs: nat, time: int, moves: seq<Move>)
    requires IsRun(timeoutMs, time, moves)
    ensures var w := Final(timeoutMs, time, moves);
      w.p.state.Ready? ==> forall e <- w.p.ledger.entries ::
        var wire := Wire(w.p.state.generation, e.id, e.args);
        wire in w.p.taken && wire !in w.answered && wire !in w.returned
  {
    RunKeepsInv(timeoutMs, time, moves);
    RunKeepsAnswers(timeoutMs, time, moves);
    hide Final, IsRun, StallOk, OneContinuation, LedgerOk;
  }

  // ---------- What counts as sent before ----------

  ghost predicate SentMeansTaken(p: Pub) {
    forall e <- p.ledger.entries :: e.wasSent ==> exists wire <- p.taken :: wire.id == e.id
  }

  lemma CarriesSentMeansTaken(p: Pub, p': Pub)
    requires SentMeansTaken(p) && Carries(p, p')
    ensures SentMeansTaken(p')
  {
    forall e <- p'.ledger.entries | e.wasSent ensures exists wire <- p'.taken :: wire.id == e.id {
      var i :| 0 <= i < |p'.ledger.entries| && p'.ledger.entries[i] == e;
      if p.ledger.entries[i].wasSent {
        assert p.ledger.entries[i] in p.ledger.entries;
        var wire :| wire in p.taken && wire.id == e.id;
        assert wire in p'.taken;
      }
    }
  }

  lemma PublishKeepsSentMeansTaken(w: World, args: PublishArgs, owner: nat, env: Env)
    requires SentMeansTaken(w.p) && Inv(w)
    ensures SentMeansTaken(Publish(w.p, args, owner, env))
  {
    QuietParts(w.p, w.started);
    PublishKeepsQuiet(w.p, w.started, args, owner, env);
    AddedEntry(w.p, args, owner);
    hide Inv, Quiet, Publish, WellFormed, TakenOk, Carries;
    CarriesSentMeansTaken(WithEntry(w.p, args, owner), Publish(w.p, args, owner, env));
  }

  lemma StepKeepsSentMeansTaken(w: World, h: Happening, env: Env)
    requires SentMeansTaken(w.p) && Inv(w) && Enabled(w, h, env)
    ensures SentMeansTaken(Step(w, h, env).p)
  {
    if h.PublishCalled? {
      PublishKeepsSentMeansTaken(w, h.args, h.owner, env);
    } else if IsCurrentAck(w, h) {
      QuietParts(w.p, w.started);
      AckLeavesOthers(w.p, h.wire, env);
      hide Inv, Quiet, WellFormed, TakenOk, OnConfirm;
    } else {
      StepIsCalm(w, h, env);
      hide Inv, Quiet, React, Carries;
      CarriesSentMeansTaken(w.p, Step(w, h, env).p);
    }
  }

  /** In every run what is marked as sent before was taken by a channel: `republished` counts no first send. */
  lemma {:induction false} SentBeforeMeansTaken(timeoutMs: nat, time: int, moves: seq<Move>)
    requires IsRun(timeoutMs, time, moves)
    ensures SentMeansTaken(Final(timeoutMs, time, moves).p)
    decreases |moves|
  {
    if moves != [] {
      hide Inv, Step, Enabled, SentMeansTaken;
      var front, last := moves[..|moves| - 1], moves[|moves| - 1];
      RunKeepsInv(timeoutMs, time, front);
      SentBeforeMeansTaken(timeoutMs, time, front);
      StepKeepsSentMeansTaken(Final(timeoutMs, time, front), last.h, last.env);
    }
  }

  /** In every run a nack or a return of the present connection recycles it, and every entry is pending again. */
  lemma RefusalRecycles(timeoutMs: nat, time: int, moves: seq<Move>, move: Move)
    requires IsRun(timeoutMs, time, moves) && Enabled(Final(timeoutMs, time, moves), move.h, move.env)
    requires (move.h.Nacks? || move.h.Returns?) && move.h.wire.generation == Final(timeoutMs, time, moves).p.state.generation
    ensures var w, p' := Final(timeoutMs, time, moves), Step(Final(timeoutMs, time, moves), move.h, move.env).p;
      && w.p.state.Ready? && p'.state.Recycling?
      && p'.state.reason == (if move.h.Nacks? then "nacked" else "returned")
      && p'.state.generation == w.p.state.generation + 1 && p'.closes == [Close(p'.state.generation, w.p.link)]
      && |p'.ledger.entries| == |w.p.ledger.entries| && p'.ledger.sentCount == 0
      && (forall i :: 0 <= i < |w.p.ledger.entries| ==> p'.ledger.entries[i] == w.p.ledger.entries[i].(state := Pending))
      && p'.returned == w.p.returned + if move.h.Returns? then 1 else 0
  {
    RunKeepsInv(timeoutMs, time, moves);
    hide Final, IsRun;
    RefusalEnds(Final(timeoutMs, time, moves), move.h, move.env);
    hide Inv, Enabled, React;
  }

  lemma RefusalEnds(w: World, h: Happening, env: Env)
    requires Inv(w) && Enabled(w, h, env) && (h.Nacks? || h.Returns?) && h.wire.generation == w.p.state.generation
    ensures w.p.state.Ready? && w.p.closes == []
    ensures var counted := if h.Returns? then w.p.(returned := w.p.returned + 1) else w.p;
      React(w, h, env) == Recycled(counted, if h.Nacks? then "nacked" else "returned", env.now)
  {
    hide Account, StallOk, LedgerOk;
    if h.Nacks? {
      NackEndsGeneration(w, h.wire, env);
    } else {
      TriggerRecycles(w.p.(returned := w.p.returned + 1), "returned", env);
    }
  }

  // ---------- A run that confirms ----------

  /** A channel that takes everything, at one moment. */
  function Taking(now: int): Env {
    Env(now, _ => Outcome(true, false))
  }

  lemma StartedPublisher(now: int)
    ensures var p := Start(NEW_PUBLISHER, Taking(now));
      p == NEW_PUBLISHER.(state := Connecting(1, 0, false, None), attempts := [1])
  {
    var e := BackoffElapsed(0);
    DispatchSimple(NEW_PUBLISHER, e, Taking(now));
    RunTwo(Entered(NEW_PUBLISHER, Connecting(1, 0, false, None)), Lose, StartAttempt, Taking(now));
    assert Lost([]) == [];
  }

  lemma ReadyPublisher(p: Pub, now: int)
    requires p == NEW_PUBLISHER.(state := Connecting(1, 0, false, None), attempts := [1])
    ensures OnAttemptEnd(p, 0, SetupResolved(true), Taking(now)) ==
            NEW_PUBLISHER.(state := Ready(1, 0, false, now), link := Some(1), told := true, clock := Some(now))
  {
    var linked := p.(attempts := p.attempts[..0] + p.attempts[1..], link := Some(1));
    assert linked.attempts == [];
    SuccessDispatched(linked, Taking(now));
    assert PendingOf(linked.ledger.entries) == [];
    NothingToDrainNow(NEW_PUBLISHER.(state := Ready(1, 0, false, now), link := Some(1), told := true, clock := Some(now)), Taking(now));
  }

  lemma NothingToDrainNow(p: Pub, env: Env)
    ensures Drain(p, [], env) == p
  {
  }

  /** The guarantees are about runs that exist: some run confirms a message that some device sent. */
  lemma SomeRunConfirms(args: PublishArgs, owner: nat, timeoutMs: nat, now: int) returns (moves: seq<Move>)
    ensures IsRun(timeoutMs, now, moves) && Final(timeoutMs, now, moves).p.confirmed == 1
    ensures Final(timeoutMs, now, moves).accepted == [args]
  {
    var env, wire := Taking(now), Wire(1, 1, args);
    var w0 := Begin(timeoutMs, now);
    var w1 := Step(w0, Started, env);
    StartedPublisher(now);
    var w2 := Step(w1, AttemptEnded(0, SetupResolved(true)), env);
    ReadyPublisher(w1.p, now);
    var w3 := Step(w2, PublishCalled(args, owner), env);
    assert w3.p.taken == [wire];
    var w4 := Step(w3, Enqueues(wire), env);
    var w5 := Step(w4, Acks(wire), env);
    assert w5.p.confirmed == 1;
    moves := [];
    moves := OneMoreMove(timeoutMs, now, moves, w0, Started, env);
    moves := OneMoreMove(timeoutMs, now, moves, w1, AttemptEnded(0, SetupResolved(true)), env);
    moves := OneMoreMove(timeoutMs, now, moves, w2, PublishCalled(args, owner), env);
    moves := OneMoreMove(timeoutMs, now, moves, w3, Enqueues(wire), env);
    moves := OneMoreMove(timeoutMs, now, moves, w4, Acks(wire), env);
  }

  lemma OneMoreMove(timeoutMs: nat, time: int, moves: seq<Move>, w: World, h: Happening, env: Env) returns (longer: seq<Move>)
    requires IsRun(timeoutMs, time, moves) && Final(timeoutMs, time, moves) == w && Enabled(w, h, env)
    ensures IsRun(timeoutMs, time, longer) && Final(timeoutMs, time, longer) == Step(w, h, env)
  {
    longer := moves + [Move(h, env)];
    assert longer[..|longer| - 1] == moves;
  }
}
