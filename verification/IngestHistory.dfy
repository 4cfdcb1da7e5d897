/**
 * What the server's state says of the run behind it: the caps are the configured ones, a connection is
 * refusing exactly because of something that happened to it, and the drain is what was asked and ended.
 */
module IngestHistory {
  import opened Telemetry
  import opened Flow
  import opened IngestServers
  import opened PublisherState
  import opened Ledgers
  import opened Publishers
  import opened PublisherSteps
  import opened PublisherRuns
  import opened IngestRuns

  // ---------- Refusing connections ----------

  /** What makes the server close the connection called `id`: a binary message, an error, or the budget of the drain. */
  ghost predicate Strikes(x: Ingest, a: Arrival, id: nat) {
    match a
    case Rejects(i, binary) => binary && i < |x.s.conns| && x.s.conns[i].id == id
    case Fails(i) => i < |x.s.conns| && x.s.conns[i].id == id
    case DrainExpires => exists c <- x.s.conns :: c.id == id
    case _ => false
  }

  ghost predicate Struck(first: Ingest, moves: seq<IngestMove>, id: nat)
    decreases |moves|
  {
    moves != [] &&
    var front, last := moves[..|moves| - 1], moves[|moves| - 1];
    Struck(first, front, id) || Strikes(FinalIngest(first, front), last.a, id)
  }

  /** The same connection, refusing when it was or when it was struck. */
  ghost predicate Carries(c: Conn, c': Conn, struck: bool) {
    c'.id == c.id && c'.window.cap == c.window.cap && (c'.refusing <==> c.refusing || struck)
  }

  ghost predicate SameConns(s: Server, s': Server) {
    && |s'.conns| == |s.conns| && s'.nextId == s.nextId
    && forall i :: 0 <= i < |s.conns| ==> Carries(s.conns[i], s'.conns[i], false)
  }

  ghost predicate SameCaps(s: Server, s': Server) {
    s'.connectionCap == s.connectionCap && s'.instance.cap == s.instance.cap
  }

  lemma MessagedCarries(s: Server, i: nat, told: bool, told': bool, ready: bool)
    requires i < |s.conns|
    ensures var s' := Messaged(s, i, told, told', ready); SameConns(s, s') && SameCaps(s, s') && s'.drain == s.drain
  {
  }

  lemma ConfirmedCarries(s: Server, owner: nat, ready: bool, unconfirmed: nat)
    ensures var s' := ConfirmedFor(s, owner, ready, unconfirmed); SameConns(s, s') && SameCaps(s, s')
  {
    hide PositionOf;
  }

  /** A step that neither strikes nor opens nor closes a connection. */
  ghost predicate LeavesConns(a: Arrival) {
    a.Receives? || a.Moves? || a.ShutsDown? || (a.Rejects? && !a.binary)
  }

  lemma LeavingStepCarries(x: Ingest, a: Arrival, env: Env)
    requires CanHappen(x, a, env) && LeavesConns(a)
    ensures SameConns(x.s, After(x, a, env).s) && SameCaps(x.s, After(x, a, env).s)
  {
    hide Step, Messaged, ConfirmedFor, Enabled;
    match a
    case Receives(i, args) =>
      var w := Step(x.w, PublishCalled(args, x.s.conns[i].id), env);
      MessagedCarries(x.s, i, x.w.p.told, w.p.told, IsReady(w.p.state));
    case Moves(h) =>
      var w, entries := Step(x.w, h, env), x.w.p.ledger.entries;
      if IsCurrentAck(x.w, h) && IndexOf(entries, h.wire.id) < |entries| {
        ConfirmedCarries(x.s, entries[IndexOf(entries, h.wire.id)].owner, IsReady(w.p.state), |w.p.ledger.entries|);
      }
    case _ =>
  }

  lemma OtherStepCarries(x: Ingest, a: Arrival, env: Env)
    requires IdsOk(x.s, x.w.p.ledger.entries) && CanHappen(x, a, env) && !LeavesConns(a)
    ensures var s' := After(x, a, env).s;
      && SameCaps(x.s, s') && s'.nextId == x.s.nextId + (if a.Accepts? then 1 else 0)
      && forall i :: 0 <= i < |s'.conns| ==> Origin(x, a, s'.conns[i])
  {
    var s, s' := x.s, After(x, a, env).s;
    forall i | 0 <= i < |s'.conns| ensures Origin(x, a, s'.conns[i]) {
      if a.Accepts? {
        if i < |s.conns| {
          assert s.conns[i] in s.conns && s'.conns[i] == s.conns[i];
        }
      } else {
        var j := if a.Closes? then Skipping(a.i, i) else i;
        assert s.conns[j] in s.conns && Carries(s.conns[j], s'.conns[i], Strikes(x, a, s.conns[j].id));
      }
    }
  }

  /** Where a connection after the step comes from: just accepted, or one there was. */
  ghost predicate Origin(x: Ingest, a: Arrival, c': Conn) {
    || (a.Accepts? && c'.id == x.s.nextId && c'.window.cap == x.s.connectionCap && !c'.refusing)
    || exists c <- x.s.conns :: Carries(c, c', Strikes(x, a, c.id))
  }

  lemma StepCarries(x: Ingest, a: Arrival, env: Env)
    requires IdsOk(x.s, x.w.p.ledger.entries) && CanHappen(x, a, env)
    ensures var s' := After(x, a, env).s;
      && SameCaps(x.s, s') && s'.nextId == x.s.nextId + (if a.Accepts? then 1 else 0)
      && forall i :: 0 <= i < |s'.conns| ==> Origin(x, a, s'.conns[i])
  {
    if LeavesConns(a) {
      LeavingStepCarries(x, a, env);
      hide After, CanHappen;
      forall i | 0 <= i < |x.s.conns| ensures Origin(x, a, After(x, a, env).s.conns[i]) {
        assert x.s.conns[i] in x.s.conns;
      }
    } else {
      OtherStepCarries(x, a, env);
    }
  }

  ghost predicate HistoryOk(x: Ingest, connectionCap: nat, instanceCap: nat, first: Ingest, moves: seq<IngestMove>) {
    && x.s.connectionCap == connectionCap && x.s.instance.cap == instanceCap
    && (forall id: nat :: Struck(first, moves, id) ==> id < x.s.nextId)
    && forall c <- x.s.conns :: c.window.cap == connectionCap && (c.refusing <==> Struck(first, moves, c.id))
  }

  lemma {:induction false} RunKeepsHistory(connectionCap: nat, instanceCap: nat, timeoutMs: nat, time: int, moves: seq<IngestMove>)
    requires connectionCap > 0 && instanceCap > 0 && IsIngestRun(Fresh(connectionCap, instanceCap, timeoutMs, time), moves)
    ensures var first := Fresh(connectionCap, instanceCap, timeoutMs, time);
      HistoryOk(FinalIngest(first, moves), connectionCap, instanceCap, first, moves)
    decreases |moves|
  {
    hide After, CanHappen, HistoryOk, Fresh, IdsOk, DrainOk;
    if moves == [] {
      FreshHistory(connectionCap, instanceCap, timeoutMs, time);
    } else {
      RunKeepsHistory(connectionCap, instanceCap, timeoutMs, time, moves[..|moves| - 1]);
      RunKeepsIds(connectionCap, instanceCap, timeoutMs, time, moves[..|moves| - 1]);
      LastStepKeepsHistory(connectionCap, instanceCap, Fresh(connectionCap, instanceCap, timeoutMs, time), moves);
    }
  }

  lemma LastStepKeepsHistory(connectionCap: nat, instanceCap: nat, first: Ingest, moves: seq<IngestMove>)
    requires moves != [] && IsIngestRun(first, moves)
    requires var x := FinalIngest(first, moves[..|moves| - 1]);
      HistoryOk(x, connectionCap, instanceCap, first, moves[..|moves| - 1]) && IdsOk(x.s, x.w.p.ledger.entries)
    ensures HistoryOk(FinalIngest(first, moves), connectionCap, instanceCap, first, moves)
  {
    hide After, CanHappen, HistoryOk, IdsOk, FinalIngest, Origin;
    var front, last := moves[..|moves| - 1], moves[|moves| - 1];
    StepCarries(FinalIngest(first, front), last.a, last.env);
    HistoryGoesOn(connectionCap, instanceCap, first, front, last);
    assert front + [last] == moves;
  }

  lemma FreshHistory(connectionCap: nat, instanceCap: nat, timeoutMs: nat, time: int)
    ensures var first := Fresh(connectionCap, instanceCap, timeoutMs, time);
      HistoryOk(first, connectionCap, instanceCap, first, [])
  {
  }

  lemma RunKeepsIds(connectionCap: nat, instanceCap: nat, timeoutMs: nat, time: int, moves: seq<IngestMove>)
    requires connectionCap > 0 && instanceCap > 0 && IsIngestRun(Fresh(connectionCap, instanceCap, timeoutMs, time), moves)
    ensures var x := FinalIngest(Fresh(connectionCap, instanceCap, timeoutMs, time), moves); IdsOk(x.s, x.w.p.ledger.entries)
    ensures var x := FinalIngest(Fresh(connectionCap, instanceCap, timeoutMs, time), moves); DrainOk(x.s, |x.w.p.ledger.entries|)
  {
    IngestRunKeepsInv(connectionCap, instanceCap, timeoutMs, time, moves);
    hide FinalIngest, IsIngestRun, Fresh, Inv, IdsOk, DrainOk, SizesOk, WindowsOk, ReadingOk;
  }

  lemma HistoryGoesOn(connectionCap: nat, instanceCap: nat, first: Ingest, front: seq<IngestMove>, last: IngestMove)
    requires var x := FinalIngest(first, front);
      && HistoryOk(x, connectionCap, instanceCap, first, front) && IdsOk(x.s, x.w.p.ledger.entries)
      && SameCaps(x.s, After(x, last.a, last.env).s)
      && After(x, last.a, last.env).s.nextId == x.s.nextId + (if last.a.Accepts? then 1 else 0)
      && forall i :: 0 <= i < |After(x, last.a, last.env).s.conns| ==> Origin(x, last.a, After(x, last.a, last.env).s.conns[i])
    ensures HistoryOk(FinalIngest(first, front + [last]), connectionCap, instanceCap, first, front + [last])
  {
    hide After;
    var x, moves := FinalIngest(first, front), front + [last];
    assert moves[..|moves| - 1] == front && moves[|moves| - 1] == last;
    var x' := FinalIngest(first, moves);
    forall id: nat ensures Struck(first, moves, id) <==> Struck(first, front, id) || Strikes(x, last.a, id) {
    }
    forall id: nat | Strikes(x, last.a, id) ensures id < x.s.nextId {
    }
    hide Struck, FinalIngest;
    forall c' <- x'.s.conns ensures c'.window.cap == connectionCap && (c'.refusing <==> Struck(first, moves, c'.id)) {
      assert Origin(x, last.a, c');
    }
  }

  /**
   * In every run a connection is refusing exactly when a binary message or an error came on it, or
   * the drain ran out of its budget with the connection open. It then takes nothing more in.
   */
  lemma RefusingMeansStruck(connectionCap: nat, instanceCap: nat, timeoutMs: nat, time: int, moves: seq<IngestMove>)
    requires connectionCap > 0 && instanceCap > 0 && IsIngestRun(Fresh(connectionCap, instanceCap, timeoutMs, time), moves)
    ensures var first := Fresh(connectionCap, instanceCap, timeoutMs, time);
      var x := FinalIngest(first, moves);
      forall i :: 0 <= i < |x.s.conns| ==>
        && (x.s.conns[i].refusing <==> Struck(first, moves, x.s.conns[i].id))
        && (x.s.conns[i].refusing ==> TakesNothing(x, i))
  {
    RunKeepsHistory(connectionCap, instanceCap, timeoutMs, time, moves);
    hide FinalIngest, Struck;
  }

  ghost predicate TakesNothing(x: Ingest, i: nat) {
    && (forall args, env :: After(x, Receives(i, args), env) == x)
    && (forall binary, env :: After(x, Rejects(i, binary), env) == x)
  }

  /**
   * In every run the windows have the configured caps, so a connection reads only while its own
   * messages in the ledger, and all of them together, are below what was configured.
   */
  lemma ReadsBelowTheCaps(connectionCap: nat, instanceCap: nat, timeoutMs: nat, time: int, moves: seq<IngestMove>)
    requires connectionCap > 0 && instanceCap > 0 && IsIngestRun(Fresh(connectionCap, instanceCap, timeoutMs, time), moves)
    ensures var x := FinalIngest(Fresh(connectionCap, instanceCap, timeoutMs, time), moves);
      var entries := x.w.p.ledger.entries;
      && (forall c <- x.s.conns :: c.reading ==> OwnedBy(entries, c.id) < connectionCap && |entries| < instanceCap)
      && (forall c <- x.s.conns :: IsReady(x.w.p.state) && !c.reading ==>
            OwnedBy(entries, c.id) > connectionCap / 2 || |entries| > instanceCap / 2)
  {
    RunKeepsHistory(connectionCap, instanceCap, timeoutMs, time, moves);
    IngestRunKeepsInv(connectionCap, instanceCap, timeoutMs, time, moves);
    hide Fresh, FinalIngest, IsIngestRun, Inv, OwnedBy, Received, IdsOk, Struck;
  }

  // ---------- The drain ----------

  ghost predicate Empty(x: Ingest) {
    x.s.conns == [] && x.w.p.ledger.entries == []
  }

  ghost predicate AskedToStop(moves: seq<IngestMove>) {
    exists m <- moves :: m.a.ShutsDown?
  }

  /** Asked to stop, and since then neither out of its budget nor ever without a connection and a message. */
  ghost predicate Waits(first: Ingest, moves: seq<IngestMove>)
    decreases |moves|
  {
    moves != [] &&
    var front, last := moves[..|moves| - 1], moves[|moves| - 1];
    && (Waits(first, front) || (last.a.ShutsDown? && !AskedToStop(front)))
    && !last.a.DrainExpires? && !Empty(FinalIngest(first, moves))
  }

  /** How one step moves the drain on, whatever the step is. */
  lemma StepMovesDrain(x: Ingest, a: Arrival, env: Env)
    requires CanHappen(x, a, env)
    ensures var x' := After(x, a, env);
      && (x'.s.drain.NotDraining? <==> x.s.drain.NotDraining? && !a.ShutsDown?)
      && (x'.s.drain.Draining? ==> x.s.drain.Draining? || (x.s.drain.NotDraining? && a.ShutsDown?))
      && (x'.s.drain.Draining? ==> !a.DrainExpires?)
      && (x'.s.drain.Drained? ==> x'.s.drain == x.s.drain || a.DrainExpires? || (x'.s.drain == Drained(0, 0) && Empty(x')))
      && (x.s.drain.Drained? ==> x'.s.drain == x.s.drain)
  {
    hide Step, Messaged, ConfirmedFor, Enabled, Heard;
    match a
    case Receives(i, args) =>
      var w := Step(x.w, PublishCalled(args, x.s.conns[i].id), env);
      MessagedCarries(x.s, i, x.w.p.told, w.p.told, IsReady(w.p.state));
    case Moves(h) =>
      var w, entries := Step(x.w, h, env), x.w.p.ledger.entries;
      if IsCurrentAck(x.w, h) && IndexOf(entries, h.wire.id) < |entries| {
        ConfirmMovesDrain(x.s, entries[IndexOf(entries, h.wire.id)].owner, IsReady(w.p.state), |w.p.ledger.entries|);
      } else {
        HeardKeepsDrain(x.s, x.w.p.told, w.p.told);
      }
    case _ =>
  }

  lemma HeardKeepsDrain(s: Server, told: bool, told': bool)
    ensures Heard(s, told, told').drain == s.drain
  {
  }

  lemma ConfirmMovesDrain(s: Server, owner: nat, ready: bool, unconfirmed: nat)
    ensures var s' := ConfirmedFor(s, owner, ready, unconfirmed);
      s'.drain == s.drain || (s.drain.Draining? && s'.drain == Drained(0, 0) && s'.conns == [] && unconfirmed == 0)
  {
    hide PositionOf;
  }

  lemma AskedOnceMore(front: seq<IngestMove>, last: IngestMove)
    ensures AskedToStop(front + [last]) <==> AskedToStop(front) || last.a.ShutsDown?
  {
  }

  ghost predicate DrainFollows(x: Ingest, first: Ingest, moves: seq<IngestMove>) {
    && (x.s.drain.NotDraining? <==> !AskedToStop(moves))
    && (x.s.drain.Draining? <==> Waits(first, moves))
  }

  lemma FreshDrain(connectionCap: nat, instanceCap: nat, timeoutMs: nat, time: int)
    ensures var first := Fresh(connectionCap, instanceCap, timeoutMs, time); DrainFollows(first, first, [])
  {
  }

  lemma LastStepMovesDrain(first: Ingest, moves: seq<IngestMove>)
    requires moves != [] && IsIngestRun(first, moves)
    requires var front := moves[..|moves| - 1]; DrainFollows(FinalIngest(first, front), first, front)
    requires var x := FinalIngest(first, moves); DrainOk(x.s, |x.w.p.ledger.entries|)
    ensures DrainFollows(FinalIngest(first, moves), first, moves)
  {
    hide After, CanHappen, AskedToStop;
    var front, last := moves[..|moves| - 1], moves[|moves| - 1];
    StepMovesDrain(FinalIngest(first, front), last.a, last.env);
    assert moves == front + [last];
    AskedOnceMore(front, last);
  }

  /**
   * In every run the drain is what was asked for: not begun while nobody asked, under way exactly
   * while it was asked for, has budget left and was never without a connection and a message.
   */
  lemma {:induction false} DrainMeansAsked(connectionCap: nat, instanceCap: nat, timeoutMs: nat, time: int, moves: seq<IngestMove>)
    requires connectionCap > 0 && instanceCap > 0 && IsIngestRun(Fresh(connectionCap, instanceCap, timeoutMs, time), moves)
    ensures var first := Fresh(connectionCap, instanceCap, timeoutMs, time);
      DrainFollows(FinalIngest(first, moves), first, moves)
    decreases |moves|
  {
    hide After, CanHappen, Fresh, IdsOk, DrainOk, DrainFollows;
    if moves != [] {
      DrainMeansAsked(connectionCap, instanceCap, timeoutMs, time, moves[..|moves| - 1]);
      RunKeepsIds(connectionCap, instanceCap, timeoutMs, time, moves);
      LastStepMovesDrain(Fresh(connectionCap, instanceCap, timeoutMs, time), moves);
    } else {
      FreshDrain(connectionCap, instanceCap, timeoutMs, time);
    }
  }

  /**
   * Out of its budget, the drain reports how many connections are open and how many messages are
   * unconfirmed, every connection is being closed, and nothing else changes. That report stays.
   */
  lemma BudgetEndsTheDrain(x: Ingest, env: Env)
    requires CanHappen(x, DrainExpires, env)
    ensures var x' := After(x, DrainExpires, env);
      && x'.s.drain.openConnections == |x.s.conns| && x'.s.drain.unconfirmed == |x.w.p.ledger.entries|
      && x'.w == x.w && x'.rejected == x.rejected && |x'.s.conns| == |x.s.conns|
      && (forall i :: 0 <= i < |x.s.conns| ==> x'.s.conns[i].refusing && x'.s.conns[i].(refusing := x.s.conns[i].refusing) == x.s.conns[i])
      && (forall a, env' :: CanHappen(x', a, env') ==> After(x', a, env').s.drain == x'.s.drain)
  {
    var x' := After(x, DrainExpires, env);
    assert x'.s.drain == Drained(|x.s.conns|, |x.w.p.ledger.entries|);
    forall a, env' | CanHappen(x', a, env') ensures After(x', a, env').s.drain == x'.s.drain {
      StepMovesDrain(x', a, env');
    }
  }
}
