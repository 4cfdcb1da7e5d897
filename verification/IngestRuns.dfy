/**
 * The server and the publisher together, over every run: the windows count exactly what waits for a
 * confirm, a connection reads exactly when it should, and the shutdown drain always waits for something.
 */
module IngestRuns {
  import opened Telemetry
  import opened Flow
  import opened IngestServers
  import opened PublisherState
  import opened Ledgers
  import opened Publishers
  import opened PublisherSteps
  import opened PublisherRuns

  /** `rejected` counts the messages that were turned away. */
  datatype Ingest = Ingest(w: World, s: Server, rejected: nat)

  /** `Moves` is a step of the publisher that no connection asked for. */
  datatype Arrival =
    | Accepts
    | Receives(i: nat, args: PublishArgs)
    | Rejects(i: nat, binary: bool)
    | Fails(i: nat)
    | Closes(i: nat)
    | Moves(h: Happening)
    | ShutsDown
    | DrainExpires

  function Fresh(connectionCap: nat, instanceCap: nat, timeoutMs: nat, time: int): Ingest {
    Ingest(Begin(timeoutMs, time), NewServer(connectionCap, instanceCap), 0)
  }

  /** Accepting ends with the drain; anything else can happen at any time, also on a paused connection. */
  ghost predicate CanHappen(x: Ingest, a: Arrival, env: Env) {
    match a
    case Accepts => !x.s.drain.Drained?
    case Receives(i, _) => i < |x.s.conns| && env.now >= x.w.time
    case Rejects(i, _) => i < |x.s.conns|
    case Fails(i) => i < |x.s.conns|
    case Closes(i) => i < |x.s.conns|
    case Moves(h) => !h.PublishCalled? && Enabled(x.w, h, env)
    case ShutsDown => true
    case DrainExpires => x.s.drain.Draining?
  }

  /** One valid message, from the socket to the ledger. */
  function Receive(x: Ingest, i: nat, args: PublishArgs, env: Env): Ingest
    requires i < |x.s.conns|
  {
    if x.s.conns[i].refusing then x
    else
      var w := Step(x.w, PublishCalled(args, x.s.conns[i].id), env);
      Ingest(w, Messaged(x.s, i, x.w.p.told, w.p.told, IsReady(w.p.state)), x.rejected)
  }

  /** One step of the publisher: an ack runs its message's `onConfirmed`, anything else may change readiness. */
  function Moved(x: Ingest, h: Happening, env: Env): Ingest {
    var w := Step(x.w, h, env);
    var entries := x.w.p.ledger.entries;
    if IsCurrentAck(x.w, h) && IndexOf(entries, h.wire.id) < |entries| then
      Ingest(w, ConfirmedFor(x.s, entries[IndexOf(entries, h.wire.id)].owner, IsReady(w.p.state), |w.p.ledger.entries|), x.rejected)
    else
      Ingest(w, Heard(x.s, x.w.p.told, w.p.told), x.rejected)
  }

  function After(x: Ingest, a: Arrival, env: Env): Ingest {
    var unconfirmed := |x.w.p.ledger.entries|;
    match a
    case Accepts => x.(s := Accepted(x.s, IsReady(x.w.p.state)))
    case Receives(i, args) => if i < |x.s.conns| then Receive(x, i, args, env) else x
    case Rejects(i, binary) =>
      if i < |x.s.conns| && !x.s.conns[i].refusing then x.(s := Rejected(x.s, i, binary), rejected := x.rejected + 1) else x
    case Fails(i) => if i < |x.s.conns| then x.(s := Refusing(x.s, i)) else x
    case Closes(i) => if i < |x.s.conns| then x.(s := ClosedAt(x.s, i, unconfirmed)) else x
    case Moves(h) => Moved(x, h, env)
    case ShutsDown => x.(s := ShutdownBegun(x.s, unconfirmed))
    case DrainExpires => x.(s := DrainEnded(x.s, unconfirmed))
  }

  // ---------- The invariant ----------

  function OwnedBy(entries: seq<Entry>, owner: nat): nat {
    if entries == [] then 0 else (if entries[0].owner == owner then 1 else 0) + OwnedBy(entries[1..], owner)
  }

  ghost predicate IdsOk(s: Server, entries: seq<Entry>) {
    && (forall i, j :: 0 <= i < j < |s.conns| ==> s.conns[i].id < s.conns[j].id)
    && (forall i :: 0 <= i < |s.conns| ==> s.conns[i].id < s.nextId)
    && (forall e <- entries :: e.owner < s.nextId)
  }

  /** The windows count what is in the ledger: all of it, and the connection's own part. */
  ghost predicate SizesOk(s: Server, entries: seq<Entry>) {
    && s.instance.size == |entries|
    && (forall i :: 0 <= i < |s.conns| ==> s.conns[i].window.size == OwnedBy(entries, s.conns[i].id))
  }

  ghost predicate WindowOk(w: WindowState) {
    w.cap > 0 && if w.open then w.size < w.cap else w.size > w.cap / 2
  }

  ghost predicate WindowsOk(s: Server) {
    s.connectionCap > 0 && WindowOk(s.instance) && forall i :: 0 <= i < |s.conns| ==> WindowOk(s.conns[i].window)
  }

  ghost predicate ReadingOk(s: Server, ready: bool) {
    forall i :: 0 <= i < |s.conns| ==> s.conns[i].reading == ShouldRead(ready, s.conns[i].window.open, s.instance.open)
  }

  /** An unfinished drain waits for a connection or a confirm; one that ended early left neither. */
  ghost predicate DrainOk(s: Server, unconfirmed: nat) {
    && (s.drain.Draining? ==> s.conns != [] || unconfirmed > 0)
    && (s.drain == Drained(0, 0) ==> s.conns == [] && unconfirmed == 0)
  }

  ghost predicate ServerOk(s: Server, p: Pub, accepted: nat) {
    && IdsOk(s, p.ledger.entries) && SizesOk(s, p.ledger.entries) && WindowsOk(s)
    && ReadingOk(s, IsReady(p.state)) && DrainOk(s, |p.ledger.entries|)
    && s.closedReceived + Received(s.conns) == accepted && !s.underflow
  }

  ghost predicate IngestInv(x: Ingest) {
    Inv(x.w) && ServerOk(x.s, x.w.p, |x.w.accepted|)
  }

  // ---------- Counting by owner ----------

  lemma {:induction false} OwnedConcat(a: seq<Entry>, b: seq<Entry>, owner: nat)
    ensures OwnedBy(a + b, owner) == OwnedBy(a, owner) + OwnedBy(b, owner)
  {
    if a == [] {
      assert a + b == b;
    } else {
      assert (a + b)[1..] == a[1..] + b;
      OwnedConcat(a[1..], b, owner);
    }
  }

  lemma {:induction false} OwnedOfSame(a: seq<Entry>, b: seq<Entry>, owner: nat)
    requires |a| == |b| && forall i :: 0 <= i < |a| ==> a[i].owner == b[i].owner
    ensures OwnedBy(a, owner) == OwnedBy(b, owner)
  {
    if a != [] {
      OwnedOfSame(a[1..], b[1..], owner);
    }
  }

  lemma {:induction false} OwnedWithout(entries: seq<Entry>, k: nat, owner: nat)
    requires k < |entries|
    ensures OwnedBy(entries, owner) == OwnedBy(entries[..k] + entries[k + 1..], owner) + (if entries[k].owner == owner then 1 else 0)
  {
    var tail := entries[k..];
    assert entries == entries[..k] + tail && tail[1..] == entries[k + 1..];
    OwnedConcat(entries[..k], tail, owner);
    OwnedConcat(entries[..k], entries[k + 1..], owner);
  }

  lemma {:induction false} OwnedByNone(entries: seq<Entry>, owner: nat)
    requires forall e <- entries :: e.owner != owner
    ensures OwnedBy(entries, owner) == 0
  {
    if entries != [] {
      assert entries[0] in entries;
      OwnedByNone(entries[1..], owner);
    }
  }

  // ---------- What changes no count ----------

  /** The same connections with the same windows and totals; what they read or refuse may differ. */
  ghost predicate SameCounted(s: Server, s': Server) {
    && |s'.conns| == |s.conns| && s'.instance == s.instance && s'.connectionCap == s.connectionCap
    && s'.nextId == s.nextId && s'.closedReceived == s.closedReceived && s'.underflow == s.underflow
    && forall i :: 0 <= i < |s.conns| ==>
         s'.conns[i].id == s.conns[i].id && s'.conns[i].window == s.conns[i].window && s'.conns[i].received == s.conns[i].received
  }

  ghost predicate SameReading(s: Server, s': Server) {
    && |s'.conns| == |s.conns|
    && forall i :: 0 <= i < |s.conns| ==> s'.conns[i].reading == s.conns[i].reading
  }

  /** Everything but the reading rule and the drain. */
  ghost predicate CountsOk(s: Server, entries: seq<Entry>, accepted: nat) {
    && IdsOk(s, entries) && SizesOk(s, entries) && WindowsOk(s)
    && s.closedReceived + Received(s.conns) == accepted && !s.underflow
  }

  lemma SameCountedKeepsOk(s: Server, s': Server, entries: seq<Entry>, accepted: nat)
    requires SameCounted(s, s') && CountsOk(s, entries, accepted)
    ensures CountsOk(s', entries, accepted)
  {
    ReceivedOfSame(s.conns, s'.conns);
    hide WindowOk, OwnedBy, Received;
  }

  lemma SameReadingKeepsOk(s: Server, s': Server, ready: bool)
    requires SameCounted(s, s') && SameReading(s, s') && ReadingOk(s, ready)
    ensures ReadingOk(s', ready)
  {
    hide ShouldRead;
  }

  lemma RuleToAllReads(s: Server, ready: bool)
    ensures SameCounted(s, RuleToAll(s, ready)) && ReadingOk(RuleToAll(s, ready), ready)
  {
  }

  /** A change of readiness reaches every connection. */
  lemma HeardKeepsOk(s: Server, p: Pub, p': Pub, accepted: nat)
    requires ServerOk(s, p, accepted) && SameEntries(p.ledger, p'.ledger)
    requires p.told == IsReady(p.state) && p'.told == IsReady(p'.state)
    ensures ServerOk(Heard(s, p.told, p'.told), p', accepted)
  {
    hide WindowsOk;
    SameEntriesSameCounts(s, p.ledger.entries, p'.ledger.entries, accepted);
    RuleToAllReads(s, p'.told);
    hide IdsOk, SizesOk;
    SameCountedKeepsOk(s, Heard(s, p.told, p'.told), p'.ledger.entries, accepted);
  }

  lemma SameEntriesSameCounts(s: Server, entries: seq<Entry>, entries': seq<Entry>, accepted: nat)
    requires CountsOk(s, entries, accepted) && |entries| == |entries'|
    requires forall i :: 0 <= i < |entries| ==> entries[i].owner == entries'[i].owner
    ensures CountsOk(s, entries', accepted)
  {
    forall i | 0 <= i < |s.conns| ensures s.conns[i].window.size == OwnedBy(entries', s.conns[i].id) {
      OwnedOfSame(entries, entries', s.conns[i].id);
    }
    forall e <- entries' ensures e.owner < s.nextId {
      var i :| 0 <= i < |entries'| && entries'[i] == e;
      assert entries[i] in entries;
    }
  }

  // ---------- Connections come and go ----------

  lemma AcceptKeepsOk(s: Server, p: Pub, accepted: nat)
    requires ServerOk(s, p, accepted) && !s.drain.Drained?
    ensures ServerOk(Accepted(s, IsReady(p.state)), p, accepted)
  {
    hide OwnedBy, Received;
    OwnedByNone(p.ledger.entries, s.nextId);
    AcceptedReceivesNone(s, IsReady(p.state));
  }

  lemma AcceptedReceivesNone(s: Server, ready: bool)
    ensures Received(Accepted(s, ready).conns) == Received(s.conns)
  {
    var s' := Accepted(s, ready);
    assert s'.conns[..|s.conns|] == s.conns;
  }

  lemma SameServerKeepsOk(s: Server, s': Server, p: Pub, accepted: nat)
    requires ServerOk(s, p, accepted) && SameCounted(s, s') && SameReading(s, s') && DrainOk(s', |p.ledger.entries|)
    ensures ServerOk(s', p, accepted)
  {
    hide IdsOk, SizesOk, WindowsOk, ReadingOk, SameCounted, SameReading;
    SameCountedKeepsOk(s, s', p.ledger.entries, accepted);
    SameReadingKeepsOk(s, s', IsReady(p.state));
  }

  lemma RejectKeepsOk(s: Server, p: Pub, accepted: nat, i: nat, binary: bool)
    requires ServerOk(s, p, accepted) && i < |s.conns|
    ensures ServerOk(Rejected(s, i, binary), p, accepted) && ServerOk(Refusing(s, i), p, accepted)
  {
    hide IdsOk, SizesOk, WindowsOk, ReadingOk, Received;
    SameServerKeepsOk(s, Rejected(s, i, binary), p, accepted);
    SameServerKeepsOk(s, Refusing(s, i), p, accepted);
  }

  function Skipping(i: nat, k: nat): nat {
    if k < i then k else k + 1
  }

  /** Without its connection at `i`. */
  ghost predicate Lacks(s: Server, i: nat, s': Server)
    requires i < |s.conns|
  {
    && |s'.conns| == |s.conns| - 1 && s'.instance == s.instance && s'.connectionCap == s.connectionCap
    && s'.nextId == s.nextId && s'.underflow == s.underflow
    && s'.closedReceived + Received(s'.conns) == s.closedReceived + Received(s.conns)
    && forall k :: 0 <= k < |s'.conns| ==> s'.conns[k] == s.conns[Skipping(i, k)]
  }

  lemma ClosedLacks(s: Server, i: nat, unconfirmed: nat)
    requires i < |s.conns|
    ensures Lacks(s, i, ClosedAt(s, i, unconfirmed))
  {
    ReceivedWithout(s.conns, i);
    hide Received;
  }

  lemma LackingKeepsOk(s: Server, s': Server, entries: seq<Entry>, accepted: nat, i: nat, ready: bool)
    requires CountsOk(s, entries, accepted) && ReadingOk(s, ready) && i < |s.conns| && Lacks(s, i, s')
    ensures CountsOk(s', entries, accepted) && ReadingOk(s', ready)
  {
    hide WindowOk, ShouldRead, OwnedBy, Received;
  }

  lemma CloseKeepsOk(s: Server, p: Pub, accepted: nat, i: nat)
    requires ServerOk(s, p, accepted) && i < |s.conns|
    ensures ServerOk(ClosedAt(s, i, |p.ledger.entries|), p, accepted)
  {
    hide IdsOk, SizesOk, WindowsOk, ReadingOk, Lacks, Received;
    ClosedLacks(s, i, |p.ledger.entries|);
    LackingKeepsOk(s, ClosedAt(s, i, |p.ledger.entries|), p.ledger.entries, accepted, i, IsReady(p.state));
  }

  lemma ShutdownKeepsOk(s: Server, p: Pub, accepted: nat)
    requires ServerOk(s, p, accepted)
    ensures ServerOk(ShutdownBegun(s, |p.ledger.entries|), p, accepted)
    ensures ServerOk(DrainEnded(s, |p.ledger.entries|), p, accepted)
  {
    hide IdsOk, SizesOk, WindowsOk, ReadingOk, Received;
    SameServerKeepsOk(s, ShutdownBegun(s, |p.ledger.entries|), p, accepted);
    SameServerKeepsOk(s, DrainEnded(s, |p.ledger.entries|), p, accepted);
  }

  // ---------- One message in ----------

  lemma CountInKeepsCounts(s: Server, entries: seq<Entry>, accepted: nat, i: nat, e: Entry)
    requires CountsOk(s, entries, accepted) && i < |s.conns| && e.owner == s.conns[i].id
    ensures CountsOk(CountedIn(s, i), entries + [e], accepted + 1)
  {
    var s' := CountedIn(s, i);
    ReceivedAt(s.conns, i, s'.conns[i]);
    hide Received;
    forall k | 0 <= k < |s.conns| ensures s'.conns[k].window.size == OwnedBy(entries + [e], s.conns[k].id) {
      OwnedConcat(entries, [e], s.conns[k].id);
      OneOwned(e, s.conns[k].id);
    }
  }

  lemma OneOwned(e: Entry, owner: nat)
    ensures OwnedBy([e], owner) == if e.owner == owner then 1 else 0
  {
    assert [e][1..] == [];
  }

  /** The rule for everybody is what the edges leave behind, if only this message changed anything. */
  lemma MessagedReads(s: Server, i: nat, ready: bool, ready': bool)
    requires ReadingOk(s, ready) && i < |s.conns|
    ensures var s' := Messaged(s, i, ready, ready', ready');
      SameCounted(CountedIn(s, i), s') && ReadingOk(s', ready')
  {
  }

  lemma ReceiveKeepsInv(x: Ingest, i: nat, args: PublishArgs, env: Env)
    requires IngestInv(x) && i < |x.s.conns| && env.now >= x.w.time
    ensures IngestInv(Receive(x, i, args, env))
  {
    if !x.s.conns[i].refusing {
      hide Inv, IdsOk, SizesOk, WindowsOk, Step;
      var owner := x.s.conns[i].id;
      var w := Step(x.w, PublishCalled(args, owner), env);
      var e := NewEntry(x.w.p.ledger, args, owner);
      PublishedEntries(x.w, args, owner, env);
      StepKeepsInv(x.w, PublishCalled(args, owner), env);
      InvTold(x.w);
      InvTold(w);
      var counted := CountedIn(x.s, i);
      CountInKeepsCounts(x.s, x.w.p.ledger.entries, |x.w.accepted|, i, e);
      SameEntriesSameCounts(counted, x.w.p.ledger.entries + [e], w.p.ledger.entries, |w.accepted|);
      MessagedReads(x.s, i, x.w.p.told, w.p.told);
      SameCountedKeepsOk(counted, Receive(x, i, args, env).s, w.p.ledger.entries, |w.accepted|);
    }
  }

  lemma InvTold(w: World)
    requires Inv(w)
    ensures w.p.told == IsReady(w.p.state)
  {
  }

  lemma PublishedEntries(w: World, args: PublishArgs, owner: nat, env: Env)
    requires Inv(w) && env.now >= w.time
    ensures var w' := Step(w, PublishCalled(args, owner), env);
      var entries := w.p.ledger.entries + [NewEntry(w.p.ledger, args, owner)];
      && |w'.p.ledger.entries| == |entries| && |w'.accepted| == |w.accepted| + 1
      && forall i :: 0 <= i < |entries| ==> entries[i].owner == w'.p.ledger.entries[i].owner
  {
    PublishKeepsQuiet(w.p, w.started, args, owner, env);
  }

  // ---------- One message confirmed ----------

  /** The windows after one confirm, before the rule and the drain are looked at. */
  function Uncounted(s: Server, owner: nat): Server
    requires s.instance.size > 0
    requires var i := PositionOf(s.conns, owner); i < |s.conns| ==> s.conns[i].window.size > 0
  {
    CountedOut(s, PositionOf(s.conns, owner))
  }

  lemma OwnEntryIsCounted(s: Server, entries: seq<Entry>, k: nat)
    requires SizesOk(s, entries) && k < |entries|
    ensures s.instance.size > 0
    ensures var i := PositionOf(s.conns, entries[k].owner); i < |s.conns| ==> s.conns[i].window.size > 0
  {
    OwnedWithout(entries, k, entries[k].owner);
  }

  lemma UncountKeepsWindows(s: Server, owner: nat)
    requires WindowsOk(s) && s.instance.size > 0
    requires var i := PositionOf(s.conns, owner); i < |s.conns| ==> s.conns[i].window.size > 0
    ensures WindowsOk(Uncounted(s, owner))
  {
  }

  lemma UncountKeepsCounts(s: Server, entries: seq<Entry>, accepted: nat, k: nat)
    requires CountsOk(s, entries, accepted) && k < |entries|
    requires s.instance.size > 0
    requires var i := PositionOf(s.conns, entries[k].owner); i < |s.conns| ==> s.conns[i].window.size > 0
    ensures CountsOk(Uncounted(s, entries[k].owner), entries[..k] + entries[k + 1..], accepted)
  {
    var owner, rest := entries[k].owner, entries[..k] + entries[k + 1..];
    var i, s' := PositionOf(s.conns, owner), Uncounted(s, owner);
    ReceivedOfSame(s.conns, s'.conns);
    UncountKeepsWindows(s, owner);
    hide Received, WindowOk;
    forall j | 0 <= j < |s.conns| ensures s'.conns[j].window.size == OwnedBy(rest, s.conns[j].id) {
      OwnedWithout(entries, k, s.conns[j].id);
      if s.conns[j].id == owner {
        assert j == i;
      }
    }
  }

  /** The rule after one confirm: for the connection when its window reopened, for all when the instance window did. */
  function RuleAfterConfirm(s: Server, removed: Server, i: nat, ready: bool): Server
    requires |removed.conns| == |s.conns|
  {
    var windowReopened := i < |s.conns| && !s.conns[i].window.open && removed.conns[i].window.open;
    var one := if windowReopened then RuleToOne(removed, i, ready) else removed;
    if !s.instance.open && removed.instance.open then RuleToAll(one, ready) else one
  }

  lemma ConfirmedForIs(s: Server, owner: nat, ready: bool, unconfirmed: nat)
    requires s.instance.size > 0
    requires var i := PositionOf(s.conns, owner); i < |s.conns| ==> s.conns[i].window.size > 0
    ensures ConfirmedFor(s, owner, ready, unconfirmed) ==
            DrainChecked(RuleAfterConfirm(s, Uncounted(s, owner), PositionOf(s.conns, owner), ready), unconfirmed)
  {
    hide RuleToAll, RuleToOne, DrainChecked;
  }

  lemma UncountedReads(s: Server, owner: nat, ready: bool)
    requires ReadingOk(s, ready) && s.instance.size > 0
    requires var i := PositionOf(s.conns, owner); i < |s.conns| ==> s.conns[i].window.size > 0
    ensures var all := RuleAfterConfirm(s, Uncounted(s, owner), PositionOf(s.conns, owner), ready);
      SameCounted(Uncounted(s, owner), all) && ReadingOk(all, ready) && all.drain == s.drain
  {
    hide PositionOf;
  }

  lemma DrainCheckKeepsOk(s: Server, p: Pub, accepted: nat)
    requires CountsOk(s, p.ledger.entries, accepted) && ReadingOk(s, IsReady(p.state)) && s.drain != Drained(0, 0)
    ensures ServerOk(DrainChecked(s, |p.ledger.entries|), p, accepted)
  {
    var s' := DrainChecked(s, |p.ledger.entries|);
    SameCountedKeepsOk(s, s', p.ledger.entries, accepted);
    hide IdsOk, SizesOk, WindowsOk, Received, ShouldRead;
  }

  /** An ack of the current generation, seen from the server. */
  lemma ConfirmKeepsOk(s: Server, p: Pub, p': Pub, accepted: nat, k: nat)
    requires ServerOk(s, p, accepted) && k < |p.ledger.entries|
    requires p'.state == p.state && p'.ledger.entries == p.ledger.entries[..k] + p.ledger.entries[k + 1..]
    ensures ServerOk(ConfirmedFor(s, p.ledger.entries[k].owner, IsReady(p.state), |p'.ledger.entries|), p', accepted)
  {
    hide IdsOk, SizesOk, WindowsOk, ReadingOk, ConfirmedFor, Received, SameCounted, RuleAfterConfirm;
    var owner := p.ledger.entries[k].owner;
    OwnEntryIsCounted(s, p.ledger.entries, k);
    UncountKeepsCounts(s, p.ledger.entries, accepted, k);
    UncountedReads(s, owner, IsReady(p.state));
    ConfirmedForIs(s, owner, IsReady(p.state), |p'.ledger.entries|);
    var all := RuleAfterConfirm(s, Uncounted(s, owner), PositionOf(s.conns, owner), IsReady(p.state));
    SameCountedKeepsOk(Uncounted(s, owner), all, p'.ledger.entries, accepted);
    DrainCheckKeepsOk(all, p', accepted);
  }

  lemma AckMoveKeepsInv(x: Ingest, wire: Wire, env: Env)
    requires IngestInv(x) && IsCurrentAck(x.w, Acks(wire)) && Enabled(x.w, Acks(wire), env)
    ensures ServerOk(Moved(x, Acks(wire), env).s, Moved(x, Acks(wire), env).w.p, |x.w.accepted|)
  {
    hide ServerOk, ConfirmedFor, Quiet;
    AckKeepsAccount(x.w, wire, env);
    AckEffect(x.w, wire, env);
    PresentAt(x.w.p.ledger.entries, wire.id);
    ConfirmKeepsOk(x.s, x.w.p, Step(x.w, Acks(wire), env).p, |x.w.accepted|, IndexOf(x.w.p.ledger.entries, wire.id));
  }

  lemma MoveKeepsInv(x: Ingest, h: Happening, env: Env)
    requires IngestInv(x) && !h.PublishCalled? && Enabled(x.w, h, env)
    ensures IngestInv(Moved(x, h, env))
  {
    hide Inv, ServerOk, Enabled, Heard, React;
    StepKeepsInv(x.w, h, env);
    if IsCurrentAck(x.w, h) {
      AckMoveKeepsInv(x, h.wire, env);
    } else {
      var w := Step(x.w, h, env);
      InvTold(x.w);
      InvTold(w);
      StepIsCalm(x.w, h, env);
      HeardKeepsOk(x.s, x.w.p, w.p, |x.w.accepted|);
    }
  }

  /** Every step of the ingest keeps the invariant. */
  lemma ArrivalKeepsInv(x: Ingest, a: Arrival, env: Env)
    requires IngestInv(x) && CanHappen(x, a, env)
    ensures IngestInv(After(x, a, env))
  {
    hide Inv, ServerOk, Receive, Moved, Enabled;
    var n := |x.w.accepted|;
    match a
    case Accepts => AcceptKeepsOk(x.s, x.w.p, n);
    case Receives(i, args) => ReceiveKeepsInv(x, i, args, env);
    case Rejects(i, binary) => RejectKeepsOk(x.s, x.w.p, n, i, binary);
    case Fails(i) => RejectKeepsOk(x.s, x.w.p, n, i, true);
    case Closes(i) => CloseKeepsOk(x.s, x.w.p, n, i);
    case Moves(h) => MoveKeepsInv(x, h, env);
    case _ => ShutdownKeepsOk(x.s, x.w.p, n);
  }

  // ---------- Every run ----------

  datatype IngestMove = IngestMove(a: Arrival, env: Env)

  ghost function FinalIngest(first: Ingest, moves: seq<IngestMove>): Ingest
    decreases |moves|
  {
    if moves == [] then first
    else
      var last := moves[|moves| - 1];
      After(FinalIngest(first, moves[..|moves| - 1]), last.a, last.env)
  }

  ghost predicate IsIngestRun(first: Ingest, moves: seq<IngestMove>)
    decreases |moves|
  {
    moves == [] ||
    var front, last := moves[..|moves| - 1], moves[|moves| - 1];
    IsIngestRun(first, front) && CanHappen(FinalIngest(first, front), last.a, last.env)
  }

  lemma {:induction false} IngestRunKeepsInv(connectionCap: nat, instanceCap: nat, timeoutMs: nat, time: int, moves: seq<IngestMove>)
    requires connectionCap > 0 && instanceCap > 0 && IsIngestRun(Fresh(connectionCap, instanceCap, timeoutMs, time), moves)
    ensures IngestInv(FinalIngest(Fresh(connectionCap, instanceCap, timeoutMs, time), moves))
    decreases |moves|
  {
    if moves != [] {
      hide IngestInv, After, CanHappen;
      var front, last := moves[..|moves| - 1], moves[|moves| - 1];
      IngestRunKeepsInv(connectionCap, instanceCap, timeoutMs, time, front);
      ArrivalKeepsInv(FinalIngest(Fresh(connectionCap, instanceCap, timeoutMs, time), front), last.a, last.env);
    }
  }

  /**
   * In every run: the instance window holds exactly what waits in the ledger, a connection's window
   * exactly its own part of it, no window is ever taken below zero, and a connection reads exactly
   * when the publisher is ready and both windows are open.
   */
  lemma WindowsCountTheLedger(connectionCap: nat, instanceCap: nat, timeoutMs: nat, time: int, moves: seq<IngestMove>)
    requires connectionCap > 0 && instanceCap > 0 && IsIngestRun(Fresh(connectionCap, instanceCap, timeoutMs, time), moves)
    ensures var x := FinalIngest(Fresh(connectionCap, instanceCap, timeoutMs, time), moves);
      var entries := x.w.p.ledger.entries;
      && x.s.instance.size == |entries| && !x.s.underflow
      && (forall c <- x.s.conns ::
            && c.window.size == OwnedBy(entries, c.id)
            && (c.reading <==> IsReady(x.w.p.state) && c.window.open && x.s.instance.open)
            && (c.reading ==> OwnedBy(entries, c.id) < c.window.cap && |entries| < x.s.instance.cap))
  {
    IngestRunKeepsInv(connectionCap, instanceCap, timeoutMs, time, moves);
    hide FinalIngest, IsIngestRun, Inv, OwnedBy, Received, IdsOk;
  }

  /**
   * In every run: what was received is what was confirmed and what waits in the ledger, also for
   * connections that closed; an unfinished drain still waits for a connection or a confirm, and one
   * that ended early left nothing behind.
   */
  lemma DrainLosesNoWakeUp(connectionCap: nat, instanceCap: nat, timeoutMs: nat, time: int, moves: seq<IngestMove>)
    requires connectionCap > 0 && instanceCap > 0 && IsIngestRun(Fresh(connectionCap, instanceCap, timeoutMs, time), moves)
    ensures var x := FinalIngest(Fresh(connectionCap, instanceCap, timeoutMs, time), moves);
      var unconfirmed := |x.w.p.ledger.entries|;
      && x.s.closedReceived + Received(x.s.conns) == x.w.p.confirmed + unconfirmed
      && (x.s.drain.Draining? ==> x.s.conns != [] || unconfirmed > 0)
      && (x.s.drain == Drained(0, 0) ==> x.s.conns == [] && x.s.closedReceived == x.w.p.confirmed)
  {
    IngestRunKeepsInv(connectionCap, instanceCap, timeoutMs, time, moves);
    hide FinalIngest, IsIngestRun, OwnedBy, IdsOk, SizesOk, Quiet;
  }

  // ---------- What was turned away ----------

  ghost predicate RejectedOk(s: Server, rejected: nat) {
    s.closedRejected + RejectedIn(s.conns) == rejected
  }

  ghost predicate SameRejected(s: Server, s': Server) {
    && s'.closedRejected == s.closedRejected && |s'.conns| == |s.conns|
    && forall i :: 0 <= i < |s.conns| ==> s'.conns[i].rejected == s.conns[i].rejected
  }

  lemma {:induction false} RejectedOfSame(a: seq<Conn>, b: seq<Conn>)
    requires |a| == |b| && forall i :: 0 <= i < |a| ==> a[i].rejected == b[i].rejected
    ensures RejectedIn(a) == RejectedIn(b)
  {
    if a != [] {
      RejectedOfSame(a[..|a| - 1], b[..|b| - 1]);
    }
  }

  lemma {:induction false} RejectedAt(conns: seq<Conn>, i: nat, c: Conn)
    requires i < |conns|
    ensures RejectedIn(conns[i := c]) == RejectedIn(conns) - conns[i].rejected + c.rejected
  {
    var n := |conns| - 1;
    if i == n {
      assert conns[i := c][..n] == conns[..n];
    } else {
      assert conns[i := c][..n] == conns[..n][i := c];
      RejectedAt(conns[..n], i, c);
    }
  }

  lemma {:induction false} RejectedWithout(conns: seq<Conn>, i: nat)
    requires i < |conns|
    ensures RejectedIn(conns[..i] + conns[i + 1..]) == RejectedIn(conns) - conns[i].rejected
  {
    var n, rest := |conns| - 1, conns[..i] + conns[i + 1..];
    if i == n {
      assert rest == conns[..n];
    } else {
      assert rest[..n - 1] == conns[..n][..i] + conns[..n][i + 1..];
      assert rest[n - 1] == conns[n];
      RejectedWithout(conns[..n], i);
    }
  }

  lemma MessagedRejectsNone(s: Server, i: nat, told: bool, told': bool, ready: bool)
    requires i < |s.conns|
    ensures SameRejected(s, Messaged(s, i, told, told', ready))
  {
  }

  lemma ConfirmedRejectsNone(s: Server, owner: nat, ready: bool, unconfirmed: nat)
    ensures SameRejected(s, ConfirmedFor(s, owner, ready, unconfirmed))
  {
    hide PositionOf;
  }

  lemma QuietStepRejectsNone(x: Ingest, a: Arrival, env: Env)
    requires CanHappen(x, a, env) && !a.Accepts? && !a.Rejects? && !a.Closes?
    ensures SameRejected(x.s, After(x, a, env).s) && After(x, a, env).rejected == x.rejected
  {
    hide Step, Messaged, ConfirmedFor, Enabled;
    match a
    case Receives(i, args) =>
      var w := Step(x.w, PublishCalled(args, x.s.conns[i].id), env);
      MessagedRejectsNone(x.s, i, x.w.p.told, w.p.told, IsReady(w.p.state));
    case Moves(h) =>
      var w, entries := Step(x.w, h, env), x.w.p.ledger.entries;
      if IsCurrentAck(x.w, h) && IndexOf(entries, h.wire.id) < |entries| {
        ConfirmedRejectsNone(x.s, entries[IndexOf(entries, h.wire.id)].owner, IsReady(w.p.state), |w.p.ledger.entries|);
      }
    case _ =>
  }

  lemma StepKeepsRejected(x: Ingest, a: Arrival, env: Env)
    requires RejectedOk(x.s, x.rejected) && CanHappen(x, a, env)
    ensures RejectedOk(After(x, a, env).s, After(x, a, env).rejected)
  {
    if a.Accepts? {
      var s' := Accepted(x.s, IsReady(x.w.p.state));
      assert s'.conns[..|x.s.conns|] == x.s.conns;
    } else if a.Rejects? {
      RejectedAt(x.s.conns, a.i, Rejected(x.s, a.i, a.binary).conns[a.i]);
    } else if a.Closes? {
      RejectedWithout(x.s.conns, a.i);
    } else {
      hide After;
      QuietStepRejectsNone(x, a, env);
      RejectedOfSame(x.s.conns, After(x, a, env).s.conns);
    }
  }

  /** In every run the totals the server reports are what came in: what was received, and what was turned away. */
  lemma {:induction false} StatsAreTotals(connectionCap: nat, instanceCap: nat, timeoutMs: nat, time: int, moves: seq<IngestMove>)
    requires connectionCap > 0 && instanceCap > 0 && IsIngestRun(Fresh(connectionCap, instanceCap, timeoutMs, time), moves)
    ensures var x := FinalIngest(Fresh(connectionCap, instanceCap, timeoutMs, time), moves);
      && x.s.closedReceived + Received(x.s.conns) == |x.w.accepted|
      && x.s.closedRejected + RejectedIn(x.s.conns) == x.rejected
    decreases |moves|
  {
    IngestRunKeepsInv(connectionCap, instanceCap, timeoutMs, time, moves);
    if moves != [] {
      hide After, CanHappen, Inv, IdsOk, SizesOk, WindowsOk, ReadingOk;
      var front, last := moves[..|moves| - 1], moves[|moves| - 1];
      StatsAreTotals(connectionCap, instanceCap, timeoutMs, time, front);
      StepKeepsRejected(FinalIngest(Fresh(connectionCap, instanceCap, timeoutMs, time), front), last.a, last.env);
    }
  }
}
