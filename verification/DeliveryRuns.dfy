/**
 * The consumer and its store together: every delivery has its own handler among those that write to
 * the store, and what the consumer acknowledges is what that handler achieved.
 */
module DeliveryRuns {
  import opened Telemetry
  import opened Consumers
  import ConsumerState
  import H = Handler
  import P = Processing
  import R = ConsumerRuns
  import S = ConsumerSettlement

  /**
   * One consumer, and the store with the handlers of every instance. `bodies` are the messages of the
   * deliveries that decode, by generation and tag; `handlers` says under which number the handler of
   * a registration's delivery runs.
   */
  datatype Joint = Joint(c: Consumer, w: P.World, bodies: map<(nat, nat), Message>, handlers: map<(nat, nat), nat>)

  const START := Joint(NEW_CONSUMER, P.START, map[], map[])

  datatype Move =
    | Consumes(s: R.Step)
    | Delivered(r: nat, tag: nat, body: Option<Message>, receivedAt: int, number: nat)
    | Handled(r: nat, tag: nat, result: H.HandlerResult, sent: bool)
    | Stores(p: P.Step)

  /**
   * What may happen. A handler ends as `ProcessDelivery` says: acknowledging only behind its last
   * write, undecodable exactly without a message. The store moves on by itself, and so do the
   * handlers of other instances; those of this consumer leave only when they end.
   */
  ghost predicate Enabled(j: Joint, sent: set<Message>, m: Move) {
    match m
    case Consumes(s) => !s.Delivers? && !s.Handles? && R.Enabled(j.c, s)
    case Delivered(r, tag, body, receivedAt, number) =>
      && R.Enabled(j.c, R.Delivers(r, tag))
      && (body.Some? ==> P.Enabled(j.w, sent, P.Deliver(number, body.value, receivedAt)))
    case Handled(r, tag, result, sentOk) =>
      && R.Enabled(j.c, R.Handles(r, tag, result, sentOk))
      && (if (r, tag) in j.handlers then
            && result != H.Reject(H.Undecodable, 0)
            && (result.AckVerdict? ==> P.Enabled(j.w, sent, P.Ack(j.handlers[(r, tag)])))
          else result == H.Reject(H.Undecodable, 0))
    case Stores(p) => P.Enabled(j.w, sent, p) && (p.Ack? || p.Leave? ==> p.tag !in j.handlers.Values)
  }

  function After(j: Joint, m: Move): Joint {
    match m
    case Consumes(s) => j.(c := R.After(j.c, s))
    case Delivered(r, tag, body, receivedAt, number) =>
      if r >= |j.c.registrations| then j
      else
        var came := j.(c := R.After(j.c, R.Delivers(r, tag)));
        if body.None? then came
        else
          var known := came.(bodies := j.bodies[(j.c.registrations[r].generation, tag) := body.value]);
          if !j.c.registrations[r].live then known
          else
            known.(w := P.Next(j.w, P.Deliver(number, body.value, receivedAt)), handlers := j.handlers[(r, tag) := number])
    case Handled(r, tag, result, sentOk) =>
      var ended := j.(c := R.After(j.c, R.Handles(r, tag, result, sentOk)));
      if (r, tag) !in j.handlers then ended
      else
        var number := j.handlers[(r, tag)];
        ended.(w := P.Next(j.w, if result.AckVerdict? then P.Ack(number) else P.Leave(number)),
               handlers := j.handlers - {(r, tag)})
    case Stores(p) => j.(w := P.Next(j.w, p))
  }

  ghost function Final(moves: seq<Move>): Joint
    decreases |moves|
  {
    if moves == [] then START else After(Final(moves[..|moves| - 1]), moves[|moves| - 1])
  }

  ghost predicate IsRun(sent: set<Message>, moves: seq<Move>)
    decreases |moves|
  {
    moves == [] ||
    (IsRun(sent, moves[..|moves| - 1]) && Enabled(Final(moves[..|moves| - 1]), sent, moves[|moves| - 1]))
  }

  // ---------- The invariant ----------

  /** The handler of each delivery under way runs in the store, on the message of that delivery. */
  ghost predicate HandlersOk(c: Consumer, w: P.World, bodies: map<(nat, nat), Message>, handlers: map<(nat, nat), nat>) {
    && (forall k <- handlers ::
          && k.0 < |c.registrations| && handlers[k] in w.handlers
          && (c.registrations[k.0].generation, k.1) in bodies
          && w.handlers[handlers[k]].message == bodies[(c.registrations[k.0].generation, k.1)])
    && (forall k, l :: k in handlers && l in handlers && k != l ==> handlers[k] != handlers[l])
  }

  /** A delivery whose body decodes has its handler as long as it is in flight. */
  ghost predicate RunningOk(c: Consumer, bodies: map<(nat, nat), Message>, handlers: map<(nat, nat), nat>) {
    && (forall k <- bodies :: k in c.delivered)
    && (forall r, tag :: 0 <= r < |c.registrations| && tag in c.registrations[r].running ==>
          (c.registrations[r].generation, tag) in bodies ==> (r, tag) in handlers)
  }

  /** Every ack that was sent is of a message whose handler had achieved all its writes. */
  ghost predicate AcksOk(log: seq<Settlement>, bodies: map<(nat, nat), Message>, acked: set<Message>) {
    forall e <- log :: e.kind.Ack? ==> (e.generation, e.tag) in bodies && bodies[(e.generation, e.tag)] in acked
  }

  ghost predicate Inv(j: Joint, sent: set<Message>) {
    && S.Inv(j.c) && P.Inv(j.w, sent)
    && HandlersOk(j.c, j.w, j.bodies, j.handlers) && RunningOk(j.c, j.bodies, j.handlers)
    && AcksOk(j.c.log, j.bodies, j.w.acked)
  }

  // ---------- The consumer's own steps ----------

  /** No delivery comes, no handler ends, and no ack is sent. */
  ghost predicate Quiet(c: Consumer, c': Consumer) {
    && c'.delivered == c.delivered && |c'.registrations| >= |c.registrations|
    && (forall r :: 0 <= r < |c.registrations| ==>
          && c'.registrations[r].generation == c.registrations[r].generation
          && c'.registrations[r].running == c.registrations[r].running)
    && (forall r :: |c.registrations| <= r < |c'.registrations| ==> c'.registrations[r].running == {})
    && (forall e <- c'.log :: e.kind.Ack? ==> e in c.log)
  }

  lemma StepIsQuiet(c: Consumer, s: R.Step)
    requires R.Enabled(c, s) && !s.Delivers? && !s.Handles?
    ensures Quiet(c, R.After(c, s))
  {
    if s.HandlersSettled? {
      ReturnIsQuiet(c, s.count);
    } else {
      hide R.After, R.Enabled;
      S.OthersHold(c, s);
    }
  }

  lemma ReturnIsQuiet(c: Consumer, count: nat)
    requires c.await.Some? && c.await.value.Returning? && c.await.value.r < |c.registrations|
    ensures Quiet(c, Returned(c, count))
  {
    hide NackCount;
  }

  lemma QuietKeepsInv(j: Joint, sent: set<Message>, s: R.Step)
    requires Inv(j, sent) && Enabled(j, sent, Consumes(s))
    ensures Inv(After(j, Consumes(s)), sent)
  {
    hide P.Inv, R.After, R.Enabled;
    S.StepKeepsInv(j.c, s);
    StepIsQuiet(j.c, s);
    hide S.Inv;
  }

  // ---------- The store ----------

  /** A step of the store leaves every handler that does not end in it, on its message, and forgets no ack. */
  lemma StoreStep(w: P.World, sent: set<Message>, p: P.Step)
    requires P.Enabled(w, sent, p)
    ensures w.acked <= P.Next(w, p).acked
    ensures forall number <- w.handlers :: !((p.Ack? || p.Leave?) && p.tag == number) ==>
              number in P.Next(w, p).handlers && P.Next(w, p).handlers[number].message == w.handlers[number].message
  {
  }

  lemma StoreKeepsInv(j: Joint, sent: set<Message>, p: P.Step)
    requires Inv(j, sent) && UniqueIdentities(sent) && Enabled(j, sent, Stores(p))
    ensures Inv(After(j, Stores(p)), sent)
  {
    P.StepKeepsInv(j.w, sent, p);
    StoreKeepsHandlers(j, sent, p);
    hide P.Inv, S.Inv, P.Enabled, P.Next, UniqueIdentities, HandlersOk, RunningOk, AcksOk;
  }

  lemma StoreKeepsHandlers(j: Joint, sent: set<Message>, p: P.Step)
    requires HandlersOk(j.c, j.w, j.bodies, j.handlers) && AcksOk(j.c.log, j.bodies, j.w.acked)
    requires Enabled(j, sent, Stores(p))
    ensures HandlersOk(j.c, P.Next(j.w, p), j.bodies, j.handlers) && AcksOk(j.c.log, j.bodies, P.Next(j.w, p).acked)
  {
    StoreStep(j.w, sent, p);
    forall k <- j.handlers ensures j.handlers[k] in j.handlers.Values {
    }
    hide P.Enabled, P.Next;
  }

  // ---------- A delivery comes ----------

  /** What a delivery changes of the consumer: one more that came, and one more under way if it is dispatched. */
  lemma DeliveryChanges(c: Consumer, r: nat, tag: nat)
    requires r < |c.registrations|
    ensures var c' := DeliveryCame(c, r, tag);
      && c'.log == c.log && c'.delivered == c.delivered + {(c.registrations[r].generation, tag)}
      && |c'.registrations| == |c.registrations|
      && forall q :: 0 <= q < |c.registrations| ==>
           && c'.registrations[q].generation == c.registrations[q].generation
           && c'.registrations[q].running ==
                c.registrations[q].running + (if q == r && c.registrations[r].live then {tag} else {})
  {
  }

  lemma FreshRunning(c: Consumer, g: nat, tag: nat)
    requires S.Inv(c) && (g, tag) !in c.delivered
    ensures forall e <- c.log :: e.generation != g || e.tag != tag
    ensures forall q :: 0 <= q < |c.registrations| && c.registrations[q].generation == g ==> tag !in c.registrations[q].running
  {
    hide R.LifeOk, S.CountsOk;
    S.FreshTag(c, g, tag);
    hide S.HoldingsOk;
    forall e <- c.log ensures e.generation != g || e.tag != tag {
    }
  }

  /** A delivery with a message, dispatched to a handler of its own. */
  lemma DispatchedKeepsHandlers(j: Joint, c': Consumer, w': P.World, r: nat, tag: nat, body: Message, number: nat)
    requires HandlersOk(j.c, j.w, j.bodies, j.handlers) && r < |j.c.registrations| && |c'.registrations| == |j.c.registrations|
    requires forall q :: 0 <= q < |j.c.registrations| ==> c'.registrations[q].generation == j.c.registrations[q].generation
    requires (j.c.registrations[r].generation, tag) !in j.bodies && number !in j.w.handlers && number in w'.handlers
    requires w'.handlers[number].message == body
    requires forall n <- j.w.handlers :: n in w'.handlers && w'.handlers[n].message == j.w.handlers[n].message
    ensures HandlersOk(c', w', j.bodies[(j.c.registrations[r].generation, tag) := body], j.handlers[(r, tag) := number])
  {
  }

  lemma KnownKeepsHandlers(j: Joint, c': Consumer, key: (nat, nat), body: Message)
    requires HandlersOk(j.c, j.w, j.bodies, j.handlers) && |c'.registrations| == |j.c.registrations|
    requires forall q :: 0 <= q < |j.c.registrations| ==> c'.registrations[q].generation == j.c.registrations[q].generation
    requires key !in j.bodies
    ensures HandlersOk(c', j.w, j.bodies[key := body], j.handlers)
  {
  }

  lemma SameKeepsHandlers(j: Joint, c': Consumer)
    requires HandlersOk(j.c, j.w, j.bodies, j.handlers) && |c'.registrations| == |j.c.registrations|
    requires forall q :: 0 <= q < |j.c.registrations| ==> c'.registrations[q].generation == j.c.registrations[q].generation
    ensures HandlersOk(c', j.w, j.bodies, j.handlers)
  {
  }

  lemma DeliveryKeepsRunning(j: Joint, r: nat, tag: nat, body: Option<Message>, handlers: map<(nat, nat), nat>)
    requires S.Inv(j.c) && RunningOk(j.c, j.bodies, j.handlers)
    requires r < |j.c.registrations| && (j.c.registrations[r].generation, tag) !in j.c.delivered
    requires j.handlers.Keys <= handlers.Keys && (body.Some? && j.c.registrations[r].live ==> (r, tag) in handlers)
    ensures var key := (j.c.registrations[r].generation, tag);
      RunningOk(DeliveryCame(j.c, r, tag), if body.Some? then j.bodies[key := body.value] else j.bodies, handlers)
  {
    DeliveryChanges(j.c, r, tag);
    FreshRunning(j.c, j.c.registrations[r].generation, tag);
    hide S.Inv, DeliveryCame;
  }

  lemma DeliveryKeepsAcks(j: Joint, key: (nat, nat), body: Option<Message>, acked: set<Message>)
    requires AcksOk(j.c.log, j.bodies, j.w.acked) && j.w.acked <= acked && key !in j.bodies
    ensures AcksOk(j.c.log, if body.Some? then j.bodies[key := body.value] else j.bodies, acked)
  {
  }

  lemma DeliveredKeepsInv(j: Joint, sent: set<Message>, m: Move)
    requires Inv(j, sent) && UniqueIdentities(sent) && m.Delivered? && Enabled(j, sent, m)
    ensures Inv(After(j, m), sent)
  {
    hide UniqueIdentities, S.Inv, P.Inv, HandlersOk, AcksOk, DeliveryCame;
    var key, j' := (j.c.registrations[m.r].generation, m.tag), After(j, m);
    assert key !in j.bodies;
    hide RunningOk;
    S.StepKeepsInv(j.c, R.Delivers(m.r, m.tag));
    DeliveryChanges(j.c, m.r, m.tag);
    if m.body.Some? {
      var p := P.Deliver(m.number, m.body.value, m.receivedAt);
      P.StepKeepsInv(j.w, sent, p);
      StoreStep(j.w, sent, p);
      KnownKeepsHandlers(j, j'.c, key, m.body.value);
      if j.c.registrations[m.r].live {
        DispatchedKeepsHandlers(j, j'.c, j'.w, m.r, m.tag, m.body.value, m.number);
      }
    } else {
      SameKeepsHandlers(j, j'.c);
    }
    DeliveryKeepsRunning(j, m.r, m.tag, m.body, j'.handlers);
    DeliveryKeepsAcks(j, key, m.body, j'.w.acked);
  }

  // ---------- A handler ends ----------

  lemma HandlingChanges(c: Consumer, r: nat, tag: nat, result: H.HandlerResult, sent: bool)
    requires r < |c.registrations| && c.inFlight > 0
    ensures var c' := HandlerEnded(c, r, tag, result, sent);
      && c'.delivered == c.delivered && |c'.registrations| == |c.registrations|
      && (forall q :: 0 <= q < |c.registrations| ==>
            && c'.registrations[q].generation == c.registrations[q].generation
            && c'.registrations[q].running == c.registrations[q].running - (if q == r then {tag} else {}))
      && (forall e <- c'.log :: e.kind.Ack? && e !in c.log ==>
            result.AckVerdict? && e == Settlement(Ack, c.registrations[r].generation, tag))
  {
    hide CountedResult, ConsumerState.Next;
  }

  lemma EndedKeepsHandlers(j: Joint, c': Consumer, w': P.World, r: nat, tag: nat)
    requires HandlersOk(j.c, j.w, j.bodies, j.handlers) && (r, tag) in j.handlers && |c'.registrations| == |j.c.registrations|
    requires forall q :: 0 <= q < |j.c.registrations| ==> c'.registrations[q].generation == j.c.registrations[q].generation
    requires forall n <- j.w.handlers :: n != j.handlers[(r, tag)] ==>
               n in w'.handlers && w'.handlers[n].message == j.w.handlers[n].message
    ensures HandlersOk(c', w', j.bodies, j.handlers - {(r, tag)})
  {
  }

  /** What is under way without the handler that ended, and the ack it may have sent. */
  lemma HandlingKeepsAccount(j: Joint, r: nat, tag: nat, result: H.HandlerResult, sent: bool, acked: set<Message>)
    requires RunningOk(j.c, j.bodies, j.handlers) && AcksOk(j.c.log, j.bodies, j.w.acked) && j.w.acked <= acked
    requires r < |j.c.registrations| && j.c.inFlight > 0
    requires result.AckVerdict? ==>
               var key := (j.c.registrations[r].generation, tag); key in j.bodies && j.bodies[key] in acked
    ensures var c' := HandlerEnded(j.c, r, tag, result, sent);
      RunningOk(c', j.bodies, j.handlers - {(r, tag)}) && AcksOk(c'.log, j.bodies, acked)
  {
    HandlingChanges(j.c, r, tag, result, sent);
    hide HandlerEnded;
  }

  lemma HandledKeepsInv(j: Joint, sent: set<Message>, m: Move)
    requires Inv(j, sent) && UniqueIdentities(sent) && m.Handled? && Enabled(j, sent, m)
    ensures Inv(After(j, m), sent)
  {
    hide UniqueIdentities, S.Inv, P.Inv, AcksOk, HandlerEnded, RunningOk;
    var j' := After(j, m);
    S.StepKeepsInv(j.c, R.Handles(m.r, m.tag, m.result, m.sent));
    HandlingChanges(j.c, m.r, m.tag, m.result, m.sent);
    if (m.r, m.tag) in j.handlers {
      var number := j.handlers[(m.r, m.tag)];
      var p := if m.result.AckVerdict? then P.Ack(number) else P.Leave(number);
      P.StepKeepsInv(j.w, sent, p);
      StoreStep(j.w, sent, p);
      hide HandlersOk;
      EndedKeepsHandlers(j, j'.c, j'.w, m.r, m.tag);
    } else {
      hide HandlersOk;
      SameKeepsHandlers(j, j'.c);
      assert j.handlers - {(m.r, m.tag)} == j.handlers;
    }
    HandlingKeepsAccount(j, m.r, m.tag, m.result, m.sent, j'.w.acked);
  }

  // ---------- Every run ----------

  lemma MoveKeepsInv(j: Joint, sent: set<Message>, m: Move)
    requires Inv(j, sent) && UniqueIdentities(sent) && Enabled(j, sent, m)
    ensures Inv(After(j, m), sent)
  {
    hide Inv, After, UniqueIdentities;
    match m
    case Consumes(s) => QuietKeepsInv(j, sent, s);
    case Delivered(_, _, _, _, _) => DeliveredKeepsInv(j, sent, m);
    case Handled(_, _, _, _) => HandledKeepsInv(j, sent, m);
    case Stores(p) => StoreKeepsInv(j, sent, p);
  }

  lemma {:induction false} RunKeepsInv(sent: set<Message>, moves: seq<Move>)
    requires IsRun(sent, moves) && UniqueIdentities(sent)
    ensures Inv(Final(moves), sent)
    decreases |moves|
  {
    hide Inv, After, Enabled, UniqueIdentities;
    if moves == [] {
      StartIsOk(Final(moves), sent);
    } else {
      var front, last := moves[..|moves| - 1], moves[|moves| - 1];
      RunKeepsInv(sent, front);
      MoveKeepsInv(Final(front), sent, last);
    }
  }

  lemma StartIsOk(j: Joint, sent: set<Message>)
    requires j == START
    ensures Inv(j, sent)
  {
    hide S.Inv, P.Inv, HandlersOk, RunningOk, AcksOk;
    S.NewIsOk();
    NothingStored(j.w, sent);
    NothingUnderWay(j);
  }

  lemma NothingUnderWay(j: Joint)
    requires j.c.registrations == [] && j.c.log == [] && j.bodies == map[] && j.handlers == map[]
    ensures HandlersOk(j.c, j.w, j.bodies, j.handlers) && RunningOk(j.c, j.bodies, j.handlers)
    ensures AcksOk(j.c.log, j.bodies, j.w.acked)
  {
  }

  lemma NothingStored(w: P.World, sent: set<Message>)
    requires w == P.START
    ensures P.Inv(w, sent)
  {
  }

  /**
   * In every run of the consumer with the store and the handlers of every instance: an ack was sent
   * only for a message whose three writes the store holds, and it still holds them.
   */
  lemma AcksAreBehindWrites(sent: set<Message>, moves: seq<Move>)
    requires IsRun(sent, moves) && UniqueIdentities(sent)
    ensures var j := Final(moves);
      forall e <- j.c.log :: e.kind.Ack? ==>
        && (e.generation, e.tag) in j.bodies
        && P.Settled(j.w.db, j.bodies[(e.generation, e.tag)])
  {
    RunKeepsInv(sent, moves);
    hide IsRun, Final, P.Settled, S.Inv, HandlersOk, RunningOk, P.Sound;
  }

  /** The messages of the deliveries that were acknowledged. */
  ghost predicate AckSent(j: Joint, m: Message) {
    exists e <- j.c.log :: e.kind.Ack? && (e.generation, e.tag) in j.bodies && j.bodies[(e.generation, e.tag)] == m
  }

  /**
   * Once the consumer has sent an ack for every stored message, the store passes its result check,
   * whatever other instances wrote, retried or left undone.
   */
  lemma AckedStoreIsChecked(sent: set<Message>, moves: seq<Move>)
    requires IsRun(sent, moves) && UniqueIdentities(sent)
    requires forall m <- P.Stored(Final(moves).w.db) :: AckSent(Final(moves), m)
    ensures P.Checked(Final(moves).w.db)
  {
    RunKeepsInv(sent, moves);
    var j := Final(moves);
    hide IsRun, Final, P.Settled, S.Inv, HandlersOk, RunningOk, P.SectionsBacked, P.AlertsBacked, P.Checked;
    forall m <- P.Stored(j.w.db) ensures P.Settled(j.w.db, m) {
      assert AckSent(j, m);
    }
    P.SettledStoreIsChecked(j.w.db);
  }
}
