/**
 * One delivery: up to three writes per attempt, retried while the failures are transient, against a
 * store that any number of other handlers write to between the calls.
 */
module Handler {
  import opened Telemetry
  import opened StateUpdate
  import P = Processing

  // ---------- What the handler is told ----------

  datatype FailureClass = Transient | Permanent | Closed

  /** A store method answers, rejects with a classified `StoreError`, or throws anything else. */
  datatype Reply<+T> = Answer(value: T) | Failure(klass: FailureClass) | Threw

  datatype InsertResult = Inserted | Duplicate

  /** `Collided` is the duplicate key of the racing first insert of a device. */
  datatype StateResult = Updated(before: Option<DeviceDoc>) | Collided

  datatype AlertResult = Created | Exists | NoAlert

  datatype AbandonCause = Aborted | StoreClosed | StoreUnavailable

  datatype RejectReason = Undecodable | PermanentFailure

  datatype HandlerResult =
    | AckVerdict(outcome: StateOutcome, duplicate: bool, alert: AlertResult, gap: bool, attempts: nat)
    | Reject(reason: RejectReason, attempts: nat)
    | Abandon(cause: AbandonCause, attempts: nat)

  datatype AttemptResult =
    | AttemptAcked(outcome: StateOutcome, duplicate: bool, alert: AlertResult, gap: bool)
    | AttemptAborted
    | AttemptFailed(klass: FailureClass)
    | AttemptThrew

  /** A body that decodes to a message, or one that does not. */
  datatype Decoded = Rejected | Decoded(message: Message, receivedAt: int)

  // ---------- What the calls of a delivery met ----------

  /** How one store call ended for the handler. */
  datatype CallEnd = Done | Collision | Refused(klass: FailureClass) | Crashed

  /** The call ended its attempt, and not for good: a transient failure, or the second collision in a row. */
  predicate IsTransientEnd(ends: seq<CallEnd>, i: nat)
    requires i < |ends|
  {
    ends[i] == Refused(Transient) || (ends[i] == Collision && i > 0 && ends[i - 1] == Collision)
  }

  /** How many attempts ended that way. */
  function TransientEnds(ends: seq<CallEnd>): nat {
    if ends == [] then 0
    else TransientEnds(ends[..|ends| - 1]) + if IsTransientEnd(ends, |ends| - 1) then 1 else 0
  }

  predicate IsFatal(e: CallEnd) {
    e.Crashed? || (e.Refused? && !e.klass.Transient?)
  }

  ghost predicate NoneFatal(ends: seq<CallEnd>) {
    forall i :: 0 <= i < |ends| ==> !IsFatal(ends[i])
  }

  /** No call but the last failed for good. */
  ghost predicate NoneFatalBefore(ends: seq<CallEnd>) {
    ends == [] || NoneFatal(ends[..|ends| - 1])
  }

  predicate EndsWith(ends: seq<CallEnd>, e: CallEnd) {
    ends != [] && ends[|ends| - 1] == e
  }

  lemma EndsSnoc(ends: seq<CallEnd>, e: CallEnd)
    requires NoneFatal(ends)
    ensures TransientEnds(ends + [e]) == TransientEnds(ends) + if IsTransientEnd(ends + [e], |ends|) then 1 else 0
    ensures NoneFatalBefore(ends + [e]) && (NoneFatal(ends + [e]) <==> !IsFatal(e))
  {
    var more := ends + [e];
    assert more[..|ends|] == ends;
    assert more[|ends|] == e && forall i :: 0 <= i < |ends| ==> more[i] == ends[i];
  }

  function EndOfInsert(reply: Reply<InsertResult>): CallEnd {
    match reply
    case Answer(_) => Done
    case Failure(klass) => Refused(klass)
    case Threw => Crashed
  }

  function EndOfState(reply: Reply<StateResult>): CallEnd {
    match reply
    case Answer(value) => if value.Collided? then Collision else Done
    case Failure(klass) => Refused(klass)
    case Threw => Crashed
  }

  // ---------- The store port ----------

  /**
   * The store as the handler of one delivery sees it: its own calls, each one step of the
   * concurrent system, with the writes of other handlers before and after. `pc` is where that
   * system has this handler; `ends` records how its calls ended.
   */
  class Store {
    const sent: set<Message>
    const message: Message
    const receivedAt: int
    var db: P.Db
    var pc: P.Pc
    ghost var ends: seq<CallEnd>

    constructor (sent: set<Message>, message: Message, receivedAt: int, db: P.Db)
      requires P.Sound(db, sent) && UniqueIdentities(sent) && message in sent
      ensures Valid() && ends == [] && pc == P.AtEvent && this.message == message && this.db == db
    {
      this.sent, this.message, this.receivedAt := sent, message, receivedAt;
      this.db, this.pc, ends := db, P.AtEvent, [];
    }

    function Handler(): P.Handler
      reads this
    {
      P.Handler(message, receivedAt, pc)
    }

    ghost predicate Valid()
      reads this
    {
      && P.Sound(db, sent) && UniqueIdentities(sent)
      && message in sent && P.Progress(db, Handler())
    }

    /** Other handlers: whatever they did, the store has only grown and is still sound. */
    method Interfere()
      requires Valid()
      modifies this`db
      ensures Valid() && P.Grows(old(db), db)
    {
      assert P.Grows(db, db);
      var later: P.Db :| P.Sound(later, sent) && P.Grows(db, later);
      P.SettledStays(db, later, message);
      db := later;
    }

    /**
     * The call the handler is at, in between the calls of others; `at` is the store as the call met
     * it. It may fail without an effect, after it, or before it: a late effect is one of the others'.
     */
    method Call(now: int) returns (fate: P.Fate, at: P.Db)
      requires Valid() && pc != P.AtAck
      modifies this`db, this`pc
      ensures Valid()
      ensures pc == P.PcAfter(old(Handler()), fate)
      ensures P.Grows(old(db), at) && P.Grows(at, db)
      ensures fate == P.Succeeds ==> P.Grows(P.Write(at, old(Handler()), now), db)
      ensures fate == P.Collides ==> old(pc) in {P.AtState, P.AtStateAgain} && message.deviceId in at.states
    {
      hide P.Sound, P.Grows, P.Progress, P.Write, UniqueIdentities;
      Interfere();
      at := db;
      fate := ChooseFate();
      Perform(now, fate);
      ghost var own := db;
      Interfere();
      P.GrowsIsTransitive(at, own, db);
    }

    /** Any fate; only a state write that finds its document collides. */
    method ChooseFate() returns (fate: P.Fate)
      ensures fate == P.Collides ==> pc in {P.AtState, P.AtStateAgain} && message.deviceId in db.states
    {
      fate := *;
      if fate == P.Collides && !(pc in {P.AtState, P.AtStateAgain} && message.deviceId in db.states) {
        fate := P.FailsBefore;
      }
    }

    /** The call's own step. */
    method Perform(now: int, fate: P.Fate)
      requires Valid() && pc != P.AtAck && (fate == P.Collides ==> pc in {P.AtState, P.AtStateAgain})
      modifies this`db, this`pc
      ensures Valid() && P.Grows(old(db), db)
      ensures db == P.DbAfter(old(db), old(Handler()), fate, now) && pc == P.PcAfter(old(Handler()), fate)
    {
      hide P.Sound, P.Grows, P.Progress, P.Write, UniqueIdentities;
      P.CallKeepsSound(db, Handler(), fate, sent, now);
      db := P.DbAfter(db, Handler(), fate, now);
      pc := P.PcAfter(Handler(), fate);
    }

    /** How a failed call is classified, or that it threw something else: the driver decides. */
    method Classify() returns (klass: Option<FailureClass>) {
      klass := *;
    }

    method InsertEvent(processedAt: int, ghost signal: Signal) returns (reply: Reply<InsertResult>, ghost at: P.Db)
      requires Valid() && pc == P.AtEvent && signal.checked
      modifies this, signal`checked
      ensures Valid() && ends == old(ends) + [EndOfInsert(reply)] && P.Grows(old(db), db)
      ensures pc == if reply.Answer? then P.AtState else P.AtEvent
      ensures reply.Answer? ==> (reply.value == Duplicate <==> P.HasIdentity(at, message.Id()))
    {
      ghost var before := db;
      var fate, seen := Call(processedAt);
      at := seen;
      P.GrowsIsTransitive(before, at, db);
      if fate == P.Succeeds {
        reply := Answer(if P.HasIdentity(seen, message.Id()) then Duplicate else Inserted);
      } else {
        var klass := Classify();
        reply := if klass.Some? then Failure(klass.value) else Threw;
      }
      ends := ends + [EndOfInsert(reply)];
      signal.checked := false;
    }

    /** `before` is the document the write was evaluated against, `None` when the write created it. */
    method ApplyState(ghost signal: Signal) returns (reply: Reply<StateResult>, ghost at: P.Db)
      requires Valid() && pc in {P.AtState, P.AtStateAgain} && signal.checked
      modifies this, signal`checked
      ensures Valid() && ends == old(ends) + [EndOfState(reply)] && P.Grows(old(db), db)
      ensures reply.Answer? && reply.value.Updated? ==>
        && reply.value.before == P.DocBefore(at, message.deviceId)
        && P.Grows(P.ApplyState(at, message, receivedAt), db)
        && pc == if message.IsErrorDiagnostic() then P.AtAlert else P.AtAck
      ensures reply == Answer(Collided) ==>
        && message.deviceId in at.states
        && pc == if old(pc) == P.AtState then P.AtStateAgain else P.AtEvent
      ensures !reply.Answer? ==> pc == P.AtEvent
    {
      ghost var before := db;
      var fate, seen := Call(0);
      at := seen;
      P.GrowsIsTransitive(before, at, db);
      if fate == P.Succeeds {
        reply := Answer(Updated(P.DocBefore(seen, message.deviceId)));
      } else if fate == P.Collides {
        reply := Answer(Collided);
      } else {
        var klass := Classify();
        reply := if klass.Some? then Failure(klass.value) else Threw;
      }
      ends := ends + [EndOfState(reply)];
      signal.checked := false;
    }

    method InsertAlert(createdAt: int, ghost signal: Signal) returns (reply: Reply<InsertResult>, ghost at: P.Db)
      requires Valid() && pc == P.AtAlert && signal.checked
      modifies this, signal`checked
      ensures Valid() && ends == old(ends) + [EndOfInsert(reply)] && P.Grows(old(db), db)
      ensures pc == if reply.Answer? then P.AtAck else P.AtEvent
      ensures reply.Answer? ==> (reply.value == Duplicate <==> P.AlertId(message) in at.alerts)
    {
      hide P.Sound, P.Grows, P.Progress, P.Write, UniqueIdentities;
      ghost var before := db;
      var fate, seen := Call(createdAt);
      at := seen;
      P.GrowsIsTransitive(before, at, db);
      if fate == P.Succeeds {
        reply := Answer(if P.AlertId(message) in seen.alerts then Duplicate else Inserted);
      } else {
        var klass := Classify();
        reply := if klass.Some? then Failure(klass.value) else Threw;
      }
      ends := ends + [EndOfInsert(reply)];
      signal.checked := false;
    }
  }

  /**
   * The abort signal: once it has fired it stays fired. It is `checked` when it was checked, and had not
   * fired, since the last store call: no write goes out without that.
   */
  class Signal {
    var aborted: bool
    ghost var checked: bool

    method Poll() returns (now: bool)
      modifies this
      ensures now == aborted && (old(aborted) ==> aborted) && checked == !aborted
    {
      var fired: bool := *;
      aborted := aborted || fired;
      now := aborted;
      checked := !aborted;
    }
  }

  // ---------- One attempt ----------

  /**
   * What an attempt's calls, the ends from `before` on, say of its result: only the last one can have
   * failed for good, and the result is that failure.
   */
  ghost predicate Shows(before: seq<CallEnd>, ends: seq<CallEnd>, result: AttemptResult) {
    && before <= ends && |ends| <= |before| + 4 && NoneFatalBefore(ends)
    && (result.AttemptAcked? ==> NoneFatal(ends) && EndsWith(ends, Done))
    && (result.AttemptAborted? || result == AttemptFailed(Transient) ==> NoneFatal(ends))
    && (result.AttemptThrew? ==> |ends| > |before| && EndsWith(ends, Crashed))
    && (result.AttemptFailed? && !result.klass.Transient? ==> |ends| > |before| && EndsWith(ends, Refused(result.klass)))
    && TransientEnds(ends) == TransientEnds(before) + if result == AttemptFailed(Transient) then 1 else 0
  }

  /** What a call that did not answer makes of its attempt. */
  function ResultOf(e: CallEnd): AttemptResult
    requires e.Refused? || e.Crashed?
  {
    if e.Refused? then AttemptFailed(e.klass) else AttemptThrew
  }

  /** The attempt is under way: no call of it has failed, nor collided twice. */
  ghost predicate Going(before: seq<CallEnd>, ends: seq<CallEnd>) {
    before <= ends && NoneFatal(ends) && TransientEnds(ends) == TransientEnds(before)
  }

  lemma CallGoesOn(before: seq<CallEnd>, ends: seq<CallEnd>, e: CallEnd)
    requires Going(before, ends) && (e.Done? || (e.Collision? && EndsWith(ends, Done)))
    ensures Going(before, ends + [e]) && EndsWith(ends + [e], e)
  {
    EndsSnoc(ends, e);
  }

  lemma CallEndsIt(before: seq<CallEnd>, ends: seq<CallEnd>, e: CallEnd)
    requires Going(before, ends) && |ends| < |before| + 4
    requires e.Refused? || e.Crashed? || (e.Collision? && EndsWith(ends, Collision))
    ensures Shows(before, ends + [e], if e.Collision? then AttemptFailed(Transient) else ResultOf(e))
  {
    EndsSnoc(ends, e);
  }

  lemma GoingShows(before: seq<CallEnd>, ends: seq<CallEnd>, result: AttemptResult)
    requires Going(before, ends) && |ends| <= |before| + 4
    requires result.AttemptAborted? || (result.AttemptAcked? && EndsWith(ends, Done))
    ensures Shows(before, ends, result)
  {
  }

  /** What an acknowledging attempt reports is what its own writes met. */
  ghost predicate ReportsTruly(message: Message, r: AttemptResult, insertedAt: P.Db, appliedAt: P.Db, alertedAt: P.Db)
    requires r.AttemptAcked?
  {
    && (r.duplicate <==> P.HasIdentity(insertedAt, message.Id()))
    && r.outcome == ClassifyOutcome(P.DocBefore(appliedAt, message.deviceId), message)
    && (r.gap <==> DetectGap(P.DocBefore(appliedAt, message.deviceId), message).Some?)
    && (r.alert == NoAlert <==> !message.IsErrorDiagnostic())
    && (r.alert == Exists <==> message.IsErrorDiagnostic() && P.AlertId(message) in alertedAt.alerts)
  }

  /**
   * The write sequence, with the abort checks between the writes. `insertedAt`, `appliedAt` and
   * `alertedAt` are the store as the three writes met it.
   */
  method RunAttempt(store: Store, signal: Signal, now: int)
    returns (result: AttemptResult, ghost insertedAt: P.Db, ghost appliedAt: P.Db, ghost alertedAt: P.Db)
    requires store.Valid() && store.pc == P.AtEvent && NoneFatal(store.ends)
    modifies store, signal
    ensures store.Valid() && P.Grows(old(store.db), store.db)
    ensures old(signal.aborted) ==> signal.aborted
    ensures Shows(old(store.ends), store.ends, result)
    ensures old(signal.aborted) ==> result.AttemptAborted? && store.ends == old(store.ends)
    ensures result.AttemptAborted? ==> signal.aborted
    ensures result.AttemptFailed? ==> store.pc == P.AtEvent
    ensures result.AttemptAcked? ==>
      && store.pc == P.AtAck && signal.checked && !signal.aborted
      && ReportsTruly(store.message, result, insertedAt, appliedAt, alertedAt)
      && P.Grows(P.ApplyState(appliedAt, store.message, store.receivedAt), store.db)
  {
    hide P.Sound, P.Grows, P.Progress, P.ApplyState, ClassifyOutcome, DetectGap;
    hide Shows, NoneFatal, TransientEnds, NoneFatalBefore, IsTransientEnd;
    ghost var before, start, ends := store.db, store.ends, store.ends;
    P.GrowsIsReflexive(before);
    assert Going(start, start);
    insertedAt, appliedAt, alertedAt := before, before, before;
    var aborted := signal.Poll();
    if aborted {
      result := AttemptAborted;
      GoingShows(start, ends, result);
      return;
    }

    var inserted;
    inserted, insertedAt := store.InsertEvent(now, signal);
    if !inserted.Answer? {
      result := if inserted.Failure? then AttemptFailed(inserted.klass) else AttemptThrew;
      CallEndsIt(start, ends, EndOfInsert(inserted));
      return;
    }
    CallGoesOn(start, ends, Done);
    ends := store.ends;
    aborted := signal.Poll();
    if aborted {
      result := AttemptAborted;
      GoingShows(start, ends, result);
      return;
    }

    ghost var stored := store.db;
    var applied;
    applied, aborted, appliedAt := ApplyTwice(store, signal);
    P.GrowsIsTransitive(before, stored, store.db);
    CallGoesOn(start, ends, Collision);
    ghost var once := store.ends != ends + [EndOfState(applied)] || applied == Answer(Collided);
    if aborted {
      result := AttemptAborted;
      GoingShows(start, store.ends, result);
      return;
    }
    assert ends + [Collision] + [EndOfState(applied)] == ends + [Collision, EndOfState(applied)];
    ends := if once then ends + [Collision] else ends;
    assert store.ends == ends + [EndOfState(applied)];
    if applied == Answer(Collided) {
      result := AttemptFailed(Transient);
      CallEndsIt(start, ends, Collision);
      return;
    }
    if !applied.Answer? {
      result := if applied.Failure? then AttemptFailed(applied.klass) else AttemptThrew;
      CallEndsIt(start, ends, EndOfState(applied));
      return;
    }
    CallGoesOn(start, ends, Done);
    ends := store.ends;
    var outcome := ClassifyOutcome(applied.value.before, store.message);
    var gap := DetectGap(applied.value.before, store.message);
    aborted := signal.Poll();
    if aborted {
      result := AttemptAborted;
      GoingShows(start, ends, result);
      return;
    }

    var alert := NoAlert;
    if store.message.IsErrorDiagnostic() {
      stored := store.db;
      var alerted;
      alerted, alertedAt := store.InsertAlert(now, signal);
      P.GrowsIsTransitive(before, stored, store.db);
      P.GrowsIsTransitive(P.ApplyState(appliedAt, store.message, store.receivedAt), stored, store.db);
      if !alerted.Answer? {
        result := if alerted.Failure? then AttemptFailed(alerted.klass) else AttemptThrew;
        CallEndsIt(start, ends, EndOfInsert(alerted));
        return;
      }
      CallGoesOn(start, ends, Done);
      alert := if alerted.value == Inserted then AlertResult.Created else Exists;
    }
    aborted := signal.Poll();
    result := if aborted then AttemptAborted
              else AttemptAcked(outcome, inserted.value == Duplicate, alert, gap.Some?);
    GoingShows(start, store.ends, result);
  }

  /** The upsert, and once more at once when the racing first insert of the device came first. */
  method ApplyTwice(store: Store, signal: Signal)
    returns (reply: Reply<StateResult>, aborted: bool, ghost at: P.Db)
    requires store.Valid() && store.pc == P.AtState && signal.checked
    modifies store, signal
    ensures store.Valid() && P.Grows(old(store.db), store.db)
    ensures old(signal.aborted) ==> signal.aborted
    ensures aborted ==> signal.aborted && store.ends == old(store.ends) + [Collision]
    ensures !aborted ==>
      || (store.ends == old(store.ends) + [EndOfState(reply)] && reply != Answer(Collided))
      || store.ends == old(store.ends) + [Collision, EndOfState(reply)]
    ensures !aborted && reply.Answer? && reply.value.Updated? ==>
      && reply.value.before == P.DocBefore(at, store.message.deviceId)
      && P.Grows(P.ApplyState(at, store.message, store.receivedAt), store.db)
      && store.pc == if store.message.IsErrorDiagnostic() then P.AtAlert else P.AtAck
    ensures !aborted && !(reply.Answer? && reply.value.Updated?) ==> store.pc == P.AtEvent
  {
    hide P.Sound, P.Grows, P.Progress, P.ApplyState;
    aborted := false;
    reply, at := store.ApplyState(signal);
    if reply == Answer(Collided) {
      aborted := signal.Poll();
      if aborted {
        return;
      }
      ghost var before, stored := old(store.db), store.db;
      reply, at := store.ApplyState(signal);
      P.GrowsIsTransitive(before, stored, store.db);
    }
  }

  // ---------- The delivery ----------

  function Max(a: int, b: int): int {
    if a < b then b else a
  }

  /**
   * One delivery, to its verdict. Whatever other handlers write in between: an acknowledgement
   * means that every write of this message is in the store, and a delivery ends within
   * `transientAttempts` attempts of four store calls.
   */
  method ProcessDelivery(store: Store, signal: Signal, decoded: bool, transientAttempts: nat)
    returns (result: HandlerResult, ghost insertedAt: P.Db, ghost appliedAt: P.Db, ghost alertedAt: P.Db)
    requires store.Valid() && store.pc == P.AtEvent && store.ends == []
    modifies store, signal
    ensures store.Valid() && P.Grows(old(store.db), store.db)
    ensures result.AckVerdict? ==>
      && store.pc == P.AtAck && P.Settled(store.db, store.message)
      && ReportsTruly(store.message, AttemptAcked(result.outcome, result.duplicate, result.alert, result.gap), insertedAt, appliedAt, alertedAt)
      && P.Grows(P.ApplyState(appliedAt, store.message, store.receivedAt), store.db)
    ensures result.attempts <= Max(1, transientAttempts)
    ensures |store.ends| <= 4 * result.attempts && NoneFatalBefore(store.ends)
    ensures decoded ==> (result.Reject? <==> EndsWith(store.ends, Refused(Permanent)) || EndsWith(store.ends, Crashed))
    ensures result == Abandon(StoreClosed, result.attempts) <==> EndsWith(store.ends, Refused(Closed))
    ensures decoded ==>
      (result == Abandon(StoreUnavailable, result.attempts) <==> TransientEnds(store.ends) == Max(1, transientAttempts))
    ensures result.AckVerdict? ==> EndsWith(store.ends, Done) && TransientEnds(store.ends) == result.attempts - 1 && !signal.aborted
    ensures result.Reject? && decoded ==> TransientEnds(store.ends) == result.attempts - 1
    ensures old(signal.aborted) && decoded ==> result == Abandon(Aborted, 1) && store.ends == []
    ensures !decoded <==> result.attempts == 0
    ensures !decoded ==> result == Reject(Undecodable, 0) && store.db == old(store.db)
    ensures result.Reject? && decoded ==> result.reason == PermanentFailure
    ensures result.Abandon? && result.cause == Aborted ==> signal.aborted
    ensures result.Abandon? && result.cause == StoreUnavailable ==> result.attempts == Max(1, transientAttempts)
  {
    insertedAt, appliedAt, alertedAt := store.db, store.db, store.db;
    if !decoded {
      result := Reject(Undecodable, 0);
      return;
    }
    ghost var before := store.db;
    var attempt := 1;
    while true
      invariant store.Valid() && store.pc == P.AtEvent && P.Grows(before, store.db)
      invariant 1 <= attempt <= Max(1, transientAttempts)
      invariant |store.ends| <= 4 * (attempt - 1) && NoneFatal(store.ends) && TransientEnds(store.ends) == attempt - 1
      invariant if attempt == 1 then signal.aborted == old(signal.aborted) && store.ends == [] else !old(signal.aborted)
      decreases transientAttempts - attempt
    {
      ghost var started := store.db;
      var r;
      var now: int := *;
      r, insertedAt, appliedAt, alertedAt := RunAttempt(store, signal, now);
      P.GrowsIsTransitive(before, started, store.db);
      match r {
        case AttemptThrew =>
          result := Reject(PermanentFailure, attempt);
          return;
        case AttemptAborted =>
          result := Abandon(Aborted, attempt);
          return;
        case AttemptAcked(outcome, duplicate, alert, gap) =>
          result := AckVerdict(outcome, duplicate, alert, gap, attempt);
          return;
        case AttemptFailed(klass) =>
          if klass == Permanent {
            result := Reject(PermanentFailure, attempt);
            return;
          }
          if klass == Closed {
            result := Abandon(StoreClosed, attempt);
            return;
          }
          if attempt >= transientAttempts {
            result := Abandon(StoreUnavailable, attempt);
            return;
          }
          // The backoff sleep ends early only when the signal aborts.
          var aborted := signal.Poll();
          if aborted {
            result := Abandon(Aborted, attempt);
            return;
          }
      }
      attempt := attempt + 1;
    }
  }
}
