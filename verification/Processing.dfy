/**
 * The processing side as a whole: any number of handlers, each making the three idempotent writes
 * of its delivery against one store, with failures, crashes and redeliveries at any point.
 */
module Processing {
  import opened Telemetry
  import opened StateUpdate
  import opened Convergence
  import MessageId

  // ---------- The store ----------

  datatype EventDoc = EventDoc(message: Message, receivedAt: int, processedAt: int)

  /** An alert; its `_id`, the identity string, is the key it is stored under. */
  datatype AlertDoc = AlertDoc(deviceId: string, key: OrderKey, code: string, text: string, occurredAt: int, createdAt: int)

  datatype Db = Db(events: seq<EventDoc>, states: map<string, DeviceDoc>, alerts: map<string, AlertDoc>)

  const EMPTY_DB := Db([], map[], map[])

  predicate HasIdentity(db: Db, id: Identity) {
    exists e <- db.events :: e.message.Id() == id
  }

  /** Insert under the unique identity index: a second document of one identity is refused. */
  function InsertEvent(db: Db, doc: EventDoc): Db {
    if HasIdentity(db, doc.message.Id()) then db else db.(events := db.events + [doc])
  }

  function DocBefore(db: Db, deviceId: string): Option<DeviceDoc> {
    if deviceId in db.states then Some(db.states[deviceId]) else None
  }

  /** The conditional upsert: `PipelineMeansMerge` is what makes it this function. */
  function ApplyState(db: Db, message: Message, receivedAt: int): Db {
    var before := DocBefore(db, message.deviceId);
    db.(states := db.states[message.deviceId :=
      Merge(if before.Some? then before.value else EMPTY_DOC, message, receivedAt)])
  }

  function AlertOf(message: Message, createdAt: int): AlertDoc
    requires message.IsErrorDiagnostic()
  {
    AlertDoc(message.deviceId, message.key, message.payload.code, message.payload.text, message.occurredAt, createdAt)
  }

  function AlertId(message: Message): string {
    MessageId.MessageIdentity(message.Id())
  }

  function InsertAlert(db: Db, message: Message, createdAt: int): Db
    requires message.IsErrorDiagnostic()
  {
    if AlertId(message) in db.alerts then db
    else db.(alerts := db.alerts[AlertId(message) := AlertOf(message, createdAt)])
  }

  // ---------- The handlers ----------

  /** The store call a handler is at; `AtStateAgain` is the upsert repeated after a collision. */
  datatype Pc = AtEvent | AtState | AtStateAgain | AtAlert | AtAck

  datatype Handler = Handler(message: Message, receivedAt: int, pc: Pc)

  /** `late` are the writes whose calls were reported failed and that may still take effect. */
  datatype World = World(db: Db, handlers: map<nat, Handler>, acked: set<Message>, late: seq<Handler>)

  const START := World(EMPTY_DB, map[], {}, [])

  /**
   * How one store call ends. A failure may be reported for a write that never takes effect, that took
   * effect already, or that takes effect later, when its handler may have tried again or be gone;
   * `Collides` is the duplicate result of the upsert: the document exists and nothing was written.
   */
  datatype Fate = Succeeds | FailsBefore | FailsAfter | FailsEarly | Collides

  /**
   * `Leave` is a crash, an abort, an abandoned or a rejected delivery: the handler is just gone. `Lands`
   * is a write that takes effect after its failure was reported.
   */
  datatype Step =
    | Deliver(tag: nat, message: Message, receivedAt: int)
    | Call(tag: nat, fate: Fate, now: int)
    | Ack(tag: nat)
    | Leave(tag: nat)
    | Lands(i: nat, now: int)

  /** Deliveries and redeliveries carry messages the devices sent; the rest is the environment's choice. */
  ghost predicate Enabled(w: World, sent: set<Message>, step: Step) {
    match step
    case Deliver(tag, message, _) => tag !in w.handlers && message in sent
    case Call(tag, fate, _) =>
      && tag in w.handlers && w.handlers[tag].pc != AtAck
      && (fate == Collides ==>
            w.handlers[tag].pc in {AtState, AtStateAgain} && w.handlers[tag].message.deviceId in w.db.states)
    case Ack(tag) => tag in w.handlers && w.handlers[tag].pc == AtAck
    case Leave(tag) => tag in w.handlers
    case Lands(i, _) => i < |w.late|
  }

  /** The write the handler is at, applied. */
  function Write(db: Db, h: Handler, now: int): Db {
    match h.pc
    case AtEvent => InsertEvent(db, EventDoc(h.message, h.receivedAt, now))
    case AtState => ApplyState(db, h.message, h.receivedAt)
    case AtStateAgain => ApplyState(db, h.message, h.receivedAt)
    case AtAlert => if h.message.IsErrorDiagnostic() then InsertAlert(db, h.message, now) else db
    case AtAck => db
  }

  /** The store after one call of `h`: a failure may have taken effect, a collision wrote nothing. */
  function DbAfter(db: Db, h: Handler, fate: Fate, now: int): Db {
    if fate in {Succeeds, FailsAfter} then Write(db, h, now) else db
  }

  /** Where the handler goes on; every failure starts over with the event. */
  function PcAfter(h: Handler, fate: Fate): Pc {
    if fate == Collides && h.pc == AtState then AtStateAgain
    else if fate != Succeeds then AtEvent
    else match h.pc
      case AtEvent => AtState
      case AtAlert => AtAck
      case AtAck => AtAck
      case _ => if h.message.IsErrorDiagnostic() then AtAlert else AtAck
  }

  function Next(w: World, step: Step): World {
    match step
    case Deliver(tag, message, receivedAt) =>
      w.(handlers := w.handlers[tag := Handler(message, receivedAt, AtEvent)])
    case Call(tag, fate, now) =>
      if tag !in w.handlers then w
      else
        var h := w.handlers[tag];
        w.(db := DbAfter(w.db, h, fate, now),
           handlers := w.handlers[tag := h.(pc := PcAfter(h, fate))],
           late := if fate == FailsEarly then w.late + [h] else w.late)
    case Ack(tag) =>
      if tag !in w.handlers then w
      else w.(acked := w.acked + {w.handlers[tag].message}, handlers := w.handlers - {tag})
    case Leave(tag) => w.(handlers := w.handlers - {tag})
    case Lands(i, now) =>
      if i >= |w.late| then w
      else w.(db := Write(w.db, w.late[i], now), late := w.late[..i] + w.late[i + 1..])
  }

  /** A run from `w`: every step is one the environment may take. */
  ghost predicate IsRun(w: World, sent: set<Message>, steps: seq<Step>)
    decreases steps
  {
    steps == [] || (Enabled(w, sent, steps[0]) && IsRun(Next(w, steps[0]), sent, steps[1..]))
  }

  function Run(w: World, steps: seq<Step>): World
    decreases steps
  {
    if steps == [] then w else Run(Next(w, steps[0]), steps[1..])
  }

  // ---------- What the store holds ----------

  function Stored(db: Db): set<Message> {
    set e <- db.events :: e.message
  }

  function StoredOf(db: Db, deviceId: string): set<Message> {
    set m <- Stored(db) | m.deviceId == deviceId
  }

  predicate NoIdentityTwice(db: Db) {
    forall i, j :: 0 <= i < j < |db.events| ==> db.events[i].message.Id() != db.events[j].message.Id()
  }

  /** Every section, and `lastEvent` with it, was written by a stored event of its device and type. */
  predicate SectionsBacked(db: Db) {
    forall deviceId <- db.states :: DocBacked(db.states[deviceId], StoredOf(db, deviceId))
  }

  predicate DocBacked(d: DeviceDoc, stored: set<Message>) {
    Coherent(d) && d.lastEvent.Some? && forall t <- d.sections :: SectionFrom(d.sections[t], t, stored)
  }

  predicate AlertsBacked(db: Db) {
    forall id <- db.alerts :: AlertBacked(id, db.alerts[id], Stored(db))
  }

  predicate AlertBacked(id: string, alert: AlertDoc, stored: set<Message>) {
    exists m <- stored :: m.IsErrorDiagnostic() && id == AlertId(m) && alert == AlertOf(m, alert.createdAt)
  }

  // ---------- What one message has achieved ----------

  ghost predicate StateAtLeast(db: Db, m: Message) {
    && m.deviceId in db.states
    && m.Type() in db.states[m.deviceId].sections
    && !IsNewer(m.key, db.states[m.deviceId].sections[m.Type()].key)
    && db.states[m.deviceId].lastEvent.Some?
    && !IsNewer(m.key, db.states[m.deviceId].lastEvent.value.key)
  }

  ghost predicate Alerted(db: Db, m: Message) {
    m.IsErrorDiagnostic() ==> AlertId(m) in db.alerts
  }

  ghost predicate Settled(db: Db, m: Message) {
    m in Stored(db) && StateAtLeast(db, m) && Alerted(db, m)
  }

  ghost predicate Progress(db: Db, h: Handler) {
    match h.pc
    case AtEvent => true
    case AtState => h.message in Stored(db)
    case AtStateAgain => h.message in Stored(db)
    case AtAlert => h.message in Stored(db) && StateAtLeast(db, h.message) && h.message.IsErrorDiagnostic()
    case AtAck => Settled(db, h.message)
  }

  /** What every handler and every acknowledged message has achieved stays achieved. */
  ghost predicate Kept(w: World, sent: set<Message>) {
    && (forall tag <- w.handlers :: w.handlers[tag].message in sent && Progress(w.db, w.handlers[tag]))
    && (forall m <- w.acked :: Settled(w.db, m))
    && (forall h <- w.late :: h.message in sent && h.pc != AtAck && Progress(w.db, h))
  }

  /** The store on its own: unique identities, all of them sent, and everything derived is backed. */
  predicate Sound(db: Db, sent: set<Message>) {
    && NoIdentityTwice(db) && Stored(db) <= sent
    && SectionsBacked(db) && AlertsBacked(db)
  }

  ghost predicate Inv(w: World, sent: set<Message>) {
    Sound(w.db, sent) && Kept(w, sent)
  }

  // ---------- The store only grows ----------

  predicate DocGrows(a: DeviceDoc, b: DeviceDoc) {
    && (forall t <- a.sections :: t in b.sections && !IsNewer(a.sections[t].key, b.sections[t].key))
    && (a.lastEvent.Some? ==> b.lastEvent.Some? && !IsNewer(a.lastEvent.value.key, b.lastEvent.value.key))
  }

  /** No event or alert disappears or changes, and no watermark goes back. */
  predicate Grows(a: Db, b: Db) {
    && a.events <= b.events
    && (forall deviceId <- a.states :: deviceId in b.states && DocGrows(a.states[deviceId], b.states[deviceId]))
    && (forall id <- a.alerts :: id in b.alerts && b.alerts[id] == a.alerts[id])
  }

  lemma StoredGrows(a: Db, b: Db)
    requires a.events <= b.events
    ensures Stored(a) <= Stored(b)
  {
    forall m | m in Stored(a) ensures m in Stored(b) {
      var e :| e in a.events && e.message == m;
      assert e in b.events;
    }
  }

  lemma GrowsIsReflexive(db: Db)
    ensures Grows(db, db)
  {
  }

  lemma GrowsIsTransitive(a: Db, b: Db, c: Db)
    requires Grows(a, b) && Grows(b, c)
    ensures Grows(a, c)
  {
    forall deviceId <- a.states ensures deviceId in c.states && DocGrows(a.states[deviceId], c.states[deviceId]) {
      assert deviceId in b.states;
    }
  }

  lemma SettledStays(a: Db, b: Db, m: Message)
    requires Grows(a, b)
    ensures m in Stored(a) ==> m in Stored(b)
    ensures StateAtLeast(a, m) ==> StateAtLeast(b, m)
    ensures Alerted(a, m) ==> Alerted(b, m)
  {
    StoredGrows(a, b);
  }

  lemma MergeGrows(d: DeviceDoc, m: Message, receivedAt: int)
    ensures DocGrows(d, Merge(d, m, receivedAt))
  {
  }

  lemma WriteGrows(db: Db, h: Handler, now: int)
    ensures Grows(db, Write(db, h, now))
  {
    if h.message.deviceId in db.states {
      MergeGrows(db.states[h.message.deviceId], h.message, h.receivedAt);
    }
  }

  // ---------- Each write keeps the store backed ----------

  lemma StoredAfterInsert(db: Db, doc: EventDoc)
    ensures Stored(InsertEvent(db, doc)) == if HasIdentity(db, doc.message.Id()) then Stored(db) else Stored(db) + {doc.message}
  {
    if !HasIdentity(db, doc.message.Id()) {
      var db' := InsertEvent(db, doc);
      StoredGrows(db, db');
      assert db'.events[|db.events|] == doc;
      assert doc in db'.events;
    }
  }

  lemma BackedStays(a: Db, b: Db)
    requires Stored(a) <= Stored(b) && a.states == b.states && a.alerts == b.alerts
    requires SectionsBacked(a) && AlertsBacked(a)
    ensures SectionsBacked(b) && AlertsBacked(b)
  {
    forall deviceId <- b.states ensures DocBacked(b.states[deviceId], StoredOf(b, deviceId)) {
      SectionsFromMore(a.states[deviceId], StoredOf(a, deviceId), StoredOf(b, deviceId));
    }
    forall id <- b.alerts ensures AlertBacked(id, b.alerts[id], Stored(b)) {
      assert AlertBacked(id, a.alerts[id], Stored(a));
    }
  }

  lemma SectionsFromMore(d: DeviceDoc, some: set<Message>, more: set<Message>)
    requires DocBacked(d, some) && some <= more
    ensures DocBacked(d, more)
  {
    forall t <- d.sections ensures SectionFrom(d.sections[t], t, more) {
      assert SectionFrom(d.sections[t], t, some);
    }
  }

  lemma InsertKeepsUnique(db: Db, doc: EventDoc)
    requires NoIdentityTwice(db)
    ensures NoIdentityTwice(InsertEvent(db, doc))
  {
  }

  /** An identity that is stored already is the message's own. */
  lemma StoredIdentity(db: Db, m: Message, sent: set<Message>)
    requires HasIdentity(db, m.Id()) && Stored(db) <= sent && m in sent && UniqueIdentities(sent)
    ensures m in Stored(db)
  {
    var e :| e in db.events && e.message.Id() == m.Id();
    assert e.message in Stored(db) && e.message in sent;
    assert e.message == m;
  }

  lemma InsertKeepsBacked(db: Db, doc: EventDoc, sent: set<Message>)
    requires Sound(db, sent)
    requires doc.message in sent && UniqueIdentities(sent)
    ensures var db' := InsertEvent(db, doc);
      Sound(db', sent) && doc.message in Stored(db')
  {
    hide UniqueIdentities, SectionsBacked, AlertsBacked, NoIdentityTwice, HasIdentity, Stored;
    StoredAfterInsert(db, doc);
    BackedStays(db, InsertEvent(db, doc));
    InsertKeepsUnique(db, doc);
    if HasIdentity(db, doc.message.Id()) {
      StoredIdentity(db, doc.message, sent);
    }
  }

  lemma ApplyKeepsBacked(db: Db, m: Message, receivedAt: int)
    requires SectionsBacked(db) && m in Stored(db)
    ensures SectionsBacked(ApplyState(db, m, receivedAt)) && StateAtLeast(ApplyState(db, m, receivedAt), m)
  {
    var db' := ApplyState(db, m, receivedAt);
    var stored := StoredOf(db, m.deviceId);
    var d := if m.deviceId in db.states then db.states[m.deviceId] else EMPTY_DOC;
    var d' := Merge(d, m, receivedAt);
    MergeKeepsCoherent(d, m, receivedAt);
    forall t <- d'.sections ensures SectionFrom(d'.sections[t], t, stored) {
      if d'.sections[t] == SectionOf(m, receivedAt) && t == m.Type() {
        assert m in stored;
      } else {
        assert SectionFrom(d.sections[t], t, stored);
      }
    }
    assert DocBacked(d', stored);
    forall deviceId <- db'.states ensures DocBacked(db'.states[deviceId], StoredOf(db', deviceId)) {
      assert StoredOf(db', deviceId) == StoredOf(db, deviceId);
      assert deviceId != m.deviceId ==> db'.states[deviceId] == db.states[deviceId];
    }
  }

  lemma AlertKeepsBacked(db: Db, m: Message, now: int)
    requires AlertsBacked(db) && m in Stored(db) && m.IsErrorDiagnostic()
    ensures AlertsBacked(InsertAlert(db, m, now)) && Alerted(InsertAlert(db, m, now), m)
  {
    var db' := InsertAlert(db, m, now);
    assert Stored(db') == Stored(db);
    forall id <- db'.alerts ensures AlertBacked(id, db'.alerts[id], Stored(db')) {
      if id in db.alerts {
        assert AlertBacked(id, db.alerts[id], Stored(db));
      }
    }
  }

  // ---------- The invariant ----------

  lemma WriteKeepsInv(db: Db, h: Handler, sent: set<Message>, now: int)
    requires Sound(db, sent)
    requires h.message in sent && UniqueIdentities(sent) && Progress(db, h)
    ensures var db' := Write(db, h, now);
      && Sound(db', sent)
      && forall fate :: h.pc != AtAck ==> Progress(db', h.(pc := PcAfter(h, fate)))
  {
    WriteGrows(db, h, now);
    SettledStays(db, Write(db, h, now), h.message);
    match h.pc
    case AtEvent => InsertKeepsBacked(db, EventDoc(h.message, h.receivedAt, now), sent);
    case AtState =>
      ApplyKeepsBacked(db, h.message, h.receivedAt);
      AlertsUntouched(db, Write(db, h, now));
    case AtStateAgain =>
      ApplyKeepsBacked(db, h.message, h.receivedAt);
      AlertsUntouched(db, Write(db, h, now));
    case AtAlert =>
      AlertKeepsBacked(db, h.message, now);
      StatesUntouched(db, Write(db, h, now));
    case AtAck =>
  }

  lemma AlertsUntouched(a: Db, b: Db)
    requires a.events == b.events && a.alerts == b.alerts && AlertsBacked(a)
    ensures AlertsBacked(b)
  {
    forall id <- b.alerts ensures AlertBacked(id, b.alerts[id], Stored(b)) {
      assert AlertBacked(id, a.alerts[id], Stored(a));
    }
  }

  lemma StatesUntouched(a: Db, b: Db)
    requires a.events == b.events && a.states == b.states && SectionsBacked(a)
    ensures SectionsBacked(b)
  {
    forall deviceId <- b.states ensures DocBacked(b.states[deviceId], StoredOf(b, deviceId)) {
      assert StoredOf(b, deviceId) == StoredOf(a, deviceId);
    }
  }

  lemma GrowthKeeps(w: World, sent: set<Message>, db: Db)
    requires Kept(w, sent) && Grows(w.db, db)
    ensures Kept(w.(db := db), sent)
  {
    forall t <- w.handlers ensures Progress(db, w.handlers[t]) {
      SettledStays(w.db, db, w.handlers[t].message);
    }
    forall m <- w.acked ensures Settled(db, m) {
      SettledStays(w.db, db, m);
    }
    forall h <- w.late ensures Progress(db, h) {
      SettledStays(w.db, db, h.message);
    }
  }

  lemma CallKeepsSound(db: Db, h: Handler, fate: Fate, sent: set<Message>, now: int)
    requires Sound(db, sent) && UniqueIdentities(sent)
    requires h.message in sent && Progress(db, h) && h.pc != AtAck
    requires fate == Collides ==> h.pc in {AtState, AtStateAgain}
    ensures Sound(DbAfter(db, h, fate, now), sent)
    ensures Grows(db, DbAfter(db, h, fate, now))
    ensures Progress(DbAfter(db, h, fate, now), h.(pc := PcAfter(h, fate)))
  {
    WriteKeepsInv(db, h, sent, now);
    WriteGrows(db, h, now);
  }

  lemma CallKeepsInv(w: World, sent: set<Message>, step: Step)
    requires Inv(w, sent) && UniqueIdentities(sent) && step.Call? && Enabled(w, sent, step)
    ensures Inv(Next(w, step), sent)
    ensures Grows(w.db, Next(w, step).db)
  {
    var h := w.handlers[step.tag];
    CallKeepsSound(w.db, h, step.fate, sent, step.now);
    GrowthKeeps(w, sent, Next(w, step).db);
    SettledStays(w.db, Next(w, step).db, h.message);
  }

  /** A write that was under way when its call failed finds the store grown, and ready for it as before. */
  lemma LandKeepsInv(w: World, sent: set<Message>, step: Step)
    requires Inv(w, sent) && UniqueIdentities(sent) && step.Lands? && Enabled(w, sent, step)
    ensures Inv(Next(w, step), sent)
    ensures Grows(w.db, Next(w, step).db)
  {
    var h := w.late[step.i];
    assert h in w.late;
    CallKeepsSound(w.db, h, Succeeds, sent, step.now);
    GrowthKeeps(w, sent, Next(w, step).db);
  }

  lemma StepKeepsInv(w: World, sent: set<Message>, step: Step)
    requires Inv(w, sent) && UniqueIdentities(sent) && Enabled(w, sent, step)
    ensures Inv(Next(w, step), sent)
    ensures Grows(w.db, Next(w, step).db)
  {
    if step.Call? {
      CallKeepsInv(w, sent, step);
    } else if step.Lands? {
      LandKeepsInv(w, sent, step);
    }
  }

  lemma {:induction false} RunKeepsInv(w: World, sent: set<Message>, steps: seq<Step>)
    requires Inv(w, sent) && UniqueIdentities(sent) && IsRun(w, sent, steps)
    ensures Inv(Run(w, steps), sent)
    ensures Grows(w.db, Run(w, steps).db)
    decreases steps
  {
    if steps != [] {
      StepKeepsInv(w, sent, steps[0]);
      RunKeepsInv(Next(w, steps[0]), sent, steps[1..]);
      GrowsIsTransitive(w.db, Next(w, steps[0]).db, Run(w, steps).db);
    }
  }

  // ---------- The guarantees ----------

  /** In every run, at every moment: no identity is stored twice, and nothing stands in the state or the alerts without its event. */
  lemma EveryRunIsBacked(sent: set<Message>, steps: seq<Step>)
    requires UniqueIdentities(sent) && IsRun(START, sent, steps)
    ensures var db := Run(START, steps).db;
      NoIdentityTwice(db) && Stored(db) <= sent && SectionsBacked(db) && AlertsBacked(db)
    ensures forall m <- Run(START, steps).acked :: Settled(Run(START, steps).db, m)
  {
    RunKeepsInv(START, sent, steps);
  }

  /** What an alert must carry: the identity and the text of its diagnostic, in their own fields. */
  ghost predicate CarriesDiagnostic(id: string, alert: AlertDoc, m: Message) {
    && m.payload.DiagnosticPayload? && m.payload.severity == Error
    && id == MessageId.MessageIdentity(Identity(alert.deviceId, alert.key))
    && alert.deviceId == m.deviceId && alert.key == m.key && alert.occurredAt == m.occurredAt
    && alert.code == m.payload.code && alert.text == m.payload.text
  }

  /** What a stored event keeps, and when it came, is of a delivery; its processing time is of a store call. */
  ghost predicate EventTimed(e: EventDoc, came: set<(Message, int)>, clock: set<int>) {
    (e.message, e.receivedAt) in came && e.processedAt in clock
  }

  ghost predicate SectionTimed(s: Section, t: EventType, deviceId: string, came: set<(Message, int)>) {
    exists p <- came ::
      && p.0.deviceId == deviceId && p.0.Type() == t && s.receivedAt == p.1
      && s.payload == p.0.payload && s.key == p.0.key && s.occurredAt == p.0.occurredAt
  }

  ghost predicate AlertTimed(id: string, alert: AlertDoc, came: set<(Message, int)>, clock: set<int>) {
    alert.createdAt in clock && exists p <- came :: CarriesDiagnostic(id, alert, p.0)
  }

  ghost predicate DbTimed(db: Db, came: set<(Message, int)>, clock: set<int>) {
    && (forall e <- db.events :: EventTimed(e, came, clock))
    && (forall deviceId <- db.states, t <- db.states[deviceId].sections ::
          SectionTimed(db.states[deviceId].sections[t], t, deviceId, came))
    && (forall id <- db.alerts :: AlertTimed(id, db.alerts[id], came, clock))
  }

  /** Every handler, and every write still under way, is of a delivery. */
  ghost predicate Timed(w: World, came: set<(Message, int)>, clock: set<int>) {
    && DbTimed(w.db, came, clock)
    && (forall tag <- w.handlers :: (w.handlers[tag].message, w.handlers[tag].receivedAt) in came)
    && (forall h <- w.late :: (h.message, h.receivedAt) in came)
  }

  /** The deliveries of a run, with the times they were received. */
  ghost function CameIn(steps: seq<Step>): set<(Message, int)> {
    set s <- steps | s.Deliver? :: (s.message, s.receivedAt)
  }

  /** The times at which its store calls were made or took effect. */
  ghost function ClockOf(steps: seq<Step>): set<int> {
    set s <- steps | s.Call? || s.Lands? :: s.now
  }

  lemma WriteKeepsTimes(db: Db, h: Handler, now: int, came: set<(Message, int)>, clock: set<int>)
    requires DbTimed(db, came, clock) && (h.message, h.receivedAt) in came && now in clock
    ensures DbTimed(Write(db, h, now), came, clock)
  {
    var db' := Write(db, h, now);
    match h.pc
    case AtEvent => hide SectionTimed, AlertTimed;
    case AtAlert => hide SectionTimed, EventTimed; NewAlertTimed(db, h, now, came, clock);
    case AtAck =>
    case _ => hide EventTimed, AlertTimed; StateTimed(db, h, came, clock);
  }

  lemma NewAlertTimed(db: Db, h: Handler, now: int, came: set<(Message, int)>, clock: set<int>)
    requires (forall id <- db.alerts :: AlertTimed(id, db.alerts[id], came, clock)) && (h.message, h.receivedAt) in came && now in clock
    ensures h.message.IsErrorDiagnostic() ==>
      forall id <- InsertAlert(db, h.message, now).alerts :: AlertTimed(id, InsertAlert(db, h.message, now).alerts[id], came, clock)
  {
    if h.message.IsErrorDiagnostic() {
      assert CarriesDiagnostic(AlertId(h.message), AlertOf(h.message, now), (h.message, h.receivedAt).0);
    }
  }

  lemma StateTimed(db: Db, h: Handler, came: set<(Message, int)>, clock: set<int>)
    requires DbTimed(db, came, clock) && (h.message, h.receivedAt) in came
    ensures var db' := ApplyState(db, h.message, h.receivedAt);
      forall deviceId <- db'.states, t <- db'.states[deviceId].sections ::
        SectionTimed(db'.states[deviceId].sections[t], t, deviceId, came)
  {
    var m, db' := h.message, ApplyState(db, h.message, h.receivedAt);
    hide EventTimed, AlertTimed;
    forall deviceId <- db'.states, t <- db'.states[deviceId].sections
      ensures SectionTimed(db'.states[deviceId].sections[t], t, deviceId, came) {
      if deviceId == m.deviceId && t == m.Type() && db'.states[deviceId].sections[t] == SectionOf(m, h.receivedAt) {
        assert (m, h.receivedAt) in came;
      } else {
        assert deviceId in db.states && t in db.states[deviceId].sections;
      }
    }
  }

  lemma MoreTimes(w: World, came: set<(Message, int)>, clock: set<int>, came': set<(Message, int)>, clock': set<int>)
    requires Timed(w, came, clock) && came <= came' && clock <= clock'
    ensures Timed(w, came', clock')
  {
    forall deviceId <- w.db.states, t <- w.db.states[deviceId].sections
      ensures SectionTimed(w.db.states[deviceId].sections[t], t, deviceId, came') {
      assert SectionTimed(w.db.states[deviceId].sections[t], t, deviceId, came);
    }
    forall id <- w.db.alerts ensures AlertTimed(id, w.db.alerts[id], came', clock') {
      assert AlertTimed(id, w.db.alerts[id], came, clock);
    }
  }

  lemma StepKeepsTimes(w: World, step: Step, sent: set<Message>, came: set<(Message, int)>, clock: set<int>)
    requires Timed(w, came, clock) && Enabled(w, sent, step)
    requires step.Deliver? ==> (step.message, step.receivedAt) in came
    requires step.Call? || step.Lands? ==> step.now in clock
    ensures Timed(Next(w, step), came, clock)
  {
    hide DbTimed;
    match step
    case Call(tag, _, now) => WriteKeepsTimes(w.db, w.handlers[tag], now, came, clock);
    case Lands(i, now) =>
      assert w.late[i] in w.late;
      WriteKeepsTimes(w.db, w.late[i], now, came, clock);
    case _ =>
  }

  lemma {:induction false} RunKeepsTimes(w: World, sent: set<Message>, steps: seq<Step>, came: set<(Message, int)>, clock: set<int>)
    requires Timed(w, came, clock) && IsRun(w, sent, steps)
    ensures Timed(Run(w, steps), came + CameIn(steps), clock + ClockOf(steps))
    decreases steps
  {
    hide Timed, Enabled, Next;
    if steps == [] {
      assert came + CameIn(steps) == came && clock + ClockOf(steps) == clock;
    } else {
      var step, rest := steps[0], steps[1..];
      assert steps == [step] + rest;
      var came', clock' := came + CameIn([step]), clock + ClockOf([step]);
      MoreTimes(w, came, clock, came', clock');
      assert step in [step];
      StepKeepsTimes(w, step, sent, came', clock');
      RunKeepsTimes(Next(w, step), sent, rest, came', clock');
      assert came' + CameIn(rest) == came + CameIn(steps);
      assert clock' + ClockOf(rest) == clock + ClockOf(steps);
    }
  }

  /**
   * In every run, whoever retried, crashed or landed late: what is stored is field for field what some
   * delivery brought, with the time that delivery was received; an alert carries its diagnostic.
   */
  lemma StoredAsDelivered(sent: set<Message>, steps: seq<Step>)
    requires IsRun(START, sent, steps)
    ensures DbTimed(Run(START, steps).db, CameIn(steps), ClockOf(steps))
  {
    RunKeepsTimes(START, sent, steps, {}, {});
    assert {} + CameIn(steps) == CameIn(steps) && {} + ClockOf(steps) == ClockOf(steps);
  }

  /**
   * The result check: every device's document summarizes its stored events, and the alerts are
   * exactly the stored error diagnostics.
   */
  ghost predicate Checked(db: Db) {
    && (forall m <- Stored(db) :: m.deviceId in db.states)
    && (forall deviceId <- db.states :: Summarizes(db.states[deviceId], StoredOf(db, deviceId)))
    && db.alerts.Keys == set m <- Stored(db) | m.IsErrorDiagnostic() :: AlertId(m)
  }

  lemma SettledDocSummarizes(db: Db, deviceId: string)
    requires SectionsBacked(db) && deviceId in db.states
    requires forall m <- Stored(db) :: Settled(db, m)
    ensures Summarizes(db.states[deviceId], StoredOf(db, deviceId))
  {
    var d, stored := db.states[deviceId], StoredOf(db, deviceId);
    forall t: EventType ensures SectionSummarizes(d, t, stored) {
      forall m <- stored | m.Type() == t ensures t in d.sections && !IsNewer(m.key, d.sections[t].key) {
        assert StateAtLeast(db, m);
      }
    }
    var last := d.lastEvent.value;
    assert SectionFrom(d.sections[last.eventType], last.eventType, stored);
    assert LastEventFrom(last, stored);
    forall m <- stored ensures !IsNewer(m.key, last.key) {
      assert StateAtLeast(db, m);
    }
  }

  lemma SettledAlerts(db: Db)
    requires AlertsBacked(db)
    requires forall m <- Stored(db) :: Alerted(db, m)
    ensures db.alerts.Keys == set m <- Stored(db) | m.IsErrorDiagnostic() :: AlertId(m)
  {
    var ids := set m <- Stored(db) | m.IsErrorDiagnostic() :: AlertId(m);
    forall id | id in db.alerts.Keys ensures id in ids {
      assert AlertBacked(id, db.alerts[id], Stored(db));
    }
    forall id <- ids ensures id in db.alerts.Keys {
      var m :| m in Stored(db) && m.IsErrorDiagnostic() && AlertId(m) == id;
      assert Alerted(db, m);
    }
  }

  lemma SettledStoreIsChecked(db: Db)
    requires SectionsBacked(db) && AlertsBacked(db)
    requires forall m <- Stored(db) :: Settled(db, m)
    ensures Checked(db)
  {
    forall m <- Stored(db) ensures m.deviceId in db.states && Alerted(db, m) {
      assert Settled(db, m);
    }
    forall deviceId <- db.states ensures Summarizes(db.states[deviceId], StoredOf(db, deviceId)) {
      SettledDocSummarizes(db, deviceId);
    }
    SettledAlerts(db);
  }

  /**
   * Once every stored event has had an acknowledged delivery, the store passes its result check:
   * newest wins in every section, `lastEvent` is the newest of all, one alert per error diagnostic.
   */
  lemma AcknowledgedRunsConverge(sent: set<Message>, steps: seq<Step>)
    requires UniqueIdentities(sent) && IsRun(START, sent, steps)
    requires Stored(Run(START, steps).db) <= Run(START, steps).acked
    ensures Checked(Run(START, steps).db)
  {
    EveryRunIsBacked(sent, steps);
    SettledStoreIsChecked(Run(START, steps).db);
  }

  /** The count of the alerts is the count of the error diagnostics: no two share an alert. */
  lemma OneAlertPerErrorDiagnostic(db: Db)
    requires Checked(db)
    requires forall m <- Stored(db) :: MessageId.Parseable(m.Id())
    requires UniqueIdentities(Stored(db))
    ensures |db.alerts| == |set m <- Stored(db) | m.IsErrorDiagnostic()|
  {
    var diagnostics := set m <- Stored(db) | m.IsErrorDiagnostic();
    AlertIdsCount(diagnostics);
    assert db.alerts.Keys == set m <- diagnostics :: AlertId(m);
    assert |db.alerts| == |db.alerts.Keys|;
  }

  lemma {:induction false} AlertIdsCount(messages: set<Message>)
    requires forall m <- messages :: MessageId.Parseable(m.Id())
    requires UniqueIdentities(messages)
    ensures |set m <- messages :: AlertId(m)| == |messages|
  {
    if messages != {} {
      var m :| m in messages;
      var rest := messages - {m};
      AlertIdsCount(rest);
      forall n <- rest ensures AlertId(n) != AlertId(m) {
        if AlertId(n) == AlertId(m) {
          MessageId.IdentityStringInjective(n.Id(), m.Id());
        }
      }
      assert (set n <- messages :: AlertId(n)) == (set n <- rest :: AlertId(n)) + {AlertId(m)};
    }
  }
}
