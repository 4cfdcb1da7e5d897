/** The processing side meets the expectation that is computed from the sends alone. */
module EndToEnd {
  import opened Telemetry
  import opened StateUpdate
  import opened Convergence
  import opened Processing
  import D = DeliveryRuns
  import L = Load

  /** A newest key is one key: the order is total. */
  lemma NewestKeyIsOne(a: OrderKey, b: OrderKey, messages: set<Message>)
    requires L.IsNewestKey(a, messages) && (exists m <- messages :: m.key == b) && (forall m <- messages :: !IsNewer(m.key, b))
    ensures a == b
  {
    var m :| m in messages && m.key == a;
    var n :| n in messages && n.key == b;
    assert !IsNewer(m.key, b) && !IsNewer(n.key, a);
  }

  lemma SectionsMeet(e: L.Expected, d: DeviceDoc, messages: set<Message>, deviceId: string, t: EventType)
    requires L.SectionExpected(e, messages, deviceId, t) && SectionSummarizes(d, t, L.OfDevice(messages, deviceId))
    ensures t in d.sections <==> deviceId in e.sections && t in e.sections[deviceId]
    ensures t in d.sections ==> d.sections[t].key == e.sections[deviceId][t]
  {
    var typed, all := L.OfType(messages, deviceId, t), L.OfDevice(messages, deviceId);
    assert forall m :: m in typed <==> m in all && m.Type() == t;
    if t in d.sections {
      var m :| m in all && m.Type() == t && d.sections[t] == SectionOf(m, d.sections[t].receivedAt);
      assert m in typed;
      assert d.sections[t].key == m.key;
      NewestKeyIsOne(e.sections[deviceId][t], d.sections[t].key, typed);
    }
  }

  lemma LastEventsMeet(e: L.Expected, d: DeviceDoc, messages: set<Message>, deviceId: string)
    requires L.LastExpected(e, messages, deviceId) && LastEventSummarizes(d, L.OfDevice(messages, deviceId))
    ensures d.lastEvent.Some? <==> deviceId in e.lastEvent
    ensures d.lastEvent.Some? ==> d.lastEvent.value.key == e.lastEvent[deviceId]
  {
    var all := L.OfDevice(messages, deviceId);
    if d.lastEvent.Some? {
      var last := d.lastEvent.value;
      var m :| m in all && last == LastEventOf(m, last.receivedAt);
      assert last.key == m.key;
      NewestKeyIsOne(e.lastEvent[deviceId], last.key, all);
    }
  }

  /** What the stored documents show is what the expectation says. */
  ghost predicate DeviceMeets(e: L.Expected, db: Db, deviceId: string) {
    && (deviceId in db.states <==> deviceId in e.lastEvent)
    && (deviceId in db.states ==>
          var d := db.states[deviceId];
          && d.lastEvent.Some? && d.lastEvent.value.key == e.lastEvent[deviceId]
          && deviceId in e.sections && d.sections.Keys == e.sections[deviceId].Keys
          && forall t <- d.sections :: d.sections[t].key == e.sections[deviceId][t])
  }

  lemma NamedIsUnique(sends: seq<Message>)
    requires L.NamesMessages(sends)
    ensures UniqueIdentities(set m <- sends)
  {
  }

  lemma DeviceMeetsExpectation(e: L.Expected, db: Db, deviceId: string)
    requires L.Expects(e, Stored(db)) && Checked(db) && SectionsBacked(db)
    ensures DeviceMeets(e, db, deviceId)
  {
    hide L.SectionExpected, L.LastExpected, SectionSummarizes, LastEventSummarizes, L.IdentitiesOf, L.AlertsOf;
    var all := L.OfDevice(Stored(db), deviceId);
    assert all == StoredOf(db, deviceId);
    assert L.LastExpected(e, Stored(db), deviceId);
    if deviceId in db.states {
      var d := db.states[deviceId];
      assert Summarizes(d, all) && DocBacked(d, all);
      LastEventsMeet(e, d, Stored(db), deviceId);
      forall t: EventType ensures t in d.sections <==> deviceId in e.sections && t in e.sections[deviceId] {
        assert L.SectionExpected(e, Stored(db), deviceId, t);
        assert SectionSummarizes(d, t, all);
        SectionsMeet(e, d, Stored(db), deviceId, t);
      }
      forall t <- d.sections ensures d.sections[t].key == e.sections[deviceId][t] {
        assert L.SectionExpected(e, Stored(db), deviceId, t);
        assert SectionSummarizes(d, t, all);
        SectionsMeet(e, d, Stored(db), deviceId, t);
      }
      SomeSection(d);
    } else {
      NothingExpectedOfOthers(e, db, deviceId);
    }
  }

  lemma SomeSection(d: DeviceDoc)
    requires Coherent(d) && d.lastEvent.Some?
    ensures exists t :: t in d.sections
  {
    assert d.lastEvent.value.eventType in d.sections;
  }

  lemma NothingExpectedOfOthers(e: L.Expected, db: Db, deviceId: string)
    requires L.LastExpected(e, Stored(db), deviceId) && Checked(db) && deviceId !in db.states
    ensures deviceId !in e.lastEvent
  {
    assert L.OfDevice(Stored(db), deviceId) == {};
  }

  /**
   * Whatever was retried, reordered, duplicated, raced or crashed on the way: once every send has had
   * an acknowledged delivery, the store holds each message once, each section and `lastEvent` stand at
   * the expected keys, and the alerts are the expected ones.
   */
  lemma PipelineMeetsExpectation(sends: seq<Message>, e: L.Expected, steps: seq<Step>)
    requires L.NamesMessages(sends) && L.Expects(e, set m <- sends)
    requires IsRun(START, (set m <- sends), steps) && (set m <- sends) <= Run(START, steps).acked
    ensures var db := Run(START, steps).db;
      && Stored(db) == (set m <- sends) && NoIdentityTwice(db)
      && (forall deviceId :: DeviceMeets(e, db, deviceId))
      && db.alerts.Keys == e.alerts
  {
    var db := Run(START, steps).db;
    AcknowledgedIsChecked(sends, steps);
    hide L.Expects, Checked, SectionsBacked, IsRun, Run, NoIdentityTwice;
    forall deviceId ensures DeviceMeets(e, db, deviceId) {
      DeviceMeetsExpectation(e, db, deviceId);
    }
    AlertsMeet(e, db);
  }

  lemma AcknowledgedIsChecked(sends: seq<Message>, steps: seq<Step>)
    requires L.NamesMessages(sends) && IsRun(START, (set m <- sends), steps) && (set m <- sends) <= Run(START, steps).acked
    ensures var db := Run(START, steps).db;
      Stored(db) == (set m <- sends) && NoIdentityTwice(db) && Checked(db) && SectionsBacked(db)
  {
    hide IsRun, Run, Checked, SectionsBacked, AlertsBacked;
    var sent := set m <- sends;
    NamedIsUnique(sends);
    EveryRunIsBacked(sent, steps);
    SettledStoreIsChecked(Run(START, steps).db);
  }

  lemma AlertsMeet(e: L.Expected, db: Db)
    requires L.Expects(e, Stored(db)) && Checked(db)
    ensures db.alerts.Keys == e.alerts
  {
    hide L.SectionExpected, L.LastExpected, Summarizes, L.IdentitiesOf;
    assert forall m: Message :: AlertId(m) == L.IdentityOf(m);
  }

  lemma AckSentIsChecked(sends: seq<Message>, moves: seq<D.Move>)
    requires L.NamesMessages(sends) && D.IsRun((set m <- sends), moves)
    requires forall m <- sends :: D.AckSent(D.Final(moves), m)
    ensures var db := D.Final(moves).w.db;
      Stored(db) == (set m <- sends) && NoIdentityTwice(db) && Checked(db) && SectionsBacked(db)
  {
    hide D.IsRun, D.Final, Checked, SectionsBacked, AlertsBacked, NoIdentityTwice;
    var sent, j := (set m <- sends), D.Final(moves);
    NamedIsUnique(sends);
    D.RunKeepsInv(sent, moves);
    D.AcksAreBehindWrites(sent, moves);
    forall m <- sends ensures m in Stored(j.w.db) {
      assert D.AckSent(j, m);
    }
    D.AckedStoreIsChecked(sent, moves);
  }

  /**
   * The same seen from the broker: once the consumer has sent an ack for every send, the store holds
   * each message once and stands at what was expected.
   */
  lemma ConsumerMeetsExpectation(sends: seq<Message>, e: L.Expected, moves: seq<D.Move>)
    requires L.NamesMessages(sends) && L.Expects(e, set m <- sends)
    requires D.IsRun((set m <- sends), moves) && forall m <- sends :: D.AckSent(D.Final(moves), m)
    ensures var db := D.Final(moves).w.db;
      && Stored(db) == (set m <- sends) && NoIdentityTwice(db)
      && (forall deviceId :: DeviceMeets(e, db, deviceId))
      && db.alerts.Keys == e.alerts
  {
    var db := D.Final(moves).w.db;
    AckSentIsChecked(sends, moves);
    hide L.Expects, Checked, SectionsBacked, D.IsRun, D.Final, NoIdentityTwice;
    forall deviceId ensures DeviceMeets(e, db, deviceId) {
      DeviceMeetsExpectation(e, db, deviceId);
    }
    AlertsMeet(e, db);
  }
}
