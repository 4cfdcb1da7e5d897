/**
 * What a device's document becomes when messages are applied in any order, any number of times:
 * the newest message per section, and the newest of all.
 */
module Convergence {
  import opened Telemetry
  import opened StateUpdate

  /** One application of the state write: a message and the time its copy was received. */
  datatype Delivery = Delivery(message: Message, receivedAt: int)

  function MergeAll(d: DeviceDoc, deliveries: seq<Delivery>): DeviceDoc {
    if deliveries == [] then d
    else
      var last := deliveries[|deliveries| - 1];
      Merge(MergeAll(d, deliveries[..|deliveries| - 1]), last.message, last.receivedAt)
  }

  ghost function Messages(deliveries: seq<Delivery>): set<Message> {
    set x <- deliveries :: x.message
  }

  lemma MessagesSnoc(front: seq<Delivery>, last: Delivery)
    ensures Messages(front + [last]) == Messages(front) + {last.message}
  {
    var all := front + [last];
    forall m | m in Messages(front) + {last.message} ensures m in Messages(all) {
      if m in Messages(front) {
        var x :| x in front && x.message == m;
        assert x in all;
      } else {
        assert all[|front|] in all;
      }
    }
  }

  /** The section was written by a copy of one of the messages. */
  predicate SectionFrom(s: Section, t: EventType, messages: set<Message>) {
    exists m <- messages :: m.Type() == t && s == SectionOf(m, s.receivedAt)
  }

  predicate LastEventFrom(e: LastEvent, messages: set<Message>) {
    exists m <- messages :: e == LastEventOf(m, e.receivedAt)
  }

  ghost predicate NoneNewer(key: OrderKey, t: EventType, messages: set<Message>) {
    forall m <- messages :: m.Type() == t ==> !IsNewer(m.key, key)
  }

  ghost predicate NoneNewerAtAll(key: OrderKey, messages: set<Message>) {
    forall m <- messages :: !IsNewer(m.key, key)
  }

  /** The section of one type is the newest message of that type; without a message it is absent. */
  ghost predicate SectionSummarizes(d: DeviceDoc, t: EventType, messages: set<Message>) {
    if t in d.sections then
      SectionFrom(d.sections[t], t, messages) && NoneNewer(d.sections[t].key, t, messages)
    else
      forall m <- messages :: m.Type() != t
  }

  ghost predicate LastEventSummarizes(d: DeviceDoc, messages: set<Message>) {
    match d.lastEvent
    case None => messages == {}
    case Some(e) => LastEventFrom(e, messages) && NoneNewerAtAll(e.key, messages)
  }

  ghost predicate Summarizes(d: DeviceDoc, messages: set<Message>) {
    (forall t: EventType :: SectionSummarizes(d, t, messages)) && LastEventSummarizes(d, messages)
  }

  lemma SectionOfOneMore(d: DeviceDoc, t: EventType, messages: set<Message>, message: Message, receivedAt: int)
    requires SectionSummarizes(d, t, messages)
    ensures SectionSummarizes(Merge(d, message, receivedAt), t, messages + {message})
  {
    var all := messages + {message};
    if t == message.Type() && NewerThanSection(d, message) {
      assert message in all;
    } else if t in d.sections {
      var m :| m in messages && m.Type() == t && d.sections[t] == SectionOf(m, d.sections[t].receivedAt);
      assert m in all;
    }
  }

  lemma LastEventOfOneMore(d: DeviceDoc, messages: set<Message>, message: Message, receivedAt: int)
    requires LastEventSummarizes(d, messages)
    ensures LastEventSummarizes(Merge(d, message, receivedAt), messages + {message})
  {
    var all := messages + {message};
    if NewerThanLastEvent(d, message) {
      assert message in all;
    } else {
      var e := d.lastEvent.value;
      var m :| m in messages && e == LastEventOf(m, e.receivedAt);
      assert m in all;
    }
  }

  /** Any sequence of deliveries leaves the summary of the messages in it. */
  lemma {:induction false} MergeAllSummarizes(deliveries: seq<Delivery>)
    ensures Summarizes(MergeAll(EMPTY_DOC, deliveries), Messages(deliveries))
  {
    if deliveries != [] {
      var front, last := deliveries[..|deliveries| - 1], deliveries[|deliveries| - 1];
      MergeAllSummarizes(front);
      assert deliveries == front + [last];
      MessagesSnoc(front, last);
      var d := MergeAll(EMPTY_DOC, front);
      forall t: EventType
        ensures SectionSummarizes(Merge(d, last.message, last.receivedAt), t, Messages(deliveries))
      {
        SectionOfOneMore(d, t, Messages(front), last.message, last.receivedAt);
      }
      LastEventOfOneMore(d, Messages(front), last.message, last.receivedAt);
    }
  }

  /** Equal up to the receive times. */
  ghost predicate SameState(a: DeviceDoc, b: DeviceDoc) {
    && (forall t: EventType :: SameSection(a, b, t))
    && (a.lastEvent.Some? <==> b.lastEvent.Some?)
    && (a.lastEvent.Some? ==> a.lastEvent.value.(receivedAt := 0) == b.lastEvent.value.(receivedAt := 0))
  }

  ghost predicate SameSection(a: DeviceDoc, b: DeviceDoc, t: EventType) {
    && (t in a.sections <==> t in b.sections)
    && (t in a.sections ==> a.sections[t].(receivedAt := 0) == b.sections[t].(receivedAt := 0))
  }

  /** One device: its keys name its messages. */
  ghost predicate KeysAreUnique(messages: set<Message>) {
    forall m, n :: m in messages && n in messages && m.key == n.key ==> m == n
  }

  lemma SummarizedSectionIsUnique(a: DeviceDoc, b: DeviceDoc, t: EventType, messages: set<Message>)
    requires SectionSummarizes(a, t, messages) && SectionSummarizes(b, t, messages) && KeysAreUnique(messages)
    ensures SameSection(a, b, t)
  {
    if t in a.sections && t in b.sections {
      var m :| m in messages && m.Type() == t && a.sections[t] == SectionOf(m, a.sections[t].receivedAt);
      var n :| n in messages && n.Type() == t && b.sections[t] == SectionOf(n, b.sections[t].receivedAt);
      assert m.key == n.key;
    }
  }

  lemma SummaryIsUnique(a: DeviceDoc, b: DeviceDoc, messages: set<Message>)
    requires Summarizes(a, messages) && Summarizes(b, messages) && KeysAreUnique(messages)
    ensures SameState(a, b)
  {
    forall t: EventType ensures SameSection(a, b, t) {
      SummarizedSectionIsUnique(a, b, t, messages);
    }
    if a.lastEvent.Some? && b.lastEvent.Some? {
      var d, e := a.lastEvent.value, b.lastEvent.value;
      var m :| m in messages && d == LastEventOf(m, d.receivedAt);
      var n :| n in messages && e == LastEventOf(n, e.receivedAt);
      assert m.key == n.key;
    }
  }

  /**
   * Order and repetition do not matter: two runs that applied the same messages, in any order and
   * any number of times each, end in the same state.
   */
  lemma OrderAndDuplicatesDoNotMatter(xs: seq<Delivery>, ys: seq<Delivery>)
    requires Messages(xs) == Messages(ys) && KeysAreUnique(Messages(xs))
    ensures SameState(MergeAll(EMPTY_DOC, xs), MergeAll(EMPTY_DOC, ys))
  {
    MergeAllSummarizes(xs);
    MergeAllSummarizes(ys);
    SummaryIsUnique(MergeAll(EMPTY_DOC, xs), MergeAll(EMPTY_DOC, ys), Messages(xs));
  }
}
