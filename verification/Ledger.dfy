/** Every message handed to the publisher, kept until the broker acks it, and the stall clock. */
module Ledgers {
  import opened Telemetry

  /** What is published, and published again: the message and the time it was received. */
  datatype PublishArgs = PublishArgs(message: Message, receivedAt: int)

  datatype EntryState = Pending | Sent(generation: nat)

  /** `owner` is the connection whose `onConfirmed` the ack runs. */
  datatype Entry = Entry(id: nat, args: PublishArgs, owner: nat, state: EntryState, wasSent: bool)

  /** The entries in insertion order, the next id, and the count kept incrementally. */
  datatype LedgerState = LedgerState(entries: seq<Entry>, nextId: nat, sentCount: nat)

  const EMPTY_LEDGER := LedgerState([], 1, 0)

  // ---------- The operations ----------

  function NewEntry(l: LedgerState, args: PublishArgs, owner: nat): Entry {
    Entry(l.nextId, args, owner, Pending, false)
  }

  function Added(l: LedgerState, args: PublishArgs, owner: nat): LedgerState {
    l.(entries := l.entries + [NewEntry(l, args, owner)], nextId := l.nextId + 1)
  }

  function PendingOf(entries: seq<Entry>): seq<Entry> {
    if entries == [] then []
    else (if entries[0].state.Pending? then [entries[0]] else []) + PendingOf(entries[1..])
  }

  /** The position of an id, or the length when it is not there. */
  function IndexOf(entries: seq<Entry>, id: nat): (i: nat)
    ensures i <= |entries|
    ensures i < |entries| ==> entries[i].id == id
    ensures forall j :: 0 <= j < i ==> entries[j].id != id
  {
    if entries == [] then 0
    else if entries[0].id == id then 0
    else 1 + IndexOf(entries[1..], id)
  }

  function MarkedSent(l: LedgerState, id: nat, generation: nat): LedgerState {
    var i := IndexOf(l.entries, id);
    if i == |l.entries| then l
    else l.(entries := l.entries[i := l.entries[i].(state := Sent(generation), wasSent := true)],
            sentCount := if l.entries[i].state.Pending? then l.sentCount + 1 else l.sentCount)
  }

  /** Without the entry; an id that is not there changes nothing. */
  function Confirmed(l: LedgerState, id: nat): LedgerState {
    var i := IndexOf(l.entries, id);
    if i == |l.entries| then l
    else l.(entries := l.entries[..i] + l.entries[i + 1..],
            sentCount := if l.entries[i].state.Sent? && l.sentCount > 0 then l.sentCount - 1 else l.sentCount)
  }

  function Lost(entries: seq<Entry>): (lost: seq<Entry>)
    ensures |lost| == |entries|
    ensures forall i :: 0 <= i < |entries| ==> lost[i] == entries[i].(state := Pending)
  {
    seq(|entries|, i requires 0 <= i < |entries| => entries[i].(state := Pending))
  }

  function AllLost(l: LedgerState): LedgerState {
    l.(entries := Lost(l.entries), sentCount := 0)
  }

  // ---------- What holds of every ledger ----------

  function SentIn(entries: seq<Entry>): nat {
    if entries == [] then 0 else (if entries[0].state.Sent? then 1 else 0) + SentIn(entries[1..])
  }

  ghost predicate Increasing(entries: seq<Entry>) {
    forall i, j :: 0 <= i < j < |entries| ==> entries[i].id < entries[j].id
  }

  /** Ids rise in insertion order and stay below the next one; the kept count is the real count. */
  ghost predicate WellFormed(l: LedgerState) {
    && Increasing(l.entries)
    && (forall e <- l.entries :: 0 < e.id < l.nextId)
    && l.nextId > 0
    && l.sentCount == SentIn(l.entries)
  }

  ghost predicate Has(l: LedgerState, id: nat) {
    exists e <- l.entries :: e.id == id
  }

  ghost function Ids(l: LedgerState): set<nat> {
    set e <- l.entries :: e.id
  }

  lemma {:induction false} SentInConcat(a: seq<Entry>, b: seq<Entry>)
    ensures SentIn(a + b) == SentIn(a) + SentIn(b)
  {
    if a == [] {
      assert a + b == b;
    } else {
      assert (a + b)[1..] == a[1..] + b;
      SentInConcat(a[1..], b);
    }
  }

  lemma {:induction false} SentInSplit(entries: seq<Entry>, i: nat)
    requires i < |entries|
    ensures SentIn(entries) == SentIn(entries[..i]) + (if entries[i].state.Sent? then 1 else 0) + SentIn(entries[i + 1..])
  {
    var tail := entries[i..];
    assert entries == entries[..i] + tail;
    SentInConcat(entries[..i], tail);
    assert tail[0] == entries[i] && tail[1..] == entries[i + 1..];
  }

  lemma {:induction false} NoneSent(entries: seq<Entry>)
    requires forall e <- entries :: e.state.Pending?
    ensures SentIn(entries) == 0 && PendingOf(entries) == entries
  {
    if entries != [] {
      assert entries[0] in entries;
      NoneSent(entries[1..]);
    }
  }

  lemma {:induction false} AllSent(entries: seq<Entry>)
    requires forall e <- entries :: e.state.Sent?
    ensures SentIn(entries) == |entries|
  {
    if entries != [] {
      AllSent(entries[1..]);
    }
  }

  /** The pending entries, all of them, in insertion order: what `send_pending` walks through. */
  lemma {:induction false} PendingInOrder(entries: seq<Entry>)
    requires Increasing(entries)
    ensures Increasing(PendingOf(entries))
    ensures forall e :: e in PendingOf(entries) <==> e in entries && e.state.Pending?
  {
    if entries != [] {
      PendingInOrder(entries[1..]);
      assert entries == [entries[0]] + entries[1..];
      var rest := PendingOf(entries[1..]);
      forall e <- rest ensures entries[0].id < e.id {
        var j :| 0 <= j < |entries[1..]| && entries[1..][j] == e;
        assert entries[j + 1] == e;
      }
    }
  }

  lemma {:induction false} IndexOfPresent(entries: seq<Entry>, k: nat)
    requires Increasing(entries) && k < |entries|
    ensures IndexOf(entries, entries[k].id) == k
  {
  }

  lemma {:induction false} AddKeepsWellFormed(l: LedgerState, args: PublishArgs, owner: nat)
    requires WellFormed(l)
    ensures WellFormed(Added(l, args, owner)) && !Has(l, NewEntry(l, args, owner).id)
    ensures Ids(Added(l, args, owner)) == Ids(l) + {l.nextId}
  {
    var e, l' := NewEntry(l, args, owner), Added(l, args, owner);
    SentInConcat(l.entries, [e]);
    assert l'.entries[|l.entries|] == e;
  }

  lemma {:induction false} MarkKeepsWellFormed(l: LedgerState, id: nat, generation: nat)
    requires WellFormed(l)
    ensures WellFormed(MarkedSent(l, id, generation))
    ensures Ids(MarkedSent(l, id, generation)) == Ids(l)
  {
    var i, l' := IndexOf(l.entries, id), MarkedSent(l, id, generation);
    if i < |l.entries| {
      SentInSplit(l.entries, i);
      SentInSplit(l'.entries, i);
      assert l'.entries[..i] == l.entries[..i] && l'.entries[i + 1..] == l.entries[i + 1..];
      forall k | 0 <= k < |l.entries| ensures l'.entries[k].id == l.entries[k].id && l.entries[k] in l.entries {
      }
      SameIds(l.entries, l'.entries);
    }
  }

  lemma {:induction false} SameIds(a: seq<Entry>, b: seq<Entry>)
    requires |a| == |b| && forall k :: 0 <= k < |a| ==> a[k].id == b[k].id
    ensures (set e <- a :: e.id) == (set e <- b :: e.id)
  {
    var ids, others := set e <- a :: e.id, set e <- b :: e.id;
    forall x <- ids ensures x in others {
      var k :| 0 <= k < |a| && a[k].id == x;
      assert b[k] in b;
    }
    forall x <- others ensures x in ids {
      var k :| 0 <= k < |b| && b[k].id == x;
      assert a[k] in a;
    }
  }

  lemma {:induction false} RemoveAt(entries: seq<Entry>, i: nat)
    requires Increasing(entries) && i < |entries|
    ensures var rest := entries[..i] + entries[i + 1..];
      && Increasing(rest)
      && (forall e <- rest :: e in entries && e.id != entries[i].id)
      && (forall e <- entries :: e.id != entries[i].id ==> e in rest)
  {
    var rest := entries[..i] + entries[i + 1..];
    forall k | 0 <= k < |rest| ensures rest[k] == entries[if k < i then k else k + 1] {
    }
    forall e <- entries | e.id != entries[i].id ensures e in rest {
      var k :| 0 <= k < |entries| && entries[k] == e;
      assert rest[if k < i then k else k - 1] == e;
    }
  }

  lemma {:induction false} PresentAt(entries: seq<Entry>, id: nat)
    ensures IndexOf(entries, id) < |entries| <==> exists e <- entries :: e.id == id
  {
    var i := IndexOf(entries, id);
    if i < |entries| {
      assert entries[i] in entries;
    }
  }

  lemma {:induction false} ConfirmRemoves(l: LedgerState, id: nat)
    requires WellFormed(l)
    ensures forall e <- Confirmed(l, id).entries :: e in l.entries && e.id != id
    ensures forall e <- l.entries :: e.id != id ==> e in Confirmed(l, id).entries
    ensures |Confirmed(l, id).entries| == if Has(l, id) then |l.entries| - 1 else |l.entries|
    ensures Increasing(Confirmed(l, id).entries)
  {
    var i := IndexOf(l.entries, id);
    PresentAt(l.entries, id);
    if i < |l.entries| {
      RemoveAt(l.entries, i);
    }
    hide IndexOf, Increasing, SentIn;
  }

  lemma {:induction false} ConfirmKeepsWellFormed(l: LedgerState, id: nat)
    requires WellFormed(l)
    ensures WellFormed(Confirmed(l, id)) && l.sentCount == SentIn(l.entries)
  {
    var i := IndexOf(l.entries, id);
    ConfirmRemoves(l, id);
    if i < |l.entries| {
      SentInSplit(l.entries, i);
      SentInConcat(l.entries[..i], l.entries[i + 1..]);
    }
  }

  lemma {:induction false} ConfirmRemovesId(l: LedgerState, id: nat)
    requires WellFormed(l)
    ensures Ids(Confirmed(l, id)) == Ids(l) - {id}
  {
    ConfirmRemoves(l, id);
    forall x <- Ids(l) | x != id ensures x in Ids(Confirmed(l, id)) {
      var e :| e in l.entries && e.id == x;
      assert e in Confirmed(l, id).entries;
    }
  }

  lemma {:induction false} LoseKeepsWellFormed(l: LedgerState)
    requires WellFormed(l)
    ensures WellFormed(AllLost(l)) && Ids(AllLost(l)) == Ids(l)
    ensures forall e <- AllLost(l).entries :: e.state.Pending?
  {
    var l' := AllLost(l);
    NoneSent(l'.entries);
    SameIds(l.entries, l'.entries);
    forall k | 0 <= k < |l.entries| ensures l.entries[k] in l.entries {
    }
  }

  // ---------- The class ----------

  class Ledger {
    var entries: seq<Entry>
    var nextId: nat
    var sentCount: nat

    ghost function View(): LedgerState
      reads this
    {
      LedgerState(entries, nextId, sentCount)
    }

    constructor ()
      ensures View() == EMPTY_LEDGER
    {
      entries, nextId, sentCount := [], 1, 0;
    }

    method Add(args: PublishArgs, owner: nat) returns (entry: Entry)
      modifies this
      ensures entry == NewEntry(old(View()), args, owner)
      ensures View() == Added(old(View()), args, owner)
    {
      entry := Entry(nextId, args, owner, Pending, false);
      nextId := nextId + 1;
      entries := entries + [entry];
    }

    /** The pending entries, in insertion order. */
    method PendingEntries() returns (pending: seq<Entry>)
      ensures pending == PendingOf(entries)
    {
      pending := [];
      for i := 0 to |entries|
        invariant pending + PendingOf(entries[i..]) == PendingOf(entries)
      {
        if entries[i].state.Pending? {
          pending := pending + [entries[i]];
        }
      }
    }

    method Find(id: nat) returns (i: nat)
      ensures i == IndexOf(entries, id)
    {
      i := 0;
      while i < |entries| && entries[i].id != id
        invariant i <= |entries|
        invariant IndexOf(entries, id) == i + IndexOf(entries[i..], id)
      {
        i := i + 1;
      }
    }

    method MarkSent(id: nat, generation: nat)
      modifies this
      ensures View() == MarkedSent(old(View()), id, generation)
    {
      var i := Find(id);
      if i == |entries| {
        return;
      }
      if entries[i].state.Pending? {
        sentCount := sentCount + 1;
      }
      entries := entries[i := entries[i].(state := Sent(generation), wasSent := true)];
    }

    /** Removes the entry; `removed` says whether its `onConfirmed` runs now. */
    method Confirm(id: nat) returns (removed: Option<Entry>)
      requires sentCount == SentIn(entries)
      modifies this
      ensures View() == Confirmed(old(View()), id)
      ensures removed == if IndexOf(old(entries), id) < |old(entries)| then Some(old(entries)[IndexOf(old(entries), id)]) else None
    {
      var i := Find(id);
      if i == |entries| {
        return None;
      }
      removed := Some(entries[i]);
      SentInSplit(entries, i);
      entries := entries[..i] + entries[i + 1..];
      if removed.value.state.Sent? {
        sentCount := sentCount - 1;
      }
    }

    method Lose()
      modifies this
      ensures View() == AllLost(old(View()))
    {
      var i := 0;
      while i < |entries|
        invariant i <= |entries| == |old(entries)|
        invariant forall j :: 0 <= j < i ==> entries[j] == old(entries)[j].(state := Pending)
        invariant forall j :: i <= j < |entries| ==> entries[j] == old(entries)[j]
        invariant nextId == old(nextId)
      {
        entries := entries[i := entries[i].(state := Pending)];
        i := i + 1;
      }
      sentCount := 0;
      assert entries == Lost(old(entries));
    }
  }

  // ---------- The stall clock ----------

  function OnSent(clock: Option<int>, now: int, sentCount: nat): Option<int> {
    if sentCount == 1 then Some(now) else clock
  }

  function OnAck(now: int, sentCount: nat): Option<int> {
    if sentCount > 0 then Some(now) else None
  }

  predicate IsStalled(clock: Option<int>, now: int, timeoutMs: nat) {
    clock.Some? && now - clock.value > timeoutMs
  }

  /** One timestamp instead of a timer per message. */
  class StallClock {
    var startedAt: Option<int>

    constructor ()
      ensures startedAt == None
    {
      startedAt := None;
    }

    method Sent(now: int, sentCount: nat)
      modifies this
      ensures startedAt == OnSent(old(startedAt), now, sentCount)
    {
      if sentCount == 1 {
        startedAt := Some(now);
      }
    }

    method Acked(now: int, sentCount: nat)
      modifies this
      ensures startedAt == OnAck(now, sentCount)
    {
      startedAt := if sentCount > 0 then Some(now) else None;
    }

    method Restart(now: int)
      modifies this
      ensures startedAt == Some(now)
    {
      startedAt := Some(now);
    }
  }
}
