/** The bounded queue of messages waiting for a writable connection, and the pump that empties it. */
module Outboxes {
  import opened Telemetry

  // ---------- Order ----------

  /** The messages of `a` in `b`, in the same order. */
  ghost predicate Subsequence(a: seq<Message>, b: seq<Message>)
    decreases |b|
  {
    if b == [] then a == []
    else
      || Subsequence(a, b[..|b| - 1])
      || (a != [] && a[|a| - 1] == b[|b| - 1] && Subsequence(a[..|a| - 1], b[..|b| - 1]))
  }

  lemma {:induction false} NothingIsASubsequence(b: seq<Message>)
    ensures Subsequence([], b)
    decreases |b|
  {
    if b != [] {
      NothingIsASubsequence(b[..|b| - 1]);
    }
  }

  lemma SubsequenceSnoc(a: seq<Message>, b: seq<Message>, m: Message)
    requires Subsequence(a, b)
    ensures Subsequence(a + [m], b + [m]) && Subsequence(a, b + [m])
  {
    assert (a + [m])[..|a|] == a && (b + [m])[..|b|] == b;
  }

  lemma {:induction false} SubsequenceAppend(a: seq<Message>, b: seq<Message>, more: seq<Message>)
    requires Subsequence(a, b)
    ensures Subsequence(a + more, b + more) && Subsequence(a, b + more)
    decreases |more|
  {
    if more == [] {
      assert a + more == a && b + more == b;
    } else {
      var n := |more| - 1;
      SubsequenceAppend(a, b, more[..n]);
      SubsequenceSnoc(a + more[..n], b + more[..n], more[n]);
      SubsequenceSnoc(a, b + more[..n], more[n]);
      assert a + more == a + more[..n] + [more[n]] && b + more == b + more[..n] + [more[n]];
    }
  }

  /** Leaving one out leaves a subsequence. */
  lemma {:induction false} SubsequenceWithout(a: seq<Message>, b: seq<Message>, k: nat)
    requires Subsequence(a, b) && k < |a|
    ensures Subsequence(a[..k] + a[k + 1..], b)
    decreases |b|
  {
    var front, n := b[..|b| - 1], |a| - 1;
    if Subsequence(a, front) {
      SubsequenceWithout(a, front, k);
    } else if k == n {
      assert a[..k] + a[k + 1..] == a[..n];
    } else {
      SubsequenceWithout(a[..n], front, k);
      var rest := a[..k] + a[k + 1..];
      assert rest[..|rest| - 1] == a[..n][..k] + a[..n][k + 1..];
    }
  }

  lemma {:induction false} SubsequenceIn(a: seq<Message>, b: seq<Message>, i: nat)
    requires Subsequence(a, b) && i < |a|
    ensures a[i] in b
    decreases |b|
  {
    var front := b[..|b| - 1];
    if Subsequence(a, front) {
      SubsequenceIn(a, front, i);
    } else if i < |a| - 1 {
      SubsequenceIn(a[..|a| - 1], front, i);
    }
  }

  lemma {:induction false} SubsequencePrefix(a: seq<Message>, more: seq<Message>, b: seq<Message>)
    requires Subsequence(a + more, b)
    ensures Subsequence(a, b)
    decreases |more|
  {
    if more == [] {
      assert a + more == a;
    } else {
      var all := a + more;
      SubsequenceWithout(all, b, |all| - 1);
      assert all[..|all| - 1] + all[|all|..] == a + more[..|more| - 1];
      SubsequencePrefix(a, more[..|more| - 1], b);
    }
  }

  // ---------- The queue ----------

  predicate IsDiagnostic(m: Message) {
    m.payload.DiagnosticPayload?
  }

  /** The oldest entry that is no diagnostic, or the oldest of all when nothing else is left. */
  ghost predicate IsVictim(entries: seq<Message>, k: nat) {
    && k < |entries|
    && (forall j :: 0 <= j < k ==> IsDiagnostic(entries[j]))
    && (IsDiagnostic(entries[k]) ==> k == 0 && forall m <- entries :: IsDiagnostic(m))
  }

  /** The victim is gone, everything else is in its place. */
  ghost predicate Evicts(before: seq<Message>, evicted: Message, after: seq<Message>) {
    exists k: nat :: k < |before| && IsVictim(before, k) && evicted == before[k] && after == before[..k] + before[k + 1..]
  }

  class Outbox {
    const maxEntries: nat
    var entries: seq<Message>

    constructor (maxEntries: nat)
      ensures entries == [] && this.maxEntries == maxEntries
    {
      this.maxEntries := maxEntries;
      entries := [];
    }

    /** Appends, and makes room first when full. */
    method Push(message: Message) returns (evicted: Option<Message>)
      modifies this`entries
      ensures evicted.Some? <==> |old(entries)| >= maxEntries && old(entries) != []
      ensures evicted.None? ==> entries == old(entries) + [message]
      ensures |entries| > 0 && entries[|entries| - 1] == message
      ensures evicted.Some? ==> Evicts(old(entries), evicted.value, entries[..|entries| - 1])
      ensures |old(entries)| <= maxEntries ==> |entries| <= if maxEntries == 0 then 1 else maxEntries
    {
      evicted := None;
      if |entries| >= maxEntries {
        evicted := Evict();
      }
      ghost var kept := entries;
      entries := entries + [message];
      assert entries[..|entries| - 1] == kept;
    }

    method Evict() returns (evicted: Option<Message>)
      modifies this`entries
      ensures evicted.None? <==> old(entries) == []
      ensures evicted.None? ==> entries == []
      ensures evicted.Some? ==> Evicts(old(entries), evicted.value, entries)
      ensures evicted.Some? ==> |entries| == |old(entries)| - 1
    {
      if entries == [] {
        return None;
      }
      var k := 0;
      while k < |entries| && IsDiagnostic(entries[k])
        invariant k <= |entries|
        invariant forall j :: 0 <= j < k ==> IsDiagnostic(entries[j])
      {
        k := k + 1;
      }
      if k == |entries| {
        k := 0;
      }
      assert IsVictim(entries, k);
      evicted := Some(entries[k]);
      entries := entries[..k] + entries[k + 1..];
    }

    /** The head, left in place. */
    method Peek() returns (head: Option<Message>)
      ensures head == if entries == [] then None else Some(entries[0])
    {
      head := if entries == [] then None else Some(entries[0]);
    }

    method Shift() returns (head: Option<Message>)
      modifies this`entries
      ensures head == if old(entries) == [] then None else Some(old(entries)[0])
      ensures entries == if old(entries) == [] then [] else old(entries)[1..]
    {
      head := None;
      if entries != [] {
        head := Some(entries[0]);
        entries := entries[1..];
      }
    }

    method Clear()
      modifies this`entries
      ensures entries == []
    {
      entries := [];
    }
  }

  /** What the device writes into: it takes a message or refuses it, whatever it did before. */
  class Connection {
    ghost var wire: seq<Message>
    ghost var refused: nat

    constructor ()
      ensures wire == [] && refused == 0
    {
      wire, refused := [], 0;
    }

    method Write(m: Message) returns (taken: bool)
      modifies this
      ensures if taken then wire == old(wire) + [m] && refused == old(refused) else wire == old(wire) && refused == old(refused) + 1
    {
      taken := *;
      if taken {
        wire := wire + [m];
      } else {
        refused := refused + 1;
      }
    }
  }

  /**
   * Writes the oldest entries while they are taken: an entry leaves the queue only once it is on the
   * wire, and the first refusal, if the queue did not run empty before it, ends the pump.
   */
  method PumpOutbox(outbox: Outbox, connection: Connection) returns (written: seq<Message>)
    modifies outbox`entries, connection
    ensures written + outbox.entries == old(outbox.entries)
    ensures connection.wire == old(connection.wire) + written
    ensures connection.refused == old(connection.refused) + if outbox.entries == [] then 0 else 1
  {
    written := [];
    var head := outbox.Peek();
    while head.Some?
      invariant head == if outbox.entries == [] then None else Some(outbox.entries[0])
      invariant written + outbox.entries == old(outbox.entries)
      invariant connection.wire == old(connection.wire) + written && connection.refused == old(connection.refused)
      decreases |outbox.entries|
    {
      var taken := connection.Write(head.value);
      if !taken {
        break;
      }
      var _ := outbox.Shift();
      written := written + [head.value];
      head := outbox.Peek();
    }
  }
}
