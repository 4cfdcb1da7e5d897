/** The confirm windows and the one reading rule. */
module Flow {

  /** A confirm window: how many messages wait for a confirm, and whether it is open. */
  datatype WindowState = WindowState(cap: nat, size: nat, open: bool)

  function EmptyWindow(cap: nat): WindowState {
    WindowState(cap, 0, true)
  }

  function Grown(w: WindowState): WindowState {
    w.(size := w.size + 1, open := w.open && w.size + 1 < w.cap)
  }

  /** One confirm; an empty window throws instead. */
  function Shrunk(w: WindowState): WindowState
    requires w.size > 0
  {
    w.(size := w.size - 1, open := w.open || w.size - 1 <= w.cap / 2)
  }

  predicate ShouldRead(publisherReady: bool, connectionOpen: bool, instanceOpen: bool) {
    publisherReady && connectionOpen && instanceOpen
  }

  // ---------- What a window means over a whole run ----------

  datatype Count = Add | Remove

  /** The removes never outnumber the adds. */
  ghost predicate NeverUnder(counts: seq<Count>)
    decreases |counts|
  {
    counts == [] ||
    var front := counts[..|counts| - 1];
    NeverUnder(front) && (counts[|counts| - 1].Remove? ==> Size(front) > 0)
  }

  ghost function Size(counts: seq<Count>): int
    decreases |counts|
  {
    if counts == [] then 0
    else Size(counts[..|counts| - 1]) + (if counts[|counts| - 1].Add? then 1 else -1)
  }

  lemma {:induction false} SizeIsNat(counts: seq<Count>)
    requires NeverUnder(counts)
    ensures Size(counts) >= 0
    decreases |counts|
  {
    if counts != [] {
      SizeIsNat(counts[..|counts| - 1]);
    }
  }

  ghost function WindowAfter(cap: nat, counts: seq<Count>): (w: WindowState)
    requires NeverUnder(counts)
    ensures w.cap == cap && w.size == Size(counts)
    decreases |counts|
  {
    if counts == [] then EmptyWindow(cap)
    else
      var before := WindowAfter(cap, counts[..|counts| - 1]);
      if counts[|counts| - 1].Add? then Grown(before) else Shrunk(before)
  }

  /** The count reached the cap after the first `i` steps and has not fallen to half of it since. */
  ghost predicate FullSince(cap: nat, counts: seq<Count>, i: nat) {
    && i <= |counts| && Size(counts[..i]) >= cap
    && forall j :: i <= j <= |counts| ==> Size(counts[..j]) > cap / 2
  }

  lemma FullLonger(cap: nat, counts: seq<Count>, i: nat)
    requires counts != [] && i < |counts|
    ensures FullSince(cap, counts, i) <==> FullSince(cap, counts[..|counts| - 1], i) && Size(counts) > cap / 2
  {
    var front := counts[..|counts| - 1];
    assert counts[..|counts|] == counts;
    forall j | 0 <= j < |counts| ensures front[..j] == counts[..j] {
    }
    hide Size;
  }

  lemma FullNow(cap: nat, counts: seq<Count>)
    requires cap > 0
    ensures FullSince(cap, counts, |counts|) <==> Size(counts) >= cap
  {
    assert counts[..|counts|] == counts;
    hide Size;
  }

  /**
   * A window is closed exactly when its count reached the cap and has stayed above half of the cap
   * since, however far past the cap it went in between.
   */
  lemma {:induction false} ClosedMeansFull(cap: nat, counts: seq<Count>)
    requires cap > 0 && NeverUnder(counts)
    ensures !WindowAfter(cap, counts).open <==> exists i: nat :: FullSince(cap, counts, i)
    ensures WindowAfter(cap, counts).open ==> Size(counts) < cap
    ensures !WindowAfter(cap, counts).open ==> Size(counts) > cap / 2
    decreases |counts|
  {
    var w := WindowAfter(cap, counts);
    FullNow(cap, counts);
    if counts == [] {
      return;
    }
    var front := counts[..|counts| - 1];
    ClosedMeansFull(cap, front);
    hide FullSince;
    if !w.open {
      if !WindowAfter(cap, front).open {
        var i: nat :| FullSince(cap, front, i);
        FullBound(cap, front, i);
        FullLonger(cap, counts, i);
      }
    } else {
      forall i: nat ensures !FullSince(cap, counts, i) {
        if FullSince(cap, counts, i) {
          FullBound(cap, counts, i);
          if i < |counts| {
            FullLonger(cap, counts, i);
          }
        }
      }
    }
  }

  lemma FullBound(cap: nat, counts: seq<Count>, i: nat)
    requires FullSince(cap, counts, i)
    ensures i <= |counts|
  {
  }

  // ---------- The class ----------

  datatype Added = Closed | Still
  datatype Removed = Reopened | Same | Underflow

  class Window {
    const cap: nat
    var size: nat
    var open: bool

    ghost function View(): WindowState
      reads this
    {
      WindowState(cap, size, open)
    }

    constructor (cap: nat)
      ensures this.cap == cap && View() == EmptyWindow(cap)
    {
      this.cap := cap;
      size, open := 0, true;
    }

    /** Reports `Closed` only on the add that closes the window. */
    method Add() returns (edge: Added)
      modifies this
      ensures View() == Grown(old(View()))
      ensures edge.Closed? <==> old(open) && !open
    {
      size := size + 1;
      if open && size >= cap {
        open := false;
        return Closed;
      }
      return Still;
    }

    /** Reports `Reopened` only on the remove that reopens the window; an empty window is left alone. */
    method Remove() returns (edge: Removed)
      modifies this
      ensures edge.Underflow? <==> old(size) == 0
      ensures View() == if old(size) == 0 then old(View()) else Shrunk(old(View()))
      ensures edge.Reopened? <==> !old(open) && open
    {
      if size == 0 {
        return Underflow;
      }
      size := size - 1;
      if !open && size <= cap / 2 {
        open := true;
        return Reopened;
      }
      return Same;
    }
  }
}
