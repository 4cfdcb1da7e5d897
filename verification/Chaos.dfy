/** Chaos on the way from the generator to the outbox: duplicates and adjacent swaps, never a new message. */
module Chaos {
  import opened Telemetry

  // ---------- What chaos may do to a stream ----------

  /** One message in its place, or two neighbours in each other's; `twice` sends the same copy again. */
  datatype Block =
    | InPlace(message: Message, twice: bool)
    | Swapped(first: Message, firstTwice: bool, second: Message, secondTwice: bool)

  function Copies(m: Message, twice: bool): seq<Message> {
    if twice then [m, m] else [m]
  }

  function BlockIn(b: Block): seq<Message> {
    match b
    case InPlace(m, _) => [m]
    case Swapped(first, _, second, _) => [first, second]
  }

  function BlockOut(b: Block): seq<Message> {
    match b
    case InPlace(m, twice) => Copies(m, twice)
    case Swapped(first, firstTwice, second, secondTwice) => Copies(second, secondTwice) + Copies(first, firstTwice)
  }

  ghost function InputOf(plan: seq<Block>): seq<Message> {
    if plan == [] then [] else InputOf(plan[..|plan| - 1]) + BlockIn(plan[|plan| - 1])
  }

  ghost function OutputOf(plan: seq<Block>): seq<Message> {
    if plan == [] then [] else OutputOf(plan[..|plan| - 1]) + BlockOut(plan[|plan| - 1])
  }

  lemma PlanSnoc(plan: seq<Block>, b: Block)
    ensures InputOf(plan + [b]) == InputOf(plan) + BlockIn(b)
    ensures OutputOf(plan + [b]) == OutputOf(plan) + BlockOut(b)
  {
    assert (plan + [b])[..|plan|] == plan;
  }

  lemma PlanInPlace(plan: seq<Block>, m: Message, twice: bool)
    ensures InputOf(plan + [InPlace(m, twice)]) == InputOf(plan) + [m]
    ensures OutputOf(plan + [InPlace(m, twice)]) == OutputOf(plan) + Copies(m, twice)
    ensures Copies(m, twice)[0] == m
  {
    PlanSnoc(plan, InPlace(m, twice));
  }

  lemma PlanSwapped(plan: seq<Block>, first: Message, firstTwice: bool, second: Message, secondTwice: bool)
    ensures var plan' := plan + [Swapped(first, firstTwice, second, secondTwice)];
      && InputOf(plan') == InputOf(plan) + [first] + [second]
      && OutputOf(plan') == OutputOf(plan) + (Copies(second, secondTwice) + Copies(first, firstTwice))
    ensures Copies(first, firstTwice)[0] == first
  {
    PlanSnoc(plan, Swapped(first, firstTwice, second, secondTwice));
  }

  lemma CopiesCount(m: Message, twice: bool, x: Message)
    ensures multiset(Copies(m, twice))[x] == if m == x then (if twice then 2 else 1) else 0
  {
  }

  lemma BlockOnceOrTwice(b: Block, x: Message)
    ensures multiset(BlockIn(b))[x] <= multiset(BlockOut(b))[x] <= 2 * multiset(BlockIn(b))[x]
  {
    hide Copies;
    match b
    case InPlace(m, twice) => CopiesCount(m, twice, x);
    case Swapped(first, firstTwice, second, secondTwice) =>
      CopiesCount(first, firstTwice, x);
      CopiesCount(second, secondTwice, x);
      assert multiset(Copies(second, secondTwice) + Copies(first, firstTwice))
          == multiset(Copies(second, secondTwice)) + multiset(Copies(first, firstTwice));
  }

  /** Nothing is invented and nothing lost: every message goes out once or twice for each time it came in. */
  lemma {:induction false} OnceOrTwice(plan: seq<Block>, m: Message)
    ensures multiset(InputOf(plan))[m] <= multiset(OutputOf(plan))[m] <= 2 * multiset(InputOf(plan))[m]
  {
    hide BlockIn, BlockOut;
    if plan != [] {
      var front, b := plan[..|plan| - 1], plan[|plan| - 1];
      OnceOrTwice(front, m);
      BlockOnceOrTwice(b, m);
      assert multiset(InputOf(front) + BlockIn(b)) == multiset(InputOf(front)) + multiset(BlockIn(b));
      assert multiset(OutputOf(front) + BlockOut(b)) == multiset(OutputOf(front)) + multiset(BlockOut(b));
    }
  }

  lemma OutComesIn(plan: seq<Block>, m: Message)
    ensures m in OutputOf(plan) <==> m in InputOf(plan)
  {
    OnceOrTwice(plan, m);
    assert m in multiset(OutputOf(plan)) <==> m in multiset(InputOf(plan));
  }

  ghost predicate Distinct(messages: seq<Message>) {
    forall i, j :: 0 <= i < j < |messages| ==> messages[i] != messages[j]
  }

  /** Only neighbours change places: what came two or more messages earlier goes out first, every copy of it. */
  lemma {:induction false} OnlyNeighboursSwap(plan: seq<Block>, i: nat, j: nat, p: nat, q: nat)
    requires Distinct(InputOf(plan)) && i + 1 < j < |InputOf(plan)|
    requires p < |OutputOf(plan)| && q < |OutputOf(plan)|
    requires OutputOf(plan)[p] == InputOf(plan)[i] && OutputOf(plan)[q] == InputOf(plan)[j]
    ensures p < q
  {
    var front, b := plan[..|plan| - 1], plan[|plan| - 1];
    var n, k := |InputOf(front)|, |OutputOf(front)|;
    assert i < n;
    assert InputOf(plan)[..n] == InputOf(front);
    assert p < k by {
      InBlockIsLate(front, b, i, p);
    }
    if j < n {
      InBlockIsLate(front, b, j, q);
      OnlyNeighboursSwap(front, i, j, p, q);
    } else {
      assert forall x :: 0 <= x < n ==> InputOf(front)[x] == InputOf(plan)[x] && InputOf(plan)[x] != InputOf(plan)[j];
      OutComesIn(front, InputOf(plan)[j]);
      assert forall x :: 0 <= x < k ==> OutputOf(plan)[x] == OutputOf(front)[x] && OutputOf(front)[x] in OutputOf(front);
    }
  }

  /** What came in before the last block goes out before it. */
  lemma InBlockIsLate(front: seq<Block>, b: Block, i: nat, p: nat)
    requires Distinct(InputOf(front) + BlockIn(b)) && i < |InputOf(front)|
    requires p < |OutputOf(front) + BlockOut(b)| && (OutputOf(front) + BlockOut(b))[p] == InputOf(front)[i]
    ensures p < |OutputOf(front)|
  {
    var n, m, all := |InputOf(front)|, InputOf(front)[i], InputOf(front) + BlockIn(b);
    assert forall y :: 0 <= y < |BlockIn(b)| ==> all[n + y] == BlockIn(b)[y] && all[n + y] != all[i];
    assert m !in BlockIn(b) && m !in multiset(BlockIn(b));
    BlockOnceOrTwice(b, m);
    assert m !in multiset(BlockOut(b)) && m !in BlockOut(b);
  }

  // ---------- The class ----------

  class ChaosPolicy {
    const duplicates: bool
    const reorders: bool
    const percent: int
    var held: Option<seq<Message>>
    ghost var plan: seq<Block>
    ghost var draws: seq<bool>

    /** The slot holds the copies of one message. */
    ghost predicate Valid()
      reads this
    {
      held.Some? ==> exists m, twice :: held.value == Copies(m, twice)
    }

    constructor (duplicates: bool, reorders: bool, percent: int)
      ensures Valid() && held == None && plan == []
      ensures this.duplicates == duplicates && this.reorders == reorders && this.percent == percent
    {
      this.duplicates, this.reorders, this.percent := duplicates, reorders, percent;
      held, plan, draws := None, [], [];
    }

    /** One draw of the random source: true in so many of a hundred. */
    method Draw() returns (fires: bool)
      modifies this`draws
      ensures draws == old(draws) + [fires]
      ensures (percent <= 0 ==> !fires) && (percent >= 100 ==> fires)
    {
      fires := *;
      if percent <= 0 {
        fires := false;
      } else if percent >= 100 {
        fires := true;
      }
      draws := draws + [fires];
    }

    /** A mode that is on draws, and fires as drawn; one that is off neither. */
    method Fires(mode: bool) returns (fires: bool)
      modifies this`draws
      ensures draws == if mode then old(draws) + [fires] else old(draws)
      ensures fires ==> mode && percent > 0
      ensures mode && percent >= 100 ==> fires
    {
      fires := false;
      if mode {
        fires := Draw();
      }
    }

    /**
     * What the draws make of a message: the first, when duplicates are on, whether it goes twice; the
     * next, when reordering is on and the slot is free, whether it waits in the slot.
     */
    ghost predicate Follows(drawn: seq<bool>, message: Message, before: Option<seq<Message>>, out: seq<Message>, after: Option<seq<Message>>) {
      var n := if duplicates then 1 else 0;
      && |drawn| == n + (if reorders && before.None? then 1 else 0)
      && var copies := if duplicates && drawn[0] then [message, message] else [message];
      match before
      case Some(waiting) => out == copies + waiting && after == None
      case None =>
        if reorders && drawn[n] then out == [] && after == Some(copies) else out == copies && after == None
    }

    /** The message in the slot, if any: it has come in and has not gone out. */
    ghost function HeldBack(): (m: seq<Message>)
      requires Valid()
      reads this
    {
      if held.None? then [] else [held.value[0]]
    }

    /**
     * What to enqueue now. A held message is released behind this one; otherwise this one may take
     * the slot. Everything that came in is in the plan or in the slot, everything that went out is
     * the plan's output.
     */
    method Apply(message: Message) returns (out: seq<Message>)
      requires Valid()
      modifies this
      ensures Valid()
      ensures OutputOf(plan) == OutputOf(old(plan)) + out
      ensures InputOf(plan) + HeldBack() == InputOf(old(plan)) + old(HeldBack()) + [message]
      ensures old(draws) <= draws && Follows(draws[|old(draws)|..], message, old(held), out, held)
      ensures percent >= 100 && reorders ==> (held.Some? <==> old(held).None?)
      ensures percent <= 0 ==> old(held).None? ==> out == [message]
    {
      hide OutputOf, InputOf;
      var twice := Fires(duplicates);
      var emit := if twice then [message, message] else [message];
      assert emit == Copies(message, twice);
      if held.Some? {
        ghost var first, firstTwice :| held.value == Copies(first, firstTwice);
        PlanSwapped(plan, first, firstTwice, message, twice);
        plan := plan + [Swapped(first, firstTwice, message, twice)];
        out := emit + held.value;
        held := None;
        return;
      }
      var holds := Fires(reorders);
      if holds {
        held := Some(emit);
        out := [];
      } else {
        PlanInPlace(plan, message, twice);
        plan := plan + [InPlace(message, twice)];
        out := emit;
      }
    }

    /** Releases the slot. */
    method FlushHeld() returns (out: seq<Message>)
      requires Valid()
      modifies this
      ensures Valid() && held == None
      ensures OutputOf(plan) == OutputOf(old(plan)) + out
      ensures InputOf(plan) == InputOf(old(plan)) + old(HeldBack())
      ensures out == (if old(held).Some? then old(held).value else []) && (old(held).None? ==> plan == old(plan))
    {
      out := [];
      if held.Some? {
        ghost var m, twice :| held.value == Copies(m, twice);
        PlanInPlace(plan, m, twice);
        plan := plan + [InPlace(m, twice)];
        out := held.value;
        held := None;
      }
    }

    /** Drops the slot: a power cycle loses it. */
    method ClearHeld()
      requires Valid()
      modifies this`held
      ensures Valid() && held == None
    {
      held := None;
    }
  }
}
