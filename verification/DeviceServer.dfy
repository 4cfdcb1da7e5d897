/** The connections and the server as the objects they are: one instance window shared by all connections. */
module DeviceServers {
  import opened Telemetry
  import opened Flow
  import opened IngestServers
  import opened PublisherState
  import opened Ledgers
  import opened Publishers
  import opened AmqpPublishers

  class DeviceConnection {
    const id: nat
    const window: Window
    var reading: bool
    var open: bool
    var refusing: bool
    var received: nat
    var rejected: nat

    ghost function View(): Conn
      reads this, window
    {
      Conn(id, window.View(), reading, refusing, received, rejected)
    }

    constructor (id: nat, cap: nat)
      ensures View() == Conn(id, EmptyWindow(cap), false, false, 0, 0) && open
      ensures fresh(window)
    {
      this.id := id;
      window := new Window(cap);
      reading, open, refusing := false, true, false;
      received, rejected := 0, 0;
    }

    /** The one reading rule; a closed connection is left alone. */
    method ApplyReadingRule(publisherReady: bool, instanceWindowOpen: bool)
      modifies this`reading
      ensures View() == if open then RuleFor(old(View()), publisherReady, instanceWindowOpen) else old(View())
    {
      if !open {
        return;
      }
      var read := ShouldRead(publisherReady, window.open, instanceWindowOpen);
      if read == reading {
        return;
      }
      reading := read;
    }
  }

  class IngestServer {
    var connections: seq<DeviceConnection>
    const instanceWindow: Window
    const connectionCap: nat
    var nextId: nat
    var closedReceived: nat
    var closedRejected: nat
    var drain: Drain
    var underflow: bool

    ghost function Windows(): set<Window>
      reads this, connections
    {
      set c <- connections :: c.window
    }

    /** Every connection in the set is open and has its own window; the instance window is nobody's. */
    ghost predicate Valid()
      reads this, connections
    {
      && (forall i, j :: 0 <= i < j < |connections| ==>
            connections[i] != connections[j] && connections[i].window != connections[j].window)
      && (forall i :: 0 <= i < |connections| ==> connections[i].open && connections[i].window != instanceWindow)
    }

    ghost function Conns(): seq<Conn>
      reads this, connections, Windows()
    {
      seq(|connections|, i requires 0 <= i < |connections| reads this, connections, Windows() =>
        assert connections[i] in connections; connections[i].View())
    }

    ghost function View(): Server
      reads this, connections, Windows(), instanceWindow
    {
      Server(Conns(), instanceWindow.View(), connectionCap, nextId, closedReceived, closedRejected, drain, underflow)
    }

    constructor (connectionCap: nat, instanceCap: nat)
      ensures Valid() && View() == NewServer(connectionCap, instanceCap)
      ensures fresh(instanceWindow)
    {
      connections, nextId, closedReceived, closedRejected := [], 1, 0, 0;
      instanceWindow := new Window(instanceCap);
      this.connectionCap := connectionCap;
      drain, underflow := NotDraining, false;
    }

    method ApplyRule(i: nat, ready: bool)
      requires Valid() && i < |connections|
      modifies connections
      ensures Valid() && View() == RuleToOne(old(View()), i, ready)
      ensures forall c <- connections :: c.open == old(c.open)
    {
      connections[i].ApplyReadingRule(ready, instanceWindow.open);
      assert Conns() == old(Conns())[i := RuleFor(old(Conns())[i], ready, instanceWindow.open)];
    }

    method ApplyRuleToAll(ready: bool)
      requires Valid()
      modifies connections
      ensures Valid() && View() == RuleToAll(old(View()), ready)
    {
      var i := 0;
      while i < |connections|
        invariant i <= |connections| && Valid()
        invariant forall j :: 0 <= j < i ==> connections[j].View() == RuleFor(old(connections[j].View()), ready, instanceWindow.open)
        invariant forall j :: i <= j < |connections| ==> connections[j].View() == old(connections[j].View())
      {
        connections[i].ApplyReadingRule(ready, instanceWindow.open);
        i := i + 1;
      }
      assert Conns() == RuleToAll(old(View()), ready).conns;
    }

    /** After an edge: the rule for the connection whose window it was, for all when it was the instance window's. */
    method ApplyEdges(i: nat, windowEdge: bool, instanceEdge: bool, ready: bool)
      requires Valid() && (windowEdge ==> i < |connections|)
      modifies connections
      ensures Valid()
      ensures var one := if windowEdge then RuleToOne(old(View()), i, ready) else old(View());
        View() == if instanceEdge then RuleToAll(one, ready) else one
    {
      hide RuleToAll, RuleToOne;
      if windowEdge {
        ApplyRule(i, ready);
      }
      if instanceEdge {
        ApplyRuleToAll(ready);
      }
    }

    /** The readiness listener. */
    method Hear(told: bool, told': bool)
      requires Valid()
      modifies connections
      ensures Valid() && View() == Heard(old(View()), told, told')
    {
      if told != told' {
        ApplyRuleToAll(told');
      }
    }

    method Accept(ready: bool) returns (c: DeviceConnection)
      requires Valid()
      modifies this`connections, this`nextId
      ensures Valid() && fresh(c) && fresh(c.window) && connections == old(connections) + [c]
      ensures View() == Accepted(old(View()), ready)
    {
      c := new DeviceConnection(nextId, connectionCap);
      nextId := nextId + 1;
      connections := connections + [c];
      c.ApplyReadingRule(ready, instanceWindow.open);
      assert Conns() == old(Conns()) + [c.View()];
    }

    /** The windows count a valid message before it is published; the edges are what the caller checks after. */
    method CountIn(i: nat) returns (windowEdge: Added, instanceEdge: Added)
      requires Valid() && i < |connections|
      modifies connections[i], connections[i].window, instanceWindow
      ensures Valid() && View() == CountedIn(old(View()), i)
      ensures windowEdge.Closed? <==> old(View()).conns[i].window.open && !View().conns[i].window.open
      ensures instanceEdge.Closed? <==> old(View()).instance.open && !View().instance.open
    {
      var c := connections[i];
      c.received := c.received + 1;
      windowEdge := c.window.Add();
      instanceEdge := instanceWindow.Add();
      assert Conns() == old(Conns())[i := c.View()];
    }

    /** One valid message: counted, published, and the rule again where a window closed or readiness changed. */
    method OnMessage(i: nat, args: PublishArgs, publisher: AmqpPublisher, env: Env)
      requires Valid() && i < |connections| && publisher.AtRest()
      modifies connections, Windows(), instanceWindow, publisher, publisher.ledger, publisher.stallClock
      ensures Valid() && publisher.AtRest()
      ensures old(connections[i].refusing) ==> View() == old(View()) && publisher.View() == old(publisher.View())
      ensures !old(connections[i].refusing) ==>
        && publisher.View() == Publish(old(publisher.View()), args, old(connections[i].id), env)
        && View() == Messaged(old(View()), i, old(publisher.told), publisher.told, IsReady(publisher.state))
    {
      var c := connections[i];
      if c.refusing {
        return;
      }
      hide Publish, Messaged;
      Deliver(i, args, publisher, env);
    }

    method Deliver(i: nat, args: PublishArgs, publisher: AmqpPublisher, env: Env)
      requires Valid() && i < |connections| && publisher.AtRest()
      modifies connections, Windows(), instanceWindow, publisher, publisher.ledger, publisher.stallClock
      ensures Valid() && publisher.AtRest()
      ensures publisher.View() == Publish(old(publisher.View()), args, old(connections[i].id), env)
      ensures View() == Messaged(old(View()), i, old(publisher.told), publisher.told, IsReady(publisher.state))
    {
      hide Publish, CountedIn, Heard, RuleToAll, RuleToOne;
      var wasTold := publisher.told;
      var windowEdge, instanceEdge := CountIn(i);
      ghost var counted := View();
      publisher.Publish(args, connections[i].id, env);
      assert View() == counted;
      Hear(wasTold, publisher.told);
      assert View() == Heard(counted, old(publisher.told), publisher.told);
      assert windowEdge.Closed? == (old(View()).conns[i].window.open && !CountedIn(old(View()), i).conns[i].window.open);
      assert instanceEdge.Closed? == (old(View()).instance.open && !CountedIn(old(View()), i).instance.open);
      ApplyEdges(i, windowEdge.Closed?, instanceEdge.Closed?, IsReady(publisher.state));
    }

    method OnRejected(i: nat, binary: bool)
      requires Valid() && i < |connections|
      modifies connections[i]
      ensures Valid()
      ensures View() == if old(connections[i].refusing) then old(View()) else Rejected(old(View()), i, binary)
    {
      var c := connections[i];
      if !c.refusing {
        c.rejected := c.rejected + 1;
        if binary {
          c.refusing := true;
        }
        assert Conns() == old(Conns())[i := c.View()];
      } else {
        assert Conns() == old(Conns());
      }
    }

    method OnClose(i: nat, unconfirmed: nat)
      requires Valid() && i < |connections|
      modifies this, connections[i]
      ensures Valid() && View() == ClosedAt(old(View()), i, unconfirmed)
      ensures !old(connections[i]).open && !old(connections[i]).reading
    {
      var c := connections[i];
      c.open, c.reading := false, false;
      connections := connections[..i] + connections[i + 1..];
      closedReceived := closedReceived + c.received;
      closedRejected := closedRejected + c.rejected;
      assert Conns() == old(Conns())[..i] + old(Conns())[i + 1..];
      CheckDrain(unconfirmed);
    }

    method CheckDrain(unconfirmed: nat)
      requires Valid()
      modifies this`drain
      ensures Valid() && View() == DrainChecked(old(View()), unconfirmed)
    {
      if !drain.Draining? {
        return;
      }
      if |connections| > 0 || unconfirmed > 0 {
        return;
      }
      drain := Drained(0, 0);
    }

    method Find(id: nat) returns (i: nat)
      requires Valid()
      ensures i == PositionOf(Conns(), id)
    {
      i := 0;
      while i < |connections| && connections[i].id != id
        invariant i <= |connections|
        invariant PositionOf(Conns(), id) == i + PositionOf(Conns()[i..], id)
      {
        i := i + 1;
      }
    }

    /** `onConfirmed` of one message: also after its connection closed, for the instance window and the drain. */
    method OnConfirmed(owner: nat, ready: bool, unconfirmed: nat)
      requires Valid()
      modifies this`underflow, this`drain, connections, Windows(), instanceWindow
      ensures Valid() && View() == ConfirmedFor(old(View()), owner, ready, unconfirmed)
    {
      var i := Find(owner);
      if instanceWindow.size == 0 || (i < |connections| && connections[i].window.size == 0) {
        underflow := true;
        return;
      }
      hide RuleToAll, RuleToOne, PositionOf, DrainChecked, CountedOut;
      var windowReopened, instanceReopened := CountOut(i);
      ApplyEdges(i, windowReopened, instanceReopened, ready);
      CheckDrain(unconfirmed);
    }

    /** A confirm callback of the publisher: the entry it removes runs its connection's confirmation. */
    method OnPublishAnswered(publisher: AmqpPublisher, generation: nat, id: nat, nacked: bool, env: Env)
      requires Valid() && publisher.AtRest()
      modifies this`underflow, this`drain, connections, Windows(), instanceWindow, publisher, publisher.ledger, publisher.stallClock
      ensures Valid() && publisher.AtRest()
      ensures publisher.View() == OnConfirm(old(publisher.View()), generation, id, nacked, env)
      ensures var entries, i := old(publisher.ledger.entries), IndexOf(old(publisher.ledger.entries), id);
        View() ==
          if generation == old(publisher.state.generation) && !nacked && i < |entries|
          then ConfirmedFor(old(View()), entries[i].owner, IsReady(publisher.state), |publisher.ledger.entries|)
          else Heard(old(View()), old(publisher.told), publisher.told)
    {
      hide ConfirmedFor, Heard, OnConfirm, IndexOf;
      var wasTold := publisher.told;
      ghost var before := View();
      var removed := publisher.OnConfirm(generation, id, nacked, env);
      assert View() == before;
      if removed.Some? {
        OnConfirmed(removed.value.owner, IsReady(publisher.state), |publisher.ledger.entries|);
      } else {
        Hear(wasTold, publisher.told);
      }
    }

    /** Both windows count one message less, the connection's only while it is open. */
    method CountOut(i: nat) returns (windowReopened: bool, instanceReopened: bool)
      requires Valid() && i <= |connections| && instanceWindow.size > 0
      requires i < |connections| ==> connections[i].window.size > 0
      modifies connections, Windows(), instanceWindow
      ensures Valid()
      ensures View() == CountedOut(old(View()), i)
      ensures instanceReopened <==> !old(View()).instance.open && View().instance.open
      ensures windowReopened <==> i < |connections| && !old(View()).conns[i].window.open && View().conns[i].window.open
    {
      windowReopened := false;
      var instanceEdge := instanceWindow.Remove();
      instanceReopened := instanceEdge.Reopened?;
      if i < |connections| {
        var windowEdge := connections[i].window.Remove();
        windowReopened := windowEdge.Reopened?;
        assert Conns() == old(Conns())[i := connections[i].View()];
      } else {
        assert Conns() == old(Conns());
      }
    }

    method Shutdown(unconfirmed: nat)
      requires Valid()
      modifies this`drain
      ensures Valid() && View() == ShutdownBegun(old(View()), unconfirmed)
    {
      if !drain.NotDraining? {
        return;
      }
      drain := Draining;
      CheckDrain(unconfirmed);
    }

    method EndDrainAtBudget(unconfirmed: nat)
      requires Valid()
      modifies this`drain, connections
      ensures Valid() && View() == DrainEnded(old(View()), unconfirmed)
    {
      hide Received;
      if !drain.Draining? {
        return;
      }
      var i := 0;
      while i < |connections|
        invariant i <= |connections| && Valid() && drain == old(drain)
        invariant forall j :: 0 <= j < i ==> connections[j].View() == old(connections[j].View()).(refusing := true)
        invariant forall j :: i <= j < |connections| ==> connections[j].View() == old(connections[j].View())
      {
        connections[i].refusing := true;
        i := i + 1;
      }
      drain := Drained(|connections|, unconfirmed);
      assert Conns() == DrainEnded(old(View()), unconfirmed).conns;
    }

    /** The running totals: what closed connections left, and what the open ones count. */
    method Stats() returns (open: nat, reading: nat, received: nat, rejected: nat)
      requires Valid()
      ensures open == |View().conns| && reading == ReadingIn(View().conns)
      ensures received == closedReceived + Received(View().conns)
      ensures rejected == closedRejected + RejectedIn(View().conns)
    {
      open, reading, received, rejected := |connections|, 0, closedReceived, closedRejected;
      assert Conns()[..0] == [];
      for i := 0 to |connections|
        invariant reading == ReadingIn(Conns()[..i])
        invariant received == closedReceived + Received(Conns()[..i])
        invariant rejected == closedRejected + RejectedIn(Conns()[..i])
      {
        var c := connections[i];
        assert Conns()[..i + 1][..i] == Conns()[..i] && Conns()[..i + 1][i] == c.View();
        if c.reading {
          reading := reading + 1;
        }
        received := received + c.received;
        rejected := rejected + c.rejected;
      }
      assert Conns()[..|connections|] == Conns();
    }
  }
}
