/** The device-facing server around the publisher: connections, their windows, the reading rule, the shutdown drain. */
module IngestServers {
  import opened Flow

  /** One open connection; `refusing` once it is being closed for a reason of its own. */
  datatype Conn = Conn(id: nat, window: WindowState, reading: bool, refusing: bool, received: nat, rejected: nat)

  datatype Drain = NotDraining | Draining | Drained(openConnections: nat, unconfirmed: nat)

  /** The open connections in the order they were accepted; `underflow` is the throw of an empty window. */
  datatype Server = Server(
    conns: seq<Conn>, instance: WindowState, connectionCap: nat, nextId: nat,
    closedReceived: nat, closedRejected: nat, drain: Drain, underflow: bool)

  function NewServer(connectionCap: nat, instanceCap: nat): Server {
    Server([], EmptyWindow(instanceCap), connectionCap, 1, 0, 0, NotDraining, false)
  }

  // ---------- The reading rule ----------

  function RuleFor(c: Conn, ready: bool, instanceOpen: bool): Conn {
    c.(reading := ShouldRead(ready, c.window.open, instanceOpen))
  }

  function RuleToAll(s: Server, ready: bool): Server {
    s.(conns := seq(|s.conns|, i requires 0 <= i < |s.conns| => RuleFor(s.conns[i], ready, s.instance.open)))
  }

  function RuleToOne(s: Server, i: nat, ready: bool): Server
    requires i < |s.conns|
  {
    s.(conns := s.conns[i := RuleFor(s.conns[i], ready, s.instance.open)])
  }

  /** What the readiness listener does: the rule again, when readiness changed. */
  function Heard(s: Server, told: bool, told': bool): (s': Server)
    ensures |s'.conns| == |s.conns|
  {
    if told == told' then s else RuleToAll(s, told')
  }

  // ---------- Connections ----------

  function Accepted(s: Server, ready: bool): Server {
    var c := Conn(s.nextId, EmptyWindow(s.connectionCap), false, false, 0, 0);
    s.(conns := s.conns + [RuleFor(c, ready, s.instance.open)], nextId := s.nextId + 1)
  }

  /** A valid message is counted in both windows before it is published. */
  function CountedIn(s: Server, i: nat): (s': Server)
    requires i < |s.conns|
    ensures |s'.conns| == |s.conns|
  {
    var c := s.conns[i];
    s.(conns := s.conns[i := c.(window := Grown(c.window), received := c.received + 1)], instance := Grown(s.instance))
  }

  /** After the publish: the rule for this connection when its window closed, for all when the instance window did. */
  function WindowsChecked(s: Server, i: nat, windowClosed: bool, instanceClosed: bool, ready: bool): Server
    requires i < |s.conns|
  {
    var one := if windowClosed then RuleToOne(s, i, ready) else s;
    if instanceClosed then RuleToAll(one, ready) else one
  }

  /**
   * One valid message on the connection at `i`: counted, then published, which may change what the
   * listeners were told, then the rule where a window closed.
   */
  function Messaged(s: Server, i: nat, told: bool, told': bool, ready: bool): Server
    requires i < |s.conns|
  {
    var counted := CountedIn(s, i);
    WindowsChecked(Heard(counted, told, told'), i,
                   s.conns[i].window.open && !counted.conns[i].window.open,
                   s.instance.open && !counted.instance.open,
                   ready)
  }

  /** A message that does not decode is counted and dropped; a binary one also starts the close. */
  function Rejected(s: Server, i: nat, binary: bool): Server
    requires i < |s.conns|
  {
    var c := s.conns[i];
    s.(conns := s.conns[i := c.(rejected := c.rejected + 1, refusing := c.refusing || binary)])
  }

  function Refusing(s: Server, i: nat): Server
    requires i < |s.conns|
  {
    s.(conns := s.conns[i := s.conns[i].(refusing := true)])
  }

  /** The drain ends early once no connection is open and nothing waits for a confirm. */
  function DrainChecked(s: Server, unconfirmed: nat): Server {
    if s.drain.Draining? && s.conns == [] && unconfirmed == 0 then s.(drain := Drained(0, 0)) else s
  }

  /** The connection's own totals are added up when it closes. */
  function ClosedAt(s: Server, i: nat, unconfirmed: nat): Server
    requires i < |s.conns|
  {
    var c := s.conns[i];
    DrainChecked(s.(conns := s.conns[..i] + s.conns[i + 1..],
                    closedReceived := s.closedReceived + c.received,
                    closedRejected := s.closedRejected + c.rejected), unconfirmed)
  }

  function PositionOf(conns: seq<Conn>, id: nat): (i: nat)
    ensures i <= |conns|
    ensures i < |conns| ==> conns[i].id == id
    ensures forall j :: 0 <= j < i ==> conns[j].id != id
  {
    if conns == [] then 0
    else if conns[0].id == id then 0
    else 1 + PositionOf(conns[1..], id)
  }

  /** One message less in both windows, the connection's only while it is open. */
  function CountedOut(s: Server, i: nat): (s': Server)
    requires i <= |s.conns| && s.instance.size > 0 && (i < |s.conns| ==> s.conns[i].window.size > 0)
    ensures |s'.conns| == |s.conns|
  {
    s.(instance := Shrunk(s.instance),
       conns := if i < |s.conns| then s.conns[i := s.conns[i].(window := Shrunk(s.conns[i].window))] else s.conns)
  }

  /** `onConfirmed` of one message: both windows, the connection's only while it is open, then the drain. */
  function ConfirmedFor(s: Server, owner: nat, ready: bool, unconfirmed: nat): Server {
    var i := PositionOf(s.conns, owner);
    if s.instance.size == 0 || (i < |s.conns| && s.conns[i].window.size == 0) then s.(underflow := true)
    else
      var removed := CountedOut(s, i);
      var windowReopened := i < |s.conns| && !s.conns[i].window.open && removed.conns[i].window.open;
      var one := if windowReopened then RuleToOne(removed, i, ready) else removed;
      var all := if !s.instance.open && removed.instance.open then RuleToAll(one, ready) else one;
      DrainChecked(all, unconfirmed)
  }

  // ---------- Shutdown ----------

  function ShutdownBegun(s: Server, unconfirmed: nat): Server {
    if s.drain.NotDraining? then DrainChecked(s.(drain := Draining), unconfirmed) else s
  }

  /** The budget ran out: what is left is reported, and every connection is being closed. */
  function DrainEnded(s: Server, unconfirmed: nat): Server {
    if !s.drain.Draining? then s
    else
      s.(conns := seq(|s.conns|, i requires 0 <= i < |s.conns| => s.conns[i].(refusing := true)),
         drain := Drained(|s.conns|, unconfirmed))
  }

  // ---------- Totals ----------

  function Received(conns: seq<Conn>): nat {
    if conns == [] then 0 else Received(conns[..|conns| - 1]) + conns[|conns| - 1].received
  }

  function RejectedIn(conns: seq<Conn>): nat {
    if conns == [] then 0 else RejectedIn(conns[..|conns| - 1]) + conns[|conns| - 1].rejected
  }

  function ReadingIn(conns: seq<Conn>): nat {
    if conns == [] then 0 else ReadingIn(conns[..|conns| - 1]) + (if conns[|conns| - 1].reading then 1 else 0)
  }

  lemma {:induction false} ReceivedOfSame(a: seq<Conn>, b: seq<Conn>)
    requires |a| == |b| && forall i :: 0 <= i < |a| ==> a[i].received == b[i].received
    ensures Received(a) == Received(b)
  {
    if a != [] {
      ReceivedOfSame(a[..|a| - 1], b[..|b| - 1]);
    }
  }

  lemma {:induction false} ReceivedAt(conns: seq<Conn>, i: nat, c: Conn)
    requires i < |conns|
    ensures Received(conns[i := c]) == Received(conns) - conns[i].received + c.received
  {
    var n := |conns| - 1;
    if i == n {
      assert conns[i := c][..n] == conns[..n];
    } else {
      assert conns[i := c][..n] == conns[..n][i := c];
      ReceivedAt(conns[..n], i, c);
    }
  }

  lemma {:induction false} ReceivedWithout(conns: seq<Conn>, i: nat)
    requires i < |conns|
    ensures Received(conns[..i] + conns[i + 1..]) == Received(conns) - conns[i].received
  {
    var n, rest := |conns| - 1, conns[..i] + conns[i + 1..];
    if i == n {
      assert rest == conns[..n];
    } else {
      assert rest[..n - 1] == conns[..n][..i] + conns[..n][i + 1..];
      assert rest[n - 1] == conns[n];
      ReceivedWithout(conns[..n], i);
    }
  }
}
