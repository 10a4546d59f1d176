/** The arm permit's echo protocol: a front-panel press stays authoritative until the node sees its intent come back. It
    cannot tell its own publish from an older one of the same value still in flight, so an early match ends the echo
    (StaleEchoFlipsPermit); when that happens is exactly PressHoldsExactly. The environment is a retained broker cell,
    other writers, publishes that may be lost and a FIFO connection that may drop. */
module Permit {
  import opened Options

  // ---------------------------------------------------------------- the node

  datatype Node = Node(enabled: bool, pending: bool, intent: bool)

  /** A set_enabled payload reaches the node; None is a value that is neither true nor false. */
  function Handled(n: Node, v: Option<bool>): Node {
    if v.None? then n
    else if n.pending && v.value != n.intent then n
    else Node(v.value, false, n.intent)
  }

  /** The node is about to publish its permit as the retained intent. */
  function Announced(n: Node): Node { n.(pending := true, intent := n.enabled) }

  function Pressed(n: Node): Node { Announced(n.(enabled := !n.enabled)) }

  class PermitNode {
    var enabled: bool
    var cmdError: bool          // the last set_enabled value was rejected
    var permitEchoPending: bool
    var permitIntent: bool
    var connected: bool

    function Now(): Node reads this { Node(enabled, permitEchoPending, permitIntent) }

    constructor ()
      ensures Now() == Node(false, false, false) && !connected && !cmdError
    {
      enabled, cmdError, permitEchoPending, permitIntent, connected := false, false, false, false, false;
    }

    method HandleSetEnabled(v: Option<bool>)
      modifies `enabled, `cmdError, `permitEchoPending
      ensures Now() == Handled(old(Now()), v)
      ensures cmdError == (v.None? || (old(cmdError) && old(permitEchoPending) && v.value != permitIntent))
    {
      if v.Some? {
        if permitEchoPending {
          if v.value != permitIntent { return; }
          permitEchoPending := false;
        }
        enabled := v.value;
        cmdError := false;
      } else {
        cmdError := true;
      }
    }

    /** Returns what goes out to the broker: nothing while the link is down. */
    method PublishPermit() returns (out: Option<bool>)
      modifies `permitEchoPending, `permitIntent
      ensures Now() == Announced(old(Now()))
      ensures out == if connected then Some(enabled) else None
    {
      permitEchoPending := true;
      permitIntent := enabled;
      if !connected { return None; }
      return Some(enabled);
    }

    method Button() returns (out: Option<bool>)
      modifies `enabled, `cmdError, `permitEchoPending, `permitIntent
      ensures Now() == Pressed(old(Now())) && !cmdError
      ensures out == if connected then Some(enabled) else None
    {
      enabled := !enabled;
      cmdError := false;
      out := PublishPermit();
    }

    /** The (re)connect hook: an un-echoed press is published again. */
    method OnConnected() returns (out: Option<bool>)
      modifies `connected, `permitEchoPending, `permitIntent
      ensures connected
      ensures Now() == if old(permitEchoPending) then Announced(old(Now())) else old(Now())
      ensures out == if old(permitEchoPending) then Some(enabled) else None
    {
      connected := true;
      out := None;
      if permitEchoPending { out := PublishPermit(); }
    }
  }

  // ---------------------------------------------------------------- node, broker and link

  /** retained: the broker's cell. flight: values on their way to the node, oldest first. press: the value
      the last button press set. */
  datatype System = System(node: Node, connected: bool, retained: Option<bool>, flight: seq<bool>, press: Option<bool>)

  const BOOT := System(Node(false, false, false), false, None, [], None)

  datatype Happening =
    | Button(lost: bool)
    | Resend(lost: bool)       // the two-second timer while an echo is pending
    | Deliver
    | OtherWrite(v: bool)
    | Connect(lost: bool)
    | Disconnect

  function BrokerTakes(s: System, v: bool): System {
    s.(retained := Some(v), flight := if s.connected then s.flight + [v] else s.flight)
  }

  function Publish(s: System, lost: bool): System {
    if s.connected && !lost then BrokerTakes(s, s.node.enabled) else s
  }

  function Next(s: System, h: Happening): System {
    match h
    case Button(lost) =>
      var n := Pressed(s.node);
      Publish(s.(node := n, press := Some(n.enabled)), lost)
    case Resend(lost) =>
      if s.node.pending && s.connected then Publish(s.(node := Announced(s.node)), lost) else s
    case Deliver =>
      if s.flight == [] then s else s.(node := Handled(s.node, Some(s.flight[0])), flight := s.flight[1..])
    case OtherWrite(v) => BrokerTakes(s, v)
    case Connect(lost) =>
      var up := s.(connected := true, flight := if s.retained.Some? then [s.retained.value] else []);
      if s.node.pending then Publish(up.(node := Announced(s.node)), lost) else up
    case Disconnect => s.(connected := false, flight := [])
  }

  function Reached(hs: seq<Happening>): System
    decreases |hs|
  {
    if hs == [] then BOOT else Next(Reached(hs[..|hs| - 1]), hs[|hs| - 1])
  }

  /** What holds after any history. */
  predicate Coherent(s: System) {
    && (s.node.pending ==> s.node.intent == s.node.enabled && s.press == Some(s.node.enabled))
    && (!s.connected ==> s.flight == [])
    && (s.flight != [] ==> s.retained == Some(s.flight[|s.flight| - 1]))
    && (s.connected && s.flight == [] && !s.node.pending && s.retained.Some? ==> s.node.enabled == s.retained.value)
  }

  lemma StepKeepsCoherent(s: System, h: Happening)
    requires Coherent(s)
    ensures Coherent(Next(s, h))
  {}

  /** Any interleaving of presses, resends, lost publishes, other writers and reconnects: while an echo is
      pending the permit is the last press, and when nothing is pending or in flight on a live link it is
      the retained intent. */
  lemma {:induction false} PermitAlwaysCoherent(hs: seq<Happening>)
    ensures Coherent(Reached(hs))
  {
    if hs != [] {
      PermitAlwaysCoherent(hs[..|hs| - 1]);
      StepKeepsCoherent(Reached(hs[..|hs| - 1]), hs[|hs| - 1]);
    }
  }

  /** The node after every value in flight has been delivered. */
  function Drained(n: Node, flight: seq<bool>): Node
    decreases |flight|
  {
    if flight == [] then n else Drained(Handled(n, Some(flight[0])), flight[1..])
  }

  /** Whatever stale values are ahead of it, once the node's own publish is delivered the echo is over and
      the permit is what was published. */
  lemma {:induction false} OwnEchoSettles(n: Node, ahead: seq<bool>, v: bool)
    requires n.pending ==> n.intent == v
    ensures Drained(n, ahead + [v]) == Node(v, false, n.intent)
    decreases |ahead|
  {
    if ahead == [] {
      assert [] + [v] == [v] && [v][1..] == [];
    } else {
      assert (ahead + [v])[1..] == ahead[1..] + [v];
      OwnEchoSettles(Handled(n, Some(ahead[0])), ahead[1..], v);
    }
  }

  /** So a press wins as soon as one publish gets through, however many were lost before it: after the
      delivery of what is then in flight the permit and the retained intent are the pressed value. */
  lemma {:induction false} PressWinsOncePublished(hs: seq<Happening>)
    requires Reached(hs).node.pending && Reached(hs).connected
    ensures var s := Next(Reached(hs), Resend(false));
      && s.retained == s.press == Some(s.node.enabled)
      && Drained(s.node, s.flight) == Node(s.press.value, false, s.node.intent)
  {
    PermitAlwaysCoherent(hs);
    var s := Reached(hs);
    OwnEchoSettles(Announced(s.node), s.flight, s.node.enabled);
  }

  // ---------------------------------------------------------------- when a press holds

  lemma {:induction false} DrainedWithoutEcho(n: Node, q: seq<bool>)
    requires !n.pending
    ensures Drained(n, q) == if q == [] then n else Node(q[|q| - 1], false, n.intent)
    decreases |q|
  {
    if q != [] { DrainedWithoutEcho(Handled(n, Some(q[0])), q[1..]); }
  }

  /** While values in flight are delivered, the echo ends exactly when one of them is the pressed value, whoever
      published it, and from there on the permit is whatever comes last. */
  lemma {:induction false} EchoEndsExactlyWhen(n: Node, q: seq<bool>)
    requires n.pending && n.intent == n.enabled
    ensures Drained(n, q).pending <==> n.intent !in q
    ensures Drained(n, q).enabled == if n.intent in q then q[|q| - 1] else n.enabled
    decreases |q|
  {
    if q != [] {
      assert q == [q[0]] + q[1..];
      if q[0] == n.intent {
        DrainedWithoutEcho(Handled(n, Some(q[0])), q[1..]);
      } else {
        EchoEndsExactlyWhen(n, q[1..]);
      }
    }
  }

  /** Once the pressed value occurs among the values in flight, only that value follows. */
  predicate NoStaleTail(intent: bool, q: seq<bool>) { forall i, j :: 0 <= i < j < |q| && q[i] == intent ==> q[j] == intent }

  /** So a press stays in force throughout the delivery of what is in flight exactly when no opposite value comes behind
      an equal one. */
  lemma {:induction false} PressHoldsExactly(n: Node, q: seq<bool>)
    requires n.pending && n.intent == n.enabled
    ensures (forall k: nat :: k <= |q| ==> Drained(n, q[..k]).enabled == n.enabled) <==> NoStaleTail(n.intent, q)
  {
    hide Drained;
    forall k: nat | k <= |q| ensures Drained(n, q[..k]).enabled == if n.intent in q[..k] then q[..k][k - 1] else n.enabled {
      EchoEndsExactlyWhen(n, q[..k]);
    }
    if forall k: nat :: k <= |q| ==> Drained(n, q[..k]).enabled == n.enabled {
      forall i, j | 0 <= i < j < |q| && q[i] == n.intent ensures q[j] == n.intent {
        assert q[..j + 1][i] == n.intent && q[..j + 1][j] == q[j];
        assert Drained(n, q[..j + 1]).enabled == n.enabled;
      }
    } else {
      var k: nat :| k <= |q| && Drained(n, q[..k]).enabled != n.enabled;
      assert n.intent in q[..k] && q[k - 1] != n.intent;
      var i :| 0 <= i < k && q[..k][i] == n.intent;
      assert q[i] == n.intent && i < k - 1;
    }
  }

  /** The permit switched on and off from elsewhere just before the button is pressed. */
  function Crossing(lost: bool): seq<Happening> {
    [Connect(false), OtherWrite(true), OtherWrite(false), Button(lost), Deliver, Deliver]
  }

  /** Then the permit flips back although nobody asked for it after the press; and if the press's own publish was lost it
      stays so, with nothing pending that would send it again. */
  lemma {:induction false} StaleEchoFlipsPermit(lost: bool)
    ensures var s := Reached(Crossing(lost));
      && s.press == Some(true) && !s.node.enabled && !s.node.pending && s.connected
      && (lost ==> s.flight == [] && s.retained == Some(false))
  {
    var hs := Crossing(lost);
    var h5, h4, h3, h2, h1 := hs[..5], hs[..4], hs[..3], hs[..2], hs[..1];
    assert h5[..4] == h4 && h4[..3] == h3 && h3[..2] == h2 && h2[..1] == h1 && h1[..0] == [];
    var p := Node(true, true, true);
    assert Reached(h1) == System(Node(false, false, false), true, None, [], None);
    assert Reached(h3) == System(Node(false, false, false), true, Some(false), [true, false], None);
    var flight := if lost then [true, false] else [true, false, true];
    assert Reached(h4) == System(p, true, Some(!lost), flight, Some(true));
    assert Reached(h5) == System(Node(true, false, true), true, Some(!lost), flight[1..], Some(true));
  }
}
