/** Antenna selection: the priority ladder, cold switching and the follow bindings, decided from the latest inputs. */
module Reconcile {
  import opened Options

  /** A position of the antenna switch; a silent switch or an unresolved target is no port. */
  datatype Port = NoPort | Off | Numbered(n: nat)
  datatype Request = NoRequest | AutoRequest | ManualRequest | HoldRequest(port: Port)
  datatype Source = LockSource | IdleSource | OperatorSource | AutoSource
  /** No band information, the general-coverage marker, or a band. */
  datatype Band = NoBand | General | Named(name: string)

  datatype Resource = Resource(bands: seq<Band>, port: Option<Port>)

  /** policy: the resources of the band policy in sorted order, each with the port it is wired to. */
  datatype Config = Config(policy: seq<Resource>, fallback: Option<Port>, followPort: Option<Port>,
                           paFollow: bool, tunerPort: Option<Port>, atuBands: seq<Band>)

  /** Validation: everything the policy names is wired, to a real position, and no band leads to two ports. */
  predicate Valid(c: Config) {
    && c.fallback.Some? && c.fallback.value.Numbered?
    && (forall i :: 0 <= i < |c.policy| ==> c.policy[i].port.Some? && c.policy[i].port.value.Numbered?)
    && (forall i, j, b :: 0 <= i < |c.policy| && 0 <= j < |c.policy| && b in c.policy[i].bands && b in c.policy[j].bands
          ==> c.policy[i].port == c.policy[j].port)
    && (c.followPort.Some? ==> c.followPort.value.Numbered?)
    && (c.tunerPort.Some? ==> c.tunerPort.value.Numbered?)
  }

  datatype Inputs = Inputs(radioOnline: bool, band: Band, freqHz: int, tx: bool, inactive: bool, request: Request,
                           selected: Port, locked: bool, ground: bool)

  datatype Decision = Decision(manual: bool, target: Port, source: Source)

  /** What to emit: an absent field is no emission. */
  datatype Actions = Actions(decision: Decision, select: Option<Port>, deferred: bool, freq: Option<int>,
                             setBand: Option<Band>, inline: Option<bool>)

  // ------------------------------------------------------------- ports for bands

  /** The port of the first wired resource listing the band, from resource i on; else the fallback. */
  function PortFrom(c: Config, b: Band, i: nat): Option<Port>
    decreases |c.policy| - i
  {
    if i >= |c.policy| then c.fallback
    else if b in c.policy[i].bands && c.policy[i].port.Some? then c.policy[i].port
    else PortFrom(c, b, i + 1)
  }

  method PortForBand(c: Config, b: Band) returns (p: Option<Port>)
    ensures p == PortFrom(c, b, 0)
  {
    for i := 0 to |c.policy|
      invariant PortFrom(c, b, 0) == PortFrom(c, b, i)
    {
      for j := 0 to |c.policy[i].bands|
        invariant forall k :: 0 <= k < j ==> !(c.policy[i].bands[k] == b && c.policy[i].port.Some?)
      {
        if c.policy[i].bands[j] == b && c.policy[i].port.Some? { return c.policy[i].port; }
      }
    }
    return c.fallback;
  }

  /** In a valid configuration the order of resources is irrelevant: a listed band goes to the port of every
      resource that lists it, and any other band to the fallback. */
  lemma {:induction false} PortIsOrderFree(c: Config, b: Band, i: nat)
    requires Valid(c) && i <= |c.policy|
    ensures PortFrom(c, b, i).Some? && PortFrom(c, b, i).value.Numbered?
    ensures forall k :: i <= k < |c.policy| && b in c.policy[k].bands ==> PortFrom(c, b, i) == c.policy[k].port
    ensures (forall k :: i <= k < |c.policy| ==> b !in c.policy[k].bands) ==> PortFrom(c, b, i) == c.fallback
    decreases |c.policy| - i
  {
    if i < |c.policy| { PortIsOrderFree(c, b, i + 1); }
  }

  // ------------------------------------------------------------- the ladder and the actions

  predicate HoldActive(r: Request) { r != NoRequest && r != AutoRequest }

  predicate Known(b: Band) { b != NoBand }

  function Resolve(c: Config, i: Inputs): Decision {
    var manual := HoldActive(i.request);
    if i.locked then Decision(manual, if i.ground then Off else NoPort, LockSource)
    else if i.request == ManualRequest then Decision(manual, NoPort, OperatorSource)
    else if i.inactive then Decision(manual, Off, IdleSource)
    else if i.request.HoldRequest? then Decision(manual, i.request.port, OperatorSource)
    else if i.radioOnline && Known(i.band) && PortFrom(c, i.band, 0).Some? then
      Decision(manual, PortFrom(c, i.band, 0).value, AutoSource)
    else Decision(manual, NoPort, AutoSource)
  }

  /** The followed antenna is the target and the radio's frequency is to be trusted. */
  predicate WantsFollow(c: Config, i: Inputs) {
    !i.locked && c.followPort == Some(Resolve(c, i).target) && i.radioOnline && i.freqHz > 0
  }

  function Next(c: Config, i: Inputs): Actions {
    var d := Resolve(c, i);
    var moving := d.target != NoPort && d.target != i.selected;
    var select := if moving && !i.tx then Some(d.target) else None;
    if i.request == ManualRequest then Actions(d, select, moving && i.tx, None, None, None)
    else
      var bandKnown := i.radioOnline && Known(i.band);
      Actions(d, select, moving && i.tx,
              if WantsFollow(c, i) then Some(i.freqHz) else None,
              if c.paFollow && bandKnown && i.band != General then Some(i.band) else None,
              if !i.locked && c.tunerPort.Some? && bandKnown then
                Some(c.tunerPort.value == d.target && i.band in c.atuBands)
              else None)
  }

  /** Under the antenna lock nothing moves but the switch, to off; under a manual stand-down and no lock, nothing
      at all; and the switch is never told to move while the radio transmits. */
  lemma {:induction false} LockAndManualStandDown(c: Config, i: Inputs)
    ensures var a := Next(c, i);
      && (i.locked ==> a.freq.None? && a.inline.None? && (a.select.Some? ==> a.select == Some(Off) && i.ground))
      && (!i.locked && i.request == ManualRequest ==> a.select.None? && a.freq.None? && a.setBand.None? && a.inline.None?)
      && (a.select.Some? ==> !i.tx && a.select != Some(i.selected) && a.select != Some(NoPort))
      && (a.deferred ==> i.tx && a.select.None?)
  {}

  /** A tier decides alone: what lower tiers look at does not matter. Under the lock only its ground does; in a manual
      stand-down nothing; on an inactive station nothing; under a hold only the held port. */
  lemma {:induction false} HigherTiersDecide(c: Config, i: Inputs, j: Inputs)
    requires i.locked == j.locked
    ensures i.locked && i.ground == j.ground ==> SameOutcome(c, i, j, LockSource)
    ensures !i.locked && i.request == j.request == ManualRequest ==> SameOutcome(c, i, j, OperatorSource)
    ensures !i.locked && i.request != ManualRequest && j.request != ManualRequest && i.inactive && j.inactive ==> SameOutcome(c, i, j, IdleSource)
    ensures !i.locked && !i.inactive && !j.inactive && i.request == j.request && i.request.HoldRequest? ==> SameOutcome(c, i, j, OperatorSource)
  {}

  predicate SameOutcome(c: Config, i: Inputs, j: Inputs, source: Source) {
    Resolve(c, i).target == Resolve(c, j).target && Resolve(c, i).source == Resolve(c, j).source == source
  }

  /** The automatic tier follows the policy: a listed band goes to the port of any resource that lists it, an unlisted
      one to the fallback, and without a live radio and a known band nothing moves. */
  lemma {:induction false} AutoFollowsPolicy(c: Config, i: Inputs, k: nat)
    requires Valid(c) && !i.locked && !i.inactive && !HoldActive(i.request)
    ensures !(i.radioOnline && Known(i.band)) ==> Next(c, i).select.None? && Next(c, i).freq.None?
    ensures i.radioOnline && Known(i.band) && k < |c.policy| && i.band in c.policy[k].bands
      ==> Some(Resolve(c, i).target) == c.policy[k].port
    ensures i.radioOnline && Known(i.band) && (forall n :: 0 <= n < |c.policy| ==> i.band !in c.policy[n].bands)
      ==> Some(Resolve(c, i).target) == c.fallback
  {
    PortIsOrderFree(c, i.band, 0);
  }
}
