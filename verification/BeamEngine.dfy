/** The beam-steering engine as it runs: fields updated in place by every event on one worker. Every method is
    proved to be the model's step, and the mutual recursion of DecideAndApply and FlushPending to end. */
module BeamEngine {
  import opened Options
  import opened Steer
  import opened BeamModel
  import opened BeamSettles

  /** A flush from this state would release the latest request's flip and decide to rotate. */
  predicate RotatesOnFlush(c: Config, s: State, now: int) {
    var t := Synced(s, now);
    && t.orders.pending.Some? && Open(t, now) && AskedFor(t, t.orders.pending.value.bearing)
    && Decide(c.beam, Situation(t, now, t.orders.pending.value.bearing)).rotateTo.Some?
  }

  /** What a flush does once it has taken the held flip p off hold. */
  function Released(c: Config, sends: nat -> bool, s: State, now: int, p: Held): Flow {
    var d := Decide(c.beam, Situation(s, now, p.bearing));
    if d.rotateTo.Some? then
      if AskedFor(s, p.bearing) then DecideAndApply(c, sends, s, now, p.bearing, FLUSHES - 1).(changed := true)
      else Flow(s, true, true)
    else if d.direction.None? then Flow(s, true, true)
    else
      var tried := Published(s, SetDirection(d.direction.value));
      if sends(|s.out|) then Flow(WithFlip(tried, d.direction.value, now), true, true)
      else Flow(Hold(tried, Some(Held(d.direction.value, p.bearing))), false, true)
  }

  lemma {:induction false} FlushReleases(c: Config, sends: nat -> bool, before: State, now: int)
    requires var s := Synced(before, now); s.orders.pending.Some? && Open(s, now)
    ensures var s := Synced(before, now); var free := Hold(s, None);
      && Flush(c, sends, before, now, FLUSHES) == Released(c, sends, free, now, s.orders.pending.value)
      && Situation(free, now, s.orders.pending.value.bearing) == Situation(s, now, s.orders.pending.value.bearing)
      && (Synced(s, now) == s ==> Synced(free, now) == free)
      && (Open(free, now) <==> Open(s, now))
      && (FlushGoesRound(c, sends, before, now)
          <==> AskedFor(free, s.orders.pending.value.bearing) && GoesRound(c, sends, free, now, s.orders.pending.value.bearing))
      && (RotatesOnFlush(c, before, now) <==> AskedFor(free, s.orders.pending.value.bearing)
                                              && Decide(c.beam, Situation(free, now, s.orders.pending.value.bearing)).rotateTo.Some?)
  {
    hide Decide, Fits;
  }

  /** After a decision's rotation went out, or with none to send, the flush for its direction does not rotate again. */
  lemma {:induction false} NoSecondRotation(c: Config, sends: nat -> bool, s: State, d: Decision, b: real, now: int)
    requires c.beam.Valid() && !GoesRound(c, sends, s, now, b) && Synced(s, now) == s
    requires d.rotateTo.Some? ==> sends(|s.out|)
    requires d == Decide(c.beam, Situation(s, now, b)) && d.direction.Some?
    ensures var t := if d.rotateTo.Some? then Turned(s, d, b, now)
                     else Hold(Noted(s, None, d.direction), Some(Held(d.direction.value, b)));
      && !RotatesOnFlush(c, t, now) && !FlushGoesRound(c, sends, t, now)
      && Flush(c, sends, t, now, FLUSHES) == Flush(c, sends, t, now, 1)
  {
    hide Decide, Flush, Situation, Fits;
    DirectionMeansKnown(c.beam, Situation(s, now, b));
    SituationIs(s, now, b);
    HoldingIsNeutral(s, d.direction, Held(d.direction.value, b), now, b);
    if d.rotateTo.Some? {
      TurnIsTrusted(s, d, b, now);
      RotationSettlesExactlyWhen(c.beam, Situation(s, now, b));
      FlushEnds(c, sends, Turned(s, d, b, now), now, b, FLUSHES);
    } else {
      FlushEnds(c, sends, Hold(Noted(s, None, d.direction), Some(Held(d.direction.value, b))), now, b, FLUSHES);
    }
  }

  lemma {:induction false} DecideEndsInOne(c: Config, sends: nat -> bool, s: State, now: int, b: real)
    requires c.beam.Valid() && !GoesRound(c, sends, s, now, b) && Synced(s, now) == s
    ensures DecideAndApply(c, sends, s, now, b, FLUSHES) == DecideAndApply(c, sends, s, now, b, 1)
  {
    DecideEnds(c, sends, s, now, b, FLUSHES);
  }

  class Engine {
    const cfg: Config
    const sends: nat -> bool   // the broker link: whether the n-th publish ever tried goes out
    var enabled: bool
    var connected: bool
    var rot: Rotator
    var ant: Antenna
    var radio: BeamModel.Radio
    var lastInputs: Liveness
    var cmdDir: Option<Flip>
    var cmdAz: Option<Turn>
    var pending: Option<Held>
    var last: Option<Last>
    var am: BeamModel.Lock
    var out: seq<Sent>

    function Now(): State reads this {
      State(enabled, connected, Siblings(rot, ant, radio, lastInputs), Orders(cmdDir, cmdAz, pending, last), am, out)
    }

    constructor (c: Config, link: nat -> bool)
      ensures cfg == c && sends == link && Now() == Init(c)
    {
      cfg, sends := c, link;
      var i := Init(c);
      enabled, connected := false, false;
      rot, ant, radio, lastInputs := i.sib.rot, i.sib.ant, i.sib.radio, i.sib.shown;
      cmdDir, cmdAz, pending, last := None, None, None, None;
      am, out := i.lock, [];
    }

    method Publish(m: Sent) returns (ok: bool)
      modifies `out
      ensures out == old(out) + [m] && ok == sends(|old(out)|)
    {
      ok := sends(|out|);
      out := out + [m];
    }

    method PublishState()
      modifies `out
      ensures Now() == Published(old(Now()), Report)
    {
      var _ := Publish(Report);
    }

    // ----------------------------------------------------------- antenna-mode lock

    method SyncAntMode(now: int)
      modifies `am, `pending, `out
      ensures Now() == Synced(old(Now()), now)
    {
      if !am.known {
        if am.current || (am.holdUntil.Some? && am.holdUntil.value <= now) { am := am.(known := true); }
      }
      if !am.seen { return; }
      var before := am.mode;
      am := am.(mode := am.box);
      if am.mode == before { return; }
      if am.mode != Normal && pending.Some? { pending := None; }
      PublishState();
    }

    method AntModeState(mode: Option<Mode>)
      modifies `am
      ensures Now() == Step(cfg, sends, old(Now()), Event.AntModeState(mode), 0)
    {
      if mode.Some? { am := am.(box := mode.value, seen := true, current := true); }
    }

    method AntModeConnecting()
      modifies `am
      ensures Now() == Step(cfg, sends, old(Now()), Event.AntModeConnecting, 0)
    {
      am := am.(current := false);
    }

    // ----------------------------------------------------------- outputs

    method SendRotate(az: int, now: int) returns (ok: bool)
      modifies `out, `cmdAz
      ensures ok == sends(|old(out)|) && Now() == BeamModel.SendRotate(old(Now()), ok, az, now)
    {
      ok := Publish(SetAz(az));
      if ok { cmdAz := Some(Turn(az, now + ROT_ACK_WINDOW, false, false, rot.moving)); }
    }

    /** What the latest request has come to so far. */
    method Note(rotateTo: Option<int>, direction: Option<Direction>)
      modifies `last
      ensures Now() == Noted(old(Now()), rotateTo, direction)
    {
      if last.Some? { last := Some(Last(last.value.bearing, rotateTo, direction)); }
    }

    /** One decision for bearing b: its rotation first, then its direction by way of a flush. */
    method DecideAndApply(b: real, now: int)
      requires cfg.beam.Valid() && !GoesRound(cfg, sends, Now(), now, b) && Synced(Now(), now) == Now()
      modifies `am, `pending, `out, `cmdAz, `cmdDir, `last
      ensures Now() == BeamModel.DecideAndApply(cfg, sends, old(Now()), now, b, 1).s
      decreases 1
    {
      ghost var s := Now();
      var d := Decide(cfg.beam, Situation(Now(), now, b));
      DirectionMeansKnown(cfg.beam, Situation(s, now, b));
      SituationIs(s, now, b);
      hide Decide, Situation, Synced, Noted, GoesRound, Flush;
      Note(None, d.direction);
      if d.rotateTo.Some? {
        var sent := SendRotate(d.rotateTo.value, now);
        if !sent {
          Note(None, None);
          return;
        }
        Note(d.rotateTo, d.direction);
      }
      if d.direction.Some? {
        pending := Some(Held(d.direction.value, b));
        NoSecondRotation(cfg, sends, s, d, b, now);
        var _ := FlushPending(now);
      }
    }

    /** Takes the held flip off hold if nothing stands in its way, and has its bearing decided afresh. */
    method FlushPending(now: int) returns (changed: bool)
      requires cfg.beam.Valid() && !FlushGoesRound(cfg, sends, Now(), now)
      modifies `am, `pending, `out, `cmdAz, `cmdDir, `last
      ensures Now() == Flush(cfg, sends, old(Now()), now, FLUSHES).s
      ensures changed == Flush(cfg, sends, old(Now()), now, FLUSHES).changed
      decreases if RotatesOnFlush(cfg, Now(), now) then 2 else 0
    {
      ghost var s := Now();
      SyncIdempotent(s, now);
      SyncAntMode(now);
      if pending.None? { return false; }
      var p := pending.value;
      if am.mode != Normal || !am.known { pending := None; return true; }
      if !ant.Live() { pending := None; return true; }
      if !connected || ant.moving || Transmitting(Now().sib) || FlipInFlight(Now().orders, now) { return false; }
      FlushReleases(cfg, sends, s, now);
      pending := None;
      changed := Release(p, now);
    }

    /** The second half of a flush: the held flip p has been taken off hold and is decided again. */
    method Release(p: Held, now: int) returns (changed: bool)
      requires cfg.beam.Valid() && (AskedFor(Now(), p.bearing) ==> !GoesRound(cfg, sends, Now(), now, p.bearing))
      requires Synced(Now(), now) == Now() && pending.None? && Open(Now(), now)
      modifies `am, `pending, `out, `cmdAz, `cmdDir, `last
      ensures Now() == Released(cfg, sends, old(Now()), now, p).s
      ensures changed == Released(cfg, sends, old(Now()), now, p).changed
      decreases if AskedFor(Now(), p.bearing) && Decide(cfg.beam, Situation(Now(), now, p.bearing)).rotateTo.Some? then 2 else 0, 0
    {
      var d := Decide(cfg.beam, Situation(Now(), now, p.bearing));
      if d.rotateTo.Some? {
        if last.Some? && last.value.bearing == p.bearing { DecideAndApply(p.bearing, now); }
        return true;
      }
      if d.direction.None? { return true; }
      var ok := Publish(SetDirection(d.direction.value));
      if !ok {
        pending := Some(Held(d.direction.value, p.bearing));
        return false;
      }
      cmdDir := Some(Flip(d.direction.value, ant.direction, now + DIR_SETTLE));
      return true;
    }

    method RetryPending(now: int)
      requires cfg.beam.Valid() && !FlushGoesRound(cfg, sends, Now(), now)
      modifies `am, `pending, `out, `cmdAz, `cmdDir, `last
      ensures Now() == Retried(cfg, sends, old(Now()), now)
    {
      var changed := FlushPending(now);
      if changed { PublishState(); }
    }

    // ----------------------------------------------------------- bus inputs

    method InputsChanged()
      modifies `lastInputs, `out
      ensures Now() == BeamModel.InputsChanged(old(Now()))
    {
      var now := Liveness(rot.Live() && rot.azKnown, ant.Live(), radio.Live());
      if now == lastInputs { return; }
      lastInputs := now;
      PublishState();
    }

    method RotatorStatus(online: bool)
      modifies `rot, `lastInputs, `out
      ensures Now() == BeamModel.InputsChanged(OnStatus(old(Now()), RotatorSlot, online))
    {
      rot := rot.(status := online);
      InputsChanged();
    }

    method RotatorState(doc: Option<RotatorDoc>, now: int)
      modifies `rot, `cmdAz, `lastInputs, `out
      ensures Now() == if doc.Some? then OnRotatorState(old(Now()), doc.value, now) else old(Now())
    {
      if doc.None? { return; }
      if doc.value.az.Some? { rot := rot.(az := doc.value.az.value, azKnown := true); }
      rot := rot.(target := doc.value.target, moving := doc.value.moving, device := doc.value.deviceOnline.GetOr(true));
      SettleRotator(now);
      InputsChanged();
    }

    /** What a frame says of the target in flight: acknowledged, moved for, or over. */
    method SettleRotator(now: int)
      modifies `cmdAz
      ensures cmdAz == if old(cmdAz).Some? then SettledTurn(old(cmdAz).value, rot, now) else None
    {
      if cmdAz.None? { return; }
      var t := cmdAz.value.target as real;
      var targetIsOurs := rot.target.Some? && Abs(rot.target.value - t) <= 1.0;
      if !cmdAz.value.acked && (targetIsOurs || (!cmdAz.value.fromMoving && rot.moving)) {
        cmdAz := Some(cmdAz.value.(acked := true, until := now + ROT_TRAVEL_WINDOW));
      }
      if cmdAz.value.acked && rot.moving { cmdAz := Some(cmdAz.value.(moved := true)); }
      if !rot.moving && rot.azKnown && Abs(rot.az - t) <= ARRIVE_TOLERANCE {
        cmdAz := None;
      } else if cmdAz.value.moved && !rot.moving {
        cmdAz := None;
      } else if cmdAz.value.acked && rot.target.Some? && !targetIsOurs {
        cmdAz := None;
      }
    }

    method AntStatus(online: bool, now: int)
      requires cfg.beam.Valid() && !EventGoesRound(cfg, sends, Now(), Status(AntSlot, online), now)
      modifies this
      ensures Now() == Retried(cfg, sends, BeamModel.InputsChanged(OnStatus(old(Now()), AntSlot, online)), now)
    {
      ant := ant.(status := online);
      InputsChanged();
      RetryPending(now);
    }

    method AntState(doc: Option<AntDoc>, now: int)
      requires cfg.beam.Valid() && !EventGoesRound(cfg, sends, Now(), Event.AntState(doc), now)
      modifies this
      ensures Now() == Step(cfg, sends, old(Now()), Event.AntState(doc), now)
    {
      hide Retried, BeamModel.InputsChanged;
      if doc.None? { return; }
      ant := ant.(direction := doc.value.direction, on6m := doc.value.on6m, moving := doc.value.moving,
                  device := doc.value.deviceOnline.GetOr(true));
      if cmdDir.Some? && !doc.value.moving {
        if doc.value.direction == cmdDir.value.dir { cmdDir := None; }
        else if doc.value.direction != cmdDir.value.from { cmdDir := None; }
      }
      InputsChanged();
      RetryPending(now);
    }

    method RadioStatus(online: bool, now: int)
      requires cfg.beam.Valid() && !EventGoesRound(cfg, sends, Now(), Status(RadioSlot, online), now)
      modifies this
      ensures Now() == Retried(cfg, sends, BeamModel.InputsChanged(OnStatus(old(Now()), RadioSlot, online)), now)
    {
      radio := radio.(status := online);
      InputsChanged();
      RetryPending(now);
    }

    method RadioState(doc: Option<RadioDoc>, now: int)
      requires cfg.beam.Valid() && !EventGoesRound(cfg, sends, Now(), Event.RadioState(doc), now)
      modifies this
      ensures Now() == Step(cfg, sends, old(Now()), Event.RadioState(doc), now)
    {
      hide Retried, BeamModel.InputsChanged;
      if doc.None? { return; }
      radio := radio.(on6m := doc.value.on6m, tx := doc.value.tx, device := doc.value.deviceOnline.GetOr(true));
      InputsChanged();
      RetryPending(now);
    }

    method SetConnected(on: bool, now: int)
      modifies `connected, `am
      ensures Now() == OnConnected(cfg, old(Now()), on, now)
    {
      connected := on;
      if on && cfg.locks { am := am.(known := false, holdUntil := Some(now + ANT_MODE_HOLD)); }
    }

    method SetEnabled(on: bool)
      modifies `enabled, `pending, `last, `out
      ensures Now() == OnEnabled(old(Now()), on)
    {
      if enabled == on { return; }
      enabled, pending, last := on, None, None;
      PublishState();
    }

    // ----------------------------------------------------------- requests

    method Goto(bearing: real, now: int)
      requires cfg.beam.Valid() && !EventGoesRound(cfg, sends, Now(), Event.Goto(bearing), now)
      modifies this
      ensures Now() == Step(cfg, sends, old(Now()), Event.Goto(bearing), now)
    {
      hide Synced, BeamModel.DecideAndApply, Decide;
      SyncIdempotent(Now(), now);
      SyncAntMode(now);
      ghost var synced := Now();
      var b := Norm(bearing);
      last := Some(Last(b, None, None));
      pending := None;
      if !connected { return; }
      if am.mode != Normal || !am.known {
        PublishState();
        return;
      }
      if !enabled {
        var sent := SendRotate(Round(b), now);
        if sent { last := Some(Last(b, Some(Round(b)), None)); }
        PublishState();
        return;
      }
      if !rot.Live() || !rot.azKnown {
        PublishState();
        return;
      }
      AskedInSync(synced, b, now);
      DecideEndsInOne(cfg, sends, Now(), now, b);
      DecideAndApply(b, now);
      PublishState();
    }

    method Stop(now: int)
      modifies `am, `pending, `cmdAz, `out
      ensures Now() == OnStop(old(Now()), now)
    {
      SyncAntMode(now);
      if am.mode != Normal || !am.known { return; }
      cmdAz := None;
      var _ := Publish(StopRotator);
    }

    method Tick(now: int)
      requires cfg.beam.Valid() && !EventGoesRound(cfg, sends, Now(), Event.Tick, now)
      modifies `am, `pending, `out, `cmdAz, `cmdDir, `last
      ensures Now() == OnTick(cfg, sends, old(Now()), now)
    {
      hide Retried, Synced;
      SyncAntMode(now);
      if cmdDir.Some? && !FlipInFlight(Now().orders, now) { cmdDir := None; }
      if cmdAz.Some? && cmdAz.value.until <= now { cmdAz := None; }
      RetryPending(now);
    }
  }
}
