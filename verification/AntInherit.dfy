/** Why an adopted maintenance lock may be declared parked where no operator sent it: the mark that its park target was
    seen is the one of the lock it was adopted over (AntNudge.ParkSeenExactly says exactly when). */
module AntInherit {
  import opened Options
  import opened Policy
  import opened AntModel
  import opened AntEvents
  import opened AntLock
  import opened AntLockRuns
  import opened AntWatch
  import opened AntProgress
  import opened AntBorrow
  import opened AntParked
  import opened AntNudge

  /** After the startup hold, in every run: a park declared parked has the boom at its park azimuth, or a nudge that came
      after the rotator was seen heading for it, or else the number was adopted with another one's mark on. */
  lemma {:induction false} ParkedMeansSighted(c: Config, w: World, start: Engine, run: seq<Timed>, i: nat)
    requires WellFounded(c, start, run) && i < |run| && After(c, w, start, run, i).boot.ready && !start.s.park.parkSeen
    requires After(c, w, start, run, i).s.park.phase != Parked && After(c, w, start, run, i + 1).s.park.phase == Parked
    ensures var t := After(c, w, start, run, i + 1).s;
      || AtPark(c, t.sib.rot, t.park)
      || (Nudged(c, t.pol.s.mode, t.sib.rot, t.park)
          && (Sighted(c, w, start, run, i + 1) <==> !Inherited(c, w, start, run, i + 1)))
  {
    hide After, AtPark, WithinTolerance, Sighted, Inherited, Ok;
    ParkedMeansAtRest(c, w, start, run, i);
    if Nudged(c, After(c, w, start, run, i + 1).s.pol.s.mode, After(c, w, start, run, i + 1).s.sib.rot, After(c, w, start, run, i + 1).s.park) {
      ParkSeenExactly(c, w, start, run, i + 1);
    }
  }

  // ------------------------------------------------------------- a run that shows it

  /** A file of storm lock 3, parked at 90 degrees, and a state message of maintenance lock 4, turning to 200. */
  const PARKED_FILE := Snapshot(Standing(StormMode, Manual, 0, 3, [], [], 0), Some(Lock(3, true, true, Some(90), false)), Parked,
                                false, None, 3, None)
  const TURNING := Published(Maintenance, Some(Lock(4, true, true, Some(200), true)), 4, Manual, 1, Some(Rotating), None)

  const PARKED_START := Started(Some(PARKED_FILE), [Saved(PARKED_FILE)], 0)

  /** The rotator reports twice, both times with its old target of 90 degrees: on the way there before the adoption, and
      at rest there after the startup hold. */
  const INHERIT_RUN: seq<Timed> := [
    Timed(Bus(Status(RotSlot, true)), 0),
    Timed(Bus(RotState(Some(80.0), Some(90.0), true, None)), 0),
    Timed(OwnState(Some(TURNING)), 0),
    Timed(SetConnected(true), 0),
    Timed(Tick, STARTUP_HOLD),
    Timed(Bus(RotState(Some(90.0), Some(90.0), false, None)), STARTUP_HOLD)]

  /** In that run lock 4 is declared parked by a nudge nobody gave: the boom stands at 90 degrees, 110 off its park
      azimuth, and the rotator was never seen heading for that. */
  lemma {:induction false} InheritedMarkParks(c: Config, w: World)
    requires c.Valid()
    ensures WellFounded(c, PARKED_START, INHERIT_RUN) && !PARKED_START.s.park.parkSeen
    ensures var s := After(c, w, PARKED_START, INHERIT_RUN, 6).s;
      && s.park.phase == Parked && s.pol.s.mode == Maintenance && s.park.lock.Some? && s.park.lock.value.parkAz == Some(200)
      && s.sib.rot.az == Some(90.0) && s.park.parkSeen
    ensures After(c, w, PARKED_START, INHERIT_RUN, 5).boot.ready && After(c, w, PARKED_START, INHERIT_RUN, 5).s.park.phase == Rotating
    ensures !Sighted(c, w, PARKED_START, INHERIT_RUN, 6)
  {
    hide After, Step, Sighted, SteppedAndSaved;
    StartsWell(c);
    var a := BeforeAdoption(c, w);
    var b := Adoption(c, w, a);
    var d := HoldEnds(c, w, b);
    var e := RotatorRests(c, w, d);
    NeverSighted(c, w, a, b, d, e);
  }

  lemma {:induction false} StartsWell(c: Config)
    requires c.Valid()
    ensures WellFounded(c, PARKED_START, INHERIT_RUN) && !PARKED_START.s.park.parkSeen
  {
    StartedOk(Some(PARKED_FILE), [Saved(PARKED_FILE)], 0);
  }

  /** A live rotator with this azimuth and its target at 90 degrees. */
  function At(az: real, moving: bool): Rotator { Rotator(true, true, Some(az), moving, Some(90.0)) }

  lemma {:induction false} BeforeAdoption(c: Config, w: World) returns (e: Engine)
    requires c.Valid()
    ensures e == After(c, w, PARKED_START, INHERIT_RUN, 2)
    ensures e.s == PARKED_START.s.(sib := SILENT.(rot := At(80.0, true)), park := PARKED_START.s.park.(parkSeen := true))
    ensures e.boot == PARKED_START.boot && e.warnings == [] && !After(c, w, PARKED_START, INHERIT_RUN, 1).s.sib.rot.Live()
  {
    assert After(c, w, PARKED_START, INHERIT_RUN, 0) == PARKED_START;
    var a := After(c, w, PARKED_START, INHERIT_RUN, 1);
    assert a == PARKED_START.(s := Heard(c, PARKED_START.s, Status(RotSlot, true), 0));
    e := After(c, w, PARKED_START, INHERIT_RUN, 2);
    assert e == a.(s := Heard(c, a.s, RotState(Some(80.0), Some(90.0), true, None), 0));
  }

  lemma {:induction false} Adoption(c: Config, w: World, a: Engine) returns (e: Engine)
    requires c.Valid() && a == After(c, w, PARKED_START, INHERIT_RUN, 2) && a.boot == PARKED_START.boot && a.warnings == []
    requires a.s == PARKED_START.s.(sib := SILENT.(rot := At(80.0, true)), park := PARKED_START.s.park.(parkSeen := true))
    ensures e == After(c, w, PARKED_START, INHERIT_RUN, 4)
    ensures e.boot == Boot(true, Some(0), false, false, 3, []) && e.warnings == [] && Turning(e.s, At(80.0, true))
    ensures After(c, w, PARKED_START, INHERIT_RUN, 3).s == e.s
  {
    hide After;
    var b := After(c, w, PARKED_START, INHERIT_RUN, 3);
    StepIs(c, w, PARKED_START, INHERIT_RUN, 2);
    assert b == OwnStateHeard(a, Some(TURNING), 0);
    StepIs(c, w, PARKED_START, INHERIT_RUN, 3);
    e := After(c, w, PARKED_START, INHERIT_RUN, 4);
  }

  /** Lock 4 turning, its mark set, with the rotator so. */
  predicate Turning(s: State, rot: Rotator) {
    && s.pol.s.mode == Maintenance && s.park.lock == Some(Lock(4, true, true, Some(200), true)) && s.park.phase == Rotating
    && s.park.parkSeen && s.park.nudgeBase.None? && s.supply.borrow.None? && s.sib.rot == rot
  }

  lemma {:induction false} HoldEnds(c: Config, w: World, b: Engine) returns (e: Engine)
    requires c.Valid() && b == After(c, w, PARKED_START, INHERIT_RUN, 4)
    requires b.boot == Boot(true, Some(0), false, false, 3, []) && b.warnings == [] && Turning(b.s, At(80.0, true))
    ensures e == After(c, w, PARKED_START, INHERIT_RUN, 5)
    ensures e.boot.ready && e.warnings == [] && Turning(e.s, At(80.0, true)) && e.s.park.since == STARTUP_HOLD
  {
    hide After, SteppedAndSaved, Step;
    StepIs(c, w, PARKED_START, INHERIT_RUN, 4);
    StepFactors(c, w, b, Tick, STARTUP_HOLD);
    e := After(c, w, PARKED_START, INHERIT_RUN, 5);
    var p := Prepared(c, w, b, Tick, STARTUP_HOLD);
    assert p.s == b.s.(park := b.s.park.(since := STARTUP_HOLD));
    TurningStep(c, w, p, STARTUP_HOLD);
  }

  lemma {:induction false} RotatorRests(c: Config, w: World, d: Engine) returns (e: Engine)
    requires c.Valid() && d == After(c, w, PARKED_START, INHERIT_RUN, 5)
    requires d.boot.ready && d.warnings == [] && Turning(d.s, At(80.0, true)) && d.s.park.since == STARTUP_HOLD
    ensures e == After(c, w, PARKED_START, INHERIT_RUN, 6)
    ensures e.s.park.phase == Parked && e.s.pol.s.mode == Maintenance && e.s.sib.rot == At(90.0, false) && e.s.park.parkSeen
    ensures e.s.park.lock == Some(Lock(4, true, true, Some(200), true))
  {
    hide After, SteppedAndSaved, Step;
    var ev := Bus(RotState(Some(90.0), Some(90.0), false, None));
    StepIs(c, w, PARKED_START, INHERIT_RUN, 5);
    StepFactors(c, w, d, ev, STARTUP_HOLD);
    e := After(c, w, PARKED_START, INHERIT_RUN, 6);
    var p := Prepared(c, w, d, ev, STARTUP_HOLD);
    assert Turning(p.s, At(90.0, false)) && p.s.park.since == STARTUP_HOLD;
    TurningStep(c, w, p, STARTUP_HOLD);
  }

  /** One step of lock 4: still turning while the rotator is moving, and parked once it rests on its old target. */
  lemma {:induction false} TurningStep(c: Config, w: World, p: Engine, now: int)
    requires c.Valid() && p.warnings == [] && p.s.park.since == now
    requires Turning(p.s, At(80.0, true)) || Turning(p.s, At(90.0, false))
    ensures var t := SteppedAndSaved(c, w, p, now);
      && t.boot == p.boot && t.warnings == [] && t.s.pol == p.s.pol && t.s.sib == p.s.sib && t.s.supply == p.s.supply
      && t.s.park == p.s.park.(phase := if p.s.sib.rot.moving then Rotating else Parked, since := now, fault := t.s.park.fault)
  {
    hide PresenceTracked, TxNoted, Persisted;
    var a := PresenceTracked(TxNoted(p.s, now), now);
    assert a == p.s.(watch := a.watch) by { OnlyWatch(p.s, now); }
    assert AutoEntered(c, w, a, ActiveIds(p.warnings, now), now) == a;
    var f := LockStepped(c, w, a, p.wind, now);
    PersistedPark(w, f);
  }

  lemma {:induction false} PersistedPark(w: World, s: State)
    ensures var t := Persisted(w, s); t == s.(journal := t.journal)
  {}

  lemma {:induction false} NeverSighted(c: Config, w: World, a: Engine, b: Engine, d: Engine, e: Engine)
    requires c.Valid() && a == After(c, w, PARKED_START, INHERIT_RUN, 2) && b == After(c, w, PARKED_START, INHERIT_RUN, 4)
    requires d == After(c, w, PARKED_START, INHERIT_RUN, 5) && e == After(c, w, PARKED_START, INHERIT_RUN, 6)
    requires !After(c, w, PARKED_START, INHERIT_RUN, 1).s.sib.rot.Live() && LockSeq(a.s) == 3
    requires forall s :: s in {b.s, d.s, e.s} ==> s.sib.rot.target == Some(90.0) && s.park.lock == Some(Lock(4, true, true, Some(200), true))
    ensures !Sighted(c, w, PARKED_START, INHERIT_RUN, 6)
  {
    hide After;
    forall m: nat | m < 6 && SeenAt(c, w, PARKED_START, INHERIT_RUN, m)
      ensures !SeenSince(c, w, PARKED_START, INHERIT_RUN, m, 6)
    {
      assert m == 1;
      assert !SameLock(e.s, After(c, w, PARKED_START, INHERIT_RUN, m + 1).s);
    }
  }
}
