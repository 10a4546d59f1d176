/** What the antenna-mode engine may claim and may switch off: parked means the boom has been seen at rest where it
    should be, and borrowed power is put back only once nothing needs it. */
module AntParked {
  import opened Options
  import opened Policy
  import opened AntModel
  import opened AntEvents
  import opened AntLock
  import opened AntLockRuns
  import opened AntWatch
  import opened AntBorrow

  // ------------------------------------------------------------- parked means at rest

  /** The rotator is live and at rest, at the park azimuth, or in maintenance at what must be an operator's nudge: a target
      that is neither the park azimuth nor the nudge base, with the mark set that the park azimuth was its target before.
      What mark and base stand for, after an adoption too: AntNudge.ParkSeenExactly and NudgeBaseMeans. */
  predicate AtRest(c: Config, s: State) {
    AtPark(c, s.sib.rot, s.park) || Nudged(c, s.pol.s.mode, s.sib.rot, s.park)
  }

  /** Between s and t the park was not declared parked, or it was with the boom seen at rest. */
  predicate ParkedFor(c: Config, s: State, t: State) { t.park.phase == Parked ==> s.park.phase == Parked || AtRest(c, t) }

  lemma {:induction false} RestartNotParked(c: Config, w: World, s: State, now: int)
    requires s.park.lock.Some?
    ensures ParkRestarted(c, w, s, now).park.phase != Parked
  {
    hide BorrowStarted;
    var l := s.park.lock.value.(seq_ := s.pol.s.seq_, parkAz := None);
    var k := Park(Some(l), if l.retract then Retracting else Grounding, now, false, s.park.nudgeBase, s.park.parkSeen);
    AttachNotParked(c, w, NudgeBased(s.(park := k)), now);
  }

  lemma {:induction false} AttachNotParked(c: Config, w: World, s: State, now: int)
    requires s.park.phase != Parked
    ensures BorrowAttached(c, w, s, now).park.phase != Parked
  {}

  lemma {:induction false} ModeNotParked(c: Config, w: World, s: State, from: Mode, now: int)
    requires s.park.lock.Some? <==> from != Normal
    requires s.pol.s.mode != from && (from == Normal ==> s.park.phase == Idle)
    ensures ModeChanged(c, w, s, from, now).park.phase != Parked
  {
    hide BorrowAttached, ParkRestarted;
    var to := s.pol.s.mode;
    var cleared := s.(park := s.park.(fault := false));
    if to != Normal && from == Normal {
      var l := Lock(s.pol.s.seq_, true, false, None, to == Maintenance);
      AttachNotParked(c, w, NudgeBased(cleared.(park := Phased(cleared.park.(lock := Some(l)), Grounding, now))), now);
    } else if to != Normal {
      RestartNotParked(c, w, cleared.(park := cleared.park.(lock := Some(s.park.lock.value.(nudge := to == Maintenance)))), now);
    }
  }

  lemma {:induction false} ModeMoveParked(c: Config, w: World, s: State, p: Pol, now: int)
    requires Ok(s)
    ensures var t := if p.s.mode == s.pol.s.mode then s.(pol := p) else ModeChanged(c, w, s.(pol := p), s.pol.s.mode, now);
      t.park.phase == Parked ==> s.park.phase == Parked && t.park == s.park && t.sib == s.sib && t.pol.s.mode == s.pol.s.mode
  {
    hide ModeChanged;
    if p.s.mode != s.pol.s.mode { ModeNotParked(c, w, s.(pol := p), s.pol.s.mode, now); }
  }

  lemma {:induction false} LockStepParked(c: Config, w: World, s: State, wind: Option<Wind>, now: int)
    requires c.Valid() && s.park.lock.Some? && Ok(s)
    ensures ParkedFor(c, s, LockStepped(c, w, s, wind, now))
  {
    hide ParkComputed, OnSent, RadioQuiet, RetractConfirmed, ParkTargetNoted;
    if s.park.phase == Retracting { ParkComputedOk(c, s, wind, now); }
    if s.park.phase == AwaitingPower && s.supply.borrow.Some? { OnSentOk(w, s); }
    if s.park.phase == Rotating { NotedOk(c, s.sib.rot, s.park, false); }
  }

  lemma {:induction false} StepParked(c: Config, w: World, e: Engine, now: int)
    requires c.Valid() && Ok(e.s)
    ensures ParkedFor(c, e.s, SteppedAndSaved(c, w, e, now).s)
  {
    hide AutoEntered, LateBorrowed, LockStepped, BorrowStepped, Persisted, PresenceTracked, TxNoted, Ok, AtRest;
    var active := ActiveIds(e.warnings, now);
    var a := PresenceTracked(TxNoted(e.s, now), now);
    TrackedOk(e.s, now);
    AutoEnteredOk(c, w, a, active, now);
    var b := AutoEntered(c, w, a, active, now);
    EntryParked(c, w, a, active, now);
    LateBorrowedOk(c, w, b, now);
    var d := LateBorrowed(c, w, b, now);
    LateParked(c, w, b, now);
    var f := if d.park.lock.Some? then LockStepped(c, w, d, e.wind, now) else d;
    if d.park.lock.Some? { LockSteppedOk(c, w, d, e.wind, now); LockStepParked(c, w, d, e.wind, now); }
    var g := BorrowStepped(c, w, f, now);
    BorrowSteppedOk(c, w, f, now);
    PersistedOk(w, g);
    RestCopied(c, f, Persisted(w, g));
  }

  lemma {:induction false} EntryParked(c: Config, w: World, s: State, active: seq<Id>, now: int)
    requires Ok(s)
    ensures AutoEntered(c, w, s, active, now).park.phase == Parked ==> s.park.phase == Parked
  {
    hide ModeChanged, PresenceNow;
    ModeMoveParked(c, w, s, Evaluated(c.policy, s.pol, now, active, PresenceNow(s, now)), now);
  }

  lemma {:induction false} LateParked(c: Config, w: World, s: State, now: int)
    ensures LateBorrowed(c, w, s, now).park.phase == Parked ==> s.park.phase == Parked
  {}

  lemma {:induction false} RestCopied(c: Config, s: State, t: State)
    requires t.park == s.park && t.sib == s.sib && t.pol == s.pol
    ensures AtRest(c, t) == AtRest(c, s)
  {}

  lemma {:induction false} PreparedParked(c: Config, w: World, e: Engine, ev: Event, now: int)
    requires Ok(e.s) && e.boot.ready
    ensures Prepared(c, w, e, ev, now).s.park.phase == Parked ==> e.s.park.phase == Parked
  {
    hide Heard, ModeChanged, ParkRestarted, Polled, ModeSet, Ok;
    match ev
    case Bus(m) => HeardKeeps(c, e.s, m, now);
    case NinaResult(found) =>
      ModeMoveParked(c, w, e.s, Polled(c.policy, e.s.pol, now, if found.Some? then Some(ActiveIds(found.value, now)) else None), now);
    case Cmd(cmd) => CmdParked(c, w, e.s, cmd, ActiveIds(e.warnings, now), now);
    case _ =>
  }

  lemma {:induction false} CmdParked(c: Config, w: World, s: State, cmd: Command, active: seq<Id>, now: int)
    requires Ok(s)
    ensures Applied(c, w, s, cmd, active, now).park.phase == Parked ==> s.park.phase == Parked
  {
    hide ModeChanged, ParkRestarted, ModeSet;
    if cmd.action.SetAntMode? && cmd.action.mode.Some? {
      ModeSetPoliced(s.pol, cmd.action.mode.value, now, active);
      ModeMoveParked(c, w, s, ModeSet(s.pol, cmd.action.mode.value, now, active), now);
    } else if cmd.action.ReparkAction? && s.pol.s.mode != Normal {
      RestartNotParked(c, w, s.(pol := Reparked(s.pol)), now);
    }
  }

  /** After the startup hold, in every run: the park is declared parked only at an event at which the rotator is live, at
      rest and within tolerance of the park azimuth, or in maintenance of a target that passes for a nudge. */
  lemma {:induction false} ParkedMeansAtRest(c: Config, w: World, start: Engine, run: seq<Timed>, i: nat)
    requires WellFounded(c, start, run) && i < |run| && After(c, w, start, run, i).boot.ready
    requires After(c, w, start, run, i).s.park.phase != Parked && After(c, w, start, run, i + 1).s.park.phase == Parked
    ensures AtRest(c, After(c, w, start, run, i + 1).s)
  {
    hide After, Ok, Steps, Step, Prepared, SteppedAndSaved, MessageOk, AtRest;
    var e, ev, now := After(c, w, start, run, i), run[i].event, run[i].at;
    LockAlwaysOk(c, w, start, run, i);
    StepIs(c, w, start, run, i);
    StepFactors(c, w, e, ev, now);
    if Steps(e, ev, now) {
      PreparedOk(c, w, start, run, i);
      PreparedParked(c, w, e, ev, now);
      StepParked(c, w, Prepared(c, w, e, ev, now), now);
    } else {
      UnsteppedSame(c, w, e, ev, now);
    }
  }

  lemma {:induction false} UnsteppedSame(c: Config, w: World, e: Engine, ev: Event, now: int)
    requires e.boot.ready && !Steps(e, ev, now)
    ensures Step(c, w, e, ev, now).s == e.s
  {}

  // ------------------------------------------------------------- power is put back only when nothing needs it

  /** The log only grows, and no restore was published in between. */
  predicate NoRestore(s: State, t: State) {
    s.journal.log <= t.journal.log && forall k :: |s.journal.log| <= k < |t.journal.log| ==> !t.journal.log[k].OffSent?
  }

  lemma {:induction false} NoRestoreOn(s: State, t: State, u: State)
    requires NoRestore(s, t) && NoRestore(t, u)
    ensures NoRestore(s, u)
  {
    assert forall k :: 0 <= k < |t.journal.log| ==> u.journal.log[k] == t.journal.log[k];
  }

  lemma {:induction false} StartNoRestore(c: Config, w: World, s: State, now: int)
    ensures NoRestore(s, BorrowStarted(c, w, s, now))
  {
    hide Phased;
  }

  lemma {:induction false} AttachNoRestore(c: Config, w: World, s: State, now: int)
    ensures NoRestore(s, BorrowAttached(c, w, s, now))
  {
    hide BorrowStarted;
    StartNoRestore(c, w, s.(supply := s.supply.(borrow := None)), now);
  }

  lemma {:induction false} RestartNoRestore(c: Config, w: World, s: State, now: int)
    ensures NoRestore(s, ParkRestarted(c, w, s, now))
  {
    hide BorrowAttached, NoRestore;
    SameLog(s, s);
    if s.park.lock.Some? {
      var l := s.park.lock.value.(seq_ := s.pol.s.seq_, parkAz := None);
      var k := Park(Some(l), if l.retract then Retracting else Grounding, now, false, s.park.nudgeBase, s.park.parkSeen);
      AttachNoRestore(c, w, NudgeBased(s.(park := k)), now);
      SameLog(s, NudgeBased(s.(park := k)));
      NoRestoreOn(s, NudgeBased(s.(park := k)), ParkRestarted(c, w, s, now));
    }
  }

  lemma {:induction false} ModeNoRestore(c: Config, w: World, s: State, from: Mode, now: int)
    ensures NoRestore(s, ModeChanged(c, w, s, from, now))
  {
    hide BorrowAttached, ParkRestarted, NoRestore, Phased;
    var to := s.pol.s.mode;
    var cleared := s.(park := s.park.(fault := false));
    if to == Normal || (from != Normal && s.park.lock.None?) {
      SameLog(s, ModeChanged(c, w, s, from, now));
    } else if from == Normal {
      var l := Lock(s.pol.s.seq_, true, false, None, to == Maintenance);
      var t := NudgeBased(cleared.(park := Phased(cleared.park.(lock := Some(l)), Grounding, now)));
      SameLog(s, t);
      AttachNoRestore(c, w, t, now);
      NoRestoreOn(s, t, BorrowAttached(c, w, t, now));
    } else {
      var t := cleared.(park := cleared.park.(lock := Some(s.park.lock.value.(nudge := to == Maintenance))));
      SameLog(s, t);
      RestartNoRestore(c, w, t, now);
      NoRestoreOn(s, t, ParkRestarted(c, w, t, now));
    }
  }

  lemma {:induction false} SameLog(s: State, t: State)
    requires t.journal.log == s.journal.log
    ensures NoRestore(s, t)
  {}

  lemma {:induction false} CmdNoRestore(c: Config, w: World, s: State, cmd: Command, active: seq<Id>, now: int)
    ensures NoRestore(s, Applied(c, w, s, cmd, active, now))
  {
    hide ModeChanged, ParkRestarted, ModeSet, NoRestore;
    SameLog(s, s);
    match cmd.action
    case SetAntMode(mode) =>
      if mode.Some? {
        var t := s.(pol := ModeSet(s.pol, mode.value, now, active));
        SameLog(s, t);
        ModeNoRestore(c, w, t, s.pol.s.mode, now);
        NoRestoreOn(s, t, ModeChanged(c, w, t, s.pol.s.mode, now));
      }
    case ReparkAction =>
      var t := s.(pol := Reparked(s.pol));
      SameLog(s, t);
      RestartNoRestore(c, w, t, now);
      NoRestoreOn(s, t, ParkRestarted(c, w, t, now));
    case DismissAction => SameLog(s, s.(pol := Dismissed(s.pol, active)));
    case OtherAction =>
  }

  lemma {:induction false} PreparedNoRestore(c: Config, w: World, e: Engine, ev: Event, now: int)
    requires e.boot.ready
    ensures NoRestore(e.s, Prepared(c, w, e, ev, now).s)
  {
    hide Heard, ModeChanged, Applied, Polled, NoRestore;
    SameLog(e.s, e.s);
    match ev
    case Bus(m) =>
      HeardKeeps(c, e.s, m, now);
      SameLog(e.s, Heard(c, e.s, m, now));
    case NinaResult(found) =>
      var p := Polled(c.policy, e.s.pol, now, if found.Some? then Some(ActiveIds(found.value, now)) else None);
      SameLog(e.s, e.s.(pol := p));
      ModeNoRestore(c, w, e.s.(pol := p), e.s.pol.s.mode, now);
      NoRestoreOn(e.s, e.s.(pol := p), ModeChanged(c, w, e.s.(pol := p), e.s.pol.s.mode, now));
    case Cmd(cmd) => CmdNoRestore(c, w, e.s, cmd, ActiveIds(e.warnings, now), now);
    case _ =>
  }

  lemma {:induction false} LockStepNoRestore(c: Config, w: World, s: State, wind: Option<Wind>, now: int)
    requires s.park.lock.Some?
    ensures NoRestore(s, LockStepped(c, w, s, wind, now))
  {
    hide ParkComputed, AtPark, Nudged, ParkTargetNoted, RadioQuiet, RetractConfirmed, Phased;
    if s.park.phase == Retracting { ParkComputedKeeps(c, s, wind, now); }
  }

  /** Nothing needs the borrowed power: the mode is normal, or a storm's park has ended. */
  predicate PowerFree(s: State) { s.pol.s.mode == Normal || (s.pol.s.mode == StormMode && (s.park.phase == Parked || s.park.phase == Failed)) }

  /** The restore is the last power command a step can send, and needs powerseq to be there and not to own the power. */
  lemma {:induction false} RestoreNeedsFree(c: Config, w: World, s: State, now: int)
    requires Ok(s)
    ensures var t := BorrowStepped(c, w, s, now);
      NoRestore(s, t) || (PowerFree(t) && t.sib.seq_.status && t.sib.seq_.phase != NoPhase && Held(s.supply.borrow))
  {
    hide StillSlewing, TakesOver;
    if s.supply.borrow.Some? && !RestoreDue(s) { SameLog(s, s); }
  }

  lemma {:induction false} StepRestores(c: Config, w: World, e: Engine, now: int)
    requires c.Valid() && Ok(e.s)
    ensures var t := SteppedAndSaved(c, w, e, now).s;
      NoRestore(e.s, t) || (PowerFree(t) && t.sib.seq_.status && t.sib.seq_.phase != NoPhase)
  {
    hide AutoEntered, BorrowStarted, LockStepped, BorrowStepped, Persisted, PresenceTracked, TxNoted, Ok, NoRestore, PowerFree, LateBorrowOpen;
    var active := ActiveIds(e.warnings, now);
    var a := PresenceTracked(TxNoted(e.s, now), now);
    TrackedOk(e.s, now);
    SameLog(e.s, a);
    var b := AutoEntered(c, w, a, active, now);
    AutoEnteredOk(c, w, a, active, now);
    EntryNoRestore(c, w, a, active, now);
    NoRestoreOn(e.s, a, b);
    var d := LateBorrowed(c, w, b, now);
    LateBorrowedOk(c, w, b, now);
    StartNoRestore(c, w, b, now);
    SameLog(b, b);
    NoRestoreOn(e.s, b, d);
    var f := if d.park.lock.Some? then LockStepped(c, w, d, e.wind, now) else d;
    if d.park.lock.Some? { LockSteppedOk(c, w, d, e.wind, now); LockStepNoRestore(c, w, d, e.wind, now); } else { SameLog(d, d); }
    NoRestoreOn(e.s, d, f);
    var g := BorrowStepped(c, w, f, now);
    RestoreNeedsFree(c, w, f, now);
    var h := Persisted(w, g);
    PersistedOk(w, g);
    SavingIsNoRestore(w, g);
    FreeCopied(g, h);
    if NoRestore(f, g) {
      NoRestoreOn(e.s, f, g);
      NoRestoreOn(e.s, g, h);
    }
  }

  lemma {:induction false} EntryNoRestore(c: Config, w: World, s: State, active: seq<Id>, now: int)
    ensures NoRestore(s, AutoEntered(c, w, s, active, now))
  {
    hide ModeChanged, PresenceNow, NoRestore;
    var p := Evaluated(c.policy, s.pol, now, active, PresenceNow(s, now));
    SameLog(s, s);
    SameLog(s, s.(pol := p));
    ModeNoRestore(c, w, s.(pol := p), s.pol.s.mode, now);
    NoRestoreOn(s, s.(pol := p), ModeChanged(c, w, s.(pol := p), s.pol.s.mode, now));
  }

  lemma {:induction false} SavingIsNoRestore(w: World, s: State)
    ensures NoRestore(s, Persisted(w, s))
  {}

  lemma {:induction false} FreeCopied(s: State, t: State)
    requires t.park == s.park && t.sib == s.sib && t.pol == s.pol
    ensures PowerFree(t) == PowerFree(s)
  {}

  /** After the startup hold, in every run: borrowed power is switched off only at an event that ends in normal mode, or
      in a storm whose park is parked or failed, with powerseq there; never while a park needs it, never in maintenance. */
  lemma {:induction false} PowerIsCutOnlyWhenFree(c: Config, w: World, start: Engine, run: seq<Timed>, i: nat)
    requires WellFounded(c, start, run) && i < |run| && After(c, w, start, run, i).boot.ready
    ensures var s := After(c, w, start, run, i).s; var t := After(c, w, start, run, i + 1).s;
      NoRestore(s, t) || (PowerFree(t) && t.sib.seq_.status && t.sib.seq_.phase != NoPhase)
  {
    hide After, Ok, Steps, Step, Prepared, SteppedAndSaved, MessageOk, NoRestore, PowerFree;
    var e, ev, now := After(c, w, start, run, i), run[i].event, run[i].at;
    LockAlwaysOk(c, w, start, run, i);
    StepIs(c, w, start, run, i);
    StepFactors(c, w, e, ev, now);
    if Steps(e, ev, now) {
      var p := Prepared(c, w, e, ev, now);
      PreparedOk(c, w, start, run, i);
      PreparedNoRestore(c, w, e, ev, now);
      StepRestores(c, w, p, now);
      if NoRestore(p.s, After(c, w, start, run, i + 1).s) { NoRestoreOn(e.s, p.s, After(c, w, start, run, i + 1).s); }
    } else {
      UnsteppedSame(c, w, e, ev, now);
      SameLog(e.s, e.s);
    }
  }
}
