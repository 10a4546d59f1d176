/** What the antenna-mode engine remembers of the radio and of the operator, over whole runs, and what automation may
    therefore do: no retract while the radio was lately transmitting, no automatic storm on a manned station. */
module AntWatch {
  import opened Options
  import opened Policy
  import opened AntModel
  import opened AntEvents
  import opened AntLock
  import opened AntLockRuns

  /** The event makes the engine take a step. */
  predicate Steps(e: Engine, ev: Event, now: int) {
    match ev
    case SetConnected(_) => false
    case OwnState(_) => false
    case Tick => e.boot.ready || HoldOver(e.boot, now)
    case _ => e.boot.ready
  }

  /** The engine as the event has changed it when that step begins. */
  function Prepared(c: Config, w: World, e: Engine, ev: Event, now: int): Engine {
    match ev
    case Bus(m) => e.(s := Heard(c, e.s, m, now))
    case NinaResult(found) =>
      (if found.Some? then e.(warnings := found.value) else e).(s := NinaPolled(c, w, e.s, found, now))
    case WindResult(dir) => if dir.Some? then e.(wind := Some(Wind(dir.value, now))) else e
    case Tick =>
      if e.boot.ready then e
      else
        var s := e.s.(park := e.s.park.(since := now),
                      supply := if e.s.supply.borrow.Some? then e.s.supply.(clock := now) else e.s.supply);
        e.(s := AppliedAll(c, w, s, e.boot.pending, ActiveIds(e.warnings, now), now),
           boot := e.boot.(ready := true, adopt := false, pending := []))
    case Cmd(cmd) => e.(s := Applied(c, w, e.s, cmd, ActiveIds(e.warnings, now), now))
    case _ => e
  }

  lemma {:induction false} StepFactors(c: Config, w: World, e: Engine, ev: Event, now: int)
    ensures Steps(e, ev, now) ==> Step(c, w, e, ev, now) == SteppedAndSaved(c, w, Prepared(c, w, e, ev, now), now)
    ensures !Steps(e, ev, now) && !ev.OwnState? ==>
      && Step(c, w, e, ev, now).s.pol == e.s.pol && Step(c, w, e, ev, now).s.supply == e.s.supply
      && Step(c, w, e, ev, now).s.journal == e.s.journal && Step(c, w, e, ev, now).s.park.lock == e.s.park.lock
  {
    hide SteppedAndSaved, AppliedAll, Applied, NinaPolled;
    if ev.Bus? { HeardKeeps(c, e.s, ev.message, now); }
  }

  lemma {:induction false} HeardKeeps(c: Config, s: State, m: Message, now: int)
    ensures var t := Heard(c, s, m, now);
      t.pol == s.pol && t.supply == s.supply && t.journal == s.journal && t.park == s.park.(parkSeen := t.park.parkSeen)
  {}

  // ------------------------------------------------------------- what is remembered

  /** Presence bookkeeping untouched; the last transmission unchanged or now. */
  predicate SameWatch(a: Watch, b: Watch, now: int) {
    b.wasManned == a.wasManned && b.unmannedSince == a.unmannedSince && b.lastTx in {a.lastTx, Some(now)}
  }

  lemma {:induction false} HeardWatch(c: Config, s: State, m: Message, now: int)
    ensures SameWatch(s.watch, Heard(c, s, m, now).watch, now)
  {}

  lemma {:induction false} ModeWatch(c: Config, w: World, s: State, from: Mode, now: int)
    ensures ModeChanged(c, w, s, from, now).watch == s.watch && ModeChanged(c, w, s, from, now).sib == s.sib
  {}

  lemma {:induction false} RestartWatch(c: Config, w: World, s: State, now: int)
    ensures ParkRestarted(c, w, s, now).watch == s.watch && ParkRestarted(c, w, s, now).sib == s.sib
  {}

  lemma {:induction false} AppliedWatch(c: Config, w: World, s: State, cmd: Command, active: seq<Id>, now: int)
    ensures Applied(c, w, s, cmd, active, now).watch == s.watch
  {
    hide ModeChanged, ParkRestarted;
    match cmd.action
    case SetAntMode(mode) =>
      if mode.Some? { ModeWatch(c, w, s.(pol := ModeSet(s.pol, mode.value, now, active)), s.pol.s.mode, now); }
    case ReparkAction => RestartWatch(c, w, s.(pol := Reparked(s.pol)), now);
    case _ =>
  }

  lemma {:induction false} AppliedAllWatch(c: Config, w: World, s: State, cmds: seq<Command>, active: seq<Id>, now: int)
    ensures AppliedAll(c, w, s, cmds, active, now).watch == s.watch
    decreases |cmds|
  {
    hide Applied;
    if cmds != [] {
      AppliedAllWatch(c, w, s, cmds[..|cmds| - 1], active, now);
      AppliedWatch(c, w, AppliedAll(c, w, s, cmds[..|cmds| - 1], active, now), cmds[|cmds| - 1], active, now);
    }
  }

  lemma {:induction false} PreparedWatch(c: Config, w: World, e: Engine, ev: Event, now: int)
    ensures SameWatch(e.s.watch, Prepared(c, w, e, ev, now).s.watch, now)
  {
    hide Heard, ModeChanged, AppliedAll, Applied;
    match ev
    case Bus(m) => HeardWatch(c, e.s, m, now);
    case NinaResult(found) =>
      var p := Polled(c.policy, e.s.pol, now, if found.Some? then Some(ActiveIds(found.value, now)) else None);
      ModeWatch(c, w, e.s.(pol := p), e.s.pol.s.mode, now);
    case Tick =>
      AppliedAllWatch(c, w, e.s.(park := e.s.park.(since := now),
                                 supply := if e.s.supply.borrow.Some? then e.s.supply.(clock := now) else e.s.supply),
                      e.boot.pending, ActiveIds(e.warnings, now), now);
    case Cmd(cmd) => AppliedWatch(c, w, e.s, cmd, ActiveIds(e.warnings, now), now);
    case _ =>
  }

  /** A step keeps what it hears and remembers what it tracked at its start. */
  lemma {:induction false} SteppedWatch(c: Config, w: World, p: Engine, now: int)
    requires c.Valid() && Ok(p.s)
    ensures var t := SteppedAndSaved(c, w, p, now);
      t.s.sib == p.s.sib && t.s.watch == PresenceTracked(TxNoted(p.s, now), now).watch && t.warnings == p.warnings && t.boot == p.boot
  {
    hide AutoEntered, LateBorrowed, LockStepped, BorrowStepped, Persisted, PresenceTracked, TxNoted, Ok;
    var active := ActiveIds(p.warnings, now);
    var a := PresenceTracked(TxNoted(p.s, now), now);
    TrackedOk(p.s, now);
    AutoEnteredOk(c, w, a, active, now);
    var b := AutoEntered(c, w, a, active, now);
    LateBorrowedOk(c, w, b, now);
    var d := LateBorrowed(c, w, b, now);
    if d.park.lock.Some? { LockSteppedOk(c, w, d, p.wind, now); }
    var e := if d.park.lock.Some? then LockStepped(c, w, d, p.wind, now) else d;
    BorrowSteppedOk(c, w, e, now);
    PersistedOk(w, BorrowStepped(c, w, e, now));
  }

  lemma {:induction false} UnsteppedWatch(c: Config, w: World, e: Engine, ev: Event, now: int)
    requires !Steps(e, ev, now)
    ensures SameWatch(e.s.watch, Step(c, w, e, ev, now).s.watch, now)
  {
    hide SteppedAndSaved, BecameReady, Heard;
    match ev
    case Bus(m) => HeardWatch(c, e.s, m, now);
    case OwnState(doc) => AdoptedWatch(e, doc, now);
    case _ =>
  }

  lemma {:induction false} AdoptedWatch(e: Engine, raw: Option<Published>, now: int)
    ensures OwnStateHeard(e, raw, now).s.watch == e.s.watch
  {}

  // ------------------------------------------------------------- over runs

  predicate Ordered(run: seq<Timed>) { forall i, j :: 0 <= i < j < |run| ==> run[i].at <= run[j].at }

  predicate StepsAt(c: Config, w: World, start: Engine, run: seq<Timed>, m: nat)
    requires m < |run|
  {
    Steps(After(c, w, start, run, m), run[m].event, run[m].at)
  }

  /** At event m the radio is seen transmitting; the station is seen manned. */
  predicate TxAt(c: Config, w: World, start: Engine, run: seq<Timed>, m: nat)
    requires m < |run|
  {
    Transmitting(After(c, w, start, run, m + 1).s.sib)
  }

  predicate MannedAt(c: Config, w: World, start: Engine, run: seq<Timed>, m: nat)
    requires m < |run|
  {
    BaseManned(After(c, w, start, run, m + 1).s, run[m].at)
  }

  /** The record of a transmission, and of an operator, seen at time t. */
  predicate TxKept(a: Watch, t: int) { a.lastTx.Some? && a.lastTx.value >= t }
  predicate MannedKept(a: Watch, t: int) { a.wasManned || (a.unmannedSince.Some? && a.unmannedSince.value >= t) }

  lemma {:induction false} TrackingRecords(s: State, now: int)
    ensures var t := PresenceTracked(TxNoted(s, now), now);
      && t.sib == s.sib
      && (Transmitting(t.sib) ==> TxKept(t.watch, now))
      && (BaseManned(t, now) ==> MannedKept(t.watch, now))
      && (forall at: int :: at <= now && TxKept(s.watch, at) ==> TxKept(t.watch, at))
      && (forall at: int :: at <= now && MannedKept(s.watch, at) ==> MannedKept(t.watch, at))
  {}

  lemma {:induction false} SameBase(s: State, t: State, now: int)
    requires s.sib == t.sib && s.watch == t.watch
    ensures BaseManned(s, now) == BaseManned(t, now)
  {}

  /** A step at event m records what is seen there. */
  lemma {:induction false} SeenIsRecorded(c: Config, w: World, start: Engine, run: seq<Timed>, m: nat)
    requires WellFounded(c, start, run) && m < |run| && StepsAt(c, w, start, run, m)
    ensures var a := After(c, w, start, run, m + 1).s.watch;
      (TxAt(c, w, start, run, m) ==> TxKept(a, run[m].at)) && (MannedAt(c, w, start, run, m) ==> MannedKept(a, run[m].at))
  {
    hide Step, Ok, SteppedAndSaved, Prepared, After, BaseManned, TxKept, MannedKept, PresenceTracked, TxNoted, WellFounded;
    var e := After(c, w, start, run, m);
    var p := Prepared(c, w, e, run[m].event, run[m].at);
    PreparedOk(c, w, start, run, m);
    StepFactors(c, w, e, run[m].event, run[m].at);
    StepIs(c, w, start, run, m);
    SteppedWatch(c, w, p, run[m].at);
    TrackingRecords(p.s, run[m].at);
    SameBase(After(c, w, start, run, m + 1).s, PresenceTracked(TxNoted(p.s, run[m].at), run[m].at), run[m].at);
  }

  lemma {:induction false} PreparedOk(c: Config, w: World, start: Engine, run: seq<Timed>, m: nat)
    requires WellFounded(c, start, run) && m < |run| && StepsAt(c, w, start, run, m)
    ensures c.Valid() && Ok(Prepared(c, w, After(c, w, start, run, m), run[m].event, run[m].at).s)
  {
    hide Ok, After, NinaPolled, AppliedAll, Applied, Heard;
    var e, now := After(c, w, start, run, m), run[m].at;
    LockAlwaysOk(c, w, start, run, m);
    match run[m].event
    case Bus(msg) => HeardOk(c, e.s, msg, now);
    case NinaResult(found) => NinaPolledOk(c, w, e.s, found, now);
    case Tick =>
      if !e.boot.ready {
        var s := e.s.(park := e.s.park.(since := now),
                      supply := if e.s.supply.borrow.Some? then e.s.supply.(clock := now) else e.s.supply);
        assert Ok(s) by { ClockedOk(e.s, s); }
        AppliedAllOk(c, w, s, e.boot.pending, ActiveIds(e.warnings, now), now);
      }
    case Cmd(cmd) => AppliedOk(c, w, e.s, cmd, ActiveIds(e.warnings, now), now);
    case _ =>
  }

  lemma {:induction false} ClockedOk(s: State, t: State)
    requires Ok(s) && t.pol == s.pol && t.park == s.park.(since := t.park.since) && t.supply == s.supply.(clock := t.supply.clock)
    ensures Ok(t)
  {}

  /** What one event recorded is still on record at every later one. */
  lemma {:induction false} RecordsLast(c: Config, w: World, start: Engine, run: seq<Timed>, m: nat, i: nat)
    requires WellFounded(c, start, run) && Ordered(run) && m < i <= |run| && StepsAt(c, w, start, run, m)
    ensures var a := After(c, w, start, run, i).s.watch;
      (TxAt(c, w, start, run, m) ==> TxKept(a, run[m].at)) && (MannedAt(c, w, start, run, m) ==> MannedKept(a, run[m].at))
    decreases i - m
  {
    hide Step, SteppedAndSaved, Prepared, After, BaseManned, PresenceTracked, TxNoted, WellFounded, Steps, TxAt, MannedAt;
    if i == m + 1 {
      SeenIsRecorded(c, w, start, run, m);
    } else {
      var e, ev, now := After(c, w, start, run, i - 1), run[i - 1].event, run[i - 1].at;
      RecordsLast(c, w, start, run, m, i - 1);
      StepIs(c, w, start, run, i - 1);
      StepFactors(c, w, e, ev, now);
      if Steps(e, ev, now) {
        var p := Prepared(c, w, e, ev, now);
        PreparedOk(c, w, start, run, i - 1);
        PreparedWatch(c, w, e, ev, now);
        SteppedWatch(c, w, p, now);
        TrackingRecords(p.s, now);
      } else {
        UnsteppedWatch(c, w, e, ev, now);
      }
    }
  }

  /** A retract ordered without the antenna switch confirmed off comes only when no step of the last tx_quiet saw the
      radio transmitting. */
  lemma {:induction false} NoRetractNearTransmission(c: Config, w: World, start: Engine, run: seq<Timed>, i: nat, m: nat)
    requires WellFounded(c, start, run) && Ordered(run) && m <= i < |run| && !Adopts(After(c, w, start, run, i), run[i].event)
    requires var t := After(c, w, start, run, i + 1).s; t.park.lock.Some? && t.park.lock.value.retract && !SwitchedOff(t)
    requires var s := After(c, w, start, run, i).s; !(s.park.lock.Some? && s.park.lock.value.retract)
    requires StepsAt(c, w, start, run, m) && TxAt(c, w, start, run, m)
    ensures run[m].at + c.timeouts.txQuiet <= run[i].at
  {
    hide After, WellFounded, SwitchedOff, StepsAt;
    RetractHasACause(c, w, start, run, i);
    RecordsLast(c, w, start, run, m, i + 1);
  }

  // ------------------------------------------------------------- automatic entry

  /** A step that ends in an automatic storm it did not begin in, entered it itself. */
  lemma {:induction false} EntryNeedsUnmanned(c: Config, w: World, p: Engine, now: int)
    requires c.Valid() && Ok(p.s) && !AutoStorm(p.s.pol.s) && AutoStorm(SteppedAndSaved(c, w, p, now).s.pol.s)
    ensures var t := SteppedAndSaved(c, w, p, now); var tracked := PresenceTracked(TxNoted(p.s, now), now);
      && c.policy.autoEnter && Unacked(p.s.pol, ActiveIds(t.warnings, now)) && p.s.pol.s.mode == Normal
      && PresenceNow(tracked, now) == Unmanned && t.s.watch == tracked.watch && t.s.sib == tracked.sib
  {
    hide LateBorrowed, LockStepped, BorrowStepped, Persisted, PresenceTracked, TxNoted, Ok, ModeChanged, PresenceNow, Unacked;
    var active := ActiveIds(p.warnings, now);
    var a := PresenceTracked(TxNoted(p.s, now), now);
    SteppedWatch(c, w, p, now);
    TrackingRecords(p.s, now);
    TrackedOk(p.s, now);
    AutoEnteredOk(c, w, a, active, now);
    var b := AutoEntered(c, w, a, active, now);
    LateBorrowedPol(c, w, b, now);
    var d := LateBorrowed(c, w, b, now);
    LateBorrowedOk(c, w, b, now);
    if d.park.lock.Some? { LockSteppedOk(c, w, d, p.wind, now); }
    var e := if d.park.lock.Some? then LockStepped(c, w, d, p.wind, now) else d;
    BorrowSteppedOk(c, w, e, now);
    PersistedOk(w, BorrowStepped(c, w, e, now));
    assert AutoStorm(b.pol.s);
    EnteredPol(c, w, a, active, now);
  }

  lemma {:induction false} LateBorrowedPol(c: Config, w: World, s: State, now: int)
    ensures LateBorrowed(c, w, s, now).pol == s.pol
  {}

  lemma {:induction false} EnteredPol(c: Config, w: World, s: State, active: seq<Id>, now: int)
    requires Ok(s) && !AutoStorm(s.pol.s) && AutoStorm(AutoEntered(c, w, s, active, now).pol.s)
    ensures c.policy.autoEnter && Unacked(s.pol, active) && s.pol.s.mode == Normal && PresenceNow(s, now) == Unmanned
  {}

  lemma {:induction false} EnteredIs(c: Config, w: World, s: State, active: seq<Id>, now: int)
    requires Ok(s)
    ensures AutoEntered(c, w, s, active, now).pol == Evaluated(c.policy, s.pol, now, active, PresenceNow(s, now))
  {}
}
