/** The lock sequence makes progress: per sequence number it cannot cycle, and with one-second ticks, a quiet radio and
    no due borrow whose save fails it is parked or failed within the summed timeouts, counted at most twice. */
module AntProgress {
  import opened Options
  import opened Policy
  import opened AntModel
  import opened AntEvents
  import opened AntLock
  import opened AntLockRuns
  import opened AntWatch

  // ------------------------------------------------------------- no cycles

  function Rank(p: Phase): nat {
    match p
    case AwaitingPower => 6
    case AwaitingDevices => 5
    case Grounding => 4
    case Retracting => 3
    case Rotating => 2
    case Failed => 1
    case _ => 0
  }

  /** No borrow has been taken for this sequence number yet. */
  predicate BorrowLeft(s: State) { s.supply.borrowSeq != LockSeq(s) }

  predicate SameLock(s: State, t: State) { s.park.lock.Some? && t.park.lock.Some? && LockSeq(s) == LockSeq(t) }

  /** Within one sequence number: the borrow, once taken, stays taken, and every phase change takes it or lowers the rank. */
  predicate Downward(s: State, t: State) {
    SameLock(s, t) ==>
      && (BorrowLeft(t) ==> BorrowLeft(s))
      && (t.park.phase != s.park.phase ==> (BorrowLeft(s) && !BorrowLeft(t)) || Rank(t.park.phase) < Rank(s.park.phase))
  }

  lemma {:induction false} DownwardOn(s: State, t: State, u: State)
    requires Ok(s) && Moved(s, t) && Moved(t, u) && Downward(s, t) && Downward(t, u)
    ensures Downward(s, u)
  {}

  lemma {:induction false} SameParkDownward(s: State, t: State)
    requires t.park.lock == s.park.lock && t.park.phase == s.park.phase && t.supply.borrowSeq == s.supply.borrowSeq
    ensures Downward(s, t)
  {}

  /** A new lock has a new number, so nothing is claimed across it. */
  lemma {:induction false} NewLockDownward(s: State, t: State)
    requires Ok(s) && (t.park.lock.Some? ==> LockSeq(t) > s.pol.s.seq_)
    ensures Downward(s, t)
  {}

  lemma {:induction false} LateBorrowDownward(c: Config, w: World, s: State, now: int)
    requires Ok(s)
    ensures Downward(s, LateBorrowed(c, w, s, now))
  {}

  lemma {:induction false} LockStepDownward(c: Config, w: World, s: State, wind: Option<Wind>, now: int)
    requires c.Valid() && s.park.lock.Some? && Ok(s)
    ensures Downward(s, LockStepped(c, w, s, wind, now))
    ensures LockStepped(c, w, s, wind, now).supply.borrowSeq == s.supply.borrowSeq
    ensures LockStepped(c, w, s, wind, now).supply.clock == s.supply.clock
  {
    hide ParkComputed, AtPark, Nudged, ParkTargetNoted, RadioQuiet, RetractConfirmed, OnSent;
    LockSteppedOk(c, w, s, wind, now);
    if s.park.phase == Retracting { ParkComputedOk(c, s, wind, now); ParkComputedSupply(c, s, wind, now); }
    if s.park.phase == AwaitingPower && s.supply.borrow.Some? { OnSentOk(w, s); }
    if s.park.phase == Rotating { NotedOk(c, s.sib.rot, s.park, false); }
  }

  lemma {:induction false} ParkComputedSupply(c: Config, s: State, wind: Option<Wind>, now: int)
    requires s.park.lock.Some?
    ensures ParkComputed(c, s, wind, now).supply == s.supply
  {}

  lemma {:induction false} BorrowStepKeepsSeq(c: Config, w: World, s: State, now: int)
    ensures var t := BorrowStepped(c, w, s, now);
      t.supply.borrowSeq == s.supply.borrowSeq && t.supply.clock == s.supply.clock
  {}

  lemma {:induction false} ModeMoveDownward(c: Config, w: World, s: State, p: Pol, now: int)
    requires Ok(s) && Policed(s.pol, p)
    ensures Downward(s, if p.s.mode == s.pol.s.mode then s.(pol := p) else ModeChanged(c, w, s.(pol := p), s.pol.s.mode, now))
  {
    hide ModeChanged, Downward;
    if p.s.mode == s.pol.s.mode {
      SameParkDownward(s, s.(pol := p));
    } else {
      ModeChangedOk(c, w, s.(pol := p), s.pol.s.mode, s.pol.s.seq_, now);
      NewLockDownward(s, ModeChanged(c, w, s.(pol := p), s.pol.s.mode, now));
    }
  }

  lemma {:induction false} AppliedDownward(c: Config, w: World, s: State, cmd: Command, active: seq<Id>, now: int)
    requires Ok(s)
    ensures Downward(s, Applied(c, w, s, cmd, active, now))
  {
    hide ModeChanged, ParkRestarted, ModeSet, Downward;
    SameParkDownward(s, s);
    match cmd.action
    case SetAntMode(mode) =>
      if mode.Some? {
        ModeSetPoliced(s.pol, mode.value, now, active);
        ModeMoveDownward(c, w, s, ModeSet(s.pol, mode.value, now, active), now);
      }
    case ReparkAction =>
      if s.pol.s.mode != Normal {
        ParkRestartedOk(c, w, s.(pol := Reparked(s.pol)), now);
        NewLockDownward(s, ParkRestarted(c, w, s.(pol := Reparked(s.pol)), now));
      }
    case DismissAction => SameParkDownward(s, s.(pol := Dismissed(s.pol, active)));
    case OtherAction =>
  }

  lemma {:induction false} AppliedAllDownward(c: Config, w: World, s: State, cmds: seq<Command>, active: seq<Id>, now: int)
    requires Ok(s)
    ensures Downward(s, AppliedAll(c, w, s, cmds, active, now))
    decreases |cmds|
  {
    hide Applied, Ok, Moved, Downward;
    if cmds == [] {
      SameParkDownward(s, s);
    } else {
      var front := cmds[..|cmds| - 1];
      var mid := AppliedAll(c, w, s, front, active, now);
      AppliedAllOk(c, w, s, front, active, now);
      AppliedAllDownward(c, w, s, front, active, now);
      AppliedOk(c, w, mid, cmds[|cmds| - 1], active, now);
      AppliedDownward(c, w, mid, cmds[|cmds| - 1], active, now);
      DownwardOn(s, mid, Applied(c, w, mid, cmds[|cmds| - 1], active, now));
    }
  }

  lemma {:induction false} PreparedDownward(c: Config, w: World, e: Engine, ev: Event, now: int)
    requires Ok(e.s)
    ensures Ok(Prepared(c, w, e, ev, now).s) && Moved(e.s, Prepared(c, w, e, ev, now).s)
    ensures Downward(e.s, Prepared(c, w, e, ev, now).s)
  {
    hide Heard, ModeChanged, AppliedAll, Applied, Polled, Ok, Moved, Downward;
    StaysOk(e.s, now);
    SameParkDownward(e.s, e.s);
    match ev
    case Bus(m) =>
      HeardOk(c, e.s, m, now);
      SameParkDownward(e.s, Heard(c, e.s, m, now));
    case NinaResult(found) =>
      NinaPolledOk(c, w, e.s, found, now);
      var active := if found.Some? then Some(ActiveIds(found.value, now)) else None;
      PolledPoliced(c.policy, e.s.pol, now, active);
      ModeMoveDownward(c, w, e.s, Polled(c.policy, e.s.pol, now, active), now);
    case Tick =>
      var s := e.s.(park := e.s.park.(since := now),
                    supply := if e.s.supply.borrow.Some? then e.s.supply.(clock := now) else e.s.supply);
      assert Ok(s) && Moved(e.s, s) by { ClockedOk(e.s, s); ClockedMoved(e.s, s); }
      AppliedAllOk(c, w, s, e.boot.pending, ActiveIds(e.warnings, now), now);
      AppliedAllDownward(c, w, s, e.boot.pending, ActiveIds(e.warnings, now), now);
      SameParkDownward(e.s, s);
      var t := AppliedAll(c, w, s, e.boot.pending, ActiveIds(e.warnings, now), now);
      MovedOn(e.s, s, t);
      DownwardOn(e.s, s, t);
    case Cmd(cmd) =>
      AppliedOk(c, w, e.s, cmd, ActiveIds(e.warnings, now), now);
      AppliedDownward(c, w, e.s, cmd, ActiveIds(e.warnings, now), now);
    case _ =>
  }

  lemma {:induction false} ClockedMoved(s: State, t: State)
    requires Ok(s) && t.pol == s.pol && t.park == s.park.(since := t.park.since)
    ensures Moved(s, t)
  {}

  lemma {:induction false} SteppedDownward(c: Config, w: World, e: Engine, now: int)
    requires c.Valid() && Ok(e.s)
    ensures Downward(e.s, SteppedAndSaved(c, w, e, now).s) && Moved(e.s, SteppedAndSaved(c, w, e, now).s)
  {
    hide AutoEntered, LateBorrowed, LockStepped, BorrowStepped, Persisted, PresenceTracked, TxNoted, Ok, Moved, Downward, Evaluated, PresenceNow, ModeChanged;
    var active := ActiveIds(e.warnings, now);
    var a := PresenceTracked(TxNoted(e.s, now), now);
    TrackedOk(e.s, now);
    TrackedMoved(e.s, a);
    SameParkDownward(e.s, a);
    AutoEnteredOk(c, w, a, active, now);
    var b := AutoEntered(c, w, a, active, now);
    EntryDownward(c, w, a, active, now);
    DownwardOn(e.s, a, b);
    MovedOn(e.s, a, b);
    LateBorrowedOk(c, w, b, now);
    LateBorrowDownward(c, w, b, now);
    var d := LateBorrowed(c, w, b, now);
    DownwardOn(e.s, b, d);
    MovedOn(e.s, b, d);
    var f := if d.park.lock.Some? then LockStepped(c, w, d, e.wind, now) else d;
    if d.park.lock.Some? {
      LockSteppedOk(c, w, d, e.wind, now);
      GrownMoved(d, f);
      LockStepDownward(c, w, d, e.wind, now);
    } else {
      StaysOk(d, now);
      SameParkDownward(d, d);
    }
    DownwardOn(e.s, d, f);
    MovedOn(e.s, d, f);
    var g := BorrowStepped(c, w, f, now);
    BorrowSteppedOk(c, w, f, now);
    BorrowStepKeepsSeq(c, w, f, now);
    SameParkDownward(f, g);
    GrownMoved(f, g);
    DownwardOn(e.s, f, g);
    MovedOn(e.s, f, g);
    var h := Persisted(w, g);
    PersistedOk(w, g);
    SameParkDownward(g, h);
    GrownMoved(g, h);
    DownwardOn(e.s, g, h);
    MovedOn(e.s, g, h);
  }

  lemma {:induction false} TrackedMoved(s: State, t: State)
    requires Ok(s) && t == s.(watch := t.watch)
    ensures Moved(s, t)
  {}

  lemma {:induction false} GrownMoved(s: State, t: State)
    requires t.pol == s.pol && (Grown(s, t) || t.park == s.park)
    ensures Moved(s, t)
  {}

  lemma {:induction false} EntryDownward(c: Config, w: World, s: State, active: seq<Id>, now: int)
    requires Ok(s)
    ensures Downward(s, AutoEntered(c, w, s, active, now))
  {}

  /** In every run: while a sequence number lasts, each event that changes the phase either takes that number's one
      borrow or lowers the phase's rank. So the phases of one number cannot cycle. */
  lemma {:induction false} PhasesCannotCycle(c: Config, w: World, start: Engine, run: seq<Timed>, i: nat)
    requires WellFounded(c, start, run) && i < |run| && !Adopts(After(c, w, start, run, i), run[i].event)
    ensures Downward(After(c, w, start, run, i).s, After(c, w, start, run, i + 1).s)
  {
    hide After, Ok, WellFounded, Steps, SteppedAndSaved, Prepared, Downward, Moved;
    var e, ev, now := After(c, w, start, run, i), run[i].event, run[i].at;
    LockAlwaysOk(c, w, start, run, i);
    StepIs(c, w, start, run, i);
    StepFactors(c, w, e, ev, now);
    var p := Prepared(c, w, e, ev, now);
    PreparedDownward(c, w, e, ev, now);
    if Steps(e, ev, now) {
      PreparedOk(c, w, start, run, i);
      SteppedDownward(c, w, p, now);
      DownwardOn(e.s, p.s, After(c, w, start, run, i + 1).s);
    } else {
      UnsteppedPark(c, w, e, ev, now);
      SameParkDownward(e.s, After(c, w, start, run, i + 1).s);
    }
  }

  lemma {:induction false} UnsteppedPark(c: Config, w: World, e: Engine, ev: Event, now: int)
    requires !Steps(e, ev, now) && !Adopts(e, ev)
    ensures var t := Step(c, w, e, ev, now).s;
      && t.park == e.s.park.(parkSeen := t.park.parkSeen) && t.supply == e.s.supply && t.journal == e.s.journal
  {
    hide SteppedAndSaved;
    if ev.Bus? { HeardKeeps(c, e.s, ev.message, now); }
    if ev.OwnState? { UnadoptedKeeps(c, w, e, ev, now); }
  }

  function Measure(s: State): nat { (if BorrowLeft(s) then 7 else 0) + Rank(s.park.phase) }

  /** How many events in [i, j) change the phase. */
  function PhaseChanges(c: Config, w: World, start: Engine, run: seq<Timed>, i: nat, j: nat): nat
    requires i <= j <= |run|
    decreases j
  {
    if i == j then 0
    else PhaseChanges(c, w, start, run, i, j - 1)
         + if After(c, w, start, run, j).s.park.phase != After(c, w, start, run, j - 1).s.park.phase then 1 else 0
  }

  /** One sequence number sees at most thirteen phase changes, however long it lasts. */
  lemma {:induction false} FewPhaseChanges(c: Config, w: World, start: Engine, run: seq<Timed>, i: nat, j: nat)
    requires WellFounded(c, start, run) && i <= j <= |run|
    requires forall k :: i <= k < j ==> !Adopts(After(c, w, start, run, k), run[k].event)
    requires forall k :: i <= k <= j ==> SameLock(After(c, w, start, run, i).s, After(c, w, start, run, k).s)
    ensures PhaseChanges(c, w, start, run, i, j) + Measure(After(c, w, start, run, j).s) <= Measure(After(c, w, start, run, i).s) <= 13
    decreases j
  {
    hide After, WellFounded;
    if i < j {
      FewPhaseChanges(c, w, start, run, i, j - 1);
      PhasesCannotCycle(c, w, start, run, j - 1);
    }
  }
}
