/** Exactly when a pass keeps a closed relay closed with the Ultrabeam in circuit: both motion windows told by the
    history of commands and reports alone. */
module ArmStay {
  import opened Options
  import opened ArmBands
  import opened ArmModel
  import opened ArmClock
  import opened ArmMotion
  import opened ArmRelay

  // ---------------------------------------------------------------- what opens a settle window

  predicate CtrlReport(run: seq<Timed>, m: nat)
    requires m < |run|
  { run[m].ev.CtrlState? && run[m].ev.ctrl.Some? }

  /** The switch report that brings the Ultrabeam into circuit. */
  predicate PortEntry(run: seq<Timed>, m: nat)
    requires m < |run|
  { run[m].ev.SwitchState? && run[m].ev.switch.Some? && EntersUltrabeam(TrueAfter(run, m), run[m].ev.switch.value) }

  /** A report at rest with another frequency or direction, and no motion reported before it. */
  predicate SilentChange(run: seq<Timed>, m: nat)
    requires m < |run|
  {
    CtrlReport(run, m) && !StopReport(run, m) && !MovingReport(run, m) && IsChange(TrueAfter(run, m), run[m].ev.ctrl.value)
  }

  /** No commanded motion is outstanding: none was commanded before m, or the last one has been reported moving. */
  ghost predicate MoveSeen(run: seq<Timed>, m: nat)
    requires m <= |run|
  { LastCommand(run, m) == 0 || MoveReported(run, LastCommand(run, m) - 1, m) }

  /** A stop report that ends the move it should: it replaces whatever settle was running. */
  ghost predicate SeenStop(run: seq<Timed>, m: nat)
    requires m < |run|
  { StopReport(run, m) && MoveSeen(run, m) }

  /** How long a settle window event m opens; 0 for none. */
  function Opens(run: seq<Timed>, m: nat): nat
    requires m < |run|
  {
    if MotionCommand(run, m) || PortEntry(run, m) || SilentChange(run, m) then ULTRABEAM_SETTLE_MS
    else if StopReport(run, m) then ULTRABEAM_STOP_SETTLE_MS
    else 0
  }

  /** The window event m opens has not been replaced by an observed stop before event i. */
  ghost predicate Stands(run: seq<Timed>, m: nat, i: nat)
    requires i <= |run|
  {
    m < i && Opens(run, m) > 0 && forall k: nat :: m < k < i ==> !SeenStop(run, k)
  }

  /** And it is still open at event i. */
  ghost predicate StillSettling(run: seq<Timed>, m: nat, i: nat)
    requires i < |run|
  { Stands(run, m, i) && run[i].at < run[m].at + Opens(run, m) }

  // ---------------------------------------------------------------- the settle window is that history

  /** The record's deadline is the latest of the windows that stand. */
  ghost predicate SettleTrue(run: seq<Timed>, i: nat, m: Motion)
    requires i <= |run|
  {
    && (m.settleValid ==> exists k: nat :: Stands(run, k, i) && SettleDeadline(m) == run[k].at + Opens(run, k))
    && (forall k: nat :: Stands(run, k, i) ==> m.settleValid && SettleDeadline(m) >= run[k].at + Opens(run, k))
  }

  lemma {:induction false} MoveSeenMeans(run: seq<Timed>, i: nat)
    requires i <= |run|
    ensures TrueAfter(run, i).mv.moveSeen <==> MoveSeen(run, i)
  {
    if LastCommand(run, i) > 0 { BlindAlwaysTrue(run, i); } else { SeenFromStart(run, i); }
  }

  lemma {:induction false} SeenFromStart(run: seq<Timed>, i: nat)
    requires i <= |run| && LastCommand(run, i) == 0
    ensures TrueAfter(run, i).mv.moveSeen
  {
    if i > 0 {
      hide TrueFeeds, CausesMotion, IsStop;
      SeenFromStart(run, i - 1);
      BlindStep(TrueAfter(run, i - 1), run[i - 1].ev, run[i - 1].at);
    }
  }

  /** What one event does to the settle window. */
  lemma {:induction false} SettleStep(u: Feeds, ev: Event, t: nat)
    requires SettleSane(u.mv, t)
    ensures var m := u.mv; var n := TrueFeeds(u, ev, t).mv;
      match ev
      case CtrlCmd(cmd) =>
        if cmd.Some? && CausesMotion(u, cmd.value) then Extended(m, n, t + ULTRABEAM_SETTLE_MS) else SameSettle(m, n)
      case SwitchState(doc) =>
        if doc.Some? && EntersUltrabeam(u, doc.value) then Extended(m, n, t + ULTRABEAM_SETTLE_MS) else SameSettle(m, n)
      case CtrlState(doc) =>
        if doc.None? then SameSettle(m, n)
        else if IsStop(u, doc.value) then
          if m.moveSeen then n.settleValid && SettleDeadline(n) == t + ULTRABEAM_STOP_SETTLE_MS
          else Extended(m, n, t + ULTRABEAM_STOP_SETTLE_MS)
        else if IsChange(u, doc.value) && !Moving(doc.value) then Extended(m, n, t + ULTRABEAM_SETTLE_MS)
        else SameSettle(m, n)
      case _ => SameSettle(m, n)
  {
    hide BandForFreq, RadioAfter, BandNoted, CausesMotion, IsChange, CtrlAfter;
  }

  predicate SameSettle(m: Motion, n: Motion) { n.settleValid == m.settleValid && SettleDeadline(n) == SettleDeadline(m) }

  predicate Extended(m: Motion, n: Motion, d: nat) {
    n.settleValid && SettleDeadline(n) == if m.settleValid && SettleDeadline(m) > d then SettleDeadline(m) else d
  }

  /** The same, in the terms of the history. */
  lemma {:induction false} EventSettles(run: seq<Timed>, i: nat)
    requires Ordered(run) && i < |run|
    ensures var m := TrueAfter(run, i).mv; var n := TrueAfter(run, i + 1).mv; var d := Opens(run, i);
      && (d == 0 ==> SameSettle(m, n))
      && (SeenStop(run, i) ==> d > 0 && n.settleValid && SettleDeadline(n) == run[i].at + d)
      && (d > 0 && !SeenStop(run, i) ==> Extended(m, n, run[i].at + d))
  {
    hide TrueFeeds, IsStop, CausesMotion, EntersUltrabeam, IsChange, Moving, SettleSane, MoveSeen;
    var u, t := TrueAfter(run, i), run[i].at;
    SettleStaysSane(run, i, t);
    SettleStep(u, run[i].ev, t);
    MoveSeenMeans(run, i);
    assert TrueAfter(run, i + 1) == TrueFeeds(u, run[i].ev, t);
  }

  lemma {:induction false} SettleAlwaysTrue(run: seq<Timed>, i: nat)
    requires Ordered(run) && i <= |run|
    ensures SettleTrue(run, i, TrueAfter(run, i).mv)
  {
    hide SettleTrue, TrueAfter, Opens, SeenStop, SameSettle, Extended;
    NoSettleAtStart(run);
    if i > 0 {
      SettleAlwaysTrue(run, i - 1);
      EventSettles(run, i - 1);
      SettleCarried(run, i, TrueAfter(run, i - 1).mv, TrueAfter(run, i).mv);
    }
  }

  lemma {:induction false} NoSettleAtStart(run: seq<Timed>)
    ensures SettleTrue(run, 0, TrueAfter(run, 0).mv)
  {}

  lemma {:induction false} SettleCarried(run: seq<Timed>, i: nat, m: Motion, n: Motion)
    requires Ordered(run) && 0 < i <= |run| && SettleTrue(run, i - 1, m)
    requires var d := Opens(run, i - 1);
      && (d == 0 ==> SameSettle(m, n))
      && (SeenStop(run, i - 1) ==> d > 0 && n.settleValid && SettleDeadline(n) == run[i - 1].at + d)
      && (d > 0 && !SeenStop(run, i - 1) ==> Extended(m, n, run[i - 1].at + d))
    ensures SettleTrue(run, i, n)
  {
    hide Opens, SeenStop;
    var last := i - 1;
    if Opens(run, last) > 0 { assert Stands(run, last, i); }
    if !SeenStop(run, last) && m.settleValid {
      var k: nat :| Stands(run, k, last) && SettleDeadline(m) == run[k].at + Opens(run, k);
      assert Stands(run, k, i);
    }
    forall k: nat | Stands(run, k, i)
      ensures n.settleValid && SettleDeadline(n) >= run[k].at + Opens(run, k)
    {
      if k < last {
        assert !SeenStop(run, last);
        assert Stands(run, k, last);
      }
    }
  }

  /** In every run, at every pass: the 32-bit firmware judges the settle window open exactly when some event opened one
      that is still running in true time and no observed stop has replaced it. */
  lemma {:induction false} SettleGateExactly(run: seq<Timed>, i: nat)
    requires PassesKeepComing(run) && i < |run| && run[i].ev.Pass?
    ensures SettleOpen(Wrapping, PassFeeds(Wrapping, run, i).mv, Low(run[i].at)) <==> exists m: nat :: StillSettling(run, m, i)
  {
    hide StillSettling, SettleOpen, SameInputs, PassFeeds, TrueAfter, After;
    WindowsExact(run, i);
    SettleInTrueTime(run, i);
  }

  lemma {:induction false} SettleInTrueTime(run: seq<Timed>, i: nat)
    requires Ordered(run) && i < |run|
    ensures SettleOpen(Unbounded, TrueAfter(run, i).mv, run[i].at) <==> exists m: nat :: StillSettling(run, m, i)
  {
    hide TrueAfter, Opens, SeenStop;
    SettleAlwaysTrue(run, i);
    SettleStaysSane(run, i, run[i].at);
    var m := TrueAfter(run, i).mv;
    if SettleOpen(Unbounded, m, run[i].at) {
      var k: nat :| Stands(run, k, i) && SettleDeadline(m) == run[k].at + Opens(run, k);
      assert StillSettling(run, k, i);
    }
  }

  // ---------------------------------------------------------------- the relay

  /** The hazards that are not the commanded motion. */
  predicate OthersSafe(u: Feeds, t: nat) {
    && !RadioHazard(Unbounded, u, t) && !SwitchHazard(u) && !BeamRetracted(u)
    && !(BeamUp(u) && (u.ub.moving || OffFrequency(u))) && !PaFault(u) && !TunerTuning(u)
  }

  /** The readiness gates that are not the settle window. */
  predicate OthersReady(u: Feeds, t: nat) {
    !SwitchOffline(u) && BeamUp(u) && !PaOffline(u) && !EdgeOpen(Unbounded, u.edge, t) && !NotConverged(u)
  }

  /** In every run: a pass with the beam in circuit keeps a closed relay closed exactly when permit is on, no fault is
      latched and no drop confirmed; every motion commanded in the last 2500 ms has been seen through; the amplifier is
      keyed, or no settle window is running and the other readiness gates are clear; and the other hazards are clear. */
  lemma {:induction false} StaysClosedExactly(run: seq<Timed>, i: nat)
    requires PassesKeepComing(run) && i < |run| && run[i].ev.Pass? && BeamInCircuit(run, i)
    requires After(Wrapping, run, i).d.cmd
    ensures var u := TrueAfter(run, i); var t := run[i].at;
      After(Wrapping, run, i + 1).d.cmd <==>
        && run[i].ev.enabled && !After(Wrapping, run, i).d.fault && !DropConfirmed(run, i)
        && (forall j: nat :: !StillBlind(run, j, i))
        && (Keyed(u) || ((forall m: nat :: !StillSettling(run, m, i)) && OthersReady(u, t)))
        && OthersSafe(u, t)
  {
    hide StillBlind, StillSettling, After, TrueAfter, PassFeeds, Hazard, Unready, OthersSafe, OthersReady, Evaluation, SameInputs;
    var u, t, d := TrueAfter(run, i), run[i].at, After(Wrapping, run, i).d;
    WindowsExact(run, i);
    GatesExact(run, i);
    KeptWhen(run, i);
    BlindInTrueTime(run, i);
    SettleInTrueTime(run, i);
    GatesSplit(u, d.fault, t);
    EvaluationIs(u, d.fault, t);
    KeyedAlike(PassFeeds(Wrapping, run, i), u);
  }

  lemma {:induction false} EvaluationIs(u: Feeds, fault: bool, t: nat)
    ensures Evaluation(Unbounded, u, fault, t).hazard == Hazard(Unbounded, u, fault, t)
    ensures Evaluation(Unbounded, u, fault, t).ready == Unready(Unbounded, u, t)
  {}

  lemma {:induction false} KeyedAlike(w: Feeds, u: Feeds)
    requires SameInputs(w, u)
    ensures Keyed(w) == Keyed(u)
  {}

  lemma {:induction false} KeptWhen(run: seq<Timed>, i: nat)
    requires i < |run| && run[i].ev.Pass? && After(Wrapping, run, i).d.cmd
    ensures var e := PassEval(Wrapping, run, i);
      After(Wrapping, run, i + 1).d.cmd <==>
        && run[i].ev.enabled && !After(Wrapping, run, i).d.fault && !DropConfirmed(run, i)
        && !(e.hazard || (e.ready && !Keyed(PassFeeds(Wrapping, run, i))))
  {
    hide After, PassFeeds, PassEval, Verified, DropsInARow;
    CountersAlwaysMatch(run, i);
    DrivenWhen(run, i);
    PassDrive(run, i);
    KeptByReadback(DrivenAt(run, i), run[i].ev.rb, run[i].ev.rb2);
  }

  /** The drive alone. */
  lemma {:induction false} DrivenWhen(run: seq<Timed>, i: nat)
    requires i < |run| && run[i].ev.Pass? && After(Wrapping, run, i).d.cmd
    ensures var e := PassEval(Wrapping, run, i);
      DrivenAt(run, i).cmd <==>
        && run[i].ev.enabled && !After(Wrapping, run, i).d.fault
        && !(e.hazard || (e.ready && !Keyed(PassFeeds(Wrapping, run, i))))
    ensures DrivenAt(run, i).dropPending == After(Wrapping, run, i).d.dropPending
  {
    hide After, PassFeeds, PassEval, Hazard, Unready, Faulty, DwellBlocked, StepFeeds;
  }

  lemma {:induction false} KeptByReadback(d: Drive, rb: bool, rb2: bool)
    ensures Verified(d, rb, rb2).cmd <==> d.cmd && (rb || d.dropPending + 1 < RELAY_DROP_CONFIRM)
  {}

  lemma {:induction false} GatesSplit(u: Feeds, fault: bool, t: nat)
    requires InCircuit(u)
    ensures Hazard(Unbounded, u, fault, t) <==> (fault || BlindOpen(Unbounded, u.mv, t) || !OthersSafe(u, t))
    ensures Unready(Unbounded, u, t) <==> (SettleOpen(Unbounded, u.mv, t) || !OthersReady(u, t))
  {
    hide BlindOpen, SettleOpen, OffFrequency, RadioHazard, PaOffline, NotConverged;
  }
}
