/** The Ultrabeam in motion: when the relay may stay closed, and when it may close again, after a
    command that drives the elements. */
module ArmMotion {
  import opened Options
  import opened ArmBands
  import opened ArmModel
  import opened ArmClock
  import opened ArmDwell
  import opened ArmClosed

  /** Event j is a command that makes the controller move the elements. */
  predicate MotionCommand(run: seq<Timed>, j: nat)
    requires j < |run|
  { run[j].ev.CtrlCmd? && run[j].ev.cmd.Some? && CausesMotion(TrueAfter(run, j), run[j].ev.cmd.value) }

  predicate MovingReport(run: seq<Timed>, m: nat)
    requires m < |run|
  { run[m].ev.CtrlState? && run[m].ev.ctrl.Some? && Moving(run[m].ev.ctrl.value) }

  predicate StopReport(run: seq<Timed>, m: nat)
    requires m < |run|
  { run[m].ev.CtrlState? && run[m].ev.ctrl.Some? && IsStop(TrueAfter(run, m), run[m].ev.ctrl.value) }

  /** Between j and i the motion was reported and then, at m2, its stop. */
  ghost predicate StopObserved(run: seq<Timed>, j: nat, m2: nat, i: nat)
    requires i <= |run|
  {
    j < m2 < i && StopReport(run, m2) && exists m1: nat :: j < m1 < m2 && MovingReport(run, m1)
  }

  ghost predicate SomeStopObserved(run: seq<Timed>, j: nat, i: nat)
    requires i <= |run|
  { exists m2: nat :: StopObserved(run, j, m2, i) }

  function SettleDeadline(m: Motion): nat { m.settleMs + m.settleDurMs }

  /** A stop settle is the short one, and no settle started in the future. */
  predicate SettleSane(m: Motion, t: nat) {
    m.settleMs <= t && (m.stopSettle ==> m.settleDurMs <= ULTRABEAM_STOP_SETTLE_MS)
  }

  /** A trigger that is not an observed stop never moves the settle deadline earlier. */
  lemma BlindTriggerNeverShortens(m: Motion, t: nat, dur: nat)
    requires SettleSane(m, t) && ULTRABEAM_STOP_SETTLE_MS <= dur
    ensures var m' := StartSettle(Unbounded, m, t, dur, false);
      && m'.settleValid && SettleDeadline(m') >= t + dur && (m.settleValid ==> SettleDeadline(m') >= SettleDeadline(m))
      && !m'.stopSettle && SettleSane(m', t)
  {}

  lemma {:induction false} SettleStaysSane(run: seq<Timed>, i: nat, t: nat)
    requires Ordered(run) && i <= |run| && LastEvent(run, i) <= t
    ensures SettleSane(TrueAfter(run, i).mv, t)
  {
    if i > 0 {
      hide BandForFreq, OnRadioState, StartSettle, AfterReport, IsStop, IsChange, CausesMotion, SettleSane;
      SettleStaysSane(run, i - 1, run[i - 1].at);
      MotionStepSane(TrueAfter(run, i - 1), run[i - 1].ev, run[i - 1].at);
      SaneLater(TrueAfter(run, i).mv, run[i - 1].at, t);
    } else {
      SaneLater(INIT_FEEDS.mv, 0, t);
    }
  }

  lemma SaneLater(m: Motion, t: nat, t': nat)
    requires SettleSane(m, t) && t <= t'
    ensures SettleSane(m, t')
  {}

  lemma {:induction false} MotionStepSane(u: Feeds, ev: Event, t: nat)
    requires SettleSane(u.mv, t)
    ensures SettleSane(TrueFeeds(u, ev, t).mv, t)
  {
    hide BandForFreq, RadioAfter, BandNoted, IsStop, IsChange, CausesMotion, CtrlAfter;
  }

  /** What stands at i after a motion command at j (all in true time):
      - the move counts as seen only if it was reported moving since;
      - until a stop is observed, the blind window runs from j or later and the settle deadline is at
        least 3000 ms after j;
      - every observed stop holds the settle deadline at least 250 ms beyond it. */
  ghost predicate MoveTracked(run: seq<Timed>, j: nat, i: nat)
    requires j < i <= |run|
  {
    var m := TrueAfter(run, i).mv;
    && m.settleValid
    && (m.moveSeen ==> exists m1: nat :: j < m1 < i && MovingReport(run, m1))
    && (!SomeStopObserved(run, j, i) ==>
          m.cmdValid && m.cmdMs >= run[j].at && SettleDeadline(m) >= run[j].at + ULTRABEAM_SETTLE_MS)
    && (forall m2: nat :: StopObserved(run, j, m2, i) ==> SettleDeadline(m) >= run[m2].at + ULTRABEAM_STOP_SETTLE_MS)
  }

  lemma {:induction false} MoveIsTracked(run: seq<Timed>, j: nat, i: nat)
    requires Ordered(run) && j < i <= |run| && MotionCommand(run, j)
    ensures MoveTracked(run, j, i)
  {
    hide MoveTracked, SettleSane, StopReport, MotionCommand;
    if i == j + 1 {
      CommandTracked(run, j);
    } else {
      MoveIsTracked(run, j, i - 1);
      SettleStaysSane(run, i - 1, run[i - 1].at);
      if StopReport(run, i - 1) {
        StopTracked(run, j, i - 1);
      } else {
        OtherTracked(run, j, i - 1);
      }
    }
  }

  lemma {:induction false} CommandTracked(run: seq<Timed>, j: nat)
    requires Ordered(run) && j < |run| && MotionCommand(run, j)
    ensures MoveTracked(run, j, j + 1)
  {
    hide CausesMotion, StartSettle;
    SettleStaysSane(run, j, run[j].at);
    var u, a, t := TrueAfter(run, j), run[j].ev.cmd.value, run[j].at;
    var m := u.mv.(retracted := a.Retract?, cmdValid := true, cmdMs := t, moveSeen := false);
    BlindTriggerNeverShortens(m, t, ULTRABEAM_SETTLE_MS);
    SettleKeepsRest(m, t, ULTRABEAM_SETTLE_MS, false);
  }

  lemma SettleKeepsRest(m: Motion, t: nat, dur: nat, afterStop: bool)
    ensures var m' := StartSettle(Unbounded, m, t, dur, afterStop);
      m'.cmdValid == m.cmdValid && m'.cmdMs == m.cmdMs && m'.moveSeen == m.moveSeen
  {}

  /** Any event but a stop report: nothing becomes earlier. */
  lemma {:induction false} OtherStep(u: Feeds, ev: Event, t: nat)
    requires SettleSane(u.mv, t)
    requires !(ev.CtrlState? && ev.ctrl.Some? && IsStop(u, ev.ctrl.value))
    ensures var m, m' := u.mv, TrueFeeds(u, ev, t).mv;
      && (m.settleValid ==> m'.settleValid && SettleDeadline(m') >= SettleDeadline(m))
      && (m'.moveSeen ==> m.moveSeen || (ev.CtrlState? && ev.ctrl.Some? && Moving(ev.ctrl.value)))
      && (m.cmdValid ==> m'.cmdValid) && (m'.cmdMs == m.cmdMs || m'.cmdMs == t)
  {
    hide BandForFreq, RadioAfter, BandNoted, CausesMotion, IsChange, CtrlAfter;
  }

  lemma {:induction false} OtherTracked(run: seq<Timed>, j: nat, i: nat)
    requires Ordered(run) && j < i < |run| && MoveTracked(run, j, i)
    requires SettleSane(TrueAfter(run, i).mv, run[i].at) && !StopReport(run, i)
    ensures MoveTracked(run, j, i + 1)
  {
    hide TrueFeeds, IsStop, SettleSane;
    var u, t := TrueAfter(run, i), run[i].at;
    var m, m' := u.mv, TrueFeeds(u, run[i].ev, t).mv;
    assert TrueAfter(run, i + 1) == TrueFeeds(u, run[i].ev, t);
    OtherStep(u, run[i].ev, t);
    forall m2: nat ensures StopObserved(run, j, m2, i) <==> StopObserved(run, j, m2, i + 1) {}
    if m'.moveSeen && !m.moveSeen { assert MovingReport(run, i); }
  }

  /** A stop report. If the move was seen it is an observed stop and sets the short settle; otherwise it
      ends an earlier move and leaves the command's own windows standing. */
  lemma {:induction false} StopStep(u: Feeds, doc: CtrlDoc, t: nat)
    requires SettleSane(u.mv, t) && IsStop(u, doc)
    ensures var m, m' := u.mv, TrueFeeds(u, CtrlState(Some(doc)), t).mv;
      && m'.settleValid && m'.moveSeen == m.moveSeen && SettleDeadline(m') >= t + ULTRABEAM_STOP_SETTLE_MS
      && (!m.moveSeen ==> (m.settleValid ==> SettleDeadline(m') >= SettleDeadline(m)) && m'.cmdValid == m.cmdValid && m'.cmdMs == m.cmdMs)
  {
    hide IsChange, CtrlAfter;
  }

  lemma {:induction false} StopTracked(run: seq<Timed>, j: nat, i: nat)
    requires Ordered(run) && j < i < |run| && MoveTracked(run, j, i)
    requires SettleSane(TrueAfter(run, i).mv, run[i].at) && StopReport(run, i)
    ensures MoveTracked(run, j, i + 1)
  {
    hide TrueFeeds, IsStop, SettleSane;
    var u, t, doc := TrueAfter(run, i), run[i].at, run[i].ev.ctrl.value;
    var m, m' := u.mv, TrueFeeds(u, run[i].ev, t).mv;
    assert TrueAfter(run, i + 1) == TrueFeeds(u, run[i].ev, t) && run[i].ev == CtrlState(Some(doc));
    StopStep(u, doc, t);
    if m.moveSeen {
      assert StopObserved(run, j, i, i + 1);
    }
    forall m2: nat | StopObserved(run, j, m2, i + 1)
      ensures SettleDeadline(m') >= run[m2].at + ULTRABEAM_STOP_SETTLE_MS
    {
      assert run[m2].at <= t;
    }
    forall m2: nat | StopObserved(run, j, m2, i) ensures StopObserved(run, j, m2, i + 1) {}
  }

  /** The beam is the antenna in circuit at pass i. */
  predicate BeamInCircuit(run: seq<Timed>, i: nat)
    requires i < |run|
  { InCircuit(TrueAfter(run, i)) }

  lemma {:induction false} HazardUnlessBlindOver(u: Feeds, relayFault: bool, t: nat)
    requires !Hazard(Unbounded, u, relayFault, t) && InCircuit(u)
    ensures !BlindOpen(Unbounded, u.mv, t)
  {
    hide BlindOpen, OffFrequency, RadioHazard;
  }

  lemma {:induction false} UnreadyUnlessSettled(u: Feeds, t: nat)
    requires !Unready(Unbounded, u, t) && InCircuit(u)
    ensures !SettleOpen(Unbounded, u.mv, t)
  {
    hide SettleOpen, PaOffline, NotConverged;
  }

  /** After a motion command at j, a pass with the beam in circuit leaves the relay closed only if a report of the motion
      and then of its stop came in between, or 2500 ms have gone by; and then only under drive, or 250 ms past every
      observed stop and, with none observed, 3000 ms past the command. In particular the next pass opens the relay unless
      the whole move was reported before it and the amplifier is keyed or the settle has run out. */
  lemma {:induction false} ClosedDuringMoveOnlyIfSeenThrough(run: seq<Timed>, j: nat, i: nat)
    requires PassesKeepComing(run) && j < i < |run| && MotionCommand(run, j)
    requires run[i].ev.Pass? && BeamInCircuit(run, i) && After(Wrapping, run, i + 1).d.cmd
    ensures SomeStopObserved(run, j, i) || run[i].at - run[j].at >= ULTRABEAM_CMD_BLIND_MS
    ensures Keyed(TrueAfter(run, i)) || SettledSince(run, j, i)
  {
    MoveIsTracked(run, j, i);
    ClosedMeansNoHazard(run, i);
    GatesExact(run, i);
    HazardUnlessBlindOver(TrueAfter(run, i), After(Wrapping, run, i).d.fault, run[i].at);
    WindowsExact(run, i);
    if !Keyed(TrueAfter(run, i)) {
      KeyedSame(PassFeeds(Wrapping, run, i), TrueAfter(run, i));
      UnreadyUnlessSettled(TrueAfter(run, i), run[i].at);
      SettleStaysSane(run, i, run[i].at);
    }
  }

  /** Every observed stop of the move at j is 250 ms old at event i, and with none observed the command 3000 ms. */
  ghost predicate SettledSince(run: seq<Timed>, j: nat, i: nat)
    requires j < i < |run|
  {
    && (SomeStopObserved(run, j, i) || run[i].at - run[j].at >= ULTRABEAM_SETTLE_MS)
    && (forall m2: nat :: StopObserved(run, j, m2, i) ==> run[i].at - run[m2].at >= ULTRABEAM_STOP_SETTLE_MS)
  }

  /** And it is energised again only 250 ms past every observed stop, or, with no stop observed, only
      once both the 2500 ms and the 3000 ms window from the command have ended. */
  lemma {:induction false} ClosesAgainOnlyAfterSettle(run: seq<Timed>, j: nat, i: nat)
    requires PassesKeepComing(run) && j < i < |run| && MotionCommand(run, j)
    requires BeamInCircuit(run, i) && Energises(run, i)
    ensures SettledSince(run, j, i)
  {
    EnergisedOnlyAfterDwell(run, i);
    MoveIsTracked(run, j, i);
    GatesExact(run, i);
    UnreadyUnlessSettled(TrueAfter(run, i), run[i].at);
    SettleStaysSane(run, i, run[i].at);
  }

  // ---------------------------------------------------------------- the blind gate, exactly

  /** One past the last motion command before event i; 0 if none. */
  function LastCommand(run: seq<Timed>, i: nat): (l: nat)
    requires i <= |run|
    ensures l <= i && (l > 0 ==> MotionCommand(run, l - 1))
  {
    if i == 0 then 0 else if MotionCommand(run, i - 1) then i else LastCommand(run, i - 1)
  }

  ghost predicate MoveReported(run: seq<Timed>, j: nat, i: nat)
    requires i <= |run|
  { exists m1: nat :: j < m1 < i && MovingReport(run, m1) }

  /** The blind window's record is the run's: it stands exactly from the last motion command until that motion has
      been seen through. */
  ghost predicate BlindTrue(run: seq<Timed>, l: nat, i: nat, m: Motion)
    requires l <= i <= |run|
  {
    && (l == 0 ==> !m.cmdValid)
    && (l > 0 ==>
          && m.cmdMs == run[l - 1].at
          && (m.moveSeen <==> MoveReported(run, l - 1, i))
          && (m.cmdValid <==> !SomeStopObserved(run, l - 1, i)))
  }

  lemma {:induction false} BlindStep(u: Feeds, ev: Event, t: nat)
    ensures var m := u.mv; var n := TrueFeeds(u, ev, t).mv;
      match ev
      case CtrlCmd(cmd) =>
        if cmd.Some? && CausesMotion(u, cmd.value) then n.cmdValid && n.cmdMs == t && !n.moveSeen
        else n.cmdValid == m.cmdValid && n.cmdMs == m.cmdMs && n.moveSeen == m.moveSeen
      case CtrlState(doc) =>
        && n.cmdMs == m.cmdMs
        && n.moveSeen == (m.moveSeen || (doc.Some? && Moving(doc.value)))
        && n.cmdValid == (m.cmdValid && !(doc.Some? && IsStop(u, doc.value) && n.moveSeen))
      case _ => n.cmdValid == m.cmdValid && n.cmdMs == m.cmdMs && n.moveSeen == m.moveSeen
  {
    hide BandForFreq, RadioAfter, BandNoted, CausesMotion, IsChange, CtrlAfter;
  }

  lemma {:induction false} BlindAlwaysTrue(run: seq<Timed>, i: nat)
    requires i <= |run|
    ensures BlindTrue(run, LastCommand(run, i), i, TrueAfter(run, i).mv)
  {
    if i > 0 {
      hide BlindTrue, TrueFeeds;
      BlindAlwaysTrue(run, i - 1);
      BlindNext(run, i);
    }
  }

  lemma {:induction false} BlindNext(run: seq<Timed>, i: nat)
    requires 0 < i <= |run| && BlindTrue(run, LastCommand(run, i - 1), i - 1, TrueAfter(run, i - 1).mv)
    ensures BlindTrue(run, LastCommand(run, i), i, TrueAfter(run, i).mv)
  {
    hide TrueFeeds, Moving, CausesMotion;
    var u, ev, l := TrueAfter(run, i - 1), run[i - 1].ev, LastCommand(run, i - 1);
    BlindStep(u, ev, run[i - 1].at);
    assert TrueAfter(run, i) == TrueFeeds(u, ev, run[i - 1].at);
    if !MotionCommand(run, i - 1) && l > 0 { BlindKept(run, l, i); }
  }

  /** What one event that is no motion command adds to the history since the last one. */
  lemma {:induction false} BlindKept(run: seq<Timed>, l: nat, i: nat)
    requires 0 < l < i <= |run|
    ensures MoveReported(run, l - 1, i) <==> (MoveReported(run, l - 1, i - 1) || MovingReport(run, i - 1))
    ensures SomeStopObserved(run, l - 1, i)
      <==> (SomeStopObserved(run, l - 1, i - 1) || (StopReport(run, i - 1) && MoveReported(run, l - 1, i - 1)))
  {
    hide MovingReport, StopReport;
    if MoveReported(run, l - 1, i - 1) {
      var m1: nat :| l - 1 < m1 < i - 1 && MovingReport(run, m1);
      assert l - 1 < m1 < i;
    }
    if SomeStopObserved(run, l - 1, i - 1) {
      var m2: nat :| StopObserved(run, l - 1, m2, i - 1);
      assert StopObserved(run, l - 1, m2, i);
    }
    if StopReport(run, i - 1) && MoveReported(run, l - 1, i - 1) { assert StopObserved(run, l - 1, i - 1, i); }
    if SomeStopObserved(run, l - 1, i) {
      var m2: nat :| StopObserved(run, l - 1, m2, i);
      if m2 < i - 1 { assert StopObserved(run, l - 1, m2, i - 1); }
    }
  }

  /** The command at j is recent and its motion has not been seen through. */
  ghost predicate StillBlind(run: seq<Timed>, j: nat, i: nat)
    requires i < |run|
  {
    j < i && MotionCommand(run, j) && run[i].at - run[j].at < ULTRABEAM_CMD_BLIND_MS && !SomeStopObserved(run, j, i)
  }

  /** In every run, at every pass: the 32-bit firmware judges the blind window open exactly when some motion command is
      less than 2500 true ms old and its motion has not been seen through. */
  lemma {:induction false} BlindGateExactly(run: seq<Timed>, i: nat)
    requires PassesKeepComing(run) && i < |run| && run[i].ev.Pass?
    ensures BlindOpen(Wrapping, PassFeeds(Wrapping, run, i).mv, Low(run[i].at)) <==> exists j: nat :: StillBlind(run, j, i)
  {
    hide StillBlind, BlindOpen, SameInputs, PassFeeds, TrueAfter, After;
    WindowsExact(run, i);
    BlindInTrueTime(run, i);
  }

  lemma {:induction false} BlindInTrueTime(run: seq<Timed>, i: nat)
    requires Ordered(run) && i < |run|
    ensures BlindOpen(Unbounded, TrueAfter(run, i).mv, run[i].at) <==> exists j: nat :: StillBlind(run, j, i)
  {
    hide TrueAfter, MotionCommand, SomeStopObserved, MoveReported;
    BlindAlwaysTrue(run, i);
    var l := LastCommand(run, i);
    if l > 0 && !SomeStopObserved(run, l - 1, i) && run[i].at - run[l - 1].at < ULTRABEAM_CMD_BLIND_MS {
      assert StillBlind(run, l - 1, i);
    }
    if j: nat :| StillBlind(run, j, i) {
      LastIsLatest(run, i, j);
      StopsCarry(run, j, l - 1, i);
    }
  }

  lemma {:induction false} StopsCarry(run: seq<Timed>, j: nat, k: nat, i: nat)
    requires j <= k && i <= |run|
    ensures SomeStopObserved(run, k, i) ==> SomeStopObserved(run, j, i)
  {
    if SomeStopObserved(run, k, i) {
      var m2: nat :| StopObserved(run, k, m2, i);
      assert StopObserved(run, j, m2, i);
    }
  }

  lemma {:induction false} LastIsLatest(run: seq<Timed>, i: nat, j: nat)
    requires j < i <= |run| && MotionCommand(run, j)
    ensures LastCommand(run, i) >= j + 1
  {
    if !MotionCommand(run, i - 1) { LastIsLatest(run, i - 1, j); }
  }
}
