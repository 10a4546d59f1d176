/** The wrapping 32-bit clock judges every timed window as true time would, provided the loop
    keeps passing: each pass closes lapsed windows for good, so no stamp ever gets old enough to
    come round again. */
module ArmClock {
  import opened Options
  import opened ArmBands
  import opened ArmModel

  /** Longest stretch without a pass that the claim allows: 2^32 ms less the longest window. */
  const MAX_GAP: nat := WRAP - RADIO_HEARTBEAT_MS

  /** What the millisecond counter shows at true time t. */
  function Low(t: nat): nat { Stamp(Wrapping, t) }

  /** True time of the last pass before event i; power-up counts as one. */
  function LastPass(run: seq<Timed>, i: nat): nat
    requires i <= |run|
    decreases i
  {
    if i == 0 then 0 else if run[i - 1].ev.Pass? then run[i - 1].at else LastPass(run, i - 1)
  }

  /** True time when the first i events are over. */
  function LastEvent(run: seq<Timed>, i: nat): nat
    requires i <= |run|
  { if i == 0 then 0 else run[i - 1].at }

  ghost predicate PassesKeepComing(run: seq<Timed>) {
    Ordered(run) && forall i :: 0 <= i < |run| ==> run[i].at <= LastPass(run, i) + MAX_GAP
  }

  lemma {:induction false} LastPassIsPast(run: seq<Timed>, i: nat)
    requires Ordered(run) && i < |run|
    ensures LastPass(run, i) <= run[i].at && LastEvent(run, i) <= run[i].at
  {
    if i > 0 { LastPassIsPast(run, i - 1); }
  }

  /** One window on both clocks: w wrapped, u unbounded, as of a pass at true time p. Still open on
      the wrapping clock: same start, not lapsed at p. Closed there but not in true time: lapsed by p. */
  predicate WindowsAgree(wValid: bool, wMs: nat, uValid: bool, uMs: nat, dur: nat, p: nat) {
    && (wValid ==> uValid && wMs == Low(uMs) && p < uMs + dur)
    && (!wValid && uValid ==> uMs + dur <= p)
  }

  /** A window judged at true time t, between pass p and the allowed gap after it. */
  lemma {:induction false} WindowJudgedRight(wValid: bool, wMs: nat, uValid: bool, uMs: nat, dur: nat, p: nat, t: nat)
    requires WindowsAgree(wValid, wMs, uValid, uMs, dur, p)
    requires p <= t <= p + MAX_GAP && dur <= RADIO_HEARTBEAT_MS
    requires uValid ==> uMs <= t
    ensures wValid ==> Elapsed(Wrapping, Low(t), wMs) == t - uMs
    ensures wValid && Elapsed(Wrapping, Low(t), wMs) < dur <==> uValid && Elapsed(Unbounded, t, uMs) < dur
  {
    if wValid { ModularDifference(t, uMs); }
  }

  lemma {:induction false} ModularDifference(t: nat, u: nat)
    requires u <= t < u + WRAP
    ensures (Low(t) - Low(u)) % WRAP == t - u
  {
    assert t == WRAP * (t / WRAP) + Low(t) && u == WRAP * (u / WRAP) + Low(u);
    var k := t / WRAP - u / WRAP;
    assert Low(t) - Low(u) == (t - u) - WRAP * k;
    assert 0 <= k <= 1;
  }

  predicate RadioAgrees(w: Radio, u: Radio, p: nat) {
    && SameRadio(w, u)
    && WindowsAgree(w.freshValid, w.freshMs, u.freshValid, u.freshMs, RADIO_HEARTBEAT_MS, p)
  }

  /** Equal but for the heartbeat window. */
  predicate SameRadio(w: Radio, u: Radio) {
    && w.statusOnline == u.statusOnline && w.stateSeen == u.stateSeen && w.deviceOnline == u.deviceOnline
    && w.tuning == u.tuning && w.rx == u.rx && w.freqHz == u.freqHz && w.band == u.band
    && w.lastTs == u.lastTs && w.msgsSinceSub == u.msgsSinceSub
  }

  predicate EdgeAgrees(w: BandMemory, u: BandMemory, p: nat) {
    && w.lastHamBand == u.lastHamBand
    && WindowsAgree(w.edgeValid, w.edgeMs, u.edgeValid, u.edgeMs, BAND_CHANGE_HOLDOFF_MS, p)
  }

  predicate MotionAgrees(w: Motion, u: Motion, p: nat) {
    && w.settleDurMs == u.settleDurMs <= ULTRABEAM_SETTLE_MS && w.stopSettle == u.stopSettle
    && w.moveSeen == u.moveSeen && w.retracted == u.retracted
    && WindowsAgree(w.cmdValid, w.cmdMs, u.cmdValid, u.cmdMs, ULTRABEAM_CMD_BLIND_MS, p)
    && WindowsAgree(w.settleValid, w.settleMs, u.settleValid, u.settleMs, u.settleDurMs, p)
  }

  predicate Agree(w: Feeds, u: Feeds, p: nat) {
    && w.antSw == u.antSw && w.ub == u.ub && w.antSel == u.antSel && w.pa == u.pa && w.tuner == u.tuner
    && RadioAgrees(w.radio, u.radio, p) && EdgeAgrees(w.edge, u.edge, p) && MotionAgrees(w.mv, u.mv, p)
  }

  /** No true-time stamp lies in the future. */
  predicate MotionPast(u: Motion, t: nat) { u.cmdMs <= t && u.settleMs <= t }
  predicate StampsPast(u: Feeds, t: nat) { MotionPast(u.mv, t) && u.edge.edgeMs <= t && u.radio.freshMs <= t }

  /** The four window judgements at true time t. */
  predicate SameJudgement(w: Feeds, u: Feeds, t: nat) {
    && BlindOpen(Wrapping, w.mv, Low(t)) == BlindOpen(Unbounded, u.mv, t)
    && SettleOpen(Wrapping, w.mv, Low(t)) == SettleOpen(Unbounded, u.mv, t)
    && EdgeOpen(Wrapping, w.edge, Low(t)) == EdgeOpen(Unbounded, u.edge, t)
    && BeatOpen(Wrapping, w.radio, Low(t)) == BeatOpen(Unbounded, u.radio, t)
  }

  /** Everything the gates look at, apart from the windows. */
  predicate SameInputs(w: Feeds, u: Feeds) {
    && w.antSw == u.antSw && w.ub == u.ub && w.antSel == u.antSel && w.pa == u.pa && w.tuner == u.tuner
    && SameRadio(w.radio, u.radio) && w.mv.retracted == u.mv.retracted
  }

  lemma {:induction false} MotionJudged(w: Motion, u: Motion, p: nat, t: nat)
    requires MotionAgrees(w, u, p) && p <= t <= p + MAX_GAP && MotionPast(u, t)
    ensures BlindOpen(Wrapping, w, Low(t)) == BlindOpen(Unbounded, u, t)
    ensures SettleOpen(Wrapping, w, Low(t)) == SettleOpen(Unbounded, u, t)
    ensures w.settleValid ==> Elapsed(Wrapping, Low(t), w.settleMs) == Elapsed(Unbounded, t, u.settleMs)
  {
    WindowJudgedRight(w.cmdValid, w.cmdMs, u.cmdValid, u.cmdMs, ULTRABEAM_CMD_BLIND_MS, p, t);
    WindowJudgedRight(w.settleValid, w.settleMs, u.settleValid, u.settleMs, u.settleDurMs, p, t);
  }

  lemma {:induction false} AgreeJudges(w: Feeds, u: Feeds, p: nat, t: nat)
    requires Agree(w, u, p) && p <= t <= p + MAX_GAP && StampsPast(u, t)
    ensures SameJudgement(w, u, t) && SameInputs(w, u)
  {
    MotionJudged(w.mv, u.mv, p, t);
    WindowJudgedRight(w.edge.edgeValid, w.edge.edgeMs, u.edge.edgeValid, u.edge.edgeMs, BAND_CHANGE_HOLDOFF_MS, p, t);
    WindowJudgedRight(w.radio.freshValid, w.radio.freshMs, u.radio.freshValid, u.radio.freshMs, RADIO_HEARTBEAT_MS, p, t);
  }

  /** Opening a settle window keeps the two clocks in agreement: both take the same branch. */
  lemma {:induction false} SettleAgrees(w: Motion, u: Motion, p: nat, t: nat, dur: nat, afterStop: bool)
    requires MotionAgrees(w, u, p) && p <= t <= p + MAX_GAP && MotionPast(u, t) && 0 < dur <= ULTRABEAM_SETTLE_MS
    ensures MotionAgrees(StartSettle(Wrapping, w, Low(t), dur, afterStop), StartSettle(Unbounded, u, t, dur, afterStop), p)
    ensures MotionPast(StartSettle(Unbounded, u, t, dur, afterStop), t)
  {
    MotionJudged(w, u, p, t);
  }

  lemma {:induction false} ReportAgrees(w: Motion, u: Motion, p: nat, t: nat, moving: bool, stopped: bool, changed: bool)
    requires MotionAgrees(w, u, p) && p <= t <= p + MAX_GAP && MotionPast(u, t)
    ensures MotionAgrees(AfterReport(Wrapping, w, moving, stopped, changed, Low(t)),
                         AfterReport(Unbounded, u, moving, stopped, changed, t), p)
    ensures MotionPast(AfterReport(Unbounded, u, moving, stopped, changed, t), t)
  {
    hide StartSettle;
    var w1, u1 := w.(moveSeen := w.moveSeen || moving), u.(moveSeen := u.moveSeen || moving);
    SettleAgrees(w1, u1, p, t, ULTRABEAM_STOP_SETTLE_MS, true);
    SettleAgrees(w1, u1, p, t, ULTRABEAM_STOP_SETTLE_MS, false);
    SettleAgrees(w1, u1, p, t, ULTRABEAM_SETTLE_MS, false);
  }

  lemma {:induction false} CtrlStateAgrees(w: Feeds, u: Feeds, p: nat, t: nat, doc: CtrlDoc)
    requires Agree(w, u, p) && p <= t <= p + MAX_GAP && StampsPast(u, t)
    ensures Agree(OnCtrlState(Wrapping, w, doc, Low(t)), OnCtrlState(Unbounded, u, doc, t), p)
    ensures StampsPast(OnCtrlState(Unbounded, u, doc, t), t)
  {
    hide AfterReport, RadioAgrees, EdgeAgrees, CtrlAfter;
    ReportAgrees(w.mv, u.mv, p, t, Moving(doc), IsStop(u, doc), IsChange(u, doc));
    var w2 := AfterReport(Wrapping, w.mv, Moving(doc), IsStop(u, doc), IsChange(u, doc), Low(t));
    var u2 := AfterReport(Unbounded, u.mv, Moving(doc), IsStop(u, doc), IsChange(u, doc), t);
    MotionJudged(w2, u2, p, t);
  }

  lemma {:induction false} CmdAgrees(w: Feeds, u: Feeds, p: nat, t: nat, a: CtrlAction)
    requires Agree(w, u, p) && p <= t <= p + MAX_GAP && StampsPast(u, t)
    ensures Agree(OnCtrlCmd(Wrapping, w, a, Low(t)), OnCtrlCmd(Unbounded, u, a, t), p)
    ensures StampsPast(OnCtrlCmd(Unbounded, u, a, t), t)
  {
    hide StartSettle, RadioAgrees, EdgeAgrees;
    var w1 := w.mv.(retracted := a.Retract?, cmdValid := true, cmdMs := Low(t), moveSeen := false);
    var u1 := u.mv.(retracted := a.Retract?, cmdValid := true, cmdMs := t, moveSeen := false);
    SettleAgrees(w1, u1, p, t, ULTRABEAM_SETTLE_MS, false);
  }

  lemma {:induction false} SwitchAgrees(w: Feeds, u: Feeds, p: nat, t: nat, doc: SwitchDoc)
    requires Agree(w, u, p) && p <= t <= p + MAX_GAP && StampsPast(u, t)
    ensures Agree(OnSwitchState(Wrapping, w, doc, Low(t)), OnSwitchState(Unbounded, u, doc, t), p)
    ensures StampsPast(OnSwitchState(Unbounded, u, doc, t), t)
  {
    hide StartSettle, RadioAgrees, EdgeAgrees;
    SettleAgrees(w.mv, u.mv, p, t, ULTRABEAM_SETTLE_MS, false);
  }

  lemma BandAgrees(w: BandMemory, u: BandMemory, p: nat, t: nat, nb: Band)
    requires EdgeAgrees(w, u, p) && p <= t && u.edgeMs <= t
    ensures EdgeAgrees(BandNoted(w, nb, Low(t)), BandNoted(u, nb, t), p) && BandNoted(u, nb, t).edgeMs <= t
  {}

  lemma BeatAgrees(w: Radio, u: Radio, p: nat, t: nat, doc: RadioDoc, nb: Band)
    requires RadioAgrees(w, u, p) && p <= t && u.freshMs <= t
    ensures RadioAgrees(RadioAfter(w, doc, nb, Low(t)), RadioAfter(u, doc, nb, t), p)
    ensures w.band == u.band && RadioAfter(u, doc, nb, t).freshMs <= t
  {}

  lemma {:induction false} RadioStateAgrees(w: Feeds, u: Feeds, p: nat, t: nat, doc: RadioDoc)
    requires Agree(w, u, p) && p <= t && StampsPast(u, t)
    ensures Agree(OnRadioState(w, doc, Low(t)), OnRadioState(u, doc, t), p)
    ensures StampsPast(OnRadioState(u, doc, t), t)
  {
    hide BandForFreq, RadioAfter, BandNoted, MotionAgrees, RadioAgrees, EdgeAgrees;
    var nb := BandForFreq(doc.freqHz.GetOr(0), u.radio.band);
    BandAgrees(w.edge, u.edge, p, t, nb);
    BeatAgrees(w.radio, u.radio, p, t, doc, nb);
  }

  lemma {:induction false} PassAgrees(w: Feeds, u: Feeds, p: nat, t: nat)
    requires Agree(w, u, p) && p <= t <= p + MAX_GAP && StampsPast(u, t)
    ensures Agree(Expired(Wrapping, w, Low(t)), u, t)
  {
    AgreeJudges(w, u, p, t);
  }

  /** Messages that carry no time of their own. */
  lemma {:induction false} UntimedAgrees(w: Feeds, u: Feeds, p: nat, t: nat, ev: Event)
    requires ev.StatusMsg? || ev.SelectState? || ev.PaState? || ev.TunerState? || ev.Invalidate? || ev.OtaStart?
    requires Agree(w, u, p) && StampsPast(u, t)
    ensures Agree(StepFeeds(Wrapping, w, ev, Low(t)), StepFeeds(Unbounded, u, ev, t), p)
    ensures StampsPast(StepFeeds(Unbounded, u, ev, t), t)
  {
    hide Agree, OnStatus, Invalidated;
    match ev
    case StatusMsg(feed, online) => StatusAgrees(w, u, p, t, feed, online);
    case Invalidate => InvalidationAgrees(w, u, p, t);
    case _ => QuietAgrees(w, u, p, t, ev);
  }

  lemma {:induction false} StatusAgrees(w: Feeds, u: Feeds, p: nat, t: nat, feed: Feed, online: bool)
    requires Agree(w, u, p) && StampsPast(u, t)
    ensures Agree(OnStatus(w, feed, online), OnStatus(u, feed, online), p) && StampsPast(OnStatus(u, feed, online), t)
  {
    hide MotionAgrees, EdgeAgrees, WindowsAgree;
  }

  lemma {:induction false} InvalidationAgrees(w: Feeds, u: Feeds, p: nat, t: nat)
    requires Agree(w, u, p) && StampsPast(u, t)
    ensures Agree(Invalidated(w), Invalidated(u), p) && StampsPast(Invalidated(u), t)
  {
    hide MotionAgrees, EdgeAgrees;
  }

  lemma {:induction false} QuietAgrees(w: Feeds, u: Feeds, p: nat, t: nat, ev: Event)
    requires ev.SelectState? || ev.PaState? || ev.TunerState? || ev.OtaStart?
    requires Agree(w, u, p) && StampsPast(u, t)
    ensures Agree(StepFeeds(Wrapping, w, ev, Low(t)), StepFeeds(Unbounded, u, ev, t), p)
    ensures StampsPast(StepFeeds(Unbounded, u, ev, t), t)
  {
    hide MotionAgrees, EdgeAgrees, RadioAgrees;
  }

  /** The feeds in true time. Nothing needs expiring there: a lapsed window never reopens. */
  function TrueFeeds(u: Feeds, ev: Event, t: nat): Feeds {
    if ev.Pass? then u else StepFeeds(Unbounded, u, ev, t)
  }

  function TrueAfter(run: seq<Timed>, i: nat): Feeds
    requires i <= |run|
    decreases i
  {
    if i == 0 then INIT_FEEDS else TrueFeeds(TrueAfter(run, i - 1), run[i - 1].ev, run[i - 1].at)
  }

  lemma {:induction false} StepAgrees(w: Feeds, u: Feeds, p: nat, t: nat, ev: Event)
    requires Agree(w, u, p) && p <= t <= p + MAX_GAP && StampsPast(u, t)
    ensures Agree(StepFeeds(Wrapping, w, ev, Low(t)), TrueFeeds(u, ev, t), if ev.Pass? then t else p)
    ensures StampsPast(TrueFeeds(u, ev, t), t)
  {
    hide Agree, StampsPast, OnRadioState, OnSwitchState, OnCtrlState, OnCtrlCmd, Expired;
    match ev
    case RadioState(doc) => if doc.Some? { RadioStateAgrees(w, u, p, t, doc.value); }
    case SwitchState(doc) => if doc.Some? { SwitchAgrees(w, u, p, t, doc.value); }
    case CtrlState(doc) => if doc.Some? { CtrlStateAgrees(w, u, p, t, doc.value); }
    case CtrlCmd(a) => if a.Some? { CmdAgrees(w, u, p, t, a.value); }
    case Pass(_, _, _) => PassAgrees(w, u, p, t);
    case _ => UntimedAgrees(w, u, p, t, ev);
  }

  lemma InitAgrees()
    ensures Agree(INIT_FEEDS, INIT_FEEDS, 0) && StampsPast(INIT_FEEDS, 0)
  {}

  lemma StampsStayPast(u: Feeds, t: nat, t': nat)
    requires StampsPast(u, t) && t <= t'
    ensures StampsPast(u, t')
  {}

  lemma {:induction false} RunAgrees(run: seq<Timed>, i: nat)
    requires PassesKeepComing(run) && i <= |run|
    ensures Agree(After(Wrapping, run, i).f, TrueAfter(run, i), LastPass(run, i))
    ensures StampsPast(TrueAfter(run, i), LastEvent(run, i))
  {
    hide Agree, StampsPast, StepFeeds, StepDrive, TrueFeeds, Ordered;
    if i == 0 {
      InitAgrees();
    } else {
      RunAgrees(run, i - 1);
      LastPassIsPast(run, i - 1);
      var w, u, t := After(Wrapping, run, i - 1).f, TrueAfter(run, i - 1), run[i - 1].at;
      StampsStayPast(u, LastEvent(run, i - 1), t);
      StepAgrees(w, u, LastPass(run, i - 1), t, run[i - 1].ev);
    }
  }

  /** Every pass of every run judges the command-blind, settle, band-change and heartbeat windows open
      exactly when the true time since they opened is below their length. */
  lemma {:induction false} WindowsExact(run: seq<Timed>, i: nat)
    requires PassesKeepComing(run) && i < |run| && run[i].ev.Pass?
    ensures SameJudgement(After(Wrapping, run, i).f, TrueAfter(run, i), run[i].at)
    ensures SameInputs(After(Wrapping, run, i).f, TrueAfter(run, i))
    ensures SameJudgement(PassFeeds(Wrapping, run, i), TrueAfter(run, i), run[i].at)
    ensures SameInputs(PassFeeds(Wrapping, run, i), TrueAfter(run, i))
    ensures StampsPast(TrueAfter(run, i), run[i].at)
  {
    hide Agree, SameInputs, SameJudgement, Expired;
    var w, u, t := After(Wrapping, run, i).f, TrueAfter(run, i), run[i].at;
    RunAgrees(run, i);
    LastPassIsPast(run, i);
    StampsStayPast(u, LastEvent(run, i), t);
    AgreeJudges(w, u, LastPass(run, i), t);
    PassAgrees(w, u, LastPass(run, i), t);
    AgreeJudges(PassFeeds(Wrapping, run, i), u, t, t);
  }

  /** So every gate is decided as in true time: the 32-bit firmware and an ideal clock agree on
      hazard, readiness, fault and dwell at every pass. */
  lemma {:induction false} GatesExact(run: seq<Timed>, i: nat)
    requires PassesKeepComing(run) && i < |run| && run[i].ev.Pass?
    ensures PassEval(Wrapping, run, i)
         == Evaluation(Unbounded, TrueAfter(run, i), After(Wrapping, run, i).d.fault, run[i].at)
  {
    hide SameInputs, SameJudgement, Expired;
    WindowsExact(run, i);
    SameGates(PassFeeds(Wrapping, run, i), TrueAfter(run, i), After(Wrapping, run, i).d.fault, run[i].at);
  }

  lemma {:induction false} SameGates(w: Feeds, u: Feeds, relayFault: bool, t: nat)
    requires SameInputs(w, u) && SameJudgement(w, u, t)
    ensures Evaluation(Wrapping, w, relayFault, Low(t)) == Evaluation(Unbounded, u, relayFault, t)
  {
    hide BlindOpen, SettleOpen, EdgeOpen, BeatOpen;
  }

  /** A pass that comes one millisecond later after the one before it than the bound allows, with everything before it
      within the bound, and a heartbeat it takes for live that in true time is not. */
  ghost predicate Misjudged(run: seq<Timed>, i: nat)
    requires i < |run|
  {
    && run[i].ev.Pass? && run[i].at == LastPass(run, i) + MAX_GAP + 1 && PassesKeepComing(run[..i])
    && BeatOpen(Wrapping, After(Wrapping, run, i).f.radio, Low(run[i].at))
    && !BeatOpen(Unbounded, TrueAfter(run, i).radio, run[i].at)
  }

  const BEAT := RadioDoc(None, None, None, None, Some(1))
  const NEXT_BEAT := RadioDoc(None, None, None, None, Some(2))

  /** The gap bound is tight: a heartbeat at 0, a pass at 9999 that finds it open, and a pass one millisecond later than
      the bound allows, which finds it open again. */
  lemma {:induction false} GapBoundIsTight()
    ensures exists run: seq<Timed> :: Ordered(run) && |run| == 4 && Misjudged(run, 3)
  {
    hide After, TrueAfter;
    var late := 9999 + MAX_GAP + 1;
    var run := [At(0, RadioState(Some(BEAT))), At(0, RadioState(Some(NEXT_BEAT))), At(9999, Pass(false, false, false)),
                At(late, Pass(false, false, false))];
    assert LastPass(run, 0) == 0 && LastPass(run, 1) == 0 && LastPass(run, 2) == 0 && LastPass(run, 3) == 9999;
    assert PassesKeepComing(run[..3]) by {
      assert LastPass(run[..3], 0) == 0 && LastPass(run[..3], 1) == 0 && LastPass(run[..3], 2) == 0;
    }
    BeatOnTime(run);
    BeatInTruth(run);
    assert Low(late) == 0;
    assert Misjudged(run, 3);
  }

  /** The radio record after the two messages, on either clock. */
  lemma {:induction false} TwoBeats(c: Clock)
    ensures var f := StepFeeds(c, StepFeeds(c, INIT_FEEDS, RadioState(Some(BEAT)), 0), RadioState(Some(NEXT_BEAT)), 0);
      f.radio.freshValid && f.radio.freshMs == 0
  {
    hide BandForFreq, BandNoted;
  }

  lemma {:induction false} BeatOnTime(run: seq<Timed>)
    requires |run| == 4 && run[0] == At(0, RadioState(Some(BEAT))) && run[1] == At(0, RadioState(Some(NEXT_BEAT)))
    requires run[2] == At(9999, Pass(false, false, false))
    ensures var r := After(Wrapping, run, 3).f.radio; r.freshValid && r.freshMs == 0
  {
    hide StepDrive, StepFeeds, Expired;
    TwoBeats(Wrapping);
    assert After(Wrapping, run, 0) == INIT;
    var f1 := After(Wrapping, run, 1).f;
    assert f1 == StepFeeds(Wrapping, INIT_FEEDS, run[0].ev, 0);
    var f2 := After(Wrapping, run, 2).f;
    assert f2 == StepFeeds(Wrapping, f1, run[1].ev, 0);
    assert After(Wrapping, run, 3).f == StepFeeds(Wrapping, f2, run[2].ev, 9999);
    PassKeepsBeat(f2);
  }

  lemma {:induction false} PassKeepsBeat(f: Feeds)
    requires f.radio.freshValid && f.radio.freshMs == 0
    ensures var g := StepFeeds(Wrapping, f, Pass(false, false, false), 9999); g.radio.freshValid && g.radio.freshMs == 0
  {}

  lemma {:induction false} BeatInTruth(run: seq<Timed>)
    requires |run| == 4 && run[0] == At(0, RadioState(Some(BEAT))) && run[1] == At(0, RadioState(Some(NEXT_BEAT)))
    requires run[2] == At(9999, Pass(false, false, false))
    ensures TrueAfter(run, 3).radio.freshMs == 0
  {
    hide StepFeeds;
    TwoBeats(Unbounded);
    assert TrueAfter(run, 0) == INIT_FEEDS;
    assert TrueAfter(run, 1) == StepFeeds(Unbounded, INIT_FEEDS, run[0].ev, 0);
    assert TrueAfter(run, 2) == StepFeeds(Unbounded, TrueAfter(run, 1), run[1].ev, 0);
  }
}
