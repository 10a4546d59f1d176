/** What a commanded-closed relay means at the end of a pass, over every run. */
module ArmClosed {
  import opened Options
  import opened ArmBands
  import opened ArmModel
  import opened ArmClock

  /** The ts of the latest radio message before event i (None: none, or it had none). */
  function PrecedingTs(run: seq<Timed>, i: nat): Option<nat>
    requires i <= |run|
    decreases i
  {
    if i == 0 then None
    else if run[i - 1].ev.RadioState? && run[i - 1].ev.radio.Some? then run[i - 1].ev.radio.value.ts
    else PrecedingTs(run, i - 1)
  }

  predicate IsRadioMessage(e: Timed) { e.ev.RadioState? && e.ev.radio.Some? }

  /** A radio message arrived before i with no (re)subscribe after it. */
  ghost predicate RadioHeard(run: seq<Timed>, i: nat)
    requires i <= |run|
  {
    exists k :: 0 <= k < i && IsRadioMessage(run[k]) && forall m :: k < m < i ==> !run[m].ev.Invalidate?
  }

  /** Event j is a live heartbeat for pass i: a radio message with a new ts, not the first since the
      last (re)subscribe, and no (re)subscribe since. */
  ghost predicate HeartbeatFor(run: seq<Timed>, j: nat, i: nat)
    requires i <= |run|
  {
    && j < i && IsRadioMessage(run[j])
    && run[j].ev.radio.value.ts.Some? && run[j].ev.radio.value.ts != PrecedingTs(run, j)
    && RadioHeard(run, j)
    && forall m :: j < m < i ==> !run[m].ev.Invalidate?
  }

  lemma {:induction false} RadioMemory(run: seq<Timed>, i: nat)
    requires i <= |run|
    ensures TrueAfter(run, i).radio.lastTs == PrecedingTs(run, i)
    ensures TrueAfter(run, i).radio.msgsSinceSub >= 1 ==> RadioHeard(run, i)
    ensures TrueAfter(run, i).radio.band != NoBand ==> Near(TrueAfter(run, i).radio.freqHz, TrueAfter(run, i).radio.band)
  {
    if i > 0 {
      hide BandForFreq, OnCtrlState, OnCtrlCmd, OnSwitchState, BandNoted, IsHeartbeat, Near;
      RadioMemory(run, i - 1);
      var u, e := TrueAfter(run, i - 1), run[i - 1];
      if IsRadioMessage(e) {
        DerivedBandIsNear(e.ev.radio.value.freqHz.GetOr(0), u.radio.band);
        assert RadioHeard(run, i);
      } else {
        RadioUntouched(u, e.ev, e.at);
        if !e.ev.Invalidate? && RadioHeard(run, i - 1) { RadioStillHeard(run, i - 1); }
      }
    }
  }

  lemma {:induction false} RadioStillHeard(run: seq<Timed>, i: nat)
    requires i < |run| && RadioHeard(run, i) && !run[i].ev.Invalidate?
    ensures RadioHeard(run, i + 1)
  {
    var k :| 0 <= k < i && IsRadioMessage(run[k]) && forall m :: k < m < i ==> !run[m].ev.Invalidate?;
    assert 0 <= k < i + 1;
  }

  lemma {:induction false} RadioUntouched(u: Feeds, ev: Event, t: nat)
    requires !(ev.RadioState? && ev.radio.Some?)
    ensures var r, r' := u.radio, TrueFeeds(u, ev, t).radio;
      && r'.lastTs == r.lastTs && r'.freqHz == r.freqHz && r'.band == r.band && r'.freshMs == r.freshMs
      && (if ev.Invalidate? then !r'.freshValid && r'.msgsSinceSub == 0
          else r'.freshValid == r.freshValid && r'.msgsSinceSub == r.msgsSinceSub)
  {
    hide StartSettle, AfterReport, Commanded, LatchAfter, CausesMotion;
  }

  /** A heartbeat window on record was opened by a real heartbeat. */
  lemma {:induction false} HeartbeatOnRecord(run: seq<Timed>, i: nat) returns (j: nat)
    requires i <= |run| && TrueAfter(run, i).radio.freshValid
    ensures HeartbeatFor(run, j, i) && TrueAfter(run, i).radio.freshMs == run[j].at
  {
    hide BandForFreq, OnCtrlState, OnCtrlCmd, OnSwitchState, BandNoted;
    var u, e := TrueAfter(run, i - 1), run[i - 1];
    RadioMemory(run, i - 1);
    if IsRadioMessage(e) {
      if IsHeartbeat(u.radio, e.ev.radio.value) { j := i - 1; } else { j := HeartbeatOnRecord(run, i - 1); }
    } else {
      RadioUntouched(u, e.ev, e.at);
      j := HeartbeatOnRecord(run, i - 1);
    }
  }

  /** The pass leaves the relay commanded closed only if no hazard gate failed and no fault is latched;
      a failing readiness gate is tolerated only under drive. */
  lemma {:induction false} ClosedMeansNoHazard(run: seq<Timed>, i: nat)
    requires i < |run| && run[i].ev.Pass? && After(Wrapping, run, i + 1).d.cmd
    ensures run[i].ev.enabled && !After(Wrapping, run, i + 1).d.fault
    ensures !PassEval(Wrapping, run, i).hazard
    ensures PassEval(Wrapping, run, i).ready ==> Keyed(PassFeeds(Wrapping, run, i))
  {
    hide Hazard, Unready, Faulty, DwellBlocked, StepFeeds;
  }

  /** End of every pass: a commanded-closed relay implies permit on, no relay fault, a live radio with a
      true heartbeat under 10 s old, no tune cycle, a frequency at most 2 kHz outside a PA-safe band
      (hence never 60m), no failing hazard gate, and readiness failing only while keyed. */
  lemma {:induction false} ClosedMeansSafe(run: seq<Timed>, i: nat)
    requires PassesKeepComing(run) && i < |run| && run[i].ev.Pass? && After(Wrapping, run, i + 1).d.cmd
    ensures run[i].ev.enabled && !After(Wrapping, run, i + 1).d.fault
    ensures var u, t := TrueAfter(run, i), run[i].at;
      && u.radio.statusOnline && u.radio.deviceOnline && !u.radio.tuning
      && BandSafe(u.radio.band) && Near(u.radio.freqHz, u.radio.band) && !(5351500 <= u.radio.freqHz <= 5366500)
      && !Hazard(Unbounded, u, false, t)
      && (Unready(Unbounded, u, t) ==> Keyed(u))
    ensures exists j: nat :: HeartbeatFor(run, j, i) && run[i].at - run[j].at < RADIO_HEARTBEAT_MS
  {
    var u, t := TrueAfter(run, i), run[i].at;
    ClosedMeansNoHazard(run, i);
    GatesExact(run, i);
    WindowsExact(run, i);
    RadioMemory(run, i);
    SafeUnlessHazard(u, After(Wrapping, run, i).d.fault, t);
    var j := HeartbeatOnRecord(run, i);
    KeyedSame(PassFeeds(Wrapping, run, i), u);
  }

  lemma KeyedSame(w: Feeds, u: Feeds)
    requires SameInputs(w, u)
    ensures Keyed(w) == Keyed(u)
  {}

  lemma {:induction false} SafeUnlessHazard(u: Feeds, relayFault: bool, t: nat)
    requires !Hazard(Unbounded, u, relayFault, t)
    requires u.radio.band != NoBand ==> Near(u.radio.freqHz, u.radio.band)
    ensures !relayFault && RadioLive(Unbounded, u, t) && !u.radio.tuning && BandSafe(u.radio.band)
    ensures Near(u.radio.freqHz, u.radio.band) && !(5351500 <= u.radio.freqHz <= 5366500)
  {
    hide Near;
    assert BandSafe(u.radio.band) && u.radio.band != NoBand;
    SafeIsNever60m(u.radio.freqHz, u.radio.band);
  }
}
