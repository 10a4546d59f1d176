/** Closing takes a full dwell: relay 1 is energised only after every gate has been clear on the
    closing pass and permit, RX and the non-motion gates have held for 1000 true milliseconds. */
module ArmDwell {
  import opened Options
  import opened ArmModel
  import opened ArmClock

  ghost predicate DwellHeldAt(run: seq<Timed>, k: nat)
    requires k < |run|
  {
    && (run[k].ev.Pass? ==>
          var s := After(Wrapping, run, k);
          DwellHolds(PassFeeds(Wrapping, run, k), PassEval(Wrapping, run, k), run[k].ev.enabled, s.d.fault))
    && (run[k].ev.RadioState? && run[k].ev.radio.Some? ==> IsRx(run[k].ev.radio.value))
    && !run[k].ev.OtaStart?
  }

  /** From pass j up to (not including) event i nothing interrupted the dwell. */
  ghost predicate DwellSince(run: seq<Timed>, j: nat, i: nat)
    requires i <= |run|
  {
    j < i && run[j].ev.Pass? && forall k :: j <= k < i ==> DwellHeldAt(run, k)
  }

  /** While the dwell clock runs it was started by a pass since which nothing interrupted it. */
  lemma {:induction false} DwellStart(run: seq<Timed>, i: nat) returns (j: nat)
    requires i <= |run| && After(Wrapping, run, i).d.closeOkValid
    ensures DwellSince(run, j, i)
    ensures After(Wrapping, run, i).d.closeOkSinceMs == Low(run[j].at)
  {
    hide After, DwellHeldAt;
    NoDwellAtStart(run);
    DwellKept(run, i - 1);
    if After(Wrapping, run, i - 1).d.closeOkValid { j := DwellStart(run, i - 1); } else { j := i - 1; }
  }

  lemma {:induction false} NoDwellAtStart(run: seq<Timed>)
    ensures !After(Wrapping, run, 0).d.closeOkValid
  {}

  /** One event that leaves the dwell clock running: it did not interrupt it, and started it only if it is a pass. */
  lemma {:induction false} DwellKept(run: seq<Timed>, i: nat)
    requires i < |run| && After(Wrapping, run, i + 1).d.closeOkValid
    ensures DwellHeldAt(run, i)
    ensures var was := After(Wrapping, run, i).d; var is_ := After(Wrapping, run, i + 1).d;
      if was.closeOkValid then is_.closeOkSinceMs == was.closeOkSinceMs
      else run[i].ev.Pass? && is_.closeOkSinceMs == Low(run[i].at)
  {
    hide Hazard, Unready, Faulty, DwellBlocked, StepFeeds, Wanted;
  }

  /** On a wrapping clock the elapsed time read never exceeds the true one. */
  lemma {:induction false} WrappedNeverLonger(t: nat, since: nat)
    requires since <= t
    ensures Elapsed(Wrapping, Low(t), Low(since)) <= t - since
  {
    var d := t - since;
    assert (t % WRAP - since % WRAP) % WRAP == d % WRAP by { ModularShift(t, since); }
  }

  lemma {:induction false} ModularShift(t: nat, since: nat)
    requires since <= t
    ensures (t % WRAP - since % WRAP) % WRAP == (t - since) % WRAP
  {
    var q := t / WRAP - since / WRAP;
    assert t == WRAP * (t / WRAP) + t % WRAP && since == WRAP * (since / WRAP) + since % WRAP;
    assert t - since == (t % WRAP - since % WRAP) + WRAP * q;
    ModularPeriod(t % WRAP - since % WRAP, q);
  }

  lemma {:induction false} ModularPeriod(x: int, q: int)
    ensures (x + WRAP * q) % WRAP == x % WRAP
  {
    assert x == WRAP * (x / WRAP) + x % WRAP;
    assert x + WRAP * q == WRAP * (x / WRAP + q) + x % WRAP;
  }

  /** Event i writes an energising level to relay 1. */
  ghost predicate Energises(run: seq<Timed>, i: nat)
    requires i < |run|
  {
    var a, b := After(Wrapping, run, i).d.writes, After(Wrapping, run, i + 1).d.writes;
    exists k :: |a| <= k < |b| && b[k]
  }

  /** In every run, on either side of a clock wrap: the relay is energised only on a pass, and only if
      every gate is clear on it and the dwell has held since a pass at least 1000 true ms earlier,
      with no non-RX radio message and no OTA start in between. */
  lemma {:induction false} EnergisedOnlyAfterDwell(run: seq<Timed>, i: nat)
    requires Ordered(run) && i < |run| && Energises(run, i)
    ensures run[i].ev.Pass? && run[i].ev.enabled
    ensures !PassEval(Wrapping, run, i).hazard && !PassEval(Wrapping, run, i).ready
    ensures exists j: nat :: DwellSince(run, j, i + 1) && run[i].at - run[j].at >= ARM_CLOSE_DWELL_MS
  {
    hide Hazard, Unready, Faulty, DwellBlocked, StepFeeds;
    var s := After(Wrapping, run, i);
    assert run[i].ev.Pass?;
    var f, e, now := PassFeeds(Wrapping, run, i), PassEval(Wrapping, run, i), Low(run[i].at);
    EnergiseIsCloseEdge(f, s.d, e, run[i].ev.enabled, run[i].ev.rb, run[i].ev.rb2, now);
    var j := DwellStart(run, i);
    WrappedNeverLonger(run[i].at, run[j].at);
    assert DwellHeldAt(run, i);
    assert DwellSince(run, j, i + 1);
  }

  /** The only energising write of a pass is the command's close edge. */
  lemma {:induction false} EnergiseIsCloseEdge(f: Feeds, d: Drive, e: Eval, enabled: bool, rb: bool, rb2: bool, now: nat)
    requires var b := Verified(Driven(Wrapping, f, d, e, enabled, now), rb, rb2).writes;
      exists k :: |d.writes| <= k < |b| && b[k]
    ensures !d.cmd && Wanted(Wrapping, f, d, e, enabled, now)
    ensures DwellHolds(f, e, enabled, d.fault) && !e.hazard && !e.ready && d.closeOkValid
    ensures Elapsed(Wrapping, now, d.closeOkSinceMs) >= ARM_CLOSE_DWELL_MS
  {
    var mid := Driven(Wrapping, f, d, e, enabled, now);
    var b := Verified(mid, rb, rb2).writes;
    assert b == mid.writes || b == mid.writes + [false];
    var k :| |d.writes| <= k < |b| && b[k];
    assert k < |mid.writes| && mid.writes == d.writes + [Wanted(Wrapping, f, d, e, enabled, now)];
    assert Elapsed(Wrapping, now, now) == 0;
  }

  /** No pass before j has a dwell running up to it. */
  ghost predicate DwellFresh(run: seq<Timed>, j: nat)
    requires j <= |run|
  {
    forall k: nat :: k < j ==> !DwellSince(run, k, j)
  }

  /** Conversely nothing else is asked for, by the history alone: with the relay commanded open and the dwell held from
      pass j, which starts it, through a pass i at least 1000 true ms and less than a clock period later, at which every
      gate is clear, the relay has been energised by then. */
  lemma {:induction false} ClosesWhenDue(run: seq<Timed>, j: nat, i: nat)
    requires Ordered(run) && j < i < |run| && run[i].ev.Pass? && DwellSince(run, j, i + 1) && DwellFresh(run, j)
    requires !After(Wrapping, run, j).d.cmd
    requires ARM_CLOSE_DWELL_MS <= run[i].at - run[j].at < WRAP
    requires !PassEval(Wrapping, run, i).hazard && !PassEval(Wrapping, run, i).ready
    ensures exists k: nat :: j < k <= i && Energises(run, k)
  {
    hide After, DwellHeldAt, PassEval, Energises;
    NotRunning(run, j);
    if forall k: nat :: j < k <= i ==> !Energises(run, k) {
      DwellRunsOn(run, j, i);
      WrappedIsTrue(run[i].at, run[j].at);
      assert DwellHeldAt(run, i);
      EnergisesNow(run, i);
    }
  }

  lemma {:induction false} NotRunning(run: seq<Timed>, j: nat)
    requires j <= |run| && DwellFresh(run, j)
    ensures !After(Wrapping, run, j).d.closeOkValid
  {
    hide After, DwellHeldAt;
    if After(Wrapping, run, j).d.closeOkValid {
      NoDwellAtStart(run);
      var k := DwellStart(run, j);
    }
  }

  /** Below a clock period the wrapping clock reads the true elapsed time. */
  lemma {:induction false} WrappedIsTrue(t: nat, since: nat)
    requires since <= t < since + WRAP
    ensures Elapsed(Wrapping, Low(t), Low(since)) == t - since
  {
    ModularShift(t, since);
  }

  /** While nothing energises it the relay stays commanded open and the dwell clock runs on from pass j. */
  lemma {:induction false} DwellRunsOn(run: seq<Timed>, j: nat, i: nat)
    requires j < i < |run| && DwellSince(run, j, i + 1) && forall k: nat :: j < k < i ==> !Energises(run, k)
    requires !After(Wrapping, run, j).d.cmd && !After(Wrapping, run, j).d.closeOkValid
    ensures var d := After(Wrapping, run, i).d; !d.cmd && d.closeOkValid && d.closeOkSinceMs == Low(run[j].at)
    decreases i
  {
    hide After, DwellHeldAt, Energises;
    if i == j + 1 {
      assert DwellHeldAt(run, j);
      DwellStarts(run, j);
    } else {
      DwellRunsOn(run, j, i - 1);
      assert DwellHeldAt(run, i - 1);
      DwellRuns(run, i - 1);
    }
  }

  lemma {:induction false} DwellStarts(run: seq<Timed>, j: nat)
    requires j < |run| && run[j].ev.Pass? && DwellHeldAt(run, j)
    requires !After(Wrapping, run, j).d.cmd && !After(Wrapping, run, j).d.closeOkValid
    ensures var d := After(Wrapping, run, j + 1).d; !d.cmd && d.closeOkValid && d.closeOkSinceMs == Low(run[j].at)
  {
    hide Hazard, Unready, Faulty, DwellBlocked, StepFeeds;
    assert Elapsed(Wrapping, Low(run[j].at), Low(run[j].at)) == 0;
  }

  lemma {:induction false} DwellRuns(run: seq<Timed>, i: nat)
    requires i < |run| && DwellHeldAt(run, i) && !Energises(run, i)
    requires !After(Wrapping, run, i).d.cmd && After(Wrapping, run, i).d.closeOkValid
    ensures var d, e := After(Wrapping, run, i).d, After(Wrapping, run, i + 1).d;
      !e.cmd && e.closeOkValid && e.closeOkSinceMs == d.closeOkSinceMs
  {
    hide Hazard, Unready, Faulty, DwellBlocked, StepFeeds, Wanted;
    if run[i].ev.Pass? && Wanted(Wrapping, PassFeeds(Wrapping, run, i), After(Wrapping, run, i).d, PassEval(Wrapping, run, i), run[i].ev.enabled, Low(run[i].at)) {
      WantedEnergises(run, i);
    }
  }

  lemma {:induction false} WantedEnergises(run: seq<Timed>, i: nat)
    requires i < |run| && run[i].ev.Pass? && !After(Wrapping, run, i).d.cmd
    requires Wanted(Wrapping, PassFeeds(Wrapping, run, i), After(Wrapping, run, i).d, PassEval(Wrapping, run, i), run[i].ev.enabled, Low(run[i].at))
    ensures Energises(run, i)
  {
    hide Hazard, Unready, Faulty, DwellBlocked, StepFeeds, Wanted;
    var s := After(Wrapping, run, i);
    var mid := Driven(Wrapping, PassFeeds(Wrapping, run, i), s.d, PassEval(Wrapping, run, i), run[i].ev.enabled, Low(run[i].at));
    assert mid.writes[|s.d.writes|];
    assert After(Wrapping, run, i + 1).d == Verified(mid, run[i].ev.rb, run[i].ev.rb2);
    assert After(Wrapping, run, i + 1).d.writes[|s.d.writes|];
  }

  lemma {:induction false} EnergisesNow(run: seq<Timed>, i: nat)
    requires i < |run| && run[i].ev.Pass? && DwellHeldAt(run, i)
    requires !PassEval(Wrapping, run, i).hazard && !PassEval(Wrapping, run, i).ready
    requires var d := After(Wrapping, run, i).d;
      !d.cmd && d.closeOkValid && Elapsed(Wrapping, Low(run[i].at), d.closeOkSinceMs) >= ARM_CLOSE_DWELL_MS
    ensures Energises(run, i)
  {
    hide Hazard, Unready, Faulty, DwellBlocked, StepFeeds, Energises;
    WantedEnergises(run, i);
  }
}
