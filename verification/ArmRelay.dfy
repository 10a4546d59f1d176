/** The relay readback check against arbitrary readback sequences: what latches the fault, how long the
    latch lasts, and when dropped closures are forgiven. */
module ArmRelay {
  import opened ArmModel

  /** What a pass found when it read the relay back after driving it. */
  datatype Reading = NotAPass | Dropped | RewriteHeld | RewriteFailed | Consistent(closed: bool)

  /** The relay state of pass i between the drive and the readback. */
  function DrivenAt(run: seq<Timed>, i: nat): Drive
    requires i < |run| && run[i].ev.Pass?
  {
    Driven(Wrapping, PassFeeds(Wrapping, run, i), After(Wrapping, run, i).d, PassEval(Wrapping, run, i),
           run[i].ev.enabled, Stamp(Wrapping, run[i].at))
  }

  function ReadingAt(run: seq<Timed>, i: nat): Reading
    requires i < |run|
  {
    if !run[i].ev.Pass? then NotAPass
    else ReadingOf(DrivenAt(run, i).cmd, run[i].ev.rb, run[i].ev.rb2)
  }

  function ReadingOf(cmd: bool, rb: bool, rb2: bool): Reading {
    if cmd && !rb then Dropped
    else if !cmd && rb then if rb2 then RewriteFailed else RewriteHeld
    else Consistent(cmd)
  }

  predicate Inconsistent(r: Reading) { r.Dropped? || r.RewriteHeld? || r.RewriteFailed? }

  // ---------------------------------------------------------------- reference counts over the history

  /** Failed rewrites since the last consistent pass. */
  function FailedRewrites(run: seq<Timed>, i: nat): nat
    requires i <= |run|
    decreases i
  {
    if i == 0 then 0
    else match ReadingAt(run, i - 1)
      case Consistent(_) => 0
      case RewriteFailed => FailedRewrites(run, i - 1) + 1
      case _ => FailedRewrites(run, i - 1)
  }

  /** Passes in a row, up to i, that read a closed relay as open. */
  function DropsInARow(run: seq<Timed>, i: nat): nat
    requires i <= |run|
    decreases i
  {
    if i == 0 then 0
    else match ReadingAt(run, i - 1)
      case NotAPass => DropsInARow(run, i - 1)
      case Dropped => DropsInARow(run, i - 1) + 1
      case _ => 0
  }

  /** The third such pass in a row confirms the drop. */
  predicate DropConfirmed(run: seq<Timed>, i: nat)
    requires i < |run|
  { ReadingAt(run, i).Dropped? && DropsInARow(run, i) >= 2 }

  /** Closed, consistent passes up to i with no inconsistent pass among them. */
  function StablePasses(run: seq<Timed>, i: nat): nat
    requires i <= |run|
    decreases i
  {
    if i == 0 then 0
    else match ReadingAt(run, i - 1)
      case NotAPass => StablePasses(run, i - 1)
      case Consistent(closed) => StablePasses(run, i - 1) + (if closed then 1 else 0)
      case _ => 0
  }

  predicate Forgives(run: seq<Timed>, i: nat)
    requires i < |run|
  { ReadingAt(run, i) == Consistent(true) && StablePasses(run, i + 1) >= RELAY_STABLE_PASSES }

  /** Confirmed drops since the last forgiveness. */
  function UnforgivenDrops(run: seq<Timed>, i: nat): nat
    requires i <= |run|
    decreases i
  {
    if i == 0 then 0
    else if DropConfirmed(run, i - 1) then UnforgivenDrops(run, i - 1) + 1
    else if Forgives(run, i - 1) then 0
    else UnforgivenDrops(run, i - 1)
  }

  function Capped(n: nat, cap: nat): nat { if n < cap then n else cap }

  /** The firmware's saturating counters are those counts. */
  ghost predicate CountersMatch(run: seq<Timed>, i: nat)
    requires i <= |run|
  {
    var d := After(Wrapping, run, i).d;
    && d.mismatchCount == Capped(FailedRewrites(run, i), 255)
    && d.stablePasses == Capped(StablePasses(run, i), 65535)
    && d.dropCount == Capped(UnforgivenDrops(run, i), 255)
    && (StablePasses(run, i) >= RELAY_STABLE_PASSES ==> UnforgivenDrops(run, i) == 0)
    && DropsInARow(run, i) <= 3
    && (if DropsInARow(run, i) == 3 then d.dropPending == 0 && !d.cmd && !d.closeOkValid
        else d.dropPending == DropsInARow(run, i))
  }

  lemma {:induction false} CountersAlwaysMatch(run: seq<Timed>, i: nat)
    requires i <= |run|
    ensures CountersMatch(run, i)
  {
    hide CountersMatch, After, DrivenAt;
    if i == 0 {
      CountersStart(run);
    } else {
      CountersAlwaysMatch(run, i - 1);
      if run[i - 1].ev.Pass? { CountersOverPass(run, i - 1); } else { CountersElsewhere(run, i - 1); }
    }
  }

  lemma CountersStart(run: seq<Timed>)
    ensures CountersMatch(run, 0)
  {}

  lemma {:induction false} CountersElsewhere(run: seq<Timed>, i: nat)
    requires i < |run| && !run[i].ev.Pass? && CountersMatch(run, i)
    ensures CountersMatch(run, i + 1)
  {
    hide StepFeeds, OnPass;
    assert ReadingAt(run, i) == NotAPass;
  }

  /** The relay half of a pass, as a function of the drive. */
  lemma {:induction false} PassDrive(run: seq<Timed>, i: nat)
    requires i < |run| && run[i].ev.Pass?
    ensures After(Wrapping, run, i + 1).d == Verified(DrivenAt(run, i), run[i].ev.rb, run[i].ev.rb2)
    ensures var d, m := After(Wrapping, run, i).d, DrivenAt(run, i);
      && m.fault == d.fault && m.mismatchCount == d.mismatchCount && m.okCount == d.okCount
      && m.dropPending == d.dropPending && m.dropCount == d.dropCount && m.stablePasses == d.stablePasses
      && (d.fault ==> !m.cmd) && (!d.cmd && !d.closeOkValid ==> !m.cmd)
  {
    hide Hazard, Unready, Faulty, DwellBlocked, StepFeeds, Verified;
  }

  lemma {:induction false} CountersOverPass(run: seq<Timed>, i: nat)
    requires i < |run| && run[i].ev.Pass? && CountersMatch(run, i)
    ensures CountersMatch(run, i + 1)
  {
    hide After, DrivenAt;
    PassDrive(run, i);
  }

  // ---------------------------------------------------------------- the latch

  /** The fault latches exactly when the third failed rewrite since a consistent pass, or the third
      unforgiven confirmed drop, happens on the pass. */
  lemma {:induction false} LatchesExactlyWhen(run: seq<Timed>, i: nat)
    requires i < |run| && run[i].ev.Pass? && !After(Wrapping, run, i).d.fault
    ensures After(Wrapping, run, i + 1).d.fault <==>
      ((ReadingAt(run, i).RewriteFailed? && FailedRewrites(run, i + 1) >= RELAY_MISMATCH_TRIP)
       || (DropConfirmed(run, i) && UnforgivenDrops(run, i + 1) >= RELAY_MISMATCH_TRIP))
  {
    hide After, DrivenAt;
    CountersAlwaysMatch(run, i);
    PassDrive(run, i);
  }

  ghost predicate NoConsistentPass(run: seq<Timed>, a: nat, c: nat)
    requires c <= |run|
  { forall k :: a <= k < c ==> !ReadingAt(run, k).Consistent? }

  ghost predicate NoForgiveness(run: seq<Timed>, a: nat, c: nat)
    requires c <= |run|
  { forall k :: a <= k < c ==> !Forgives(run, k) }

  ghost predicate ThreeFailedRewrites(run: seq<Timed>, a: nat, b: nat, c: nat)
    requires a < b < c < |run|
  {
    && ReadingAt(run, a).RewriteFailed? && ReadingAt(run, b).RewriteFailed? && ReadingAt(run, c).RewriteFailed?
    && NoConsistentPass(run, a, c + 1)
  }

  ghost predicate ThreeDrops(run: seq<Timed>, a: nat, b: nat, c: nat)
    requires a < b < c < |run|
  {
    DropConfirmed(run, a) && DropConfirmed(run, b) && DropConfirmed(run, c) && NoForgiveness(run, a, c + 1)
  }

  /** n failed rewrites are n passes: the first of them, and the rest before it. */
  lemma {:induction false} FailedRewriteWitness(run: seq<Timed>, i: nat) returns (a: nat)
    requires i <= |run| && FailedRewrites(run, i) >= 1
    ensures a < i && ReadingAt(run, a).RewriteFailed? && NoConsistentPass(run, a, i)
    ensures FailedRewrites(run, a) + 1 == FailedRewrites(run, i)
  {
    hide ReadingAt;
    if ReadingAt(run, i - 1).RewriteFailed? { a := i - 1; } else { a := FailedRewriteWitness(run, i - 1); }
  }

  lemma {:induction false} DropWitness(run: seq<Timed>, i: nat) returns (a: nat)
    requires i <= |run| && UnforgivenDrops(run, i) >= 1
    ensures a < i && DropConfirmed(run, a) && NoForgiveness(run, a, i)
    ensures UnforgivenDrops(run, a) + 1 == UnforgivenDrops(run, i)
  {
    hide ReadingAt, StablePasses, DropsInARow;
    if DropConfirmed(run, i - 1) { a := i - 1; } else { a := DropWitness(run, i - 1); }
  }

  lemma {:induction false} FailedRewritesKept(run: seq<Timed>, a: nat, i: nat)
    requires a <= i <= |run| && NoConsistentPass(run, a, i)
    ensures FailedRewrites(run, i) >= FailedRewrites(run, a)
  {
    hide ReadingAt;
    if a < i { FailedRewritesKept(run, a, i - 1); }
  }

  lemma {:induction false} DropsKept(run: seq<Timed>, a: nat, i: nat)
    requires a <= i <= |run| && NoForgiveness(run, a, i)
    ensures UnforgivenDrops(run, i) >= UnforgivenDrops(run, a)
  {
    hide ReadingAt, Forgives, DropConfirmed;
    if a < i { DropsKept(run, a, i - 1); }
  }

  /** Seen from outside: the fault can only latch on the last of three failed rewrites with no consistent
      pass between, or the last of three confirmed drops with no forgiveness between. */
  lemma {:induction false} LatchHasThreeCauses(run: seq<Timed>, c: nat)
    requires c < |run| && run[c].ev.Pass? && !After(Wrapping, run, c).d.fault && After(Wrapping, run, c + 1).d.fault
    ensures exists a: nat, b: nat :: a < b < c && (ThreeFailedRewrites(run, a, b, c) || ThreeDrops(run, a, b, c))
  {
    hide After, ReadingAt, StablePasses, DropsInARow;
    LatchesExactlyWhen(run, c);
    if ReadingAt(run, c).RewriteFailed? && FailedRewrites(run, c + 1) >= RELAY_MISMATCH_TRIP {
      var b := FailedRewriteWitness(run, c);
      var a := FailedRewriteWitness(run, b);
      assert ThreeFailedRewrites(run, a, b, c);
    } else {
      var b := DropWitness(run, c);
      var a := DropWitness(run, b);
      assert ThreeDrops(run, a, b, c);
    }
  }

  /** And each of those patterns does latch it (if it is not latched already). */
  lemma {:induction false} ThreeFailedRewritesLatch(run: seq<Timed>, a: nat, b: nat, c: nat)
    requires a < b < c < |run| && ThreeFailedRewrites(run, a, b, c)
    ensures After(Wrapping, run, c + 1).d.fault
  {
    hide After, DrivenAt;
    FailedRewritesKept(run, a + 1, b);
    FailedRewritesKept(run, b + 1, c);
    CountersAlwaysMatch(run, c);
    PassDrive(run, c);
  }

  lemma {:induction false} ThreeDropsLatch(run: seq<Timed>, a: nat, b: nat, c: nat)
    requires a < b < c < |run| && ThreeDrops(run, a, b, c)
    ensures After(Wrapping, run, c + 1).d.fault
  {
    hide After, DrivenAt;
    DropsKept(run, a + 1, b);
    DropsKept(run, b + 1, c);
    CountersAlwaysMatch(run, c);
    PassDrive(run, c);
  }

  /** A commanded-open relay that reads closed is rewritten open on that very pass. */
  lemma {:induction false} RewrittenOpenAtOnce(run: seq<Timed>, i: nat)
    requires i < |run| && run[i].ev.Pass?
    requires !DrivenAt(run, i).cmd && run[i].ev.rb
    ensures After(Wrapping, run, i + 1).d.writes == DrivenAt(run, i).writes + [false]
    ensures After(Wrapping, run, i + 1).d.readback == run[i].ev.rb2
  {
    hide After, DrivenAt;
    PassDrive(run, i);
  }

  /** The level relay 1 was last written; it powers up open. */
  function LastWritten(d: Drive): bool { if d.writes == [] then false else d.writes[|d.writes| - 1] }

  lemma {:induction false} DrivingWrites(c: Clock, f: Feeds, d: Drive, e: Eval, enabled: bool, now: nat)
    requires LastWritten(d) == d.cmd
    ensures LastWritten(Driven(c, f, d, e, enabled, now)) == Driven(c, f, d, e, enabled, now).cmd
  {
    hide Wanted, DwellHolds;
  }

  lemma {:induction false} VerifyingWrites(d: Drive, rb: bool, rb2: bool)
    requires LastWritten(d) == d.cmd
    ensures var v := Verified(d, rb, rb2); LastWritten(v) == v.cmd
  {}

  /** In every run the level last written to the relay is the one commanded, and a pass that finds a relay it means to
      be open reading closed writes it open again on that very pass. */
  lemma {:induction false} OutputFollowsCommand(run: seq<Timed>, i: nat)
    requires i <= |run|
    ensures LastWritten(After(Wrapping, run, i).d) == After(Wrapping, run, i).d.cmd
    ensures i > 0 && run[i - 1].ev.Pass? && !DrivenAt(run, i - 1).cmd && run[i - 1].ev.rb ==>
      After(Wrapping, run, i).d.writes == DrivenAt(run, i - 1).writes + [false]
  {
    hide Driven, Verified, Evaluation, StepFeeds, Expired;
    if i > 0 {
      OutputFollowsCommand(run, i - 1);
      if run[i - 1].ev.Pass? {
        var f, e, d := PassFeeds(Wrapping, run, i - 1), PassEval(Wrapping, run, i - 1), After(Wrapping, run, i - 1).d;
        var ev, now := run[i - 1].ev, Stamp(Wrapping, run[i - 1].at);
        DrivingWrites(Wrapping, f, d, e, ev.enabled, now);
        VerifyingWrites(Driven(Wrapping, f, d, e, ev.enabled, now), ev.rb, ev.rb2);
        if !DrivenAt(run, i - 1).cmd && run[i - 1].ev.rb { RewrittenOpenAtOnce(run, i - 1); }
      }
    }
  }

  // ---------------------------------------------------------------- how long the latch lasts

  function ConsistentPasses(run: seq<Timed>, a: nat, i: nat): nat
    requires a <= i <= |run|
    decreases i
  {
    if i == a then 0 else ConsistentPasses(run, a, i - 1) + (if ReadingAt(run, i - 1).Consistent? then 1 else 0)
  }

  /** Since the latch at event l, throughout events up to i the fault stands. */
  ghost predicate FaultStands(run: seq<Timed>, l: nat, i: nat)
    requires i <= |run|
  {
    l < i && !After(Wrapping, run, l).d.fault && forall k :: l < k <= i ==> After(Wrapping, run, k).d.fault
  }

  lemma {:induction false} OkCountBounded(run: seq<Timed>, l: nat, i: nat)
    requires i <= |run| && FaultStands(run, l, i)
    ensures After(Wrapping, run, i).d.okCount <= ConsistentPasses(run, l + 1, i)
  {
    hide After, DrivenAt;
    assert After(Wrapping, run, i).d.fault && After(Wrapping, run, l + 1).d.fault;
    if i == l + 1 {
      LatchResetsOkCount(run, l);
    } else {
      OkCountBounded(run, l, i - 1);
      assert After(Wrapping, run, i - 1).d.fault;
      if run[i - 1].ev.Pass? { PassDrive(run, i - 1); } else { FaultElsewhere(run, i - 1); }
    }
  }

  lemma {:induction false} FaultElsewhere(run: seq<Timed>, i: nat)
    requires i < |run| && !run[i].ev.Pass?
    ensures After(Wrapping, run, i + 1).d.fault == After(Wrapping, run, i).d.fault
    ensures After(Wrapping, run, i + 1).d.okCount == After(Wrapping, run, i).d.okCount
  {
    hide StepFeeds, OnPass;
  }

  lemma {:induction false} LatchResetsOkCount(run: seq<Timed>, l: nat)
    requires l < |run| && !After(Wrapping, run, l).d.fault && After(Wrapping, run, l + 1).d.fault
    ensures run[l].ev.Pass? && After(Wrapping, run, l + 1).d.okCount == 0 && !After(Wrapping, run, l + 1).d.cmd
  {
    hide After, DrivenAt;
    if run[l].ev.Pass? { PassDrive(run, l); } else { FaultElsewhere(run, l); }
  }

  /** A latched fault outlives at least 20 consistent passes, and the relay stays commanded open on every
      pass from the latch to the one that clears it. */
  lemma {:induction false} LatchLasts(run: seq<Timed>, l: nat, c: nat)
    requires c < |run| && FaultStands(run, l, c) && !After(Wrapping, run, c + 1).d.fault
    ensures ConsistentPasses(run, l + 1, c + 1) >= RELAY_MISMATCH_CLEAR
    ensures forall k :: l <= k <= c && run[k].ev.Pass? ==> !After(Wrapping, run, k + 1).d.cmd
  {
    hide After, DrivenAt;
    OkCountBounded(run, l, c);
    assert After(Wrapping, run, c).d.fault;
    if run[c].ev.Pass? { PassDrive(run, c); } else { FaultElsewhere(run, c); }
    forall k | l <= k <= c && run[k].ev.Pass? ensures !After(Wrapping, run, k + 1).d.cmd {
      if k == l { assert After(Wrapping, run, l + 1).d.fault; LatchResetsOkCount(run, l); } else { PassDrive(run, k); }
    }
  }

  // ---------------------------------------------------------------- forgiveness

  function ClosedPasses(run: seq<Timed>, a: nat, i: nat): nat
    requires a <= i <= |run|
    decreases i
  {
    if i == a then 0 else ClosedPasses(run, a, i - 1) + (if ReadingAt(run, i - 1) == Consistent(true) then 1 else 0)
  }

  lemma {:induction false} StableStretch(run: seq<Timed>, i: nat) returns (m: nat)
    requires i <= |run|
    ensures m <= i && ClosedPasses(run, m, i) == StablePasses(run, i)
    ensures forall k :: m <= k < i ==> !Inconsistent(ReadingAt(run, k))
  {
    hide ReadingAt;
    if i == 0 || Inconsistent(ReadingAt(run, i - 1)) { m := i; } else { m := StableStretch(run, i - 1); }
  }

  /** The drop count falls only at the end of a stretch free of inconsistent passes in which the relay
      read closed and consistent at least 1200 times. */
  lemma {:induction false} ForgivenOnlyAfterStability(run: seq<Timed>, i: nat) returns (m: nat)
    requires i < |run| && After(Wrapping, run, i + 1).d.dropCount < After(Wrapping, run, i).d.dropCount
    ensures m <= i && ClosedPasses(run, m, i + 1) >= RELAY_STABLE_PASSES
    ensures forall k :: m <= k <= i ==> !Inconsistent(ReadingAt(run, k))
  {
    hide After, ReadingAt, DropsInARow;
    CountersAlwaysMatch(run, i);
    CountersAlwaysMatch(run, i + 1);
    assert Forgives(run, i);
    m := StableStretch(run, i + 1);
  }
}
