/** The smart-rotation decision: which rotator target and which Ultrabeam direction put a lobe on a station.
    Degrees are reals; rotator targets are whole degrees. */
module Steer {
  import opened Options

  // ------------------------------------------------------------- angles

  /** Any angle mapped to [0, 360). */
  function Norm(a: real): (r: real)
    ensures 0.0 <= r < 360.0
  {
    a - 360.0 * (a / 360.0).Floor as real
  }

  /** The unsigned smallest angle between two headings. */
  function Diff(a: real, b: real): (d: real)
    ensures 0.0 <= d <= 180.0
  {
    var d := Abs(Norm(a) - Norm(b));
    if d > 180.0 then 360.0 - d else d
  }

  function Abs(x: real): real { if x < 0.0 then -x else x }

  /** Rounding of a non-negative heading to whole degrees, halves up. */
  function Round(a: real): int { (a + 0.5).Floor }

  // ------------------------------------------------------------- the decision

  datatype Direction = Unknown | Forward | Reverse | Bidirectional

  /** How wide the lobes are (half-widths) and how far the rotator may be sent. */
  datatype Beam = Beam(lobe: real, bidirLobe: real, maxAz: real) {
    predicate Valid() { 0.0 < lobe < 90.0 && 0.0 < bidirLobe < 90.0 && 360.0 <= maxAz <= 450.0 }
  }

  datatype Inputs = Inputs(bearing: real, az: real, direction: Direction, on6m: bool)

  datatype Decision = Decision(rotateTo: Option<int>, direction: Option<Direction>)

  const DoNothing := Decision(None, None)

  function Travel(az: real, target: int): real { Abs(target as real - az) }

  /** The target for heading t with the least travel, through the overlap when the rotator has one. */
  function Best(az: real, maxAz: real, t: real): int {
    var r := Round(t);
    var whole := if r >= 360 then r - 360 else r;
    if (whole + 360) as real <= maxAz && Travel(az, whole + 360) < Travel(az, whole) then whole + 360 else whole
  }

  function Nearest(az: real, maxAz: real, t1: real, t2: real): int {
    var a, b := Best(az, maxAz, t1), Best(az, maxAz, t2);
    if Travel(az, b) < Travel(az, a) then b else a
  }

  function Rotate(i: Inputs, target: int, dir: Direction): Decision {
    Decision(Some(target), if dir != i.direction then Some(dir) else None)
  }

  function Decide(beam: Beam, i: Inputs): Decision {
    var b := Norm(i.bearing);
    match i.direction
    case Bidirectional =>
      if Diff(b, i.az) <= beam.bidirLobe || Diff(b, i.az + 180.0) <= beam.bidirLobe then DoNothing
      else Decision(Some(Nearest(i.az, beam.maxAz, b, Norm(b + 180.0))), None)
    case Unknown => Decision(Some(Best(i.az, beam.maxAz, b)), None)
    case _ =>
      if Diff(b, i.az) <= beam.lobe then
        if i.direction == Forward then DoNothing else Decision(None, Some(Forward))
      else if !i.on6m && Diff(b, i.az + 180.0) <= beam.lobe then
        if i.direction == Reverse then DoNothing else Decision(None, Some(Reverse))
      else
        var fwd := Best(i.az, beam.maxAz, b);
        if i.on6m then Rotate(i, fwd, Forward)
        else
          var rev := Best(i.az, beam.maxAz, Norm(b + 180.0));
          if Travel(i.az, rev) < Travel(i.az, fwd) then Rotate(i, rev, Reverse) else Rotate(i, fwd, Forward)
  }

  /** The inputs once the decision has been carried out. */
  function Executed(i: Inputs, d: Decision): Inputs {
    Rotated(i, d).(direction := d.direction.GetOr(i.direction))
  }

  /** The inputs once only the rotation of a decision has been carried out. */
  function Rotated(i: Inputs, d: Decision): Inputs {
    i.(az := if d.rotateTo.Some? then d.rotateTo.value as real else i.az)
  }

  // ------------------------------------------------------------- what the decision is for

  /** The angle from b to a, k turns apart. */
  function Apart(a: real, b: real, k: int): real { Abs(a - b - 360.0 * k as real) }

  /** A lobe of the given half-width around a heading reaches a bearing, by whatever number of turns. */
  ghost predicate Covers(heading: real, width: real, bearing: real) {
    exists k: int :: Apart(bearing, heading, k) <= width
  }

  /** Some lobe that is live in this direction reaches the bearing. */
  ghost predicate Served(beam: Beam, i: Inputs) {
    match i.direction
    case Forward => Covers(i.az, beam.lobe, i.bearing)
    case Reverse => Covers(i.az + 180.0, beam.lobe, i.bearing)
    case Bidirectional => Covers(i.az, beam.bidirLobe, i.bearing) || Covers(i.az + 180.0, beam.bidirLobe, i.bearing)
    case Unknown => false
  }

  /** A live lobe reaches the bearing, or one a direction change alone could make live: never the back lobe on 6m. */
  ghost predicate Reachable(beam: Beam, i: Inputs) {
    if i.direction == Bidirectional then Served(beam, i)
    else Served(beam, i.(direction := Forward)) || (!i.on6m && Served(beam, i.(direction := Reverse)))
  }

  /** A whole-degree target that points the boom at the rounded heading h, by whatever number of turns. */
  predicate Aims(h: real, target: int) { (target - Round(Norm(h))) % 360 == 0 }

  // ------------------------------------------------------------- angle lemmas

  lemma {:induction false} NormOfTurns(a: real, k: int)
    ensures Norm(a + 360.0 * k as real) == Norm(a)
  {
    assert (a + 360.0 * k as real) / 360.0 == a / 360.0 + k as real;
    assert (a / 360.0 + k as real).Floor == (a / 360.0).Floor + k;
  }

  lemma {:induction false} NormUnique(a: real, r: real, k: int)
    requires 0.0 <= r < 360.0 && a == r + 360.0 * k as real
    ensures Norm(a) == r
  {
    NormOfTurns(r, k);
    assert (r / 360.0).Floor == 0;
  }

  /** Diff is the circular distance: no number of turns brings the two angles closer, and one attains it. */
  lemma {:induction false} DiffIsCircular(a: real, b: real)
    ensures forall k: int :: Diff(a, b) <= Apart(a, b, k)
    ensures exists k: int :: Diff(a, b) == Apart(a, b, k)
  {
    var m := (a / 360.0).Floor - (b / 360.0).Floor;
    var d := Norm(a) - Norm(b);
    assert a - b - 360.0 * m as real == d;
    var best := if Abs(d) <= 180.0 then m else if d > 0.0 then m + 1 else m - 1;
    assert Diff(a, b) == Apart(a, b, best);
    forall k: int
      ensures Diff(a, b) <= Apart(a, b, k)
    {
      var n := k - m;
      assert a - b - 360.0 * k as real == d - 360.0 * n as real;
      if n >= 1 { assert 360.0 * n as real >= 360.0; }
      if n <= -1 { assert 360.0 * n as real <= -360.0; }
    }
  }

  /** So a lobe reaches a bearing exactly when their difference is within its half-width. */
  lemma {:induction false} CoversExactlyWithin(heading: real, width: real, bearing: real)
    ensures Covers(heading, width, bearing) <==> Diff(Norm(bearing), heading) <= width
  {
    DiffIsCircular(bearing, heading);
    NormUnique(Norm(bearing), Norm(bearing), 0);
    assert Diff(Norm(bearing), heading) == Diff(bearing, heading);
  }

  /** The difference of two headings is unchanged by turns, and turning one of them round complements it. */
  lemma {:induction false} HalfTurn(a: real, b: real)
    ensures Diff(a, b + 180.0) == 180.0 - Diff(a, b)
  {
    var q := Norm(b);
    var k := (b / 360.0).Floor;
    if q < 180.0 { NormUnique(b + 180.0, q + 180.0, k); } else { NormUnique(b + 180.0, q - 180.0, k + 1); }
  }

  /** How far rounding moves a heading. */
  function RoundingError(h: real): (e: real)
    ensures 0.0 <= e <= 0.5
  {
    Abs(Round(Norm(h)) as real - Norm(h))
  }

  /** Rounding the heading to whole degrees moves it by no more than a lobe of this half-width; half a degree always does. */
  predicate Fits(width: real, h: real): (f: bool)
    ensures width >= 0.5 ==> f
  {
    RoundingError(h) <= width
  }

  lemma {:induction false} FitsNormed(width: real, h: real)
    ensures Fits(width, Norm(h)) == Fits(width, h)
  {
    NormTwice(h);
  }

  /** Every target aimed at a heading misses it by exactly the rounding error; the half turn has the same error. */
  lemma {:induction false} AimMisses(h: real, target: int)
    requires Aims(h, target)
    ensures Diff(Norm(h), target as real) == RoundingError(h)
  {
    var n := Norm(h);
    var k := (target - Round(n)) / 360;
    assert target == Round(n) + 360 * k;
    NormUnique(n, n, 0);
    if Round(n) < 360 {
      NormUnique(target as real, Round(n) as real, k);
    } else {
      NormUnique(target as real, (Round(n) - 360) as real, k + 1);
    }
  }

  lemma {:induction false} BackAimMisses(h: real, target: int)
    requires Aims(h + 180.0, target)
    ensures Diff(Norm(h), target as real + 180.0) == RoundingError(h)
    ensures Diff(Norm(h), target as real) == 180.0 - RoundingError(h)
  {
    var n, m := Norm(h), Norm(h + 180.0);
    var k := (h / 360.0).Floor;
    NormUnique(n, n, 0);
    NormUnique(m, m, 0);
    if n < 180.0 {
      NormUnique(h + 180.0, n + 180.0, k);
      assert (m + 0.5).Floor == (n + 0.5).Floor + 180;
    } else {
      NormUnique(h + 180.0, n - 180.0, k + 1);
      assert (m + 0.5).Floor == (n + 0.5).Floor - 180;
    }
    AimMisses(h + 180.0, target);
    HalfTurn(m, n);
    assert RoundingError(h + 180.0) == RoundingError(h);
    OppositeDiff(n, m, target as real);
    HalfTurn(n, target as real);
  }

  /** Two opposite headings are at complementary angles from any third. */
  lemma {:induction false} OppositeDiff(n: real, m: real, t: real)
    requires 0.0 <= n < 360.0 && 0.0 <= m < 360.0 && (m == n + 180.0 || m == n - 180.0)
    ensures Diff(n, t) == 180.0 - Diff(m, t)
  {}

  /** Best aims at its heading, stays in range, and no other in-range target for that heading is nearer. */
  lemma {:induction false} BestIsLeastTravel(beam: Beam, az: real, h: real, c: int)
    requires beam.Valid()
    requires 0 <= c && c as real <= beam.maxAz && Aims(h, c)
    ensures var t := Best(az, beam.maxAz, Norm(h));
      && Aims(h, t) && 0 <= t && t as real <= beam.maxAz
      && Travel(az, t) <= Travel(az, c)
  {}

  lemma {:induction false} BestAims(beam: Beam, az: real, h: real)
    requires beam.Valid()
    ensures var t := Best(az, beam.maxAz, Norm(h)); Aims(h, t) && 0 <= t && t as real <= beam.maxAz
  {}

  lemma {:induction false} NormTwice(b: real)
    ensures Norm(Norm(b)) == Norm(b)
    ensures Norm(Norm(b) + 180.0) == Norm(b + 180.0)
  {
    NormUnique(Norm(b), Norm(b), 0);
    NormOfTurns(Norm(b) + 180.0, (b / 360.0).Floor);
    assert Norm(b) + 180.0 + 360.0 * (b / 360.0).Floor as real == b + 180.0;
  }

  // ------------------------------------------------------------- main results

  /** A known direction rotates exactly when no lobe it could use without rotating reaches the bearing. */
  lemma {:induction false} RotatesExactlyWhenOutOfReach(beam: Beam, i: Inputs)
    requires beam.Valid() && i.direction != Unknown
    ensures Decide(beam, i).rotateTo.Some? <==> !Reachable(beam, i)
  {
    CoversExactlyWithin(i.az, beam.lobe, i.bearing);
    CoversExactlyWithin(i.az + 180.0, beam.lobe, i.bearing);
    CoversExactlyWithin(i.az, beam.bidirLobe, i.bearing);
    CoversExactlyWithin(i.az + 180.0, beam.bidirLobe, i.bearing);
  }

  /** Every rotation goes to a whole degree in range, aimed so the resulting lobe points at the rounded bearing,
      and travels no further than any other in-range target for the bearing or, where the back lobe counts, for
      its opposite. The front lobe wins a tie, and is the only one on 6m or with no direction known. */
  lemma {:induction false} RotationIsLeastTravel(beam: Beam, i: Inputs, c: int)
    requires beam.Valid() && Decide(beam, i).rotateTo.Some?
    requires 0 <= c && c as real <= beam.maxAz
    requires Aims(i.bearing, c) || Aims(i.bearing + 180.0, c)
    ensures var d := Decide(beam, i); var t := d.rotateTo.value; var end := d.direction.GetOr(i.direction);
      var frontOnly := i.direction == Unknown || (i.on6m && i.direction != Bidirectional);
      && 0 <= t && t as real <= beam.maxAz
      && (end == Forward || end == Unknown ==> Aims(i.bearing, t))
      && (end == Reverse ==> Aims(i.bearing + 180.0, t) && !i.on6m)
      && (Aims(i.bearing, t) || Aims(i.bearing + 180.0, t))
      && (!frontOnly || Aims(i.bearing, c) ==> Travel(i.az, t) <= Travel(i.az, c))
      && (end == Reverse && Aims(i.bearing, c) ==> Travel(i.az, t) < Travel(i.az, c))
  {
    NormTwice(i.bearing);
    BestAims(beam, i.az, i.bearing);
    BestAims(beam, i.az, i.bearing + 180.0);
    if Aims(i.bearing, c) { BestIsLeastTravel(beam, i.az, i.bearing, c); }
    if Aims(i.bearing + 180.0, c) { BestIsLeastTravel(beam, i.az, i.bearing + 180.0, c); }
  }

  /** Whether the target the decision rotates to is for the bearing itself or its opposite, it misses by the rounding error. */
  lemma {:induction false} RotationMisses(beam: Beam, i: Inputs)
    requires beam.Valid() && Decide(beam, i).rotateTo.Some?
    ensures var d := Decide(beam, i); var t := d.rotateTo.value as real; var e := RoundingError(i.bearing);
      var end := d.direction.GetOr(i.direction);
      && (end == Forward || end == Unknown ==> Diff(Norm(i.bearing), t) == e)
      && (end == Reverse ==> Diff(Norm(i.bearing), t + 180.0) == e && Diff(Norm(i.bearing), t) == 180.0 - e && !i.on6m)
      && (end == Bidirectional ==> (Diff(Norm(i.bearing), t) == e || Diff(Norm(i.bearing), t + 180.0) == e))
      && Diff(Norm(i.bearing), t + 180.0) == 180.0 - Diff(Norm(i.bearing), t)
      && (end == Reverse ==> i.direction == Forward || i.direction == Reverse)
  {
    var d := Decide(beam, i);
    var t := d.rotateTo.value;
    RotationAims(beam, i);
    if Aims(i.bearing, t) { AimMisses(i.bearing, t); }
    if Aims(i.bearing + 180.0, t) { BackAimMisses(i.bearing, t); }
    HalfTurn(Norm(i.bearing), t as real);
  }

  function LiveLobe(beam: Beam, dir: Direction): real { if dir == Bidirectional then beam.bidirLobe else beam.lobe }

  /** Deciding is a fixpoint: carried out, a decision leaves nothing more to do, and leaves a live lobe on the bearing,
      exactly when it does not rotate or the lobe holds the rounding of the bearing; on 6m a fixed lobe ends up forward. */
  lemma {:induction false} DecideIsFixpoint(beam: Beam, i: Inputs)
    requires beam.Valid() && i.direction != Unknown
    ensures var after := Executed(i, Decide(beam, i));
      && (Decide(beam, after) == DoNothing <==> Decide(beam, i).rotateTo.None? || Fits(LiveLobe(beam, i.direction), i.bearing))
      && (Decide(beam, after) == DoNothing <==> Served(beam, after))
      && (i.on6m && i.direction != Bidirectional ==> after.direction == Forward)
      && (i.direction == Bidirectional <==> after.direction == Bidirectional)
  {
    hide Decide, Executed;
    var after := Executed(i, Decide(beam, i));
    if Decide(beam, i).rotateTo.Some? {
      RotationSettles(beam, i);
    } else {
      DirectionSettles(beam, i);
    }
    if Decide(beam, after) == DoNothing { DoneIsServed(beam, after); } else { ServedIsDone(beam, after); }
  }

  lemma {:induction false} RotationSettles(beam: Beam, i: Inputs)
    requires beam.Valid() && i.direction != Unknown && Decide(beam, i).rotateTo.Some?
    ensures var after := Executed(i, Decide(beam, i));
      && (Decide(beam, after) == DoNothing <==> Fits(LiveLobe(beam, i.direction), i.bearing))
      && (i.on6m && i.direction != Bidirectional ==> after.direction == Forward)
      && (i.direction == Bidirectional <==> after.direction == Bidirectional) && after.direction != Unknown && after.on6m == i.on6m
  {
    hide Norm, Best, Travel, Diff, RoundingError;
    RotationMisses(beam, i);
  }

  lemma {:induction false} DirectionSettles(beam: Beam, i: Inputs)
    requires beam.Valid() && i.direction != Unknown && Decide(beam, i).rotateTo.None?
    ensures var after := Executed(i, Decide(beam, i));
      && Decide(beam, after) == DoNothing
      && (i.on6m && i.direction != Bidirectional ==> after.direction == Forward)
      && (i.direction == Bidirectional <==> after.direction == Bidirectional) && after.direction != Unknown && after.on6m == i.on6m
  {
    hide Norm, Best, Travel, Diff;
    HalfTurn(Norm(i.bearing), i.az);
  }

  /** A decision to do nothing, or the lobe within reach in the current direction, means the bearing is served. */
  lemma {:induction false} DoneIsServed(beam: Beam, i: Inputs)
    requires i.direction != Unknown && Decide(beam, i) == DoNothing
    ensures Served(beam, i)
  {
    CoversExactlyWithin(i.az, beam.lobe, i.bearing);
    CoversExactlyWithin(i.az + 180.0, beam.lobe, i.bearing);
    CoversExactlyWithin(i.az, beam.bidirLobe, i.bearing);
    CoversExactlyWithin(i.az + 180.0, beam.bidirLobe, i.bearing);
  }

  /** And served, with a fixed lobe forward on 6m, there is nothing to do. */
  lemma {:induction false} ServedIsDone(beam: Beam, i: Inputs)
    requires beam.Valid() && i.direction != Unknown && (i.on6m && i.direction != Bidirectional ==> i.direction == Forward)
    ensures Served(beam, i) ==> Decide(beam, i) == DoNothing
  {
    hide Norm, Best, Diff, Travel, Apart, Covers;
    CoversExactlyWithin(i.az, beam.lobe, i.bearing);
    CoversExactlyWithin(i.az + 180.0, beam.lobe, i.bearing);
    CoversExactlyWithin(i.az, beam.bidirLobe, i.bearing);
    CoversExactlyWithin(i.az + 180.0, beam.bidirLobe, i.bearing);
    HalfTurn(Norm(i.bearing), i.az);
  }

  /** The rotation alone, its direction change still to come, already settles the decision exactly when rounding
      the bearing moves it by no more than the lobe. Otherwise the same rotation is asked for again. */
  lemma {:induction false} RotationSettlesExactlyWhen(beam: Beam, i: Inputs)
    requires beam.Valid() && i.direction != Unknown && Decide(beam, i).rotateTo.Some?
    ensures var d := Decide(beam, i); var again := Decide(beam, Rotated(i, d));
      && (again.rotateTo.None? <==> Fits(LiveLobe(beam, i.direction), i.bearing))
      && (again.rotateTo.None? ==> again == Decision(None, d.direction))
      && (again.rotateTo.Some? ==> again == d)
  {
    var d := Decide(beam, i);
    var t := d.rotateTo.value;
    RotationMisses(beam, i);
    var next := Rotated(i, d);
    if !Fits(LiveLobe(beam, i.direction), i.bearing) {
      RotationRepeats(beam, i);
    }
  }

  /** From its own target, an unsettled rotation is decided again: it costs nothing and every other costs more. */
  lemma {:induction false} RotationRepeats(beam: Beam, i: Inputs)
    requires beam.Valid() && i.direction != Unknown && Decide(beam, i).rotateTo.Some?
    requires !Fits(LiveLobe(beam, i.direction), i.bearing)
    ensures Decide(beam, Rotated(i, Decide(beam, i))) == Decide(beam, i)
  {
    hide Best, Diff, Norm, Travel, Aims, Round, RoundingError;
    var d := Decide(beam, i);
    var t := d.rotateTo.value;
    RotationMisses(beam, i);
    NormTwice(i.bearing);
    RotationAims(beam, i);
    if Aims(i.bearing, t) { OnTarget(beam, i.bearing, t); }
    if Aims(i.bearing + 180.0, t) {
      OnTarget(beam, i.bearing + 180.0, t);
      NormOfTurns(i.bearing, 1);
      assert i.bearing + 180.0 + 180.0 == i.bearing + 360.0 * 1 as real;
    }
  }

  lemma {:induction false} RotationAims(beam: Beam, i: Inputs)
    requires beam.Valid() && Decide(beam, i).rotateTo.Some?
    ensures var d := Decide(beam, i); var t := d.rotateTo.value; var end := d.direction.GetOr(i.direction);
      && 0 <= t && t as real <= beam.maxAz
      && (end == Forward || end == Unknown ==> Aims(i.bearing, t))
      && (end == Reverse ==> Aims(i.bearing + 180.0, t))
      && (Aims(i.bearing, t) || Aims(i.bearing + 180.0, t))
  {
    var whole := Round(Norm(i.bearing));
    var c := if whole >= 360 then whole - 360 else whole;
    assert Aims(i.bearing, c);
    RotationIsLeastTravel(beam, i, c);
  }

  /** With the boom on a target for a heading, Best stays there and the opposite heading costs travel. */
  lemma {:induction false} OnTarget(beam: Beam, h: real, t: int)
    requires beam.Valid() && Aims(h, t) && 0 <= t && t as real <= beam.maxAz
    ensures Best(t as real, beam.maxAz, Norm(h)) == t
    ensures Travel(t as real, t) == 0.0
    ensures Travel(t as real, Best(t as real, beam.maxAz, Norm(h + 180.0))) > 0.0
  {
    BestIsLeastTravel(beam, t as real, h, t);
    BestAims(beam, t as real, h + 180.0);
    OppositeAims(h, t, Best(t as real, beam.maxAz, Norm(h + 180.0)));
  }

  /** No target aims both ways. */
  lemma {:induction false} OppositeAims(h: real, t: int, u: int)
    requires Aims(h, t)
    ensures Aims(h + 180.0, u) ==> t != u
  {
    if Aims(h + 180.0, u) && t == u {
      AimMisses(h, t);
      BackAimMisses(h, u);
      assert false;
    }
  }

  /** A bearing of 10.5 degrees under a lobe of a quarter degree: the boom is already on its target, and the
      decision asks for that same target forever. */
  lemma {:induction false} NarrowLobeNeverSettles()
    ensures var beam := Beam(0.25, 0.25, 360.0); var i := Inputs(10.5, 191.0, Forward, false);
      && beam.Valid() && Decide(beam, i) == Decision(Some(191), Some(Reverse)) && Rotated(i, Decide(beam, i)) == i
  {}
}
