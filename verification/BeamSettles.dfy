/** Deciding and flushing call each other. The exact inputs on which that never ends are characterised, for every lobe and
    both ways in, and so are those on which it goes round at all; on all others two flushes are enough and deciding is a
    straight line. When the lobe holds the rounding of the bearing, as half a degree always does, it never goes round. */
module BeamSettles {
  import opened Options
  import opened Steer
  import opened BeamModel

  // ------------------------------------------------------------- when deciding still rotates after rotating

  /** The state decideAndApply hands to its flush once the rotation of decision d went out. */
  function Turned(s: State, d: Decision, b: real, now: int): State
    requires d.rotateTo.Some? && d.direction.Some?
  {
    var sent := SendRotate(Noted(s, None, d.direction), true, d.rotateTo.value, now);
    Hold(Noted(sent, d.rotateTo, d.direction), Some(Held(d.direction.value, b)))
  }

  /** That flush decides from the world where only the rotation was carried out, and is as free to go as before. */
  lemma {:induction false} TurnIsTrusted(s: State, d: Decision, b: real, now: int)
    requires d.rotateTo.Some? && d.direction.Some?
    ensures var t := Turned(s, d, b, now);
      && Situation(t, now, b) == Rotated(Situation(s, now, b), d)
      && (Open(t, now) <==> Open(s, now))
      && (Synced(s, now) == s ==> Synced(t, now) == t)
      && t.orders.pending == Some(Held(d.direction.value, b))
      && t.out == s.out + [SetAz(d.rotateTo.value)]
      && t.orders.last.Some? == s.orders.last.Some?
      && (s.orders.last.Some? ==> t.orders.last.value.bearing == s.orders.last.value.bearing)
  {}

  lemma {:induction false} SyncIdempotent(s: State, now: int)
    ensures var t := Synced(s, now); Synced(t, now) == t
  {}

  lemma {:induction false} AskedInSync(s: State, b: real, now: int)
    requires Synced(s, now) == s
    ensures Synced(Asked(s, b), now) == Asked(s, b)
  {}

  /** Whether a flush would send or re-decide a held direction rather than keep or drop it. */
  predicate Open(s: State, now: int) {
    !Refused(s.lock) && s.sib.ant.Live() && FlipMayGo(s, now)
  }

  /** Deciding for b now rotates, and again after the rotation. */
  predicate Restless(c: Config, s: State, now: int, b: real) {
    var i := Situation(s, now, b);
    && Decide(c.beam, i).rotateTo.Some? && Decide(c.beam, i).direction.Some?
    && !Fits(c.beam.lobe, b)
  }

  /** A decision for b that sends its rotation and then decides to send it again. */
  predicate GoesRound(c: Config, sends: nat -> bool, s: State, now: int, b: real) {
    Restless(c, s, now, b) && Open(s, now) && sends(|s.out|)
  }

  /** Deciding with a synced state ends within one flush, unless it goes round. */
  lemma {:induction false} DecideEnds(c: Config, sends: nat -> bool, s: State, now: int, b: real, flushes: nat)
    requires c.beam.Valid() && Synced(s, now) == s && flushes >= 1
    requires !GoesRound(c, sends, s, now, b)
    ensures DecideAndApply(c, sends, s, now, b, flushes).finished
    ensures DecideAndApply(c, sends, s, now, b, flushes) == DecideAndApply(c, sends, s, now, b, 1)
  {
    hide Decide, Fits, Flush, Situation, Synced;
    var i := Situation(s, now, b);
    var d := Decide(c.beam, i);
    if d.direction.Some? {
      var noted := Noted(s, None, d.direction);
      DirectionMeansKnown(c.beam, i);
      assert i.bearing == b && i.direction == EffectiveDirection(s, now) by { SituationIs(s, now, b); }
      if d.rotateTo.Some? && sends(|s.out|) {
        TurnIsTrusted(s, d, b, now);
        RotationSettlesExactlyWhen(c.beam, i);
        FlushEnds(c, sends, Turned(s, d, b, now), now, b, flushes);
      } else if d.rotateTo.None? {
        HoldingIsNeutral(s, d.direction, Held(d.direction.value, b), now, b);
        FlushEnds(c, sends, Hold(noted, Some(Held(d.direction.value, b))), now, b, flushes);
      }
    }
  }

  lemma {:induction false} SituationIs(s: State, now: int, b: real)
    ensures Situation(s, now, b) == Inputs(b, EffectiveAz(s, now), EffectiveDirection(s, now), On6m(s.sib))
  {}

  lemma {:induction false} HoldingIsNeutral(s: State, direction: Option<Direction>, h: Held, now: int, b: real)
    ensures var t := Hold(Noted(s, None, direction), Some(h));
      Situation(t, now, b) == Situation(s, now, b) && (Synced(s, now) == s ==> Synced(t, now) == t)
  {}

  /** A direction is only ever decided on when one is known, and a bidirectional beam never changes it. */
  lemma {:induction false} DirectionMeansKnown(beam: Beam, i: Inputs)
    ensures Decide(beam, i).direction.Some? ==> i.direction == Forward || i.direction == Reverse
    ensures Decide(beam, i).direction.Some? ==> Decide(beam, i).direction.value in {Forward, Reverse}
  {}

  lemma {:induction false} FlushEnds(c: Config, sends: nat -> bool, s: State, now: int, b: real, flushes: nat)
    requires c.beam.Valid() && Synced(s, now) == s && flushes >= 1
    requires s.orders.pending.Some? && s.orders.pending.value.bearing == b
    requires Decide(c.beam, Situation(s, now, b)).rotateTo.None? || !Open(s, now)
    ensures Flush(c, sends, s, now, flushes).finished
    ensures Flush(c, sends, s, now, flushes) == Flush(c, sends, s, now, 1)
  {}

  // ------------------------------------------------------------- going round tries the rotation again

  lemma {:induction false} DecideGrows(c: Config, sends: nat -> bool, s: State, now: int, b: real, flushes: nat)
    ensures s.out <= DecideAndApply(c, sends, s, now, b, flushes).s.out
    decreases flushes, 1
  {
    hide Decide, Situation;
    var d := Decide(c.beam, Situation(s, now, b));
    var noted := Noted(s, None, d.direction);
    if d.direction.Some? && (d.rotateTo.None? || sends(|s.out|)) {
      var turned := if d.rotateTo.Some? then Noted(SendRotate(noted, true, d.rotateTo.value, now), d.rotateTo, d.direction) else noted;
      FlushGrows(c, sends, Hold(turned, Some(Held(d.direction.value, b))), now, flushes);
    }
  }

  lemma {:induction false} FlushGrows(c: Config, sends: nat -> bool, before: State, now: int, flushes: nat)
    ensures before.out <= Flush(c, sends, before, now, flushes).s.out
    decreases flushes, 0
  {
    hide Decide, Situation, FlipMayGo, Synced, DecideAndApply, Refused;
    SyncGrows(before, now);
    var s := Synced(before, now);
    if flushes > 0 && s.orders.pending.Some? {
      DecideGrows(c, sends, Hold(s, None), now, s.orders.pending.value.bearing, flushes - 1);
    }
  }

  lemma {:induction false} SyncGrows(s: State, now: int)
    ensures s.out <= Synced(s, now).out
  {}

  /** A decision that rotates tries its rotation first. */
  lemma {:induction false} RotatesFirst(c: Config, sends: nat -> bool, s: State, now: int, b: real, flushes: nat)
    requires Decide(c.beam, Situation(s, now, b)).rotateTo.Some?
    ensures var t := DecideAndApply(c, sends, s, now, b, flushes).s;
      |t.out| > |s.out| && t.out[|s.out|] == SetAz(Decide(c.beam, Situation(s, now, b)).rotateTo.value)
  {
    hide Decide, Situation;
    var d := Decide(c.beam, Situation(s, now, b));
    var turned := Noted(SendRotate(Noted(s, None, d.direction), true, d.rotateTo.value, now), d.rotateTo, d.direction);
    if sends(|s.out|) && d.direction.Some? {
      FlushGrows(c, sends, Hold(turned, Some(Held(d.direction.value, b))), now, flushes);
    }
  }

  /** Going round for the latest request tries the same rotation a second time, at once. */
  lemma {:induction false} RoundTriesAgain(c: Config, sends: nat -> bool, s: State, now: int, b: real, flushes: nat)
    requires c.beam.Valid() && Synced(s, now) == s && AskedFor(s, b) && GoesRound(c, sends, s, now, b) && flushes >= 1
    ensures var t := DecideAndApply(c, sends, s, now, b, flushes).s;
      |t.out| >= |s.out| + 2 && t.out[|s.out|].SetAz? && t.out[|s.out| + 1] == t.out[|s.out|]
  {
    hide Decide, Fits, Flush, Situation;
    RestlessRound(c, sends, s, now, b, flushes);
    var d := Decide(c.beam, Situation(s, now, b));
    var t := Hold(Turned(s, d, b, now), None);
    RotatesFirst(c, sends, s, now, b, flushes);
    RotatesFirst(c, sends, t, now, b, flushes - 1);
  }

  // ------------------------------------------------------------- the exact inputs that never end

  /** The latest request is the one for this bearing. */
  predicate AskedFor(s: State, b: real) { s.orders.last.Some? && s.orders.last.value.bearing == b }

  /** One more round of a restless decision: the same rotation again, and everything as before but the log. */
  lemma {:induction false} RestlessRound(c: Config, sends: nat -> bool, s: State, now: int, b: real, flushes: nat)
    requires c.beam.Valid() && Synced(s, now) == s && AskedFor(s, b)
    requires Restless(c, s, now, b) && Open(s, now) && sends(|s.out|) && flushes >= 1
    ensures var t := Hold(Turned(s, Decide(c.beam, Situation(s, now, b)), b, now), None);
      && DecideAndApply(c, sends, s, now, b, flushes) == DecideAndApply(c, sends, t, now, b, flushes - 1).(changed := true)
      && Decide(c.beam, Situation(t, now, b)) == Decide(c.beam, Situation(s, now, b))
      && Synced(t, now) == t && AskedFor(t, b) && Restless(c, t, now, b) && Open(t, now) && |t.out| == |s.out| + 1
  {
    hide Decide, Fits;
    var i := Situation(s, now, b);
    var d := Decide(c.beam, i);
    DirectionMeansKnown(c.beam, i);
    TurnIsTrusted(s, d, b, now);
    RotationSettlesExactlyWhen(c.beam, i);
    var turned := Turned(s, d, b, now);
    assert DecideAndApply(c, sends, s, now, b, flushes) == Flush(c, sends, turned, now, flushes);
    FlushDecidesAgain(c, sends, turned, now, b, flushes);
  }

  lemma {:induction false} FlushDecidesAgain(c: Config, sends: nat -> bool, s: State, now: int, b: real, flushes: nat)
    requires Synced(s, now) == s && AskedFor(s, b) && Open(s, now) && flushes >= 1
    requires s.orders.pending.Some? && s.orders.pending.value.bearing == b
    requires Decide(c.beam, Situation(s, now, b)).rotateTo.Some?
    ensures var t := Hold(s, None);
      && Flush(c, sends, s, now, flushes) == DecideAndApply(c, sends, t, now, b, flushes - 1).(changed := true)
      && Situation(t, now, b) == Situation(s, now, b)
      && Synced(t, now) == t && Open(t, now)
  {}

  lemma {:induction false} RestlessForever(c: Config, sends: nat -> bool, s: State, now: int, b: real, flushes: nat)
    requires c.beam.Valid() && Synced(s, now) == s && AskedFor(s, b)
    requires Restless(c, s, now, b) && Open(s, now)
    requires forall k: nat :: k >= |s.out| ==> sends(k)
    ensures !DecideAndApply(c, sends, s, now, b, flushes).finished
    decreases flushes
  {
    hide Decide, Fits, Turned, Synced, Open, Situation, AskedFor;
    if flushes > 0 {
      RestlessRound(c, sends, s, now, b, flushes);
      RestlessForever(c, sends, Hold(Turned(s, Decide(c.beam, Situation(s, now, b)), b, now), None), now, b, flushes - 1);
    }
  }

  lemma {:induction false} RestlessUntilLost(c: Config, sends: nat -> bool, s: State, now: int, b: real, lost: nat)
    requires c.beam.Valid() && Synced(s, now) == s && AskedFor(s, b)
    requires Restless(c, s, now, b) && Open(s, now)
    requires lost >= |s.out| && !sends(lost)
    ensures DecideAndApply(c, sends, s, now, b, lost - |s.out| + 1).finished
    decreases lost - |s.out|
  {
    hide Decide, Fits, DecideAndApply, Turned, Synced, Open, Situation, AskedFor;
    var flushes: nat := lost - |s.out| + 1;
    if sends(|s.out|) {
      RestlessRound(c, sends, s, now, b, flushes);
      RestlessUntilLost(c, sends, Hold(Turned(s, Decide(c.beam, Situation(s, now, b)), b, now), None), now, b, lost);
    } else {
      DecideEnds(c, sends, s, now, b, flushes);
    }
  }

  /** For every lobe the configuration accepts: handling the latest request comes to an end exactly unless it
      rotates and flips, the flip may go now, rounding the bearing moves it by more than the lobe, and no
      publish ever fails again. */
  lemma {:induction false} EndsExactlyWhen(c: Config, sends: nat -> bool, s: State, now: int, b: real)
    requires c.beam.Valid() && Synced(s, now) == s && AskedFor(s, b)
    ensures (exists flushes: nat :: DecideAndApply(c, sends, s, now, b, flushes).finished)
      <==> !(Restless(c, s, now, b) && Open(s, now) && forall k: nat :: k >= |s.out| ==> sends(k))
  {
    if Restless(c, s, now, b) && Open(s, now) {
      if k: nat :| k >= |s.out| && !sends(k) {
        RestlessUntilLost(c, sends, s, now, b, k);
      } else {
        forall flushes: nat ensures !DecideAndApply(c, sends, s, now, b, flushes).finished {
          RestlessForever(c, sends, s, now, b, flushes);
        }
      }
    } else {
      DecideEnds(c, sends, s, now, b, 1);
    }
  }

  lemma {:induction false} FlushOfRotation(c: Config, sends: nat -> bool, before: State, now: int, flushes: nat)
    requires var s := Synced(before, now); s.orders.pending.Some? && Open(s, now)
    requires var s := Synced(before, now); var b := s.orders.pending.value.bearing;
      AskedFor(s, b) && Decide(c.beam, Situation(s, now, b)).rotateTo.Some?
    ensures var s := Synced(before, now);
      Flush(c, sends, before, now, flushes + 1).finished
        == DecideAndApply(c, sends, Hold(s, None), now, s.orders.pending.value.bearing, flushes).finished
  {
    hide Decide;
    var s := Synced(before, now);
    FreeingIsNeutral(s, now, s.orders.pending.value.bearing);
  }

  lemma {:induction false} FlushOfNone(c: Config, sends: nat -> bool, before: State, now: int)
    requires var s := Synced(before, now); s.orders.pending.Some? && Open(s, now) ==> var b := s.orders.pending.value.bearing;
      !AskedFor(s, b) || Decide(c.beam, Situation(s, now, b)).rotateTo.None?
    ensures Flush(c, sends, before, now, 1).finished
  {
    hide Decide;
    var s := Synced(before, now);
    if s.orders.pending.Some? { FreeingIsNeutral(s, now, s.orders.pending.value.bearing); }
  }

  /** Taking the held flip off hold changes nothing a decision looks at. */
  lemma {:induction false} FreeingIsNeutral(s: State, now: int, b: real)
    ensures var t := Hold(s, None);
      && Situation(t, now, b) == Situation(s, now, b) && (Open(t, now) <==> Open(s, now)) && (AskedFor(t, b) <==> AskedFor(s, b))
      && (Synced(s, now) == s ==> Synced(t, now) == t) && t.out == s.out
      && EffectiveDirection(t, now) == EffectiveDirection(s, now) && FlipMayGo(t, now) == FlipMayGo(s, now)
  {}

  /** The same for the other way in, a flush on a tick or on a report from the controller or the radio: it comes to an
      end exactly unless it holds a flip for the latest request, may go now, is restless and no publish ever fails again. */
  lemma {:induction false} FlushEndsExactlyWhen(c: Config, sends: nat -> bool, before: State, now: int)
    requires c.beam.Valid()
    ensures var s := Synced(before, now);
      (exists flushes: nat :: Flush(c, sends, before, now, flushes).finished)
      <==> !(&& s.orders.pending.Some? && AskedFor(s, s.orders.pending.value.bearing) && Open(s, now)
             && Restless(c, s, now, s.orders.pending.value.bearing) && forall k: nat :: k >= |s.out| ==> sends(k))
  {
    hide Decide, DecideAndApply, Flush, Situation, Synced, AskedFor, Open, Fits;
    SyncIdempotent(before, now);
    var s := Synced(before, now);
    if s.orders.pending.Some? && Open(s, now) {
      var b := s.orders.pending.value.bearing;
      var free := Hold(s, None);
      FreeingIsNeutral(s, now, b);
      if AskedFor(s, b) && Decide(c.beam, Situation(s, now, b)).rotateTo.Some? {
        EndsExactlyWhen(c, sends, free, now, b);
        forall n: nat ensures Flush(c, sends, before, now, n + 1).finished == DecideAndApply(c, sends, free, now, b, n).finished {
          FlushOfRotation(c, sends, before, now, n);
        }
        FlushesShift(c, sends, before, free, now, b);
      } else {
        FlushOfNone(c, sends, before, now);
      }
    } else {
      FlushOfNone(c, sends, before, now);
    }
  }

  lemma {:induction false} FlushesShift(c: Config, sends: nat -> bool, before: State, free: State, now: int, b: real)
    requires forall n: nat :: Flush(c, sends, before, now, n + 1).finished == DecideAndApply(c, sends, free, now, b, n).finished
    ensures (exists n: nat :: Flush(c, sends, before, now, n).finished)
      <==> exists n: nat :: DecideAndApply(c, sends, free, now, b, n).finished
  {
    hide Decide;
    assert !Flush(c, sends, before, now, 0).finished;
    if n: nat :| Flush(c, sends, before, now, n).finished {
      assert Flush(c, sends, before, now, (n - 1) + 1).finished;
      assert DecideAndApply(c, sends, free, now, b, n - 1).finished;
    }
    if n: nat :| DecideAndApply(c, sends, free, now, b, n).finished {
      assert Flush(c, sends, before, now, n + 1).finished;
    }
  }

  // ------------------------------------------------------------- the recursion as a straight line

  /** One attempt at a direction change for bearing b: dropped under a lock, held when it may not go or is lost. */
  function Flipped(sends: nat -> bool, s: State, dir: Direction, b: real, now: int): State {
    if Refused(s.lock) then Hold(s, None)
    else if !FlipMayGo(s, now) then Hold(s, Some(Held(dir, b)))
    else
      var tried := Published(Hold(s, None), SetDirection(dir));
      if sends(|s.out|) then WithFlip(tried, dir, now) else Hold(tried, Some(Held(dir, b)))
  }

  /** Decide once, rotate at most once, then change direction at most once. */
  function Applied(c: Config, sends: nat -> bool, s: State, now: int, b: real): State {
    var d := Decide(c.beam, Situation(s, now, b));
    if d.rotateTo.Some? && !sends(|s.out|) then Noted(SendRotate(s, false, d.rotateTo.value, now), None, None)
    else
      var turned := if d.rotateTo.Some? then SendRotate(s, true, d.rotateTo.value, now) else s;
      var noted := Noted(turned, d.rotateTo, d.direction);
      if d.direction.None? then noted else Flipped(sends, noted, d.direction.value, b, now)
  }

  function FlushedOnce(c: Config, sends: nat -> bool, before: State, now: int): State {
    var s := Synced(before, now);
    if s.orders.pending.None? then s
    else if Refused(s.lock) || !s.sib.ant.Live() then Hold(s, None)
    else if !FlipMayGo(s, now) then s
    else
      var p := s.orders.pending.value;
      var free := Hold(s, None);
      var d := Decide(c.beam, Situation(free, now, p.bearing));
      if d.rotateTo.Some? then if AskedFor(free, p.bearing) then Applied(c, sends, free, now, p.bearing) else free
      else if d.direction.None? then free
      else Flipped(sends, free, d.direction.value, p.bearing, now)
  }

  /** Unless it goes round, the mutual recursion is that straight line, from one flush on. */
  lemma {:induction false} DecidingIsStraightLine(c: Config, sends: nat -> bool, s: State, now: int, b: real, flushes: nat)
    requires c.beam.Valid() && !GoesRound(c, sends, s, now, b) && Synced(s, now) == s && flushes >= 1
    ensures DecideAndApply(c, sends, s, now, b, flushes).finished
    ensures DecideAndApply(c, sends, s, now, b, flushes).s == Applied(c, sends, s, now, b)
  {
    hide Decide, Flush, Synced, Open, Flipped, Situation, Fits;
    SituationIs(s, now, b);
    var d := Decide(c.beam, Situation(s, now, b));
    DecideEnds(c, sends, s, now, b, flushes);
    DirectionMeansKnown(c.beam, Situation(s, now, b));
    if d.direction.Some? {
      if d.rotateTo.Some? && sends(|s.out|) {
        TurnIsTrusted(s, d, b, now);
        RotationSettlesExactlyWhen(c.beam, Situation(s, now, b));
        if Open(s, now) {
          FlushIsOneFlip(c, sends, Turned(s, d, b, now), d.direction.value, b, now);
        } else {
          FlushWhenShut(c, sends, Turned(s, d, b, now), d.direction.value, b, now);
        }
        FlippingReplacesHeld(sends, Noted(SendRotate(s, true, d.rotateTo.value, now), d.rotateTo, d.direction),
                             Some(Held(d.direction.value, b)), d.direction.value, b, now);
      } else if d.rotateTo.None? {
        HoldingIsNeutral(s, d.direction, Held(d.direction.value, b), now, b);
        FlushIsOneFlip(c, sends, Hold(Noted(s, None, d.direction), Some(Held(d.direction.value, b))), d.direction.value, b, now);
        FlippingReplacesHeld(sends, Noted(s, None, d.direction), Some(Held(d.direction.value, b)), d.direction.value, b, now);
      }
    }
  }

  lemma {:induction false} FlippingReplacesHeld(sends: nat -> bool, s: State, h: Option<Held>, dir: Direction, b: real, now: int)
    ensures Flipped(sends, Hold(s, h), dir, b, now) == Flipped(sends, s, dir, b, now)
  {}

  /** A flush whose flip may not go keeps or drops it. */
  lemma {:induction false} FlushWhenShut(c: Config, sends: nat -> bool, s: State, dir: Direction, b: real, now: int)
    requires Synced(s, now) == s && s.orders.pending == Some(Held(dir, b)) && EffectiveDirection(s, now) != Unknown
    requires !Open(s, now)
    ensures Flush(c, sends, s, now, 1).s == Flipped(sends, s, dir, b, now)
  {}

  /** A flush that has only the direction left to change. */
  lemma {:induction false} FlushIsOneFlip(c: Config, sends: nat -> bool, s: State, dir: Direction, b: real, now: int)
    requires Synced(s, now) == s && s.orders.pending == Some(Held(dir, b)) && EffectiveDirection(s, now) != Unknown
    requires Decide(c.beam, Situation(s, now, b)) == Decision(None, Some(dir))
    ensures Flush(c, sends, s, now, 1).s == Flipped(sends, s, dir, b, now)
  {
    hide Decide;
    assert Situation(Hold(s, None), now, b) == Situation(s, now, b);
  }

  /** The lobe holds the rounding of the bearing a flip is held for, if one is. */
  predicate HeldFits(c: Config, s: State) {
    s.orders.pending.Some? ==> Fits(c.beam.lobe, s.orders.pending.value.bearing)
  }

  /** A flush that releases the latest request's flip and goes round with it. */
  predicate FlushGoesRound(c: Config, sends: nat -> bool, before: State, now: int) {
    var s := Synced(before, now);
    && s.orders.pending.Some? && AskedFor(s, s.orders.pending.value.bearing)
    && GoesRound(c, sends, s, now, s.orders.pending.value.bearing)
  }

  /** A request for b as it stands when it is decided on. */
  predicate GotoGoesRound(c: Config, sends: nat -> bool, s: State, now: int, bearing: real) {
    var b := Norm(bearing);
    var a := Asked(Synced(s, now), b);
    && a.connected && !Refused(a.lock) && a.enabled && a.sib.rot.Live() && a.sib.rot.azKnown
    && GoesRound(c, sends, a, now, b)
  }

  /** Handling event e goes round. The state is taken where the event decides or flushes. */
  predicate EventGoesRound(c: Config, sends: nat -> bool, s: State, e: Event, now: int) {
    match e
    case Status(which, online) => which != RotatorSlot && FlushGoesRound(c, sends, InputsChanged(OnStatus(s, which, online)), now)
    case AntState(doc) => doc.Some? && FlushGoesRound(c, sends, InputsChanged(OnAntDoc(s, doc.value)), now)
    case RadioState(doc) => doc.Some? && FlushGoesRound(c, sends, InputsChanged(OnRadioDoc(s, doc.value)), now)
    case Goto(b) => GotoGoesRound(c, sends, s, now, b)
    case Tick => FlushGoesRound(c, sends, Ticked(s, now), now)
    case _ => false
  }

  lemma {:induction false} FitsNeverRounds(c: Config, sends: nat -> bool, s: State, now: int, b: real)
    requires Fits(c.beam.lobe, b)
    ensures !GoesRound(c, sends, s, now, b) && !GoesRound(c, sends, s, now, Norm(b))
  {
    hide Decide;
    FitsNormed(c.beam.lobe, b);
  }

  lemma {:induction false} SyncKeepsFit(c: Config, s: State, now: int)
    requires HeldFits(c, s)
    ensures HeldFits(c, Synced(s, now))
  {}

  /** Unless it goes round, two flushes are enough from any state. */
  lemma {:induction false} TwoFlushesSuffice(c: Config, sends: nat -> bool, s: State, now: int, flushes: nat)
    requires c.beam.Valid() && !FlushGoesRound(c, sends, s, now) && flushes >= 2
    ensures Flush(c, sends, s, now, flushes).finished
    ensures Flush(c, sends, s, now, flushes).s == FlushedOnce(c, sends, s, now)
  {
    hide Decide, DecideAndApply, Applied, Fits;
    SyncIdempotent(s, now);
    var t := Synced(s, now);
    if t.orders.pending.Some? {
      var free := Hold(t, None);
      var b := t.orders.pending.value.bearing;
      FreeingIsNeutral(t, now, b);
      if AskedFor(t, b) { DecidingIsStraightLine(c, sends, free, now, b, flushes - 1); }
    }
  }
}
