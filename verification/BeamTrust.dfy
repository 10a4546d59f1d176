/** How long the engine trusts the rotator target it commanded, told by the run alone: from the set_az that went out to
    the frame, stop or lapse that ends it. */
module BeamTrust {
  import opened Options
  import opened Steer
  import opened BeamModel
  import opened BeamSettles
  import opened BeamSafety
  import opened BeamAims

  // ------------------------------------------------------------- what one event does to the target in flight

  /** Between s and u a set_az for this target went out, and it is the one now in flight. */
  ghost predicate Commanded(s: State, u: State, now: int) {
    && u.orders.turn.Some?
    && u.orders.turn.value == Turn(u.orders.turn.value.target, now + ROT_ACK_WINDOW, false, false, s.sib.rot.moving)
    && SentBetween(s.out, u.out, SetAz(u.orders.turn.value.target))
  }

  ghost predicate SentBetween(a: seq<Sent>, b: seq<Sent>, m: Sent) { exists k :: |a| <= k < |b| && b[k] == m }

  ghost predicate KeptOrCommanded(s: State, u: State, now: int) {
    u.sib.rot == s.sib.rot && s.out <= u.out && (u.orders.turn == s.orders.turn || Commanded(s, u, now))
  }

  lemma {:induction false} AppliedTurn(c: Config, sends: nat -> bool, s: State, now: int, b: real)
    ensures KeptOrCommanded(s, Applied(c, sends, s, now, b), now)
  {
    hide Decide, Situation, FlipMayGo, Flipped;
    hide Commanded;
    var d := Decide(c.beam, Situation(s, now, b));
    var u := Applied(c, sends, s, now, b);
    var turned := if d.rotateTo.Some? then SendRotate(s, true, d.rotateTo.value, now) else s;
    var noted := Noted(turned, d.rotateTo, d.direction);
    if d.direction.Some? { FlippedTurn(sends, noted, d.direction.value, b, now); }
    if d.rotateTo.Some? && sends(|s.out|) {
      PlainCommand(s, s, now, d.rotateTo.value);
      CommandedLater(s, turned, noted, now);
      CommandedLater(s, noted, u, now);
    }
  }

  lemma {:induction false} FlippedTurn(sends: nat -> bool, s: State, dir: Direction, b: real, now: int)
    ensures var t := Flipped(sends, s, dir, b, now); t.sib == s.sib && t.orders.turn == s.orders.turn && s.out <= t.out
  {}

  lemma {:induction false} FlushedTurn(c: Config, sends: nat -> bool, before: State, now: int)
    ensures KeptOrCommanded(before, FlushedOnce(c, sends, before, now), now)
  {
    hide Decide, Situation, FlipMayGo, Applied, Synced, Commanded;
    SyncReports(before, now);
    var s := Synced(before, now);
    if s.orders.pending.Some? {
      AppliedTurn(c, sends, Hold(s, None), now, s.orders.pending.value.bearing);
      CommandedEarlier(before, Hold(s, None), Applied(c, sends, Hold(s, None), now, s.orders.pending.value.bearing), now);
    }
  }

  lemma {:induction false} CommandedEarlier(s: State, t: State, u: State, now: int)
    requires s.out <= t.out && s.sib.rot == t.sib.rot && KeptOrCommanded(t, u, now)
    ensures s.out <= u.out && (Commanded(t, u, now) ==> Commanded(s, u, now))
  {}

  lemma {:induction false} CommandedLater(s: State, t: State, u: State, now: int)
    requires Commanded(s, t, now) && t.out <= u.out && t.orders.turn == u.orders.turn
    ensures Commanded(s, u, now)
  {
    var k :| |s.out| <= k < |t.out| && t.out[k] == SetAz(t.orders.turn.value.target);
    assert u.out[k] == t.out[k];
  }

  lemma {:induction false} RetryTurn(c: Config, sends: nat -> bool, s: State, now: int)
    requires c.beam.Valid() && !FlushGoesRound(c, sends, s, now)
    ensures KeptOrCommanded(s, Retried(c, sends, s, now), now)
  {
    hide FlushedOnce, Retried, Commanded;
    RetrySends(c, sends, s, now);
    FlushedTurn(c, sends, s, now);
    var m := FlushedOnce(c, sends, s, now);
    if Commanded(s, m, now) { CommandedLater(s, m, Retried(c, sends, s, now), now); }
  }

  lemma {:induction false} GotoTurn(c: Config, sends: nat -> bool, s: State, now: int, b: real)
    requires c.beam.Valid() && !GotoGoesRound(c, sends, s, now, b)
    ensures KeptOrCommanded(s, GotoFlow(c, sends, s, now, b, FLUSHES).s, now)
  {
    hide DecideAndApply, Synced, Applied, Commanded, GoesRound;
    SyncReports(s, now);
    var a := Asked(Synced(s, now), Norm(b));
    AskedInSync(Synced(s, now), Norm(b), now);
    if a.connected && !Refused(a.lock) && a.enabled && a.sib.rot.Live() && a.sib.rot.azKnown {
      DecidingIsStraightLine(c, sends, a, now, Norm(b), FLUSHES);
    }
    AppliedTurn(c, sends, a, now, Norm(b));
    var m := Applied(c, sends, a, now, Norm(b));
    var u := GotoFlow(c, sends, s, now, b, FLUSHES).s;
    CommandedEarlier(s, a, m, now);
    if u == Published(m, Report) {
      if Commanded(s, m, now) { CommandedLater(s, m, u, now); }
    } else if a.connected && !Refused(a.lock) && !a.enabled && sends(|a.out|) {
      PlainCommand(s, a, now, Round(Norm(b)));
      CommandedLater(s, SendRotate(a, true, Round(Norm(b)), now), u, now);
    }
  }

  lemma {:induction false} PlainCommand(s: State, a: State, now: int, target: int)
    requires s.out <= a.out && s.sib.rot == a.sib.rot
    ensures Commanded(s, SendRotate(a, true, target, now), now)
  {
    var u := SendRotate(a, true, target, now);
    assert u.out[|a.out|] == SetAz(target);
  }

  /** Every event keeps the target in flight or replaces it by one it commands, but for a rotator frame, an accepted
      stop, and a tick that finds its window lapsed. */
  ghost predicate TurnStep(s: State, e: Event, u: State, now: int) {
    match e
    case RotatorState(doc) =>
      u.orders.turn == if doc.Some? && s.orders.turn.Some? then SettledTurn(s.orders.turn.value, RotatorReads(s.sib.rot, doc.value), now)
                       else s.orders.turn
    case Stop => u.orders.turn == if Refused(SyncedLock(s.lock, now)) then s.orders.turn else None
    case Tick => u.orders.turn == Lapsed(s.orders, now).turn || Commanded(s, u, now)
    case _ => u.orders.turn == s.orders.turn || Commanded(s, u, now)
  }

  /** What the engine knows of the rotator comes from the rotator's own frames. */
  predicate RotatorStep(s: State, e: Event, u: State) {
    match e
    case RotatorState(doc) => u.sib.rot == if doc.Some? then RotatorReads(s.sib.rot, doc.value) else s.sib.rot
    case Status(which, online) => u.sib.rot == if which == RotatorSlot then s.sib.rot.(status := online) else s.sib.rot
    case _ => u.sib.rot == s.sib.rot
  }

  lemma {:induction false} StepTurn(c: Config, sends: nat -> bool, s: State, e: Event, now: int)
    requires c.beam.Valid() && !EventGoesRound(c, sends, s, e, now)
    ensures TurnStep(s, e, Step(c, sends, s, e, now), now) && RotatorStep(s, e, Step(c, sends, s, e, now))
  {
    hide Retried, GotoFlow, Synced, SettledTurn, Commanded, OnTick, InputsChanged, FlushGoesRound, GotoGoesRound;
    match e
    case Status(which, online) =>
      ShowingTurn(OnStatus(s, which, online));
      var t := InputsChanged(OnStatus(s, which, online));
      if which != RotatorSlot {
        RetryTurn(c, sends, t, now);
        SameRotator(s, t, Retried(c, sends, t, now), now);
      }
    case AntState(doc) =>
      if doc.Some? {
        ShowingTurn(OnAntDoc(s, doc.value));
        var t := InputsChanged(OnAntDoc(s, doc.value));
        RetryTurn(c, sends, t, now);
        SameRotator(s, t, Retried(c, sends, t, now), now);
      }
    case RadioState(doc) =>
      if doc.Some? {
        ShowingTurn(OnRadioDoc(s, doc.value));
        var t := InputsChanged(OnRadioDoc(s, doc.value));
        RetryTurn(c, sends, t, now);
        SameRotator(s, t, Retried(c, sends, t, now), now);
      }
    case Goto(b) => GotoTurn(c, sends, s, now, b);
    case Tick => TickTurn(c, sends, s, now);
    case RotatorState(doc) => if doc.Some? { ReadingTurn(s, doc.value, now); }
    case _ =>
      SyncReports(s, now);
      SyncedLockIs(s, now);
  }

  lemma {:induction false} ShowingTurn(s: State)
    ensures var t := InputsChanged(s); t.orders == s.orders && t.sib.rot == s.sib.rot && s.out <= t.out
  {}

  lemma {:induction false} ReadingTurn(s: State, doc: RotatorDoc, now: int)
    ensures var u := OnRotatorState(s, doc, now); var r := RotatorReads(s.sib.rot, doc);
      u.sib.rot == r && u.orders.turn == if s.orders.turn.Some? then SettledTurn(s.orders.turn.value, r, now) else None
  {}

  lemma {:induction false} SameRotator(s: State, t: State, u: State, now: int)
    requires s.out <= t.out && s.sib.rot == t.sib.rot && s.orders.turn == t.orders.turn && KeptOrCommanded(t, u, now)
    ensures KeptOrCommanded(s, u, now)
  {
    CommandedEarlier(s, t, u, now);
  }

  lemma {:induction false} TickTurn(c: Config, sends: nat -> bool, s: State, now: int)
    requires c.beam.Valid() && !FlushGoesRound(c, sends, Ticked(s, now), now)
    ensures var u := OnTick(c, sends, s, now);
      u.sib.rot == s.sib.rot && (u.orders.turn == Lapsed(s.orders, now).turn || Commanded(s, u, now))
  {
    hide Retried, Synced, Commanded;
    SyncReports(s, now);
    var t := Ticked(s, now);
    RetryTurn(c, sends, t, now);
    CommandedEarlier(s, t, Retried(c, sends, t, now), now);
  }

  // ------------------------------------------------------------- the same over a run

  /** A rotator frame that acknowledges the target, commanded while the rotator was seen moving or not. */
  predicate AckFrame(e: Event, target: int, fromMoving: bool) {
    && e.RotatorState? && e.rotator.Some?
    && (Near(e.rotator.value.target, target) || (!fromMoving && e.rotator.value.moving))
  }

  predicate Near(t: Option<real>, target: int) { t.Some? && Abs(t.value - target as real) <= 1.0 }

  predicate MovingFrame(e: Event) { e.RotatorState? && e.rotator.Some? && e.rotator.value.moving }

  /** Some frame after event j and before event i acknowledges the target. */
  ghost predicate AckedSince(run: seq<Timed>, j: nat, i: nat, target: int, fromMoving: bool)
    requires i <= |run|
  {
    exists m: nat :: j < m < i && AckFrame(run[m].event, target, fromMoving)
  }

  /** Some frame after event j and before event i has the rotator moving, at or after an acknowledging one. */
  ghost predicate MovedSince(run: seq<Timed>, j: nat, i: nat, target: int, fromMoving: bool)
    requires i <= |run|
  {
    exists m: nat :: j < m < i && MovingFrame(run[m].event) && AckedSince(run, j, m + 1, target, fromMoving)
  }

  /** The azimuth last heard from the rotator, and whether it was then last heard to be moving. */
  function HeardAz(run: seq<Timed>, i: nat): Option<real>
    requires i <= |run|
  {
    if i == 0 then None
    else if run[i - 1].event.RotatorState? && run[i - 1].event.rotator.Some? && run[i - 1].event.rotator.value.az.Some?
    then run[i - 1].event.rotator.value.az
    else HeardAz(run, i - 1)
  }

  function HeardMoving(run: seq<Timed>, i: nat): bool
    requires i <= |run|
  {
    if i == 0 then false
    else if run[i - 1].event.RotatorState? && run[i - 1].event.rotator.Some? then run[i - 1].event.rotator.value.moving
    else HeardMoving(run, i - 1)
  }

  lemma {:induction false} RotatorIsHeard(c: Config, sends: nat -> bool, run: seq<Timed>, i: nat)
    requires c.beam.Valid() && NeverRound(c, sends, run) && i <= |run|
    ensures var r := After(c, sends, run, i).sib.rot;
      r.moving == HeardMoving(run, i) && r.azKnown == HeardAz(run, i).Some? && (r.azKnown ==> Some(r.az) == HeardAz(run, i))
  {
    hide Step, TurnStep, After, EventGoesRound;
    StartsSilent(c, sends, run);
    if i > 0 {
      RotatorIsHeard(c, sends, run, i - 1);
        BeamAims.StepIs(c, sends, run, i - 1);
      StepTurn(c, sends, After(c, sends, run, i - 1), run[i - 1].event, run[i - 1].at);
    }
  }

  lemma {:induction false} StartsSilent(c: Config, sends: nat -> bool, run: seq<Timed>)
    ensures var r := After(c, sends, run, 0).sib.rot; !r.moving && !r.azKnown
  {}

  /** What the target in flight before event i records: the event j that commanded it, and what the frames since then
      have shown. Its window runs from the command, and from the first acknowledging frame on from that one. */
  ghost predicate TurnTrue(c: Config, sends: nat -> bool, run: seq<Timed>, j: nat, i: nat, t: Turn)
    requires j < i <= |run|
  {
    && SentBetween(After(c, sends, run, j).out, After(c, sends, run, j + 1).out, SetAz(t.target))
    && FramesTrue(run, j, i, t)
  }

  ghost predicate FramesTrue(run: seq<Timed>, j: nat, i: nat, t: Turn)
    requires j < i <= |run|
  {
    && t.fromMoving == HeardMoving(run, j)
    && t.acked == AckedSince(run, j, i, t.target, t.fromMoving)
    && t.moved == MovedSince(run, j, i, t.target, t.fromMoving)
    && (if t.acked then exists m: nat :: FirstAck(run, j, m, i, t.target, t.fromMoving) && t.until == run[m].at + ROT_TRAVEL_WINDOW
        else t.until == run[j].at + ROT_ACK_WINDOW)
  }

  ghost predicate FirstAck(run: seq<Timed>, j: nat, m: nat, i: nat, target: int, fromMoving: bool)
    requires i <= |run|
  {
    j < m < i && AckFrame(run[m].event, target, fromMoving) && !AckedSince(run, j, m, target, fromMoving)
  }

  lemma {:induction false} TurnIsTrue(c: Config, sends: nat -> bool, run: seq<Timed>, i: nat) returns (j: nat)
    requires c.beam.Valid() && NeverRound(c, sends, run) && i <= |run| && After(c, sends, run, i).orders.turn.Some?
    ensures j < i && TurnTrue(c, sends, run, j, i, After(c, sends, run, i).orders.turn.value)
  {
    hide Step, SettledTurn, FramesTrue, RotatorReads;
    StartsIdle(c, sends, run);
    var s, u := After(c, sends, run, i - 1), After(c, sends, run, i);
    var e, at := run[i - 1].event, run[i - 1].at;
    StepTurn(c, sends, s, e, at);
    RotatorIsHeard(c, sends, run, i - 1);
    if Commanded(s, u, at) {
      j := i - 1;
      CommandedTrue(run, i, u.orders.turn.value);
    } else {
      j := TurnIsTrue(c, sends, run, i - 1);
      if e.RotatorState? && e.rotator.Some? {
        FrameKeepsTrue(run, j, i, s.orders.turn.value, s.sib.rot);
      } else {
        QuietKeepsTrue(run, j, i, s.orders.turn.value);
      }
    }
  }

  lemma {:induction false} StartsIdle(c: Config, sends: nat -> bool, run: seq<Timed>)
    ensures After(c, sends, run, 0).orders.turn.None?
  {}

  lemma {:induction false} CommandedTrue(run: seq<Timed>, i: nat, t: Turn)
    requires 0 < i <= |run| && t == Turn(t.target, run[i - 1].at + ROT_ACK_WINDOW, false, false, HeardMoving(run, i - 1))
    ensures FramesTrue(run, i - 1, i, t)
  {}

  lemma {:induction false} QuietKeepsTrue(run: seq<Timed>, j: nat, i: nat, t: Turn)
    requires j < i - 1 && i <= |run| && FramesTrue(run, j, i - 1, t)
    requires !(run[i - 1].event.RotatorState? && run[i - 1].event.rotator.Some?)
    ensures FramesTrue(run, j, i, t)
  {
    if t.acked {
      var m: nat :| FirstAck(run, j, m, i - 1, t.target, t.fromMoving) && t.until == run[m].at + ROT_TRAVEL_WINDOW;
      assert FirstAck(run, j, m, i, t.target, t.fromMoving);
    }
  }

  lemma {:induction false} FrameKeepsTrue(run: seq<Timed>, j: nat, i: nat, t: Turn, r: Rotator)
    requires j < i - 1 && i <= |run| && FramesTrue(run, j, i - 1, t)
    requires run[i - 1].event.RotatorState? && run[i - 1].event.rotator.Some?
    requires SettledTurn(t, RotatorReads(r, run[i - 1].event.rotator.value), run[i - 1].at).Some?
    ensures var u := SettledTurn(t, RotatorReads(r, run[i - 1].event.rotator.value), run[i - 1].at).value;
      FramesTrue(run, j, i, u) && u.target == t.target
  {
    AckedOneMore(run, j, i - 1, t.target, t.fromMoving);
    var u := SettledTurn(t, RotatorReads(r, run[i - 1].event.rotator.value), run[i - 1].at).value;
    var m: nat := if t.acked then var m: nat :| FirstAck(run, j, m, i - 1, t.target, t.fromMoving) && t.until == run[m].at + ROT_TRAVEL_WINDOW; m
                  else i - 1;
    if u.acked { assert FirstAck(run, j, m, i, t.target, t.fromMoving) && u.until == run[m].at + ROT_TRAVEL_WINDOW; }
    if u.moved && !t.moved { assert MovingFrame(run[i - 1].event) && AckedSince(run, j, i, t.target, t.fromMoving); }
  }

  /** At this time the window of the target commanded at event j is over: ten seconds after the command, or two minutes
      after the first frame before event i that acknowledged it. */
  ghost predicate WindowOver(run: seq<Timed>, j: nat, i: nat, target: int, now: int)
    requires j < i <= |run|
  {
    if AckedSince(run, j, i, target, HeardMoving(run, j))
    then exists m: nat :: FirstAck(run, j, m, i, target, HeardMoving(run, j)) && now >= run[m].at + ROT_TRAVEL_WINDOW
    else now >= run[j].at + ROT_ACK_WINDOW
  }

  /** Event i takes the target commanded at event j out of trust: a frame with the rotator standing within three degrees
      of it, or standing after it was seen to move for it, or heading elsewhere once it has acknowledged; a stop the
      antenna mode does not refuse; a tick after its window. */
  ghost predicate Ends(c: Config, sends: nat -> bool, run: seq<Timed>, j: nat, i: nat, target: int)
    requires j < i < |run|
  {
    var e := run[i].event;
    || (e.RotatorState? && e.rotator.Some? && FrameEnds(run, j, i, target, e.rotator.value))
    || (e.Stop? && !Refused(SyncedLock(After(c, sends, run, i).lock, run[i].at)))
    || (e.Tick? && WindowOver(run, j, i, target, run[i].at))
  }

  ghost predicate FrameEnds(run: seq<Timed>, j: nat, i: nat, target: int, doc: RotatorDoc)
    requires j < i < |run|
  {
    || (!doc.moving && HeardAz(run, i + 1).Some? && Abs(HeardAz(run, i + 1).value - target as real) <= ARRIVE_TOLERANCE)
    || (!doc.moving && MovedSince(run, j, i, target, HeardMoving(run, j)))
    || (doc.target.Some? && !Near(doc.target, target) && AckedSince(run, j, i + 1, target, HeardMoving(run, j)))
  }

  /** In every run that never goes round: the target in flight goes back to the set_az that commanded it, and an event that
      commands no other ends the trust in it exactly when one of those causes is in the run; otherwise it stays the
      heading decided from. */
  lemma {:induction false} TrustEndsExactly(c: Config, sends: nat -> bool, run: seq<Timed>, i: nat) returns (j: nat)
    requires c.beam.Valid() && NeverRound(c, sends, run) && i < |run| && After(c, sends, run, i).orders.turn.Some?
    ensures var s, u := After(c, sends, run, i), After(c, sends, run, i + 1); var t := s.orders.turn.value;
      && j < i && TurnTrue(c, sends, run, j, i, t)
      && (!Commanded(s, u, run[i].at) ==>
            && (u.orders.turn.None? <==> Ends(c, sends, run, j, i, t.target))
            && (u.orders.turn.Some? ==> u.orders.turn.value.target == t.target))
  {
    hide Step, SettledTurn, FramesTrue, RotatorReads, Commanded, FrameEnds, WindowOver;
    j := TurnIsTrue(c, sends, run, i);
    var s, u := After(c, sends, run, i), After(c, sends, run, i + 1);
    var t := s.orders.turn.value;
    var e := run[i].event;
    RotatorIsHeard(c, sends, run, i);
    StepTurn(c, sends, s, e, run[i].at);
    if e.RotatorState? && e.rotator.Some? {
      FrameEndsExactly(run, j, i, t, s.sib.rot);
    } else if e.Tick? {
      WindowEndsExactly(run, j, i, t, run[i].at);
    }
  }

  lemma {:induction false} WindowEndsExactly(run: seq<Timed>, j: nat, i: nat, t: Turn, now: int)
    requires j < i < |run| && FramesTrue(run, j, i, t)
    ensures t.until <= now <==> WindowOver(run, j, i, t.target, now)
  {}

  lemma {:induction false} FrameEndsExactly(run: seq<Timed>, j: nat, i: nat, t: Turn, r: Rotator)
    requires j < i < |run| && FramesTrue(run, j, i, t) && run[i].event.RotatorState? && run[i].event.rotator.Some?
    requires r.azKnown == HeardAz(run, i).Some? && (r.azKnown ==> Some(r.az) == HeardAz(run, i))
    ensures var doc := run[i].event.rotator.value; var u := SettledTurn(t, RotatorReads(r, doc), run[i].at);
      (u.None? <==> FrameEnds(run, j, i, t.target, doc)) && (u.Some? ==> u.value.target == t.target)
  {
    AckedOneMore(run, j, i, t.target, t.fromMoving);
  }

  lemma {:induction false} AckedOneMore(run: seq<Timed>, j: nat, i: nat, target: int, fromMoving: bool)
    requires j < i < |run|
    ensures AckedSince(run, j, i + 1, target, fromMoving)
      <==> AckedSince(run, j, i, target, fromMoving) || AckFrame(run[i].event, target, fromMoving)
  {}
}
