/** What the beam-steering engine keeps over whole runs: at most one rotation and one direction command per event,
    none under an antenna lock or before the lock is known after a connect, and every one of them puts a lobe
    on the latest request. */
module BeamSafety {
  import opened Options
  import opened Steer
  import opened BeamModel
  import opened BeamSettles

  // ------------------------------------------------------------- what one event sends

  predicate OnlyReports(before: seq<Sent>, after: seq<Sent>) {
    before <= after && forall k :: |before| <= k < |after| ==> after[k].Report?
  }

  /** The decision's rotation and then its direction change, or a first part of that. */
  predicate CarriesOut(before: seq<Sent>, after: seq<Sent>, d: Decision) {
    || after == before
    || (d.rotateTo.Some? && after == before + [SetAz(d.rotateTo.value)])
    || (d.rotateTo.None? && d.direction.Some? && after == before + [SetDirection(d.direction.value)])
    || (d.rotateTo.Some? && d.direction.Some?
        && after == before + [SetAz(d.rotateTo.value), SetDirection(d.direction.value)])
  }

  /** At most one set_az and one direction command, the rotation first. */
  predicate OneOfEach(before: seq<Sent>, after: seq<Sent>) {
    before <= after
    && forall i, j :: |before| <= i < j < |after| ==>
      && !(after[i].SetAz? && after[j].SetAz?)
      && !(after[i].SetDirection? && (after[j].SetAz? || after[j].SetDirection?))
  }

  /** Something other than a report of the engine's own state was sent. */
  predicate Moves(before: seq<Sent>, after: seq<Sent>) {
    exists k :: |before| <= k < |after| && !after[k].Report?
  }

  lemma {:induction false} ReportsAround(a: seq<Sent>, b: seq<Sent>, m: seq<Sent>, e: seq<Sent>, d: Decision)
    requires OnlyReports(a, b) && CarriesOut(b, m, d) && OnlyReports(m, e)
    ensures OneOfEach(a, e)
    ensures Moves(a, e) ==> m != b
    ensures forall k :: |a| <= k < |e| && e[k].SetDirection? ==> d.direction == Some(e[k].dir) && m != b && m != b + [SetAz(d.rotateTo.GetOr(0))]
    ensures forall k :: |a| <= k < |e| && e[k].SetAz? ==> d.rotateTo == Some(e[k].target)
    ensures forall k :: |a| <= k < |e| ==> !e[k].StopRotator?
  {}

  lemma {:induction false} SyncReports(s: State, now: int)
    ensures var t := Synced(s, now);
      && OnlyReports(s.out, t.out) && t.sib == s.sib && t.connected == s.connected && t.enabled == s.enabled
      && t.orders.last == s.orders.last && t.orders.flip == s.orders.flip && t.orders.turn == s.orders.turn
      && (t.orders.pending == s.orders.pending || (t.orders.pending.None? && t.lock.mode != Normal))
      && Synced(t, now) == t
  {
    SyncIdempotent(s, now);
  }

  /** One attempt at a direction change sends that direction or nothing, and changes no input. */
  lemma {:induction false} FlippedSends(sends: nat -> bool, s: State, dir: Direction, b: real, now: int)
    requires !Refused(s.lock)
    ensures var t := Flipped(sends, s, dir, b, now);
      && t.sib == s.sib && t.lock == s.lock && t.connected == s.connected && t.enabled == s.enabled
      && t.orders.last == s.orders.last && EffectiveAz(t, now) == EffectiveAz(s, now)
      && (if FlipMayGo(s, now) then t.out == s.out + [SetDirection(dir)] else t.out == s.out)
      && (t.orders.pending.Some? ==> t.orders.pending.value == Held(dir, b))
      && (t.orders.pending.None? && s.sib.ant.Live() ==> EffectiveDirection(t, now) == dir)
  {}

  /** Applying a decision sends what it decided, from an unrefused lock only, and changes no input. */
  lemma {:induction false} AppliedSends(c: Config, sends: nat -> bool, s: State, now: int, b: real)
    requires !Refused(s.lock)
    ensures var t := Applied(c, sends, s, now, b); var d := Decide(c.beam, Situation(s, now, b));
      && CarriesOut(s.out, t.out, d)
      && t.sib == s.sib && t.lock == s.lock && t.connected == s.connected && t.enabled == s.enabled
      && (t.out != s.out && t.out != s.out + [SetAz(d.rotateTo.GetOr(0))] ==> FlipMayGo(s, now))
  {
    hide Decide, Flipped, Refused, FlipMayGo;
    var d := Decide(c.beam, Situation(s, now, b));
    if d.direction.Some? && (d.rotateTo.None? || sends(|s.out|)) {
      var turned := if d.rotateTo.Some? then SendRotate(s, true, d.rotateTo.value, now) else s;
      var noted := Noted(turned, d.rotateTo, d.direction);
      FlippedSends(sends, noted, d.direction.value, b, now);
      SameFreedom(s, noted, now);
      if d.rotateTo.Some? {
        assert s.out + [SetAz(d.rotateTo.value)] + [SetDirection(d.direction.value)]
            == s.out + [SetAz(d.rotateTo.value), SetDirection(d.direction.value)];
      }
    }
  }

  lemma {:induction false} SameFreedom(s: State, t: State, now: int)
    requires t.sib == s.sib && t.connected == s.connected && t.orders.flip == s.orders.flip
    ensures FlipMayGo(t, now) == FlipMayGo(s, now)
  {}

  /** The decision a flush acts on. */
  function FlushDecision(c: Config, s: State, now: int): Decision {
    if s.orders.pending.None? then DoNothing else Decide(c.beam, Situation(s, now, s.orders.pending.value.bearing))
  }

  lemma {:induction false} FlushSends(c: Config, sends: nat -> bool, before: State, now: int)
    ensures var s := Synced(before, now); var t := FlushedOnce(c, sends, before, now);
      && CarriesOut(s.out, t.out, FlushDecision(c, s, now))
      && t.sib == s.sib && t.lock == s.lock && t.connected == s.connected && t.enabled == s.enabled
      && (t.out != s.out ==> Open(s, now) && s.orders.pending.Some?)
  {
    hide Decide, Applied;
    var s := Synced(before, now);
    if s.orders.pending.Some? {
      var free := Hold(s, None);
      assert Situation(free, now, s.orders.pending.value.bearing) == Situation(s, now, s.orders.pending.value.bearing);
      if Open(s, now) { AppliedSends(c, sends, free, now, s.orders.pending.value.bearing); }
    }
  }

  /** Retrying a held flip: reports around at most one rotation and one flip, and those only when free. */
  lemma {:induction false} RetrySends(c: Config, sends: nat -> bool, s: State, now: int)
    requires c.beam.Valid() && !FlushGoesRound(c, sends, s, now)
    ensures var t := Retried(c, sends, s, now); var m := FlushedOnce(c, sends, s, now);
      && OnlyReports(m.out, t.out) && t == m.(out := t.out)
  {
    hide Flush, FlushedOnce;
    TwoFlushesSuffice(c, sends, s, now, FLUSHES);
  }

  /** The antenna mode as it stands once synced. */
  function SyncedLock(l: Lock, now: int): Lock {
    var k := LearnedLock(l, now);
    if k.seen then k.(mode := k.box) else k
  }

  /** Commands move from state s to state t only as one rotation, then one direction change, or one stop. */
  predicate Disciplined(s: State, t: State, e: Event, now: int) {
    && OneOfEach(s.out, t.out)
    && (Moves(s.out, t.out) ==> !Refused(SyncedLock(s.lock, now)))
    && (forall k :: |s.out| <= k < |t.out| && t.out[k].StopRotator? ==> e.Stop? && |t.out| - 1 == k)
  }

  lemma {:induction false} RetryDisciplined(c: Config, sends: nat -> bool, s: State, t: State, e: Event, now: int)
    requires c.beam.Valid() && !FlushGoesRound(c, sends, t, now)
    requires OnlyReports(s.out, t.out) && t.lock == s.lock
    ensures Disciplined(s, Retried(c, sends, t, now), e, now)
  {
    hide Retried, FlushedOnce, Decide;
    RetrySends(c, sends, t, now);
    SyncReports(t, now);
    FlushSends(c, sends, t, now);
    var y := Synced(t, now);
    ReportsAround(s.out, y.out, FlushedOnce(c, sends, t, now).out, Retried(c, sends, t, now).out, FlushDecision(c, y, now));
  }

  lemma {:induction false} TickDisciplined(c: Config, sends: nat -> bool, s: State, now: int)
    requires c.beam.Valid() && !FlushGoesRound(c, sends, Ticked(s, now), now)
    ensures Disciplined(s, OnTick(c, sends, s, now), Tick, now)
  {
    hide Retried, Synced;
    SyncReports(s, now);
    SyncedLockIs(s, now);
    var y := Synced(s, now);
    var t := y.(orders := Lapsed(y.orders, now));
    RetryDisciplined(c, sends, y, t, Tick, now);
    var u := OnTick(c, sends, s, now);
    assert forall k :: |s.out| <= k < |y.out| ==> u.out[k] == y.out[k];
  }

  lemma {:induction false} SyncedLockIs(s: State, now: int)
    ensures Synced(s, now).lock == SyncedLock(s.lock, now)
    ensures SyncedLock(SyncedLock(s.lock, now), now) == SyncedLock(s.lock, now)
  {}

  lemma {:induction false} GotoDisciplined(c: Config, sends: nat -> bool, s: State, b: real, now: int)
    requires c.beam.Valid() && !GotoGoesRound(c, sends, s, now, b)
    ensures Disciplined(s, GotoFlow(c, sends, s, now, b, FLUSHES).s, Goto(b), now)
  {
    hide Decide, DecideAndApply, Synced, Applied, CarriesOut;
    SyncReports(s, now);
    SyncedLockIs(s, now);
    var y := Synced(s, now);
    var a := Asked(y, Norm(b));
    var t := GotoFlow(c, sends, s, now, b, FLUSHES).s;
    if a.connected && !Refused(a.lock) {
      if !a.enabled {
        PlainRotationSends(sends, a, now, Norm(b));
        ReportsAround(s.out, a.out, a.out + [SetAz(Round(Norm(b)))], t.out, Decision(Some(Round(Norm(b))), None));
      } else if a.sib.rot.Live() && a.sib.rot.azKnown {
        assert Synced(a, now) == a by { AskedInSync(y, Norm(b), now); }
        DecidingIsStraightLine(c, sends, a, now, Norm(b), FLUSHES);
        AppliedSends(c, sends, a, now, Norm(b));
        ReportsAround(s.out, a.out, Applied(c, sends, a, now, Norm(b)).out, t.out, Decide(c.beam, Situation(a, now, Norm(b))));
      }
    }
  }

  lemma {:induction false} PlainRotationSends(sends: nat -> bool, s: State, now: int, b: real)
    ensures CarriesOut(s.out, s.out + [SetAz(Round(b))], Decision(Some(Round(b)), None))
  {}

  lemma {:induction false} BusReports(s: State, t: State)
    requires t.out == s.out
    ensures OnlyReports(s.out, InputsChanged(t).out) && InputsChanged(t).lock == t.lock && InputsChanged(t).orders == t.orders
  {}

  /** One event commands at most one rotation and one direction, rotation first, or one stop; and it commands
      anything at all only when the antenna mode, as recorded when the event is handled, does not refuse it: all that
      exactly unless the event goes round. */
  lemma {:induction false} StepDisciplinedExactly(c: Config, sends: nat -> bool, s: State, e: Event, now: int)
    requires c.beam.Valid()
    ensures Disciplined(s, Step(c, sends, s, e, now), e, now) <==> !EventGoesRound(c, sends, s, e, now)
  {
    hide Step, Disciplined, EventGoesRound;
    if EventGoesRound(c, sends, s, e, now) { RoundIsUndisciplined(c, sends, s, e, now); } else { StepDisciplined(c, sends, s, e, now); }
  }

  lemma {:induction false} RoundIsUndisciplined(c: Config, sends: nat -> bool, s: State, e: Event, now: int)
    requires c.beam.Valid() && EventGoesRound(c, sends, s, e, now)
    ensures !Disciplined(s, Step(c, sends, s, e, now), e, now)
  {
    hide Retried, GotoFlow, InputsChanged, FlushGoesRound, GotoGoesRound, Synced;
    match e
    case Status(which, online) =>
      BusReports(s, OnStatus(s, which, online));
      RetriedTwice(c, sends, s, InputsChanged(OnStatus(s, which, online)), now);
    case AntState(doc) =>
      BusReports(s, OnAntDoc(s, doc.value));
      RetriedTwice(c, sends, s, InputsChanged(OnAntDoc(s, doc.value)), now);
    case RadioState(doc) =>
      BusReports(s, OnRadioDoc(s, doc.value));
      RetriedTwice(c, sends, s, InputsChanged(OnRadioDoc(s, doc.value)), now);
    case Goto(b) => AskedTwice(c, sends, s, now, b);
    case Tick =>
      SyncReports(s, now);
      RetriedTwice(c, sends, s, Ticked(s, now), now);
  }

  /** Two rotations side by side. */
  lemma {:induction false} TwiceIsNotOnce(a: seq<Sent>, b: seq<Sent>, k: nat)
    requires |a| <= k < |b| - 1 && b[k].SetAz? && b[k + 1].SetAz?
    ensures !OneOfEach(a, b)
  {}

  lemma {:induction false} RetriedTwice(c: Config, sends: nat -> bool, s: State, t: State, now: int)
    requires c.beam.Valid() && FlushGoesRound(c, sends, t, now) && s.out <= t.out
    ensures !OneOfEach(s.out, Retried(c, sends, t, now).out)
  {
    hide Decide, DecideAndApply, Synced, OneOfEach, Fits, Situation;
    SyncReports(t, now);
    var y := Synced(t, now);
    var b := y.orders.pending.value.bearing;
    var free := Hold(y, None);
    FreeingIsNeutral(y, now, b);
    RoundTriesAgain(c, sends, free, now, b, FLUSHES - 1);
    FlushIsRound(c, sends, t, now);
    TwiceIsNotOnce(s.out, Retried(c, sends, t, now).out, |y.out|);
  }

  lemma {:induction false} FlushIsRound(c: Config, sends: nat -> bool, t: State, now: int)
    requires FlushGoesRound(c, sends, t, now)
    ensures var y := Synced(t, now);
      Flush(c, sends, t, now, FLUSHES)
        == DecideAndApply(c, sends, Hold(y, None), now, y.orders.pending.value.bearing, FLUSHES - 1).(changed := true)
  {
    hide Decide, Fits;
    var y := Synced(t, now);
    FreeingIsNeutral(y, now, y.orders.pending.value.bearing);
  }

  lemma {:induction false} AskedTwice(c: Config, sends: nat -> bool, s: State, now: int, b: real)
    requires c.beam.Valid() && GotoGoesRound(c, sends, s, now, b)
    ensures !OneOfEach(s.out, GotoFlow(c, sends, s, now, b, FLUSHES).s.out)
  {
    hide Decide, DecideAndApply, Synced, OneOfEach, GoesRound;
    SyncReports(s, now);
    var a := Asked(Synced(s, now), Norm(b));
    AskedInSync(Synced(s, now), Norm(b), now);
    RoundTriesAgain(c, sends, a, now, Norm(b), FLUSHES);
    TwiceIsNotOnce(s.out, GotoFlow(c, sends, s, now, b, FLUSHES).s.out, |a.out|);
  }

  lemma {:induction false} StepDisciplined(c: Config, sends: nat -> bool, s: State, e: Event, now: int)
    requires c.beam.Valid() && !EventGoesRound(c, sends, s, e, now)
    ensures Disciplined(s, Step(c, sends, s, e, now), e, now)
  {
    hide Retried, GotoFlow, OnTick, InputsChanged, SyncedLock, Synced, FlushGoesRound, GotoGoesRound;
    match e
    case Status(which, online) =>
      BusReports(s, OnStatus(s, which, online));
      if which != RotatorSlot { RetryDisciplined(c, sends, s, InputsChanged(OnStatus(s, which, online)), e, now); }
    case RotatorState(doc) => if doc.Some? { RotatorReports(s, doc.value, now); }
    case AntState(doc) =>
      if doc.Some? {
        BusReports(s, OnAntDoc(s, doc.value));
        RetryDisciplined(c, sends, s, InputsChanged(OnAntDoc(s, doc.value)), e, now);
      }
    case RadioState(doc) =>
      if doc.Some? {
        BusReports(s, OnRadioDoc(s, doc.value));
        RetryDisciplined(c, sends, s, InputsChanged(OnRadioDoc(s, doc.value)), e, now);
      }
    case Goto(b) => GotoDisciplined(c, sends, s, b, now);
    case Tick => TickDisciplined(c, sends, s, now);
    case _ =>
      SyncReports(s, now);
      SyncedLockIs(s, now);
  }

  lemma {:induction false} RotatorReports(s: State, doc: RotatorDoc, now: int)
    ensures OnlyReports(s.out, OnRotatorState(s, doc, now).out)
  {}
}
