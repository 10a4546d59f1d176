/** What a logger request achieves: whatever is sent for it, now or after a hold, leaves a lobe on it; and nothing
    is sent under an antenna lock or ahead of one after a connect. */
module BeamAims {
  import opened Options
  import opened Steer
  import opened BeamModel
  import opened BeamSettles
  import opened BeamSafety

  // ------------------------------------------------------------- what every run keeps

  /** A held flip belongs to the latest request, and none is held under an applied lock. */
  predicate Coherent(s: State) {
    s.orders.pending.Some? ==>
      && AskedFor(s, s.orders.pending.value.bearing)
      && s.lock.mode == Normal
      && s.enabled
  }

  lemma {:induction false} FlippedCoherent(c: Config, sends: nat -> bool, s: State, dir: Direction, b: real, now: int)
    requires AskedFor(s, b) && s.enabled
    ensures Coherent(Flipped(sends, s, dir, b, now)) && (Fits(c.beam.lobe, b) ==> HeldFits(c, Flipped(sends, s, dir, b, now)))
  {}

  lemma {:induction false} AppliedCoherent(c: Config, sends: nat -> bool, s: State, now: int, b: real)
    requires Coherent(s) && AskedFor(s, b) && s.enabled
    ensures Coherent(Applied(c, sends, s, now, b))
    ensures HeldFits(c, s) && Fits(c.beam.lobe, b) ==> HeldFits(c, Applied(c, sends, s, now, b))
  {
    hide Decide, Situation, Flipped;
    var d := Decide(c.beam, Situation(s, now, b));
    if d.direction.Some? && (d.rotateTo.None? || sends(|s.out|)) {
      var turned := if d.rotateTo.Some? then SendRotate(s, true, d.rotateTo.value, now) else s;
      FlippedCoherent(c, sends, Noted(turned, d.rotateTo, d.direction), d.direction.value, b, now);
    }
  }

  lemma {:induction false} RetryCoherent(c: Config, sends: nat -> bool, s: State, now: int)
    requires c.beam.Valid() && !FlushGoesRound(c, sends, s, now) && Coherent(s)
    ensures Coherent(Retried(c, sends, s, now)) && (HeldFits(c, s) ==> HeldFits(c, Retried(c, sends, s, now)))
  {
    hide Decide, Situation, Flipped, Applied, Retried, FlipMayGo;
    RetrySends(c, sends, s, now);
    var t := Synced(s, now);
    if t.orders.pending.Some? {
      var p := t.orders.pending.value;
      AppliedCoherent(c, sends, Hold(t, None), now, p.bearing);
      var d := Decide(c.beam, Situation(Hold(t, None), now, p.bearing));
      if d.direction.Some? { FlippedCoherent(c, sends, Hold(t, None), d.direction.value, p.bearing, now); }
    }
  }

  lemma {:induction false} GotoCoherent(c: Config, sends: nat -> bool, s: State, now: int, b: real)
    requires c.beam.Valid() && !GotoGoesRound(c, sends, s, now, b)
    ensures Coherent(GotoFlow(c, sends, s, now, b, FLUSHES).s)
    ensures Fits(c.beam.lobe, b) ==> HeldFits(c, GotoFlow(c, sends, s, now, b, FLUSHES).s)
  {
    hide Decide, DecideAndApply, Applied, Synced, GoesRound, Fits;
    SyncReports(s, now);
    var a := Asked(Synced(s, now), Norm(b));
    AskedInSync(Synced(s, now), Norm(b), now);
    FitsNormed(c.beam.lobe, b);
    if a.connected && !Refused(a.lock) && a.enabled && a.sib.rot.Live() && a.sib.rot.azKnown {
      DecidingIsStraightLine(c, sends, a, now, Norm(b), FLUSHES);
      AppliedCoherent(c, sends, a, now, Norm(b));
    }
  }

  lemma {:induction false} StepCoherent(c: Config, sends: nat -> bool, s: State, e: Event, now: int)
    requires c.beam.Valid() && !EventGoesRound(c, sends, s, e, now) && Coherent(s)
    ensures Coherent(Step(c, sends, s, e, now))
    ensures HeldFits(c, s) && EventFits(c, e) ==> HeldFits(c, Step(c, sends, s, e, now))
  {
    hide Retried, GotoFlow, FlushGoesRound, GotoGoesRound, Fits, InputsChanged, Ticked;
    match e
    case Status(which, online) =>
      BusCoherent(c, s, OnStatus(s, which, online));
      if which != RotatorSlot { RetryCoherent(c, sends, InputsChanged(OnStatus(s, which, online)), now); }
    case AntState(doc) =>
      if doc.Some? {
        BusCoherent(c, s, OnAntDoc(s, doc.value));
        RetryCoherent(c, sends, InputsChanged(OnAntDoc(s, doc.value)), now);
      }
    case RadioState(doc) =>
      if doc.Some? {
        BusCoherent(c, s, OnRadioDoc(s, doc.value));
        RetryCoherent(c, sends, InputsChanged(OnRadioDoc(s, doc.value)), now);
      }
    case RotatorState(doc) => if doc.Some? { FrameCoherent(c, s, doc.value, now); }
    case Goto(b) => GotoCoherent(c, sends, s, now, b);
    case Tick =>
      TickedCoherent(c, s, now);
      RetryCoherent(c, sends, Ticked(s, now), now);
    case _ =>
  }

  lemma {:induction false} BusCoherent(c: Config, s: State, t: State)
    requires Coherent(s) && t.orders.pending == s.orders.pending && t.orders.last == s.orders.last
    requires t.lock == s.lock && t.enabled == s.enabled
    ensures Coherent(InputsChanged(t)) && (HeldFits(c, s) ==> HeldFits(c, InputsChanged(t)))
  {}

  lemma {:induction false} FrameCoherent(c: Config, s: State, doc: RotatorDoc, now: int)
    requires Coherent(s)
    ensures Coherent(OnRotatorState(s, doc, now)) && (HeldFits(c, s) ==> HeldFits(c, OnRotatorState(s, doc, now)))
  {
    hide SettledTurn;
  }

  lemma {:induction false} TickedCoherent(c: Config, s: State, now: int)
    requires Coherent(s)
    ensures Coherent(Ticked(s, now)) && (HeldFits(c, s) ==> HeldFits(c, Ticked(s, now)))
  {}

  /** No event of the run goes round. */
  ghost predicate NeverRound(c: Config, sends: nat -> bool, run: seq<Timed>) {
    forall i: nat :: i < |run| ==> !EventGoesRound(c, sends, After(c, sends, run, i), run[i].event, run[i].at)
  }

  /** In every such run: a held flip belongs to the latest request. */
  lemma {:induction false} AlwaysCoherent(c: Config, sends: nat -> bool, run: seq<Timed>, i: nat)
    requires c.beam.Valid() && NeverRound(c, sends, run) && i <= |run|
    ensures Coherent(After(c, sends, run, i))
  {
    hide After, Step, EventGoesRound, Coherent;
    if i == 0 {
      StartCoherent(c, sends, run);
    } else {
      AlwaysCoherent(c, sends, run, i - 1);
      StepIs(c, sends, run, i - 1);
      StepCoherent(c, sends, After(c, sends, run, i - 1), run[i - 1].event, run[i - 1].at);
    }
  }

  lemma {:induction false} StartCoherent(c: Config, sends: nat -> bool, run: seq<Timed>)
    ensures Coherent(After(c, sends, run, 0)) && HeldFits(c, After(c, sends, run, 0))
  {}

  lemma {:induction false} StepIs(c: Config, sends: nat -> bool, run: seq<Timed>, i: nat)
    requires i < |run|
    ensures After(c, sends, run, i + 1) == Step(c, sends, After(c, sends, run, i), run[i].event, run[i].at)
  {
    hide Step;
  }

  // ------------------------------------------------------------- a lobe that holds the rounding never goes round

  /** The lobe holds the rounding of the bearing a request asks for. */
  predicate EventFits(c: Config, e: Event) { e.Goto? ==> Fits(c.beam.lobe, e.bearing) }

  lemma {:induction false} FitsEventSettles(c: Config, sends: nat -> bool, s: State, e: Event, now: int)
    requires HeldFits(c, s) && EventFits(c, e)
    ensures !EventGoesRound(c, sends, s, e, now)
  {
    hide Fits, InputsChanged, Synced, GoesRound;
    match e
    case Status(which, online) => FitsFlushSettles(c, sends, s, OnStatus(s, which, online), now);
    case AntState(doc) => if doc.Some? { FitsFlushSettles(c, sends, s, OnAntDoc(s, doc.value), now); }
    case RadioState(doc) => if doc.Some? { FitsFlushSettles(c, sends, s, OnRadioDoc(s, doc.value), now); }
    case Goto(b) => FitsNeverRounds(c, sends, Asked(Synced(s, now), Norm(b)), now, b);
    case Tick =>
      SyncKeepsFit(c, s, now);
      SyncKeepsFit(c, Ticked(s, now), now);
      var y := Synced(Ticked(s, now), now);
      if y.orders.pending.Some? { FitsNeverRounds(c, sends, y, now, y.orders.pending.value.bearing); }
    case _ =>
  }

  lemma {:induction false} FitsFlushSettles(c: Config, sends: nat -> bool, s: State, t: State, now: int)
    requires HeldFits(c, s) && t.orders.pending == s.orders.pending
    ensures !FlushGoesRound(c, sends, InputsChanged(t), now)
  {
    hide Fits, Synced, GoesRound;
    SyncKeepsFit(c, InputsChanged(t), now);
    var y := Synced(InputsChanged(t), now);
    if y.orders.pending.Some? { FitsNeverRounds(c, sends, y, now, y.orders.pending.value.bearing); }
  }

  lemma {:induction false} FitsSoFar(c: Config, sends: nat -> bool, run: seq<Timed>, i: nat)
    requires c.beam.Valid() && i <= |run| && forall k: nat :: k < i ==> EventFits(c, run[k].event)
    ensures Coherent(After(c, sends, run, i)) && HeldFits(c, After(c, sends, run, i))
  {
    hide After, Step, EventGoesRound, Coherent, HeldFits, EventFits;
    if i == 0 {
      StartCoherent(c, sends, run);
    } else {
      FitsSoFar(c, sends, run, i - 1);
      StepIs(c, sends, run, i - 1);
      FitsEventSettles(c, sends, After(c, sends, run, i - 1), run[i - 1].event, run[i - 1].at);
      StepCoherent(c, sends, After(c, sends, run, i - 1), run[i - 1].event, run[i - 1].at);
    }
  }

  /** A run goes round nowhere if the lobe holds the rounding of every bearing asked for: with lobes from half a degree up
      and with whole degrees, always. */
  lemma {:induction false} FittingRunsNeverRound(c: Config, sends: nat -> bool, run: seq<Timed>)
    requires c.beam.Valid() && forall k: nat :: k < |run| ==> EventFits(c, run[k].event)
    ensures NeverRound(c, sends, run)
  {
    hide After, EventGoesRound, HeldFits, EventFits, Coherent;
    forall i: nat | i < |run| ensures !EventGoesRound(c, sends, After(c, sends, run, i), run[i].event, run[i].at) {
      FitsSoFar(c, sends, run, i);
      FitsEventSettles(c, sends, After(c, sends, run, i), run[i].event, run[i].at);
    }
  }

  // ------------------------------------------------------------- commands put a lobe on the request

  /** The beam as commanded, once a held flip has gone too, reaches bearing b. */
  ghost predicate Aimed(c: Config, s: State, now: int, b: real) {
    var dir := if s.orders.pending.Some? then s.orders.pending.value.dir else EffectiveDirection(s, now);
    Served(c.beam, Inputs(b, EffectiveAz(s, now), dir, On6m(s.sib))) && (On6m(s.sib) && dir != Bidirectional ==> dir == Forward)
  }

  /** Deciding for b does not rotate, or the live lobe holds the rounding of b. */
  predicate Reaches(c: Config, s: State, now: int, b: real) {
    Decide(c.beam, Situation(s, now, b)).rotateTo.None? || Fits(LiveLobe(c.beam, EffectiveDirection(s, now)), b)
  }

  /** With its rotation, if any, sent, a decision for b leaves the beam aimed exactly then. */
  lemma {:induction false} AppliedAims(c: Config, sends: nat -> bool, s: State, now: int, b: real)
    requires c.beam.Valid() && !Refused(s.lock) && s.orders.pending.None?
    requires EffectiveDirection(s, now) != Unknown
    requires Decide(c.beam, Situation(s, now, b)).rotateTo.Some? ==> sends(|s.out|)
    ensures Aimed(c, Applied(c, sends, s, now, b), now, b) <==> Reaches(c, s, now, b)
  {
    hide Decide, Served, Flipped, Refused, Fits;
    var i := Situation(s, now, b);
    var d := Decide(c.beam, i);
    DecideIsFixpoint(c.beam, i);
    var turned := if d.rotateTo.Some? then SendRotate(s, true, d.rotateTo.value, now) else s;
    var noted := Noted(turned, d.rotateTo, d.direction);
    assert EffectiveAz(noted, now) == Executed(i, d).az;
    if d.direction.Some? { FlippedSends(sends, noted, d.direction.value, b, now); }
  }

  /** A request that is acted on, all publishes going out, leaves the beam aimed at it, at once when the flip may go and
      otherwise with the flip held: exactly when it needs no rotation or the live lobe holds the rounding of its bearing. */
  lemma {:induction false} GotoAims(c: Config, sends: nat -> bool, s: State, now: int, bearing: real)
    requires c.beam.Valid() && !EventGoesRound(c, sends, s, Goto(bearing), now)
    requires s.connected && s.enabled && !Refused(SyncedLock(s.lock, now)) && s.sib.rot.Live() && s.sib.rot.azKnown
    requires EffectiveDirection(s, now) != Unknown
    requires forall k: nat :: k >= |s.out| ==> sends(k)
    ensures var t := Step(c, sends, s, Goto(bearing), now);
      && (Aimed(c, t, now, bearing) <==> Reaches(c, s, now, Norm(bearing)))
      && (t.orders.pending.Some? ==> s.sib.ant.moving || Transmitting(s.sib) || FlipInFlight(s.orders, now))
  {
    hide Decide, Served, Applied, Synced, DecideAndApply, GoesRound, Aimed, Reaches;
    SyncReports(s, now);
    SyncedLockIs(s, now);
    var y := Synced(s, now);
    var b := Norm(bearing);
    var a := Asked(y, b);
    AskedInSync(y, b, now);
    SameReach(c, s, a, now, b);
    DecidingIsStraightLine(c, sends, a, now, b, FLUSHES);
    AppliedAims(c, sends, a, now, b);
    AppliedHolds(c, sends, a, now, b);
    SameFreedom(s, a, now);
    var t := Applied(c, sends, a, now, b);
    AimedAtNormed(c, t, now, bearing);
    ReportingKeepsAim(c, t, now, bearing);
  }

  lemma {:induction false} ReportingKeepsAim(c: Config, s: State, now: int, b: real)
    ensures Aimed(c, Published(s, Report), now, b) == Aimed(c, s, now, b)
  {}

  lemma {:induction false} SameReach(c: Config, s: State, t: State, now: int, b: real)
    requires t.sib == s.sib && t.orders.flip == s.orders.flip && t.orders.turn == s.orders.turn
    ensures Situation(t, now, b) == Situation(s, now, b) && EffectiveDirection(t, now) == EffectiveDirection(s, now)
    ensures Reaches(c, t, now, b) == Reaches(c, s, now, b)
  {}

  /** With every publish going out, a flip is left held only when it may not go yet. */
  lemma {:induction false} AppliedHolds(c: Config, sends: nat -> bool, s: State, now: int, b: real)
    requires s.orders.pending.None? && forall k: nat :: k >= |s.out| ==> sends(k)
    ensures Applied(c, sends, s, now, b).orders.pending.Some? ==> !FlipMayGo(s, now)
  {
    hide Decide, Situation;
  }

  lemma {:induction false} AimedAtNormed(c: Config, s: State, now: int, bearing: real)
    ensures Aimed(c, s, now, bearing) <==> Aimed(c, s, now, Norm(bearing))
  {
    var az := EffectiveAz(s, now);
    NormTwice(bearing);
    CoversExactlyWithin(az, c.beam.lobe, bearing);
    CoversExactlyWithin(az, c.beam.lobe, Norm(bearing));
    CoversExactlyWithin(az + 180.0, c.beam.lobe, bearing);
    CoversExactlyWithin(az + 180.0, c.beam.lobe, Norm(bearing));
    CoversExactlyWithin(az, c.beam.bidirLobe, bearing);
    CoversExactlyWithin(az, c.beam.bidirLobe, Norm(bearing));
    CoversExactlyWithin(az + 180.0, c.beam.bidirLobe, bearing);
    CoversExactlyWithin(az + 180.0, c.beam.bidirLobe, Norm(bearing));
  }

  /** If the last of what was sent since is a direction change, it is to the direction wanted in t. */
  predicate LastFlipWanted(sent: seq<Sent>, t: State, now: int) {
    |t.out| > |sent| && t.out[|t.out| - 1].SetDirection? ==>
      t.out[|t.out| - 1].dir == if t.orders.pending.Some? then t.orders.pending.value.dir else EffectiveDirection(t, now)
  }

  /** A flush that finds its held flip free to go, and whose rotation, if any, goes out, leaves the beam aimed at
      the latest request exactly when it needs no rotation or the live lobe holds the rounding; the flip itself is the last command and is for the direction then wanted. */
  lemma {:induction false} FlushAims(c: Config, sends: nat -> bool, before: State, now: int)
    requires c.beam.Valid() && Coherent(before)
    requires Synced(before, now).orders.pending.Some? && Open(Synced(before, now), now)
    requires Synced(before, now).sib.ant.direction != Unknown
    requires FlushDecision(c, Synced(before, now), now).rotateTo.Some? ==> sends(|Synced(before, now).out|)
    ensures var s := Synced(before, now); var t := FlushedOnce(c, sends, before, now);
      && AskedFor(t, s.orders.pending.value.bearing)
      && (Aimed(c, t, now, s.orders.pending.value.bearing) <==> Reaches(c, s, now, s.orders.pending.value.bearing))
      && LastFlipWanted(s.out, t, now)
      && ((forall k: nat :: k >= |s.out| ==> sends(k)) ==> t.orders.pending.None?)
  {
    hide Decide, Applied, Situation, Served, Synced, Flipped;
    SyncReports(before, now);
    var s := Synced(before, now);
    var b := s.orders.pending.value.bearing;
    var free := Hold(s, None);
    FreeingIsNeutral(s, now, b);
    SituationIs(s, now, b);
    var d := Decide(c.beam, Situation(s, now, b));
    DirectionMeansKnown(c.beam, Situation(s, now, b));
    if d.rotateTo.Some? {
      AppliedAims(c, sends, free, now, b);
      AppliedKeepsAsker(c, sends, free, now, b);
      if forall k: nat :: k >= |s.out| ==> sends(k) { AppliedHolds(c, sends, free, now, b); }
    } else {
      DecideIsFixpoint(c.beam, Situation(s, now, b));
      if d.direction.Some? {
        FlippedSends(sends, free, d.direction.value, b, now);
        FlippedWhenSent(sends, free, d.direction.value, b, now);
      }
    }
  }

  lemma {:induction false} FlippedWhenSent(sends: nat -> bool, s: State, dir: Direction, b: real, now: int)
    requires FlipMayGo(s, now) && !Refused(s.lock)
    ensures Flipped(sends, s, dir, b, now).orders.pending.None? <==> sends(|s.out|)
  {}

  /** Applying a decision keeps the latest request, and a direction change is its last command. */
  lemma {:induction false} AppliedKeepsAsker(c: Config, sends: nat -> bool, s: State, now: int, b: real)
    requires !Refused(s.lock) && AskedFor(s, b) && s.orders.pending.None?
    ensures var t := Applied(c, sends, s, now, b); var d := Decide(c.beam, Situation(s, now, b));
      && AskedFor(t, b)
      && LastFlipWanted(s.out, t, now)
  {
    hide Decide, Situation, Flipped, Refused;
    var d := Decide(c.beam, Situation(s, now, b));
    var turned := if d.rotateTo.Some? then SendRotate(s, true, d.rotateTo.value, now) else s;
    if d.direction.Some? {
      DirectionMeansKnown(c.beam, Situation(s, now, b));
      SituationIs(s, now, b);
      FlippedSends(sends, Noted(turned, d.rotateTo, d.direction), d.direction.value, b, now);
    }
  }

  /** A flip held for the latest request goes on the first tick at which nothing stands in its way, aimed at that
      request as the beam then is. */
  lemma {:induction false} TickSendsHeldFlip(c: Config, sends: nat -> bool, s: State, now: int)
    requires c.beam.Valid() && !EventGoesRound(c, sends, s, Tick, now) && Coherent(s) && s.orders.pending.Some?
    requires !Refused(SyncedLock(s.lock, now))
    requires s.sib.ant.Live() && s.sib.ant.direction != Unknown && FlipMayGo(s, now)
    requires forall k: nat :: k >= |s.out| ==> sends(k)
    ensures var t := Step(c, sends, s, Tick, now); var b := s.orders.pending.value.bearing;
      AskedFor(s, b) && AskedFor(t, b) && t.orders.pending.None? && (Aimed(c, t, now, b) <==> Reaches(c, s, now, b))
  {
    hide Decide, FlushedOnce, Flush, Served;
    var y := Synced(s, now);
    var l := y.(orders := Lapsed(y.orders, now));
    SyncReports(s, now);
    SyncedLockIs(s, now);
    assert y.orders.pending == s.orders.pending;
    assert Synced(l, now) == l by { LapsingInSync(y, now); }
    SameFreedom(s, y, now);
    assert FlipMayGo(l, now);
    FlushAims(c, sends, l, now);
    TwoFlushesSuffice(c, sends, l, now, FLUSHES);
  }

  lemma {:induction false} LapsingInSync(s: State, now: int)
    requires Synced(s, now) == s
    ensures var t := s.(orders := Lapsed(s.orders, now)); Synced(t, now) == t
  {}

  // ------------------------------------------------------------- the antenna lock over runs

  predicate Ordered(run: seq<Timed>) { forall i, j :: 0 <= i < j < |run| ==> run[i].at <= run[j].at }

  /** The antenna mode the bus last delivered before event i, if any. */
  function Recorded(run: seq<Timed>, i: nat): Option<Mode>
    requires i <= |run|
  {
    if i == 0 then None
    else if run[i - 1].event.AntModeState? && run[i - 1].event.mode.Some? then run[i - 1].event.mode
    else Recorded(run, i - 1)
  }

  /** Whether that delivery came after the broker connection last began. */
  function OnThisConnection(run: seq<Timed>, i: nat): bool
    requires i <= |run|
  {
    if i == 0 then false
    else if run[i - 1].event.AntModeState? && run[i - 1].event.mode.Some? then true
    else if run[i - 1].event.AntModeConnecting? then false
    else OnThisConnection(run, i - 1)
  }

  /** One past the last time the worker was told of a connect before event i; 0 if never. */
  function LastConnect(run: seq<Timed>, i: nat): (j: nat)
    requires i <= |run|
    ensures j <= i
    ensures j > 0 ==> run[j - 1].event == SetConnected(true)
    ensures forall k :: j <= k < i ==> run[k].event != SetConnected(true)
  {
    if i == 0 then 0 else if run[i - 1].event == SetConnected(true) then i else LastConnect(run, i - 1)
  }

  /** Since the last connect, an antenna mode of that connection has been there to see, or three seconds passed. */
  ghost predicate HoldOver(run: seq<Timed>, i: nat, now: int)
    requires i <= |run|
  {
    var j := LastConnect(run, i);
    || (exists m: nat :: j <= m <= i && OnThisConnection(run, m))
    || (j > 0 && now >= run[j - 1].at + ANT_MODE_HOLD)
  }

  lemma {:induction false} StepLock(c: Config, sends: nat -> bool, s: State, e: Event, now: int)
    requires c.beam.Valid() && !EventGoesRound(c, sends, s, e, now)
    ensures var l := Step(c, sends, s, e, now).lock;
      match e
      case AntModeState(mode) => l == if mode.Some? then s.lock.(box := mode.value, seen := true, current := true) else s.lock
      case AntModeConnecting => l == s.lock.(current := false)
      case SetConnected(on) => l == if on && c.locks then s.lock.(known := false, holdUntil := Some(now + ANT_MODE_HOLD)) else s.lock
      case _ => l == s.lock || l == SyncedLock(s.lock, now)
  {
    hide Retried, GotoFlow, Synced, LearnedLock, OnTick, FlushGoesRound, GotoGoesRound;
    SyncedLockIs(s, now);
    match e
    case Status(which, online) => if which != RotatorSlot { RetryLock(c, sends, InputsChanged(OnStatus(s, which, online)), now); }
    case AntState(doc) => if doc.Some? { RetryLock(c, sends, InputsChanged(OnAntDoc(s, doc.value)), now); }
    case RadioState(doc) => if doc.Some? { RetryLock(c, sends, InputsChanged(OnRadioDoc(s, doc.value)), now); }
    case Goto(b) => GotoLock(c, sends, s, now, b);
    case Tick => TickLock(c, sends, s, now);
    case _ =>
  }

  lemma {:induction false} TickLock(c: Config, sends: nat -> bool, s: State, now: int)
    requires c.beam.Valid() && !FlushGoesRound(c, sends, Ticked(s, now), now)
    ensures OnTick(c, sends, s, now).lock == SyncedLock(s.lock, now)
  {
    hide Retried, Synced;
    SyncedLockIs(s, now);
    RetryLock(c, sends, Ticked(s, now), now);
  }

  lemma {:induction false} RetryLock(c: Config, sends: nat -> bool, s: State, now: int)
    requires c.beam.Valid() && !FlushGoesRound(c, sends, s, now)
    ensures Retried(c, sends, s, now).lock == SyncedLock(s.lock, now)
  {
    hide Retried, FlushedOnce, Synced;
    RetrySends(c, sends, s, now);
    FlushSends(c, sends, s, now);
    SyncedLockIs(s, now);
  }

  lemma {:induction false} GotoLock(c: Config, sends: nat -> bool, s: State, now: int, b: real)
    requires c.beam.Valid() && !GotoGoesRound(c, sends, s, now, b)
    ensures GotoFlow(c, sends, s, now, b, FLUSHES).s.lock == SyncedLock(s.lock, now)
  {
    hide DecideAndApply, Synced, Applied;
    SyncedLockIs(s, now);
    SyncReports(s, now);
    var a := Asked(Synced(s, now), Norm(b));
    AskedInSync(Synced(s, now), Norm(b), now);
    if a.connected && !Refused(a.lock) && a.enabled && a.sib.rot.Live() && a.sib.rot.azKnown {
      DecidingIsStraightLine(c, sends, a, now, Norm(b), FLUSHES);
      AppliedSends(c, sends, a, now, Norm(b));
    }
  }

  /** What the lock record knows at any point of a run, told by the run's events alone. */
  ghost predicate LockTrue(c: Config, run: seq<Timed>, i: nat, l: Lock, now: int)
    requires i <= |run|
  {
    && l.seen == Recorded(run, i).Some?
    && (l.seen ==> l.box == Recorded(run, i).value)
    && (!l.seen ==> l.mode == Normal)
    && l.current == OnThisConnection(run, i)
    && (c.locks && l.known ==> HoldOver(run, i, now))
    && (c.locks && !l.known ==> var j := LastConnect(run, i); l.holdUntil == if j > 0 then Some(run[j - 1].at + ANT_MODE_HOLD) else None)
  }

  lemma {:induction false} SyncKeepsLockTrue(c: Config, run: seq<Timed>, i: nat, l: Lock, now: int)
    requires i <= |run| && LockTrue(c, run, i, l, now)
    ensures LockTrue(c, run, i, SyncedLock(l, now), now)
  {}

  lemma {:induction false} LockAlwaysTrue(c: Config, sends: nat -> bool, run: seq<Timed>, i: nat, now: int)
    requires c.beam.Valid() && NeverRound(c, sends, run) && Ordered(run) && i <= |run|
    requires i > 0 ==> run[i - 1].at <= now
    ensures LockTrue(c, run, i, After(c, sends, run, i).lock, now)
  {
    hide Step, After, EventGoesRound, LockTrue;
    StartLock(c, sends, run, now);
    if i > 0 {
      var e, at := run[i - 1].event, run[i - 1].at;
      var s := After(c, sends, run, i - 1);
      LockAlwaysTrue(c, sends, run, i - 1, at);
      SyncKeepsLockTrue(c, run, i - 1, s.lock, at);
      StepIs(c, sends, run, i - 1);
      StepLock(c, sends, s, e, at);
      LockStep(c, run, i, s.lock, After(c, sends, run, i).lock, now);
    }
  }

  lemma {:induction false} StartLock(c: Config, sends: nat -> bool, run: seq<Timed>, now: int)
    ensures LockTrue(c, run, 0, After(c, sends, run, 0).lock, now)
  {}

  lemma {:induction false} LockStep(c: Config, run: seq<Timed>, i: nat, l: Lock, m: Lock, now: int)
    requires 0 < i <= |run| && run[i - 1].at <= now
    requires LockTrue(c, run, i - 1, l, run[i - 1].at) && LockTrue(c, run, i - 1, SyncedLock(l, run[i - 1].at), run[i - 1].at)
    requires match run[i - 1].event
      case AntModeState(mode) => m == if mode.Some? then l.(box := mode.value, seen := true, current := true) else l
      case AntModeConnecting => m == l.(current := false)
      case SetConnected(on) => m == if on && c.locks then l.(known := false, holdUntil := Some(run[i - 1].at + ANT_MODE_HOLD)) else l
      case _ => m == l || m == SyncedLock(l, run[i - 1].at)
    ensures LockTrue(c, run, i, m, now)
  {}

  /** In every run: whenever an event commands a rotation, a direction or a stop, the last antenna mode the bus
      delivered is normal (or there was none), and since the last connect an antenna mode of that connection was
      seen or three seconds have passed. */
  lemma {:induction false} NothingMovesUnderLock(c: Config, sends: nat -> bool, run: seq<Timed>, i: nat)
    requires c.beam.Valid() && NeverRound(c, sends, run) && Ordered(run) && i < |run|
    requires Moves(After(c, sends, run, i).out, After(c, sends, run, i + 1).out)
    ensures Recorded(run, i).GetOr(Normal) == Normal
    ensures c.locks ==> HoldOver(run, i, run[i].at)
  {
    hide Step, After, EventGoesRound;
    var s := After(c, sends, run, i);
    StepIs(c, sends, run, i);
    LockAlwaysTrue(c, sends, run, i, run[i].at);
    SyncKeepsLockTrue(c, run, i, s.lock, run[i].at);
    StepDisciplined(c, sends, s, run[i].event, run[i].at);
  }
}
