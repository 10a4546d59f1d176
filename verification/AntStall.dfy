/** Why the progress of the antenna lock needs the save of a due borrow to succeed: when it fails, a storm that needs its
    power borrowed starts its timeout anew, and as long as it fails at every step the storm never parks. */
module AntStall {
  import opened Options
  import opened Policy
  import opened AntModel
  import opened AntEvents
  import opened AntLock
  import opened AntWatch
  import opened AntBorrow
  import opened AntDeadline

  /** A storm grounding without its switch confirmed, its power off and its late borrow open. */
  predicate Bounces(c: Config, s: State) {
    s.park.phase == Grounding && !SwitchedOff(s) && BorrowDue(c, s)
  }

  /** Exactly then: the entry of a step leaves the phase but starts its clock anew when and only when a due borrow's save
      fails. Any other save of the step, failing or not, leaves the clock alone. */
  lemma {:induction false} RestartsExactlyWhen(c: Config, w: World, s: State, now: int)
    requires s.park.lock.Some? && s.park.phase != AwaitingPower && s.park.since != now
    ensures var t := LateBorrowed(c, w, s, now);
      t.park.phase == s.park.phase && t.park.since == now <==> BorrowDue(c, s) && !w(|s.journal.log|)
    ensures var t := LateBorrowed(c, w, s, now); t.park == s.park <==> !BorrowDue(c, s)
  {}

  ghost predicate NothingSaves(w: World) { forall k: nat :: !w(k) }

  /** With the save failing, such a step ends where it began but with the grounding timeout started anew. */
  lemma {:induction false} FailingSaveBounces(c: Config, w: World, s: State, wind: Option<Wind>, now: int)
    requires c.Valid() && Bounces(c, s) && !w(|s.journal.log|)
    ensures var t := LockStepped(c, w, LateBorrowed(c, w, s, now), wind, now);
      Bounces(c, t) && t.park == s.park.(since := now) && t.pol == s.pol && t.supply == s.supply
  {}

  /** The same over the whole step: a grounding lock whose switch is not confirmed comes out of it grounding with its
      timeout started anew exactly when a due borrow's save fails. */
  lemma {:induction false} GroundingRestartsExactlyWhen(c: Config, w: World, p: Engine, now: int)
    requires c.Valid() && Ok(p.s) && p.s.park.lock.Some? && p.s.park.phase == Grounding && !SwitchedOff(p.s)
    requires p.s.park.since != now
    ensures var t := SteppedAndSaved(c, w, p, now).s;
      t.park.phase == Grounding && t.park.since == now <==> BorrowDue(c, p.s) && !w(|p.s.journal.log|)
  {
    hide PresenceTracked, TxNoted, LockStepped, LateBorrowed, BorrowStepped, Persisted, BorrowDue, SwitchedOff, Ok;
    var a := PresenceTracked(TxNoted(p.s, now), now);
    assert a == p.s.(watch := a.watch) by { OnlyWatch(p.s, now); }
    TrackedOk(p.s, now);
    SameDue(c, p.s, a);
    var b := AutoEntered(c, w, a, ActiveIds(p.warnings, now), now);
    assert b == a by { WorkingMode(a); }
    LateKeepsLock(c, w, a, now);
    GroundingStep(c, w, a, p.wind, now);
    var f := LockStepped(c, w, LateBorrowed(c, w, a, now), p.wind, now);
    ParkUntouched(c, w, f, now);
  }

  lemma {:induction false} SameDue(c: Config, s: State, a: State)
    requires a == s.(watch := a.watch)
    ensures BorrowDue(c, a) == BorrowDue(c, s) && SwitchedOff(a) == SwitchedOff(s)
  {}

  lemma {:induction false} ParkUntouched(c: Config, w: World, s: State, now: int)
    ensures Persisted(w, BorrowStepped(c, w, s, now)).park == s.park
  {}

  lemma {:induction false} GroundingStep(c: Config, w: World, s: State, wind: Option<Wind>, now: int)
    requires c.Valid() && s.park.lock.Some? && s.park.phase == Grounding && !SwitchedOff(s) && s.park.since != now
    ensures var d := LateBorrowed(c, w, s, now); d.park.lock.Some? && var t := LockStepped(c, w, d, wind, now);
      t.park.phase == Grounding && t.park.since == now <==> BorrowDue(c, s) && !w(|s.journal.log|)
  {}

  lemma {:induction false} StepBounces(c: Config, w: World, p: Engine, now: int)
    requires c.Valid() && Bounces(c, p.s) && !w(|p.s.journal.log|)
    ensures var t := SteppedAndSaved(c, w, p, now); Bounces(c, t.s) && t.s.park == p.s.park.(since := now) && t.boot == p.boot
  {
    hide PresenceTracked, TxNoted, LockStepped, LateBorrowed, Bounces;
    var a := PresenceTracked(TxNoted(p.s, now), now);
    assert a == p.s.(watch := a.watch) by { OnlyWatch(p.s, now); }
    BouncesWhen(c, p.s, a);
    LateKeepsLock(c, w, a, now);
    var f := LockStepped(c, w, LateBorrowed(c, w, a, now), p.wind, now);
    FailingSaveBounces(c, w, a, p.wind, now);
    BouncesWhen(c, a, f);
    BouncesWhen(c, f, Persisted(w, f));
  }

  lemma {:induction false} LateKeepsLock(c: Config, w: World, s: State, now: int)
    ensures LateBorrowed(c, w, s, now).park.lock == s.park.lock
  {}

  lemma {:induction false} BouncesWhen(c: Config, s: State, t: State)
    requires Bounces(c, s)
    ensures s.park.lock.Some? && s.supply.borrow.None? && s.pol.s.mode == StormMode
    ensures t.park == s.park && t.supply == s.supply && t.pol == s.pol && t.sib == s.sib ==> Bounces(c, t)
  {}

  /** The tick that finds such a storm leaves it so. */
  lemma {:induction false} TickBounces(c: Config, w: World, e: Engine, now: int)
    requires c.Valid() && e.boot.ready && Bounces(c, e.s) && !w(|e.s.journal.log|)
    ensures var t := Step(c, w, e, Tick, now); t.boot.ready && Bounces(c, t.s) && t.s.park.since == now
  {
    hide SteppedAndSaved;
    StepBounces(c, w, e, now);
  }

  /** So as long as only ticks come and the borrow's save fails at each, whatever becomes of the other saves, it never
      leaves the grounding phase. */
  lemma {:induction false} NeverPasses(c: Config, w: World, start: Engine, run: seq<Timed>, i: nat, j: nat)
    requires c.Valid() && i <= j <= |run|
    requires forall k :: i <= k < j ==> run[k].event == Tick && !w(|After(c, w, start, run, k).s.journal.log|)
    requires After(c, w, start, run, i).boot.ready && Bounces(c, After(c, w, start, run, i).s)
    ensures After(c, w, start, run, j).boot.ready && Bounces(c, After(c, w, start, run, j).s)
    decreases j
  {
    hide Step, Bounces;
    if i < j {
      NeverPasses(c, w, start, run, i, j - 1);
      TickBounces(c, w, After(c, w, start, run, j - 1), run[j - 1].at);
    }
  }

  // ------------------------------------------------------------- a run that gets there

  const STORM_CMD := Command(SetAntMode(Some(StormMode)), NoStamp)
  const BLANK := Started(None, [], 0)

  /** powerseq idle, antenna power off, a storm command queued, and then a tick every second. */
  function StallEvent(k: nat): Timed {
    if k == 0 then Timed(SetConnected(true), 0)
    else if k == 1 then Timed(Bus(Status(SeqSlot, true)), 0)
    else if k == 2 then Timed(Bus(SeqState(Some(IdleSeq))), 0)
    else if k == 3 then Timed(Bus(Status(PowerSlot, true)), 0)
    else if k == 4 then Timed(Bus(PowerState(Some(false), None)), 0)
    else if k == 5 then Timed(Cmd(STORM_CMD), 0)
    else Timed(Tick, STARTUP_HOLD + 1000 * (k - 6))
  }

  function StallRun(n: nat): seq<Timed> { seq(7 + n, k requires 0 <= k < 7 + n => StallEvent(k)) }

  /** The engine before the tick that ends the startup hold. */
  function Queued(): Engine {
    BLANK.(s := BLANK.s.(sib := SILENT.(seq_ := PowerSeq(true, IdleSeq), pwr := Power(true, true, Some(false)))),
           boot := BLANK.boot.(connected := true, firstConnect := Some(0), pending := [STORM_CMD]))
  }

  lemma {:induction false} StallSetUp(c: Config, w: World, n: nat)
    ensures After(c, w, BLANK, StallRun(n), 6) == Queued()
  {
    hide Step;
    var run := StallRun(n);
    assert After(c, w, BLANK, run, 0) == BLANK;
    var e1 := BLANK.(boot := BLANK.boot.(connected := true, firstConnect := Some(0)));
    assert Step(c, w, BLANK, SetConnected(true), 0) == e1 by { ConnectIs(c, w, BLANK); }
    var e2 := e1.(s := e1.s.(sib := SILENT.(seq_ := PowerSeq(true, NoPhase))));
    BusIs(c, w, e1, Status(SeqSlot, true));
    var e3 := e2.(s := e2.s.(sib := SILENT.(seq_ := PowerSeq(true, IdleSeq))));
    BusIs(c, w, e2, SeqState(Some(IdleSeq)));
    var e4 := e3.(s := e3.s.(sib := e3.s.sib.(pwr := Power(true, false, None))));
    BusIs(c, w, e3, Status(PowerSlot, true));
    var e5 := e4.(s := e4.s.(sib := e4.s.sib.(pwr := Power(true, true, Some(false)))));
    BusIs(c, w, e4, PowerState(Some(false), None));
    QueueIs(c, w, e5);
    assert After(c, w, BLANK, run, 1) == e1;
    assert After(c, w, BLANK, run, 2) == e2;
    assert After(c, w, BLANK, run, 3) == e3;
    assert After(c, w, BLANK, run, 4) == e4;
    assert After(c, w, BLANK, run, 5) == e5;
  }

  lemma {:induction false} ConnectIs(c: Config, w: World, e: Engine)
    requires e.boot.firstConnect.None?
    ensures Step(c, w, e, SetConnected(true), 0) == e.(boot := e.boot.(connected := true, firstConnect := Some(0)))
  {}

  lemma {:induction false} BusIs(c: Config, w: World, e: Engine, m: Message)
    requires !e.boot.ready
    ensures Step(c, w, e, Bus(m), 0) == e.(s := Heard(c, e.s, m, 0))
  {}

  lemma {:induction false} QueueIs(c: Config, w: World, e: Engine)
    requires !e.boot.ready && e.boot.pending == []
    ensures Step(c, w, e, Cmd(STORM_CMD), 0) == e.(boot := e.boot.(pending := [STORM_CMD]))
  {}

  /** The storm is entered, its borrow cannot be saved, and it grounds without power. */
  lemma {:induction false} StallReached(c: Config, w: World, n: nat)
    requires c.Valid() && c.borrows && NothingSaves(w)
    ensures var e := After(c, w, BLANK, StallRun(n), 7); e.boot.ready && Bounces(c, e.s)
  {
    hide Step, SteppedAndSaved, Bounces;
    StallSetUp(c, w, n);
    var now := STARTUP_HOLD;
    var e := Queued();
    StepFactors(c, w, e, Tick, now);
    var p := Prepared(c, w, e, Tick, now);
    assert p.boot.ready && Bounces(c, p.s) by { EntryBounces(c, w); }
    StepBounces(c, w, p, now);
  }

  lemma {:induction false} EntryBounces(c: Config, w: World)
    requires c.Valid() && c.borrows && NothingSaves(w)
    ensures var p := Prepared(c, w, Queued(), Tick, STARTUP_HOLD); p.boot.ready && Bounces(c, p.s)
  {
    hide AppliedAll;
    var e, now := Queued(), STARTUP_HOLD;
    var s := e.s.(park := e.s.park.(since := now));
    assert AppliedAll(c, w, s, [STORM_CMD], [], now) == Applied(c, w, s, STORM_CMD, [], now) by { OneCommand(c, w, s, STORM_CMD, [], now); }
    assert ActiveIds(e.warnings, now) == [];
  }

  lemma {:induction false} OneCommand(c: Config, w: World, s: State, cmd: Command, active: seq<Id>, now: int)
    ensures AppliedAll(c, w, s, [cmd], active, now) == Applied(c, w, s, cmd, active, now)
  {
    hide Applied;
    assert [cmd][..0] == [];
    assert AppliedAll(c, w, s, [], active, now) == s;
  }

  /** In that run, with every save failing, the storm is still grounding after any number of one-second ticks, far
      beyond the summed timeouts counted twice. */
  lemma {:induction false} StormNeverParks(c: Config, w: World, n: nat)
    requires c.Valid() && c.borrows && NothingSaves(w)
    ensures var run := StallRun(n); var e := After(c, w, BLANK, run, 7 + n);
      && e.s.park.lock.Some? && e.s.park.phase == Grounding && e.s.pol.s.mode == StormMode
      && (1000 * n > 2 * WholeTime(c) ==> run[6 + n].at > run[6].at + 2 * WholeTime(c))
  {
    hide After;
    StallReached(c, w, n);
    NeverPasses(c, w, BLANK, StallRun(n), 7, 7 + n);
  }
}
