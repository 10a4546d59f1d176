/** Automation discipline of the antenna-mode engine: its policy state is always that of a policy run, so quiet time
    and acknowledgements mean what they say; and it enters a storm by itself only on a station long unmanned. */
module AntAutomation {
  import opened Options
  import opened Policy
  import opened AntModel
  import opened AntEvents
  import opened AntLock
  import opened AntLockRuns
  import opened AntWatch
  import PolicyRuns

  // ------------------------------------------------------------- engine events as policy calls

  function CommandCall(cmd: Command, active: seq<Id>, now: int): seq<PolicyRuns.Timed> {
    if Dropped(cmd, now) then []
    else match cmd.action
      case SetAntMode(mode) => if mode.None? then [] else [PolicyRuns.Timed(PolicyRuns.SetMode(mode.value, active), now)]
      case ReparkAction => [PolicyRuns.Timed(PolicyRuns.Repark, now)]
      case DismissAction => [PolicyRuns.Timed(PolicyRuns.Dismiss(active), now)]
      case OtherAction => []
  }

  function CommandCalls(cmds: seq<Command>, active: seq<Id>, now: int): seq<PolicyRuns.Timed> {
    if cmds == [] then []
    else CommandCalls(cmds[..|cmds| - 1], active, now) + CommandCall(cmds[|cmds| - 1], active, now)
  }

  /** What an event asks of the policy before its step. */
  function EventCalls(e: Engine, ev: Event, now: int): seq<PolicyRuns.Timed> {
    match ev
    case NinaResult(found) =>
      [PolicyRuns.Timed(PolicyRuns.Poll(if found.Some? then Some(ActiveIds(found.value, now)) else None), now)]
    case Cmd(cmd) => CommandCall(cmd, ActiveIds(e.warnings, now), now)
    case Tick => if e.boot.ready then [] else CommandCalls(e.boot.pending, ActiveIds(e.warnings, now), now)
    case _ => []
  }

  /** The automatic entry check every step makes. */
  function EntryCheck(p: Engine, now: int): PolicyRuns.Timed {
    PolicyRuns.Timed(PolicyRuns.Evaluate(ActiveIds(p.warnings, now), PresenceNow(PresenceTracked(TxNoted(p.s, now), now), now)), now)
  }

  function CallsOf(c: Config, w: World, e: Engine, ev: Event, now: int): seq<PolicyRuns.Timed> {
    if Steps(e, ev, now) then EventCalls(e, ev, now) + [EntryCheck(Prepared(c, w, e, ev, now), now)] else []
  }

  function Folded(c: PolicyConfig, p: Pol, calls: seq<PolicyRuns.Timed>): Pol { PolicyRuns.After(c, p, calls, |calls|) }

  lemma {:induction false} PrefixSame(c: PolicyConfig, p: Pol, xs: seq<PolicyRuns.Timed>, ys: seq<PolicyRuns.Timed>, i: nat)
    requires i <= |xs|
    ensures PolicyRuns.After(c, p, xs + ys, i) == PolicyRuns.After(c, p, xs, i)
  {
    hide PolicyRuns.Step;
    if i > 0 {
      PrefixSame(c, p, xs, ys, i - 1);
      assert (xs + ys)[i - 1] == xs[i - 1];
    }
  }

  lemma {:induction false} FoldedJoin(c: PolicyConfig, p: Pol, xs: seq<PolicyRuns.Timed>, ys: seq<PolicyRuns.Timed>)
    ensures Folded(c, p, xs + ys) == Folded(c, Folded(c, p, xs), ys)
    decreases |ys|
  {
    hide PolicyRuns.Step;
    if ys == [] {
      assert xs + ys == xs;
    } else {
      var front := ys[..|ys| - 1];
      assert xs + ys == (xs + front) + [ys[|ys| - 1]] && ys == front + [ys[|ys| - 1]];
      FoldedJoin(c, p, xs, front);
      PrefixSame(c, p, xs + front, [ys[|ys| - 1]], |xs + front|);
      PrefixSame(c, Folded(c, p, xs), front, [ys[|ys| - 1]], |front|);
    }
  }

  lemma {:induction false} FoldedOne(c: PolicyConfig, p: Pol, call: PolicyRuns.Timed)
    ensures Folded(c, p, [call]) == PolicyRuns.Step(c, p, call)
  {
    hide PolicyRuns.Step;
    PolicyRuns.StepIs(c, p, [call], 0);
    PolicyRuns.StartIs(c, p, [call]);
  }

  lemma {:induction false} FoldedNone(c: PolicyConfig, p: Pol)
    ensures Folded(c, p, []) == p
  {}

  // ------------------------------------------------------------- each event is its calls

  lemma {:induction false} ModePol(c: Config, w: World, s: State, from: Mode, now: int)
    ensures ModeChanged(c, w, s, from, now).pol == s.pol
  {}

  lemma {:induction false} RestartPol(c: Config, w: World, s: State, now: int)
    ensures ParkRestarted(c, w, s, now).pol == s.pol
  {}

  lemma {:induction false} AppliedIsCall(c: Config, w: World, s: State, cmd: Command, active: seq<Id>, now: int)
    ensures Applied(c, w, s, cmd, active, now).pol == Folded(c.policy, s.pol, CommandCall(cmd, active, now))
  {
    hide ModeChanged, ParkRestarted, Folded, ModeSet;
    FoldedNone(c.policy, s.pol);
    if cmd.action.SetAntMode? && cmd.action.mode.Some? {
      ModeSame(s.pol, cmd.action.mode.value, now, active);
      ModePol(c, w, s.(pol := ModeSet(s.pol, cmd.action.mode.value, now, active)), s.pol.s.mode, now);
      FoldedOne(c.policy, s.pol, PolicyRuns.Timed(PolicyRuns.SetMode(cmd.action.mode.value, active), now));
    } else {
      RestartPol(c, w, s.(pol := Reparked(s.pol)), now);
      FoldedNone(c.policy, s.pol);
      FoldedOne(c.policy, s.pol, PolicyRuns.Timed(PolicyRuns.Repark, now));
      FoldedOne(c.policy, s.pol, PolicyRuns.Timed(PolicyRuns.Dismiss(active), now));
    }
  }

  lemma {:induction false} ModeSame(p: Pol, m: Mode, now: int, active: seq<Id>)
    ensures m == p.s.mode ==> ModeSet(p, m, now, active) == p
  {}

  lemma {:induction false} AppliedAllIsCalls(c: Config, w: World, s: State, cmds: seq<Command>, active: seq<Id>, now: int)
    ensures AppliedAll(c, w, s, cmds, active, now).pol == Folded(c.policy, s.pol, CommandCalls(cmds, active, now))
    decreases |cmds|
  {
    hide Applied, Folded, CommandCall;
    if cmds == [] {
      FoldedNone(c.policy, s.pol);
    } else {
      var front, last := cmds[..|cmds| - 1], cmds[|cmds| - 1];
      AppliedAllIsCalls(c, w, s, front, active, now);
      var t := AppliedAll(c, w, s, front, active, now);
      AppliedIsCall(c, w, t, last, active, now);
      FoldedJoin(c.policy, s.pol, CommandCalls(front, active, now), CommandCall(last, active, now));
    }
  }

  lemma {:induction false} PreparedIsCalls(c: Config, w: World, e: Engine, ev: Event, now: int)
    ensures Prepared(c, w, e, ev, now).s.pol == Folded(c.policy, e.s.pol, EventCalls(e, ev, now))
  {
    hide Heard, ModeChanged, AppliedAll, Applied, Folded, CommandCall, CommandCalls, Polled;
    FoldedNone(c.policy, e.s.pol);
    match ev
    case Bus(m) => HeardKeeps(c, e.s, m, now);
    case NinaResult(found) =>
      var active := if found.Some? then Some(ActiveIds(found.value, now)) else None;
      FoldedOne(c.policy, e.s.pol, PolicyRuns.Timed(PolicyRuns.Poll(active), now));
      ModePol(c, w, e.s.(pol := Polled(c.policy, e.s.pol, now, active)), e.s.pol.s.mode, now);
    case Tick =>
      var s := e.s.(park := e.s.park.(since := now),
                    supply := if e.s.supply.borrow.Some? then e.s.supply.(clock := now) else e.s.supply);
      AppliedAllIsCalls(c, w, s, e.boot.pending, ActiveIds(e.warnings, now), now);
    case Cmd(cmd) => AppliedIsCall(c, w, e.s, cmd, ActiveIds(e.warnings, now), now);
    case _ =>
  }

  lemma {:induction false} SteppedPol(c: Config, w: World, p: Engine, now: int)
    requires c.Valid() && Ok(p.s)
    ensures SteppedAndSaved(c, w, p, now).s.pol
         == Evaluated(c.policy, p.s.pol, now, ActiveIds(p.warnings, now), PresenceNow(PresenceTracked(TxNoted(p.s, now), now), now))
  {
    hide AutoEntered, LateBorrowed, LockStepped, BorrowStepped, Persisted, PresenceTracked, TxNoted, Ok, PresenceNow, Evaluated;
    var active := ActiveIds(p.warnings, now);
    var a := PresenceTracked(TxNoted(p.s, now), now);
    TrackedOk(p.s, now);
    AutoEnteredOk(c, w, a, active, now);
    EnteredIs(c, w, a, active, now);
    var b := AutoEntered(c, w, a, active, now);
    LateBorrowedOk(c, w, b, now);
    LateBorrowedPol(c, w, b, now);
    var d := LateBorrowed(c, w, b, now);
    if d.park.lock.Some? { LockSteppedOk(c, w, d, p.wind, now); }
    var e := if d.park.lock.Some? then LockStepped(c, w, d, p.wind, now) else d;
    BorrowSteppedOk(c, w, e, now);
    PersistedOk(w, BorrowStepped(c, w, e, now));
  }

  /** Event i is none of the engine's own state, or an echo of it once the startup hold is over. */
  predicate EchoAt(c: Config, w: World, start: Engine, run: seq<Timed>, i: nat)
    requires i < |run|
  {
    run[i].event.OwnState? ==> After(c, w, start, run, i).boot.ready
  }

  /** Whatever an event does to the policy is what its calls do. */
  lemma {:induction false} EventIsItsCalls(c: Config, w: World, start: Engine, run: seq<Timed>, i: nat)
    requires WellFounded(c, start, run) && i < |run| && EchoAt(c, w, start, run, i)
    ensures var e := After(c, w, start, run, i);
      After(c, w, start, run, i + 1).s.pol == Folded(c.policy, e.s.pol, CallsOf(c, w, e, run[i].event, run[i].at))
  {
    hide After, Ok, WellFounded, Steps, SteppedAndSaved, Prepared, Folded, EventCalls, Evaluated;
    var e, ev, now := After(c, w, start, run, i), run[i].event, run[i].at;
    StepIs(c, w, start, run, i);
    StepFactors(c, w, e, ev, now);
    if Steps(e, ev, now) {
      var p := Prepared(c, w, e, ev, now);
      PreparedOk(c, w, start, run, i);
      PreparedIsCalls(c, w, e, ev, now);
      SteppedPol(c, w, p, now);
      FoldedOne(c.policy, p.s.pol, EntryCheck(p, now));
      FoldedJoin(c.policy, e.s.pol, EventCalls(e, ev, now), [EntryCheck(p, now)]);
    } else {
      FoldedNone(c.policy, e.s.pol);
    }
  }

  // ------------------------------------------------------------- id lists

  /** The policy's id lists are in order. */
  predicate InOrder(p: Pol) { Sorted(p.s.acked) && Sorted(p.s.dismissed) }

  lemma {:induction false} StartsInOrder(loaded: Option<Snapshot>, log: seq<Effect>, now: int)
    ensures InOrder(Started(loaded, log, now).s.pol)
  {
    if loaded.Some? { LoadedIsSorted(loaded.value.standing); }
  }

  lemma {:induction false} HeardInOrder(e: Engine, raw: Option<Published>, now: int)
    requires InOrder(e.s.pol)
    ensures InOrder(OwnStateHeard(e, raw, now).s.pol)
  {}

  /** In every run from a start, over any state file or none and adoptions included, both id lists are in order, as the
      policy's binary search needs. */
  lemma {:induction false} AlwaysInOrder(c: Config, w: World, loaded: Option<Snapshot>, log: seq<Effect>, t0: int, run: seq<Timed>, i: nat)
    requires WellFounded(c, Started(loaded, log, t0), run) && i <= |run|
    ensures InOrder(After(c, w, Started(loaded, log, t0), run, i).s.pol)
  {
    hide After, WellFounded, Started;
    StartsInOrder(loaded, log, t0);
    OrderStays(c, w, Started(loaded, log, t0), run, i);
  }

  lemma {:induction false} OrderStays(c: Config, w: World, start: Engine, run: seq<Timed>, i: nat)
    requires WellFounded(c, start, run) && InOrder(start.s.pol) && i <= |run|
    ensures InOrder(After(c, w, start, run, i).s.pol)
  {
    hide After, WellFounded, OwnStateHeard, CallsOf, Step;
    StartIs(c, w, start, run);
    if i > 0 {
      var e, ev, now := After(c, w, start, run, i - 1), run[i - 1].event, run[i - 1].at;
      OrderStays(c, w, start, run, i - 1);
      if ev.OwnState? {
        StepIs(c, w, start, run, i - 1);
        OwnStateStep(c, w, e, ev, now);
        HeardInOrder(e, ev.doc, now);
      } else {
        EventIsItsCalls(c, w, start, run, i - 1);
        var calls := CallsOf(c, w, e, ev, now);
        PolicyRuns.AlwaysSorted(c.policy, e.s.pol, calls, |calls|);
      }
    }
  }

  // ------------------------------------------------------------- the engine runs the policy

  /** The policy calls of events r to i. */
  function PolicyRun(c: Config, w: World, start: Engine, run: seq<Timed>, r: nat, i: nat): seq<PolicyRuns.Timed>
    requires r <= i <= |run|
    decreases i
  {
    if i == r then []
    else PolicyRun(c, w, start, run, r, i - 1) + CallsOf(c, w, After(c, w, start, run, i - 1), run[i - 1].event, run[i - 1].at)
  }

  /** The engine refines the policy: as long as its own state comes back only as an echo, its policy state is that of the
      policy run its events ask for. */
  lemma {:induction false} EngineRunsPolicy(c: Config, w: World, start: Engine, run: seq<Timed>, r: nat, i: nat)
    requires WellFounded(c, start, run) && r <= i <= |run|
    requires forall k :: r <= k < i ==> EchoAt(c, w, start, run, k)
    ensures After(c, w, start, run, i).s.pol
         == Folded(c.policy, After(c, w, start, run, r).s.pol, PolicyRun(c, w, start, run, r, i))
    decreases i
  {
    hide After, WellFounded, Folded, CallsOf;
    if i == r {
      FoldedNone(c.policy, After(c, w, start, run, r).s.pol);
    } else {
      EngineRunsPolicy(c, w, start, run, r, i - 1);
      EventIsItsCalls(c, w, start, run, i - 1);
      FoldedJoin(c.policy, After(c, w, start, run, r).s.pol, PolicyRun(c, w, start, run, r, i - 1),
                 CallsOf(c, w, After(c, w, start, run, i - 1), run[i - 1].event, run[i - 1].at));
    }
  }

  predicate HasSetMode(calls: seq<PolicyRuns.Timed>) { exists k :: 0 <= k < |calls| && calls[k].call.SetMode? }

  lemma {:induction false} HeldWithoutSetMode(c: PolicyConfig, p: Pol, calls: seq<PolicyRuns.Timed>, i: nat)
    requires i <= |calls| && p.s.mode != Normal && !AutoStorm(p.s) && !HasSetMode(calls)
    ensures var q := PolicyRuns.After(c, p, calls, i); q.s.mode == p.s.mode && q.s.source == p.s.source
  {
    if i > 0 { HeldWithoutSetMode(c, p, calls, i - 1); }
  }

  /** A manual storm and a maintenance end only by an operator's set_ant_mode, handled at that event. */
  lemma {:induction false} ManualEndsOnlyByCommand(c: Config, w: World, start: Engine, run: seq<Timed>, i: nat)
    requires WellFounded(c, start, run) && i < |run| && !Adopts(After(c, w, start, run, i), run[i].event)
    requires After(c, w, start, run, i).s.pol.s.mode != Normal && !AutoStorm(After(c, w, start, run, i).s.pol.s)
    requires After(c, w, start, run, i + 1).s.pol.s.mode != After(c, w, start, run, i).s.pol.s.mode
    ensures run[i].event.Cmd? || run[i].event.Tick?
    ensures HasSetMode(EventCalls(After(c, w, start, run, i), run[i].event, run[i].at))
  {
    hide After, WellFounded, Steps, Prepared, EntryCheck;
    var e, ev, now := After(c, w, start, run, i), run[i].event, run[i].at;
    if ev.OwnState? {
      StepIs(c, w, start, run, i);
      UnadoptedKeeps(c, w, e, ev, now);
    } else {
      EventIsItsCalls(c, w, start, run, i);
    }
    var calls := CallsOf(c, w, e, ev, now);
    if !HasSetMode(EventCalls(e, ev, now)) {
      EntryIsNoSetMode(Prepared(c, w, e, ev, now), now);
      assert !HasSetMode(calls);
      HeldWithoutSetMode(c.policy, e.s.pol, calls, |calls|);
    }
  }

  lemma {:induction false} EntryIsNoSetMode(p: Engine, now: int)
    ensures !EntryCheck(p, now).call.SetMode?
  {}

  /** An auto storm that ends with no command ends at a successful warning poll that finds nothing active, when the
      gaps between adjacent such polls, since the entry and since the last poll that found a warning, sum to at
      least the hold-off. */
  lemma {:induction false} AutoStormEndsOnlyQuiet(c: Config, w: World, start: Engine, run: seq<Timed>, r: nat, i: nat)
    requires WellFounded(c, start, run) && r <= i < |run| && forall k :: r <= k <= i ==> EchoAt(c, w, start, run, k)
    requires AutoStorm(After(c, w, start, run, i).s.pol.s) && After(c, w, start, run, i + 1).s.pol.s.mode == Normal
    requires !HasSetMode(EventCalls(After(c, w, start, run, i), run[i].event, run[i].at))
    ensures run[i].event.NinaResult? && run[i].event.found.Some? && ActiveIds(run[i].event.found.value, run[i].at) == []
    ensures var p := After(c, w, start, run, r).s.pol; var calls := PolicyRun(c, w, start, run, r, i + 1);
      var k := |PolicyRun(c, w, start, run, r, i)|;
      && k < |calls| && calls[k] == PolicyRuns.Timed(PolicyRuns.Poll(Some([])), run[i].at)
      && PolicyRuns.QuietTime(p, calls, PolicyRuns.EnteredAt(c.policy, p, calls, k), k + 1) >= c.policy.exitHoldoff
  {
    hide After, WellFounded, Steps, Prepared, EntryCheck, PolicyRuns.QuietTime, PolicyRuns.EnteredAt, EventCalls, PolicyRuns.Step, PolicyRuns.After;
    var e, ev, now := After(c, w, start, run, i), run[i].event, run[i].at;
    var p, before := After(c, w, start, run, r).s.pol, PolicyRun(c, w, start, run, r, i);
    var own := CallsOf(c, w, e, ev, now);
    EngineRunsPolicy(c, w, start, run, r, i);
    EventIsItsCalls(c, w, start, run, i);
    EndingEventIsNina(c, w, e, ev, now);
    PollEndsStorm(c.policy, p, before, own);
  }

  /** Only a warning poll can end an auto storm without a command, and it polls first. */
  lemma {:induction false} EndingEventIsNina(c: Config, w: World, e: Engine, ev: Event, now: int)
    requires AutoStorm(e.s.pol.s) && Folded(c.policy, e.s.pol, CallsOf(c, w, e, ev, now)).s.mode == Normal
    requires !HasSetMode(EventCalls(e, ev, now))
    ensures Steps(e, ev, now) && ev.NinaResult?
    ensures var own := CallsOf(c, w, e, ev, now);
      && |own| == 2 && own[1].call.Evaluate?
      && own[0] == PolicyRuns.Timed(PolicyRuns.Poll(if ev.found.Some? then Some(ActiveIds(ev.found.value, now)) else None), now)
  {
    hide Steps, Prepared;
    var own := CallsOf(c, w, e, ev, now);
    EntryIsNoSetMode(Prepared(c, w, e, ev, now), now);
    if !ev.NinaResult? {
      EventHasNoPoll(e, ev, now);
      NoPollStays(c.policy, e.s.pol, own, |own|);
    } else if !Steps(e, ev, now) {
      FoldedNone(c.policy, e.s.pol);
    }
  }

  lemma {:induction false} EventHasNoPoll(e: Engine, ev: Event, now: int)
    requires !ev.NinaResult?
    ensures forall k :: 0 <= k < |EventCalls(e, ev, now)| ==> !EventCalls(e, ev, now)[k].call.Poll?
  {
    if ev.Tick? { CommandsHaveNoPoll(e.boot.pending, ActiveIds(e.warnings, now), now); }
  }

  lemma {:induction false} CommandsHaveNoPoll(cmds: seq<Command>, active: seq<Id>, now: int)
    ensures forall k :: 0 <= k < |CommandCalls(cmds, active, now)| ==> !CommandCalls(cmds, active, now)[k].call.Poll?
  {
    if cmds != [] { CommandsHaveNoPoll(cmds[..|cmds| - 1], active, now); }
  }

  lemma {:induction false} NoPollStays(c: PolicyConfig, p: Pol, calls: seq<PolicyRuns.Timed>, i: nat)
    requires i <= |calls| && AutoStorm(p.s) && !HasSetMode(calls)
    requires forall k :: 0 <= k < |calls| ==> !calls[k].call.Poll?
    ensures AutoStorm(PolicyRuns.After(c, p, calls, i).s)
  {
    if i > 0 { NoPollStays(c, p, calls, i - 1); }
  }

  lemma {:induction false} PollEndsStorm(c: PolicyConfig, p: Pol, before: seq<PolicyRuns.Timed>, own: seq<PolicyRuns.Timed>)
    requires AutoStorm(Folded(c, p, before).s) && Folded(c, Folded(c, p, before), own).s.mode == Normal
    requires |own| == 2 && own[0].call.Poll? && own[1].call.Evaluate?
    ensures own[0].call == PolicyRuns.Poll(Some([]))
    ensures var k := |before|;
      PolicyRuns.QuietTime(p, before + own, PolicyRuns.EnteredAt(c, p, before + own, k), k + 1) >= c.exitHoldoff
  {
    hide PolicyRuns.QuietTime, PolicyRuns.EnteredAt, PolicyRuns.After;
    var q, calls, k := Folded(c, p, before), before + own, |before|;
    PrefixSame(c, p, before, own, k);
    PolicyRuns.StepIs(c, q, own, 0);
    PolicyRuns.StepIs(c, q, own, 1);
    PolicyRuns.StartIs(c, q, own);
    PolicyRuns.StepIs(c, p, calls, k);
    assert calls[k] == own[0];
    PolicyRuns.AutoStormEndsExactlyWhenQuiet(c, p, calls, k);
  }

  // ------------------------------------------------------------- automatic entry

  /** The policy calls of an event before its step never enter an auto storm. */
  lemma {:induction false} NoEntryStays(c: PolicyConfig, p: Pol, calls: seq<PolicyRuns.Timed>, i: nat)
    requires i <= |calls| && !AutoStorm(p.s) && forall k :: 0 <= k < |calls| ==> !calls[k].call.Evaluate?
    ensures !AutoStorm(PolicyRuns.After(c, p, calls, i).s)
  {
    if i > 0 { NoEntryStays(c, p, calls, i - 1); }
  }

  lemma {:induction false} EventHasNoEntry(e: Engine, ev: Event, now: int)
    ensures forall k :: 0 <= k < |EventCalls(e, ev, now)| ==> !EventCalls(e, ev, now)[k].call.Evaluate?
  {
    if ev.Tick? { CommandsHaveNoEntry(e.boot.pending, ActiveIds(e.warnings, now), now); }
  }

  lemma {:induction false} CommandsHaveNoEntry(cmds: seq<Command>, active: seq<Id>, now: int)
    ensures forall k :: 0 <= k < |CommandCalls(cmds, active, now)| ==> !CommandCalls(cmds, active, now)[k].call.Evaluate?
  {
    if cmds != [] { CommandsHaveNoEntry(cmds[..|cmds| - 1], active, now); }
  }

  /** In every run an automatic storm is entered only with auto entry on, by a step at which some warning is active and
      not acknowledged and the station is unmanned, as it was at every step of the last minute at least. */
  lemma {:induction false} AutoStormOnlyUnmanned(c: Config, w: World, start: Engine, run: seq<Timed>, i: nat, m: nat)
    requires WellFounded(c, start, run) && Ordered(run) && m <= i < |run| && !Adopts(After(c, w, start, run, i), run[i].event)
    requires !AutoStorm(After(c, w, start, run, i).s.pol.s) && AutoStorm(After(c, w, start, run, i + 1).s.pol.s)
    ensures StepsAt(c, w, start, run, i) && c.policy.autoEnter && !MannedAt(c, w, start, run, i)
    ensures Unacked(After(c, w, start, run, i + 1).s.pol, ActiveIds(After(c, w, start, run, i + 1).warnings, run[i].at))
    ensures m < i && StepsAt(c, w, start, run, m) && MannedAt(c, w, start, run, m) ==> run[m].at + PRESENCE_DWELL <= run[i].at
  {
    hide After, WellFounded, Steps, Prepared, SteppedAndSaved, EventCalls, BaseManned, TxKept, PresenceTracked, TxNoted, Ok;
    var e, ev, now := After(c, w, start, run, i), run[i].event, run[i].at;
    StepIs(c, w, start, run, i);
    StepFactors(c, w, e, ev, now);
    var p := Prepared(c, w, e, ev, now);
    PreparedOk(c, w, start, run, i);
    PreparedIsCalls(c, w, e, ev, now);
    EventHasNoEntry(e, ev, now);
    NoEntryStays(c.policy, e.s.pol, EventCalls(e, ev, now), |EventCalls(e, ev, now)|);
    EntryNeedsUnmanned(c, w, p, now);
    SteppedPol(c, w, p, now);
    var tracked := PresenceTracked(TxNoted(p.s, now), now);
    SameBase(After(c, w, start, run, i + 1).s, tracked, now);
    if m < i && StepsAt(c, w, start, run, m) && MannedAt(c, w, start, run, m) {
      RecordsLast(c, w, start, run, m, i);
      PreparedWatch(c, w, e, ev, now);
      UnmannedLong(p.s, now, run[m].at);
    }
  }

  lemma {:induction false} UnmannedLong(s: State, now: int, t: int)
    requires MannedKept(s.watch, t) && t <= now && PresenceNow(PresenceTracked(TxNoted(s, now), now), now) == Unmanned
    ensures t + PRESENCE_DWELL <= now
  {}
}
