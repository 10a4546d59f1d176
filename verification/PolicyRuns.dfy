/** What the antenna-mode policy keeps over whole runs of operator commands, polls, evaluations and restarts. */
module PolicyRuns {
  import opened Options
  import opened Policy

  /** Evaluate is the automatic entry check, Restart a process restart on the saved state. */
  datatype Call =
    | SetMode(mode: Mode, active: seq<Id>)
    | Repark
    | Dismiss(dismissed: seq<Id>)
    | Poll(found: Option<seq<Id>>)
    | Evaluate(warnings: seq<Id>, presence: Presence)
    | Restart

  datatype Timed = Timed(call: Call, at: int)

  function Step(c: PolicyConfig, p: Pol, e: Timed): Pol {
    match e.call
    case SetMode(m, active) => ModeSet(p, m, e.at, active)
    case Repark => Reparked(p)
    case Dismiss(active) => Dismissed(p, active)
    case Poll(found) => Polled(c, p, e.at, found)
    case Evaluate(warnings, presence) => Evaluated(c, p, e.at, warnings, presence)
    case Restart => p.(lastClean := None)
  }

  function After(c: PolicyConfig, start: Pol, run: seq<Timed>, i: nat): Pol
    requires i <= |run|
  {
    if i == 0 then start else Step(c, After(c, start, run, i - 1), run[i - 1])
  }

  lemma {:induction false} StepIs(c: PolicyConfig, start: Pol, run: seq<Timed>, i: nat)
    requires i < |run|
    ensures After(c, start, run, i + 1) == Step(c, After(c, start, run, i), run[i])
  {}

  // ------------------------------------------------------------- id sets

  lemma {:induction false} StepSorted(c: PolicyConfig, p: Pol, e: Timed)
    requires Sorted(p.s.acked) && Sorted(p.s.dismissed)
    ensures var q := Step(c, p, e); Sorted(q.s.acked) && Sorted(q.s.dismissed)
  {
    match e.call
    case SetMode(m, active) => InsertAllKeepsSorted(p.s.acked, active);
    case Dismiss(active) => InsertAllKeepsSorted(p.s.dismissed, active);
    case Poll(found) =>
      if found.Some? {
        PruneKeepsSorted(p.s.acked, found.value);
        PruneKeepsSorted(p.s.dismissed, found.value);
      }
    case _ =>
  }

  /** In every run both id sets stay sorted, as the binary search needs. */
  lemma {:induction false} AlwaysSorted(c: PolicyConfig, start: Pol, run: seq<Timed>, i: nat)
    requires i <= |run| && Sorted(start.s.acked) && Sorted(start.s.dismissed)
    ensures var p := After(c, start, run, i); Sorted(p.s.acked) && Sorted(p.s.dismissed)
  {
    hide Step;
    if i > 0 {
      AlwaysSorted(c, start, run, i - 1);
      StepSorted(c, After(c, start, run, i - 1), run[i - 1]);
    }
  }

  /** Call j acknowledges the id: a set_ant_mode normal that changes the mode while the id's warning is active. */
  predicate Acknowledges(c: PolicyConfig, start: Pol, run: seq<Timed>, j: nat, id: Id)
    requires j < |run|
  {
    run[j].call.SetMode? && run[j].call.mode == Normal && After(c, start, run, j).s.mode != Normal && id in run[j].call.active
  }

  /** Every successful poll in [j, i) still finds the warning. */
  predicate StillFound(run: seq<Timed>, j: nat, i: nat, id: Id)
    requires i <= |run|
  {
    forall k :: j <= k < i && run[k].call.Poll? && run[k].call.found.Some? ==> id in run[k].call.found.value
  }

  ghost predicate AckedByHistory(c: PolicyConfig, start: Pol, run: seq<Timed>, i: nat, id: Id)
    requires i <= |run|
  {
    || (id in start.s.acked && StillFound(run, 0, i, id))
    || (exists j: nat :: j < i && Acknowledges(c, start, run, j, id) && StillFound(run, j, i, id))
  }

  lemma {:induction false} StepAcks(c: PolicyConfig, p: Pol, e: Timed, id: Id)
    requires Sorted(p.s.acked)
    ensures id in Step(c, p, e).s.acked <==>
      ((id in p.s.acked && !(e.call.Poll? && e.call.found.Some? && id !in e.call.found.value))
       || (e.call.SetMode? && e.call.mode == Normal && p.s.mode != Normal && id in e.call.active))
  {
    match e.call
    case SetMode(m, active) => InsertAllKeepsSorted(p.s.acked, active);
    case Poll(found) => if found.Some? { PruneKeepsSorted(p.s.acked, found.value); }
    case _ =>
  }

  /** In every run the acknowledged ids are exactly those of warnings that were active at a manual normal (or were
      acknowledged at the start) and have been found by every successful poll since. */
  lemma {:induction false} AckedExactly(c: PolicyConfig, start: Pol, run: seq<Timed>, i: nat, id: Id)
    requires i <= |run| && Sorted(start.s.acked) && Sorted(start.s.dismissed)
    ensures id in After(c, start, run, i).s.acked <==> AckedByHistory(c, start, run, i, id)
  {
    hide Step, After;
    if i == 0 {
      StartIs(c, start, run);
    } else {
      AlwaysSorted(c, start, run, i - 1);
      AckedExactly(c, start, run, i - 1, id);
      StepIs(c, start, run, i - 1);
      StepAcks(c, After(c, start, run, i - 1), run[i - 1], id);
      if AckedByHistory(c, start, run, i - 1, id) && StillFound(run, i - 1, i, id) {
        if id in start.s.acked && StillFound(run, 0, i - 1, id) {
          assert StillFound(run, 0, i, id);
        } else {
          var j: nat :| j < i - 1 && Acknowledges(c, start, run, j, id) && StillFound(run, j, i - 1, id);
          assert StillFound(run, j, i, id);
        }
      }
      if Acknowledges(c, start, run, i - 1, id) { assert StillFound(run, i - 1, i, id); }
      if AckedByHistory(c, start, run, i, id) && !(id in start.s.acked && StillFound(run, 0, i, id)) {
        var j: nat :| j < i && Acknowledges(c, start, run, j, id) && StillFound(run, j, i, id);
        assert StillFound(run, j, i - 1, id);
      }
    }
  }

  lemma {:induction false} StartIs(c: PolicyConfig, start: Pol, run: seq<Timed>)
    ensures After(c, start, run, 0) == start
  {}

  // ------------------------------------------------------------- mode changes

  /** A manual storm and a maintenance are left only by set_ant_mode; automation leaves only an auto storm, at a
      successful clean poll, and enters only a storm, from normal, unmanned, for a warning not acknowledged. */
  lemma {:induction false} OnlyTheseChangeTheMode(c: PolicyConfig, start: Pol, run: seq<Timed>, i: nat)
    requires i < |run| && After(c, start, run, i + 1).s.mode != After(c, start, run, i).s.mode
    requires Sorted(start.s.acked) && Sorted(start.s.dismissed)
    ensures var p := After(c, start, run, i).s; var q := After(c, start, run, i + 1).s; var e := run[i].call;
      || (e.SetMode? && q.mode == e.mode && q.source == Manual)
      || (AutoStorm(p) && q.mode == Normal && e == Poll(Some([])))
      || (p.mode == Normal && AutoStorm(q) && e.Evaluate? && e.presence == Unmanned && c.autoEnter
          && exists id :: id in e.warnings && !AckedByHistory(c, start, run, i, id))
  {
    StepIs(c, start, run, i);
    var p := After(c, start, run, i);
    if run[i].call.Evaluate? && p.s.mode == Normal {
      var id :| id in run[i].call.warnings && id !in p.s.acked;
      AckedExactly(c, start, run, i, id);
    }
  }

  /** Call i enters a locked mode, from normal or from another, or reparks one. */
  predicate TakesNumber(c: PolicyConfig, start: Pol, run: seq<Timed>, i: nat)
    requires i < |run|
  {
    var was, is_ := After(c, start, run, i).s.mode, After(c, start, run, i + 1).s.mode;
    (is_ != was && is_ != Normal) || (run[i].call.Repark? && was != Normal)
  }

  function NumbersTaken(c: PolicyConfig, start: Pol, run: seq<Timed>, i: nat): nat
    requires i <= |run|
  {
    if i == 0 then 0 else NumbersTaken(c, start, run, i - 1) + if TakesNumber(c, start, run, i - 1) then 1 else 0
  }

  /** In every run the sequence number counts the locked entries and reparks: no two share one, and none is skipped. */
  lemma {:induction false} SeqCountsLocks(c: PolicyConfig, start: Pol, run: seq<Timed>, i: nat)
    requires i <= |run|
    ensures After(c, start, run, i).s.seq_ == start.s.seq_ + NumbersTaken(c, start, run, i)
  {
    hide Step;
    if i > 0 {
      SeqCountsLocks(c, start, run, i - 1);
      SeqGrowsPerEntry(c, start, run, i - 1);
    }
  }

  lemma {:induction false} SeqGrowsPerEntry(c: PolicyConfig, start: Pol, run: seq<Timed>, i: nat)
    requires i < |run|
    ensures After(c, start, run, i + 1).s.seq_ == After(c, start, run, i).s.seq_ + if TakesNumber(c, start, run, i) then 1 else 0
  {}

  // ------------------------------------------------------------- quiet time

  /** One past the last call before i that changed the mode; 0 if none. */
  function EnteredAt(c: PolicyConfig, start: Pol, run: seq<Timed>, i: nat): (j: nat)
    requires i <= |run|
    ensures j <= i
  {
    if i == 0 then 0
    else if After(c, start, run, i).s.mode != After(c, start, run, i - 1).s.mode then i
    else EnteredAt(c, start, run, i - 1)
  }

  /** The latest clean poll in [j, i) with no failed poll, warning or restart after it; j is an entry, or 0 for what
      the run started with. */
  function LastClean(start: Pol, run: seq<Timed>, j: nat, i: nat): Option<int>
    requires j <= i <= |run|
    decreases i
  {
    if i == j then if j == 0 then start.lastClean else None
    else match run[i - 1].call
      case Poll(found) => if found == Some([]) then Some(run[i - 1].at) else None
      case Restart => None
      case _ => LastClean(start, run, j, i - 1)
  }

  /** The gaps between adjacent successful clean polls in [j, i), summed since the last poll that found a warning. */
  function QuietTime(start: Pol, run: seq<Timed>, j: nat, i: nat): int
    requires j <= i <= |run|
    decreases i
  {
    if i == j then if j == 0 then start.s.quietFor else 0
    else match run[i - 1].call
      case Poll(found) =>
        if found.None? then QuietTime(start, run, j, i - 1)
        else if found.value != [] then 0
        else
          var last := LastClean(start, run, j, i - 1);
          QuietTime(start, run, j, i - 1) + if last.Some? && last.value < run[i - 1].at then run[i - 1].at - last.value else 0
      case _ => QuietTime(start, run, j, i - 1)
  }

  /** In an auto storm the policy's quiet time is that sum since the entry. */
  lemma {:induction false} QuietTimeIsTrue(c: PolicyConfig, start: Pol, run: seq<Timed>, i: nat)
    requires i <= |run| && AutoStorm(After(c, start, run, i).s)
    ensures var j := EnteredAt(c, start, run, i);
      After(c, start, run, i).s.quietFor == QuietTime(start, run, j, i) && After(c, start, run, i).lastClean == LastClean(start, run, j, i)
  {
    hide After, Step;
    StartIs(c, start, run);
    if i > 0 {
      var p, q := After(c, start, run, i - 1), After(c, start, run, i);
      StepIs(c, start, run, i - 1);
      if q.s.mode != p.s.mode {
        EntryResets(c, p, run[i - 1]);
      } else {
        AutoStormStays(c, p, run[i - 1]);
        QuietTimeIsTrue(c, start, run, i - 1);
        QuietStep(c, p, run[i - 1]);
      }
    }
  }

  /** What one call adds to the quiet time of an auto storm that stays. */
  lemma {:induction false} QuietStep(c: PolicyConfig, p: Pol, e: Timed)
    requires AutoStorm(p.s) && Step(c, p, e).s.mode == p.s.mode
    ensures var q := Step(c, p, e);
      match e.call
      case Poll(found) =>
        && q.lastClean == (if found == Some([]) then Some(e.at) else None)
        && q.s.quietFor == if found.None? then p.s.quietFor else if found.value != [] then 0
           else p.s.quietFor + if p.lastClean.Some? && p.lastClean.value < e.at then e.at - p.lastClean.value else 0
      case Restart => q.lastClean == None && q.s.quietFor == p.s.quietFor
      case _ => q.lastClean == p.lastClean && q.s.quietFor == p.s.quietFor
  {}

  lemma {:induction false} EntryResets(c: PolicyConfig, p: Pol, e: Timed)
    requires Step(c, p, e).s.mode != p.s.mode
    ensures Step(c, p, e).s.quietFor == 0 && Step(c, p, e).lastClean == None
  {}

  lemma {:induction false} AutoStormStays(c: PolicyConfig, p: Pol, e: Timed)
    requires AutoStorm(Step(c, p, e).s) && Step(c, p, e).s.mode == p.s.mode
    ensures AutoStorm(p.s)
  {}

  /** An auto storm leaves by itself exactly at the successful clean poll that brings its quiet time since the entry
      to the hold-off; everything before, outages and restarts included, adds no time that was not between two
      adjacent clean polls. */
  lemma {:induction false} AutoStormEndsExactlyWhenQuiet(c: PolicyConfig, start: Pol, run: seq<Timed>, i: nat)
    requires i < |run| && AutoStorm(After(c, start, run, i).s) && !run[i].call.SetMode?
    ensures After(c, start, run, i + 1).s.mode == Normal
      <==> run[i].call == Poll(Some([])) && QuietTime(start, run, EnteredAt(c, start, run, i), i + 1) >= c.exitHoldoff
  {
    QuietTimeIsTrue(c, start, run, i);
    StepIs(c, start, run, i);
    hide After;
  }
}
