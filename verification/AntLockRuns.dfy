/** The antenna lock over whole runs: its structure, the causes of a retract, and sequence numbers that never repeat. */
module AntLockRuns {
  import opened Options
  import opened Policy
  import opened AntModel
  import opened AntEvents
  import opened AntLock

  /** A start from nothing or from a file the engine wrote, and a run in which every retained own state heard is one
      the engine published. */
  predicate WellFounded(c: Config, start: Engine, run: seq<Timed>) {
    c.Valid() && Ok(start.s)
    && forall k :: 0 <= k < |run| && run[k].event.OwnState? && run[k].event.doc.Some? ==> MessageOk(run[k].event.doc.value)
  }

  lemma {:induction false} StepIs(c: Config, w: World, start: Engine, run: seq<Timed>, i: nat)
    requires i < |run|
    ensures After(c, w, start, run, i + 1) == Step(c, w, After(c, w, start, run, i), run[i].event, run[i].at)
    ensures After(c, w, start, run, 0) == start
  {}

  /** In every run, whatever the order of messages, commands, polls and failures: a lock exists exactly when the mode is
      not normal, always grounds, carries a park azimuth only while retracting, is parked, failed or rotating only
      with one, and a restore is pending exactly when a borrow has outlived the mode. */
  lemma {:induction false} LockAlwaysOk(c: Config, w: World, start: Engine, run: seq<Timed>, i: nat)
    requires WellFounded(c, start, run) && i <= |run|
    ensures Ok(After(c, w, start, run, i).s)
  {
    hide Step, Ok, MessageOk, OwnStateHeard;
    if i > 0 {
      var e, ev := After(c, w, start, run, i - 1), run[i - 1].event;
      LockAlwaysOk(c, w, start, run, i - 1);
      if ev.OwnState? {
        OwnStateOk(e, ev.doc, run[i - 1].at);
        OwnStateStep(c, w, e, ev, run[i - 1].at);
      } else {
        StepOk(c, w, e, ev, run[i - 1].at);
      }
    }
  }

  lemma {:induction false} OwnStateStep(c: Config, w: World, e: Engine, ev: Event, now: int)
    requires ev.OwnState?
    ensures Step(c, w, e, ev, now) == OwnStateHeard(e, ev.doc, now)
  {}

  /** The engine's own state heard without adopting it teaches at most the sequence number; and nothing once the startup
      hold is over, when the broker only echoes what the engine publishes. */
  lemma {:induction false} UnadoptedKeeps(c: Config, w: World, e: Engine, ev: Event, now: int)
    requires ev.OwnState? && !Adopts(e, ev)
    ensures var t := Step(c, w, e, ev, now);
      && t == e.(s := e.s.(pol := t.s.pol)) && t.s.pol == e.s.pol.(s := e.s.pol.s.(seq_ := t.s.pol.s.seq_))
      && t.s.pol.s.seq_ >= e.s.pol.s.seq_ && (e.boot.ready ==> t == e)
  {}

  lemma {:induction false} StartIs(c: Config, w: World, start: Engine, run: seq<Timed>)
    ensures After(c, w, start, run, 0) == start
  {}

  /** The sequence number never falls. */
  lemma {:induction false} SeqNeverFalls(c: Config, w: World, start: Engine, run: seq<Timed>, i: nat, j: nat)
    requires WellFounded(c, start, run) && i <= j <= |run|
    ensures After(c, w, start, run, i).s.pol.s.seq_ <= After(c, w, start, run, j).s.pol.s.seq_
    decreases j - i
  {
    hide Step, After, Ok, MessageOk, OwnStateHeard;
    if i < j {
      var e, ev := After(c, w, start, run, j - 1), run[j - 1].event;
      SeqNeverFalls(c, w, start, run, i, j - 1);
      LockAlwaysOk(c, w, start, run, j - 1);
      StepIs(c, w, start, run, j - 1);
      if ev.OwnState? {
        OwnStateOk(e, ev.doc, run[j - 1].at);
        OwnStateStep(c, w, e, ev, run[j - 1].at);
      } else {
        StepOk(c, w, e, ev, run[j - 1].at);
      }
    }
  }

  /** Every event but an adoption moves the lock on as it should. */
  lemma {:induction false} EventOk(c: Config, w: World, start: Engine, run: seq<Timed>, i: nat)
    requires WellFounded(c, start, run) && i < |run| && !Adopts(After(c, w, start, run, i), run[i].event)
    ensures Advanced(c, After(c, w, start, run, i).s, After(c, w, start, run, i + 1).s, run[i].at)
  {
    hide Step, After, Ok, Adopts, Advanced;
    var e, ev := After(c, w, start, run, i), run[i].event;
    LockAlwaysOk(c, w, start, run, i);
    LockAlwaysOk(c, w, start, run, i + 1);
    StepIs(c, w, start, run, i);
    if ev.OwnState? {
      UnadoptedKeeps(c, w, e, ev, run[i].at);
      LearnedAdvances(c, e.s, After(c, w, start, run, i + 1).s, run[i].at);
    } else {
      StepOk(c, w, e, ev, run[i].at);
    }
  }

  lemma {:induction false} LearnedAdvances(c: Config, s: State, t: State, now: int)
    requires Ok(s) && Ok(t) && t == s.(pol := t.pol) && t.pol.s.seq_ >= s.pol.s.seq_
    ensures Advanced(c, s, t, now)
  {}

  /** Every entry, repark or switch of locked modes takes a number above every number ever used before, by a lock or
      by the policy; any other event leaves the lock's number alone. */
  lemma {:induction false} NewLocksTakeNewNumbers(c: Config, w: World, start: Engine, run: seq<Timed>, i: nat, m: nat)
    requires WellFounded(c, start, run) && m <= i < |run| && !Adopts(After(c, w, start, run, i), run[i].event)
    requires After(c, w, start, run, i + 1).s.park.lock.Some?
    ensures var old_ := After(c, w, start, run, i).s.park.lock; var new_ := After(c, w, start, run, i + 1).s.park.lock.value;
      var was := After(c, w, start, run, m).s;
      || (old_.Some? && old_.value.seq_ == new_.seq_)
      || (new_.seq_ > was.pol.s.seq_ && (was.park.lock.Some? ==> new_.seq_ > was.park.lock.value.seq_))
  {
    hide Step, After;
    LockAlwaysOk(c, w, start, run, i);
    LockAlwaysOk(c, w, start, run, m);
    SeqNeverFalls(c, w, start, run, m, i);
    EventOk(c, w, start, run, i);
    StepIs(c, w, start, run, i);
  }

  /** Once the startup hold is over, a sequence number gets at most one park azimuth, and keeps it. */
  lemma {:induction false} OneAzimuthPerNumber(c: Config, w: World, start: Engine, run: seq<Timed>, i: nat, j: nat)
    requires WellFounded(c, start, run) && i <= j <= |run|
    requires forall k :: i <= k < j ==> !Adopts(After(c, w, start, run, k), run[k].event)
    requires After(c, w, start, run, i).s.park.lock.Some? && After(c, w, start, run, i).s.park.lock.value.parkAz.Some?
    ensures var s := After(c, w, start, run, i).s; var t := After(c, w, start, run, j).s;
      && t.pol.s.seq_ >= s.pol.s.seq_
      && (t.park.lock.Some? ==>
            t.park.lock.value.parkAz == s.park.lock.value.parkAz || t.park.lock.value.seq_ > s.park.lock.value.seq_)
    decreases j - i
  {
    hide Step, After;
    LockAlwaysOk(c, w, start, run, i);
    if i < j {
      OneAzimuthPerNumber(c, w, start, run, i, j - 1);
      LockAlwaysOk(c, w, start, run, j - 1);
      EventOk(c, w, start, run, j - 1);
      StepIs(c, w, start, run, j - 1);
    }
  }

  /** A retract is first ordered only at an event at which the antenna switch is live and reports off, or at which a
      grounding phase has stood for the ground timeout and the radio is not transmitting and has not been seen to for
      longer than a digital mode's pause. */
  lemma {:induction false} RetractHasACause(c: Config, w: World, start: Engine, run: seq<Timed>, i: nat)
    requires WellFounded(c, start, run) && i < |run| && !Adopts(After(c, w, start, run, i), run[i].event)
    requires var t := After(c, w, start, run, i + 1).s; t.park.lock.Some? && t.park.lock.value.retract
    requires var s := After(c, w, start, run, i).s; !(s.park.lock.Some? && s.park.lock.value.retract)
    ensures var s := After(c, w, start, run, i).s; var t := After(c, w, start, run, i + 1).s;
      || SwitchedOff(t)
      || (s.park.phase == Grounding && run[i].at - s.park.since >= c.timeouts.ground && RadioQuiet(c, t, run[i].at))
  {
    hide Step, After;
    LockAlwaysOk(c, w, start, run, i);
    EventOk(c, w, start, run, i);
    StepIs(c, w, start, run, i);
  }
}
