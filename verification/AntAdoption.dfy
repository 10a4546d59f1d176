/** Two durable copies of the antenna-mode state: the file and the engine's own retained message. What is published can
    be adopted back, by an engine that lost its file or whose file is stale, and never unlocks the station. */
module AntAdoption {
  import opened Options
  import opened Policy
  import opened AntModel
  import opened AntEvents
  import opened AntLock
  import opened AntLockRuns
  import opened AntAutomation

  /** What the engine saves and publishes is fit to be loaded and adopted. */
  lemma {:induction false} WhatIsWrittenReads(s: State)
    requires Ok(s)
    ensures FileOk(SnapshotOf(s)) && MessageOk(StateMessage(s))
    ensures Parsed(StateMessage(s)) == Some(StateMessage(s))
  {}

  /** The borrow as the message tells it: whole seconds, sent unless still waiting for power, not to be restored. */
  function Retold(b: Option<Borrow>, phase: Phase): Option<Borrow> {
    if b.None? then None
    else Some(Borrow(b.value.startPhase, Seconds(b.value.since) * 1000, phase != AwaitingPower, false, b.value.takenOver))
  }

  /** t holds the lock s published: everything but the fault, the borrow's sent flag and parts of seconds. */
  predicate Recovered(s: State, t: State) {
    && t.pol.s.mode == s.pol.s.mode && t.pol.s.source == s.pol.s.source
    && t.pol.s.since == Seconds(s.pol.s.since) * 1000
    && t.pol.s.seq_ >= s.pol.s.seq_
    && t.park.lock == s.park.lock && t.park.phase == s.park.phase && !t.park.fault
    && t.supply.borrow == Retold(s.supply.borrow, s.park.phase)
    && (t.supply.borrow.Some? ==> t.supply.borrowSeq == LockSeq(s))
  }

  lemma {:induction false} AdoptionRecovers(e: Engine, s: State, now: int)
    requires Ok(s) && s.pol.s.mode != Normal && !e.boot.ready
    requires e.boot.adopt || LockSeq(s) > e.boot.fileSeq
    ensures var t := OwnStateHeard(e, Some(StateMessage(s)), now).s; Recovered(s, t) && t.pol.s.seq_ >= e.s.pol.s.seq_
  {}

  /** From any locked state any run reaches: an engine with no state file that hears the published state during its
      startup hold recovers it, and publishes the same message again but for a sequence number that may be higher. */
  lemma {:induction false} LostFileRoundTrip(c: Config, w: World, start: Engine, run: seq<Timed>, i: nat, t0: int, now: int)
    requires WellFounded(c, start, run) && i <= |run| && After(c, w, start, run, i).s.pol.s.mode != Normal
    ensures var s := After(c, w, start, run, i).s; var t := OwnStateHeard(Started(None, [], t0), Some(StateMessage(s)), now).s;
      && Recovered(s, t) && Ok(t)
      && StateMessage(t) == StateMessage(s).(seq_ := t.pol.s.seq_)
  {
    hide After, OwnStateHeard, Ok, Started;
    var s := After(c, w, start, run, i).s;
    LockAlwaysOk(c, w, start, run, i);
    var e := Started(None, [], t0);
    NoFileAdopts(t0);
    AdoptionRecovers(e, s, now);
    WhatIsWrittenReads(s);
    StartedOk(None, [], t0);
    OwnStateOk(e, Some(StateMessage(s)), now);
    RetoldTwice(s.pol.s.since);
    if s.supply.borrow.Some? { RetoldTwice(s.supply.borrow.value.since); }
  }

  lemma {:induction false} NoFileAdopts(t0: int)
    ensures Started(None, [], t0).boot.adopt && !Started(None, [], t0).boot.ready
  {}

  lemma {:induction false} RetoldTwice(t: int)
    ensures Seconds(Seconds(t) * 1000) == Seconds(t)
  {}

  /** A file of an earlier lock does not unlock the station, nor hold it in an older lock: the published state is
      recovered over it. A file that knows this lock, or a later one, wins; it only learns the sequence number. */
  lemma {:induction false} StaleFileIsOverruled(s: State, file: Snapshot, log: seq<Effect>, t0: int, now: int)
    requires Ok(s) && s.pol.s.mode != Normal && FileOk(file)
    ensures var e := Started(Some(file), log, t0); var t := OwnStateHeard(e, Some(StateMessage(s)), now);
      && (LockSeq(s) > file.standing.seq_ ==> Recovered(s, t.s))
      && (LockSeq(s) <= file.standing.seq_ ==>
            && t.s == e.s.(pol := t.s.pol) && t.s.pol.s == e.s.pol.s.(seq_ := t.s.pol.s.seq_))
      && t.s.pol.s.seq_ >= s.pol.s.seq_ && t.s.pol.s.seq_ >= file.standing.seq_
  {
    WhatIsWrittenReads(s);
    var e := Started(Some(file), log, t0);
    if LockSeq(s) > file.standing.seq_ {
      assert e.boot.fileSeq == file.standing.seq_ && !e.boot.ready;
      AdoptionRecovers(e, s, now);
    }
  }

  // ------------------------------------------------------------- the other copy

  /** From any state any run reaches: a start from the file saved there is in the saved lock, policy and borrow, the
      acknowledged and dismissed warnings included; only a running borrow's clock starts afresh. */
  lemma {:induction false} SavedLockIsLoaded(c: Config, w: World, loaded: Option<Snapshot>, past: seq<Effect>, begun: int,
                                             run: seq<Timed>, i: nat, log: seq<Effect>, t0: int)
    requires WellFounded(c, Started(loaded, past, begun), run) && i <= |run|
    ensures var s := After(c, w, Started(loaded, past, begun), run, i).s; var t := Started(Some(SnapshotOf(s)), log, t0).s;
      && t.pol.s == s.pol.s && t.park.lock == s.park.lock && t.park.phase == s.park.phase && t.park.fault == s.park.fault
      && t.supply.borrow == s.supply.borrow && t.supply.borrowSeq == s.supply.borrowSeq && t.park.nudgeBase == s.park.nudgeBase
      && InOrder(t.pol) && Ok(t)
  {
    hide After;
    var s := After(c, w, Started(loaded, past, begun), run, i).s;
    LockAlwaysOk(c, w, Started(loaded, past, begun), run, i);
    AlwaysInOrder(c, w, loaded, past, begun, run, i);
    SortingKeepsSorted(s.pol.s.acked);
    SortingKeepsSorted(s.pol.s.dismissed);
    WhatIsWrittenReads(s);
    StartedOk(Some(SnapshotOf(s)), log, t0);
  }
}
