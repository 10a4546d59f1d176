/** The antenna reconciler over whole runs: silent under the lock, one re-extend after it, and no repeat without a cause. */
module FollowRuns {
  import opened Options
  import opened Reconcile
  import opened Follow

  /** One event: what it changes, and what it then sends and remembers. */
  lemma {:induction false} StepIs(s: Station, run: seq<Timed>, i: nat)
    requires i < |run|
    ensures After(s, run, i + 1) == During(s, run, i).(sent := Remembered(During(s, run, i).sent, Sends(s, run, i)))
  {}

  lemma {:induction false} StartIs(s: Station, run: seq<Timed>)
    ensures After(s, run, 0) == Init(s.start)
  {}

  // ------------------------------------------------------------- under the lock

  /** In every run: while locked no frequency and no tuner intent goes out, and the only select is to off; while the
      radio transmits no select goes out at all; a manual stand-down without a lock is silent. */
  lemma {:induction false} LockIsSilent(s: Station, run: seq<Timed>, i: nat)
    requires i < |run|
    ensures var k := During(s, run, i).ins; var e := Sends(s, run, i);
      && (k.locked ==> e.freq.None? && e.inline.None? && (e.select.Some? ==> e.select == Some(Off) && k.ground))
      && (k.tx ==> e.select.None?)
      && (!k.locked && k.request == ManualRequest ==> e == Emission(None, None, None, None))
  {}

  // ------------------------------------------------------------- after an unlock

  predicate UnlocksAt(s: Station, run: seq<Timed>, i: nat)
    requires i < |run|
  {
    run[i].event.AntMode? && Unlocks(After(s, run, i), run[i].event.locked)
  }

  /** The follow binding wants the radio's frequency sent at event i. */
  predicate WantsAt(s: Station, run: seq<Timed>, i: nat)
    requires i < |run|
  {
    WantsFollow(s.config, During(s, run, i).ins)
  }

  lemma {:induction false} SendsOnlyWhenWanted(s: Station, run: seq<Timed>, i: nat)
    requires i < |run| && Valid(s.config)
    ensures Sends(s, run, i).freq.Some? ==> WantsAt(s, run, i) && Sends(s, run, i).freq == Some(During(s, run, i).ins.freqHz)
    ensures WantsAt(s, run, i) && During(s, run, i).sent.freq != During(s, run, i).ins.freqHz ==> Sends(s, run, i).freq.Some?
  {}

  /** From an unlock until a frequency is wanted, none counts as sent. */
  lemma {:induction false} NothingSentSinceUnlock(s: Station, run: seq<Timed>, u: nat, i: nat)
    requires u <= i < |run| && UnlocksAt(s, run, u) && Valid(s.config)
    requires forall m: nat :: u <= m < i ==> !WantsAt(s, run, m)
    ensures During(s, run, i).sent.freq == 0
    decreases i - u
  {
    hide UnlocksAt, WantsAt, During, After, Sends, Valid;
    if u == i {
      UnlockForgets(s, run, i);
    } else {
      NothingSentSinceUnlock(s, run, u, i - 1);
      StepIs(s, run, i - 1);
      SendsOnlyWhenWanted(s, run, i - 1);
      FreqOnlyForgotten(s, run, i);
    }
  }

  lemma {:induction false} UnlockForgets(s: Station, run: seq<Timed>, i: nat)
    requires i < |run| && UnlocksAt(s, run, i)
    ensures During(s, run, i).sent.freq == 0
  {}

  /** Handling an event either keeps the last frequency or forgets it. */
  lemma {:induction false} FreqOnlyForgotten(s: Station, run: seq<Timed>, i: nat)
    requires i < |run|
    ensures During(s, run, i).sent.freq in {0, After(s, run, i).sent.freq}
  {
    hide After;
  }

  /** After every unlock, the first event at which the followed antenna is the target, the radio is online and its
      frequency known sends that frequency, changed or not. */
  lemma {:induction false} UnlockReextends(s: Station, run: seq<Timed>, u: nat, i: nat)
    requires Valid(s.config)
    requires u <= i < |run| && UnlocksAt(s, run, u) && WantsAt(s, run, i)
    requires forall m: nat :: u <= m < i ==> !WantsAt(s, run, m)
    ensures Sends(s, run, i).freq == Some(During(s, run, i).ins.freqHz)
  {
    NothingSentSinceUnlock(s, run, u, i);
    SendsOnlyWhenWanted(s, run, i);
  }

  // ------------------------------------------------------------- no repeat without a cause

  /** Event i is the controller's report that ends an outage, with the elements still in after an unlock. */
  predicate ReturnsAt(s: Station, run: seq<Timed>, i: nat)
    requires i < |run|
  {
    run[i].event.FollowState? && CameBack(After(s, run, i), run[i].event.online, run[i].event.retracted)
  }

  /** Event i is the periodic check that spends the unlock's one stall retry. */
  predicate RetriesAt(s: Station, run: seq<Timed>, i: nat)
    requires i < |run|
  {
    run[i].event.IdleCheck? && !After(s, run, i).re.retried && During(s, run, i).re.retried
  }

  /** The last frequency is forgotten only by an unlock, a controller's return, or a stall retry. */
  lemma {:induction false} ForgottenForACause(s: Station, run: seq<Timed>, i: nat)
    requires i < |run| && During(s, run, i).sent.freq != After(s, run, i).sent.freq
    ensures UnlocksAt(s, run, i) || ReturnsAt(s, run, i) || RetriesAt(s, run, i)
  {
    hide After;
  }

  /** With no cause and no other frequency in between, the last frequency stays the last one sent. */
  lemma {:induction false} FreqRemembered(s: Station, run: seq<Timed>, j: nat, i: nat)
    requires j < i < |run| && Sends(s, run, j).freq.Some?
    requires forall m: nat :: j < m < i ==> Sends(s, run, m).freq.None?
    requires forall m: nat :: j < m <= i ==> !UnlocksAt(s, run, m) && !ReturnsAt(s, run, m) && !RetriesAt(s, run, m)
    ensures Some(During(s, run, i).sent.freq) == Sends(s, run, j).freq
    decreases i - j
  {
    hide UnlocksAt, ReturnsAt, RetriesAt, During, After, Sends;
    StepIs(s, run, i - 1);
    if During(s, run, i).sent.freq != After(s, run, i).sent.freq { ForgottenForACause(s, run, i); }
    if i > j + 1 { FreqRemembered(s, run, j, i - 1); }
  }

  /** Sending the same frequency twice in a row takes a cause in between: an unlock, the controller's return from an
      outage, or a stall retry. Repeats use up distinct causes, each lying after the send it repeats. */
  lemma {:induction false} RepeatHasACause(s: Station, run: seq<Timed>, j: nat, i: nat)
    requires j < i < |run| && Valid(s.config) && Sends(s, run, j).freq.Some? && Sends(s, run, i).freq == Sends(s, run, j).freq
    requires forall m: nat :: j < m < i ==> Sends(s, run, m).freq.None?
    ensures exists m: nat :: j < m <= i && (UnlocksAt(s, run, m) || ReturnsAt(s, run, m) || RetriesAt(s, run, m))
  {
    hide UnlocksAt, ReturnsAt, RetriesAt, During, After;
    if forall m: nat :: j < m <= i ==> !UnlocksAt(s, run, m) && !ReturnsAt(s, run, m) && !RetriesAt(s, run, m) {
      FreqRemembered(s, run, j, i);
      SendsOnlyWhenWanted(s, run, i);
      assert false;
    }
  }

  /** And a cause is not wasted: an unlock, a return or a retry at which the frequency is wanted sends it. */
  lemma {:induction false} CauseResends(s: Station, run: seq<Timed>, i: nat)
    requires i < |run| && Valid(s.config) && WantsAt(s, run, i)
    requires UnlocksAt(s, run, i) || (ReturnsAt(s, run, i) && After(s, run, i).sent.freq != 0) || RetriesAt(s, run, i)
    ensures Sends(s, run, i).freq == Some(During(s, run, i).ins.freqHz)
  {
    CauseForgets(s, run, i);
    SendsOnlyWhenWanted(s, run, i);
  }

  lemma {:induction false} CauseForgets(s: Station, run: seq<Timed>, i: nat)
    requires i < |run| && (UnlocksAt(s, run, i) || ReturnsAt(s, run, i) || RetriesAt(s, run, i))
    ensures During(s, run, i).sent.freq == 0
  {
    hide After;
  }

  /** A spent retry stays spent until the next unlock. */
  lemma {:induction false} RetryStaysSpent(s: Station, run: seq<Timed>, j: nat, i: nat)
    requires j <= i < |run| && After(s, run, j).re.retried
    requires forall m: nat :: j <= m < i ==> !UnlocksAt(s, run, m)
    ensures After(s, run, i).re.retried
    decreases i - j
  {
    hide UnlocksAt, During, After, Sends;
    if j < i {
      RetryStaysSpent(s, run, j, i - 1);
      StepIs(s, run, i - 1);
      assert !UnlocksAt(s, run, i - 1);
      SpentUntilUnlock(s, run, i - 1);
    }
  }

  lemma {:induction false} SpentUntilUnlock(s: Station, run: seq<Timed>, i: nat)
    requires i < |run| && After(s, run, i).re.retried && !UnlocksAt(s, run, i)
    ensures During(s, run, i).re.retried
  {
    hide After;
  }

  /** At most one stall retry per unlock. */
  lemma {:induction false} OneRetryPerUnlock(s: Station, run: seq<Timed>, j: nat, i: nat)
    requires j < i < |run| && RetriesAt(s, run, j) && RetriesAt(s, run, i)
    ensures exists u: nat :: j < u < i && UnlocksAt(s, run, u)
  {
    hide UnlocksAt, During, After, Sends;
    StepIs(s, run, j);
    if forall u: nat :: j < u < i ==> !UnlocksAt(s, run, u) {
      RetryStaysSpent(s, run, j + 1, i);
      assert false;
    }
  }

  // ------------------------------------------------------------- what the causes mean on the bus

  /** The controller's last report before event i. */
  function LastReport(run: seq<Timed>, i: nat): Option<Event>
    requires i <= |run|
  {
    if i == 0 then None else if run[i - 1].event.FollowState? then Some(run[i - 1].event) else LastReport(run, i - 1)
  }

  lemma {:induction false} ControllerIsLastReport(s: Station, run: seq<Timed>, i: nat)
    requires i <= |run|
    ensures var k := After(s, run, i).controller; var r := LastReport(run, i);
      && k.seen == r.Some?
      && (r.Some? ==> r.value.FollowState? && k == Controller(true, r.value.online, r.value.retracted, r.value.lockShown))
  {
    hide During, After, Sends;
    StartIs(s, run);
    if i > 0 {
      ControllerIsLastReport(s, run, i - 1);
      StepIs(s, run, i - 1);
      ReportKept(s, run, i - 1);
    }
  }

  lemma {:induction false} ReportKept(s: Station, run: seq<Timed>, i: nat)
    requires i < |run|
    ensures During(s, run, i).controller == match run[i].event
      case FollowState(online, retracted, shown) => Controller(true, online, retracted, shown)
      case _ => After(s, run, i).controller
  {
    hide After;
  }

  /** From event m to just before event i, after each event: an unlock's re-extend is pending and its frequency sent, no
      lock is on, and the controller's last report is online, elements in, lock not shown. */
  ghost predicate StalledFrom(s: Station, run: seq<Timed>, m: nat, i: nat)
    requires i <= |run|
  {
    forall k: nat :: m <= k < i ==> Stalled(During(s, run, k)) && LastReport(run, k + 1) == Some(FollowState(true, true, false))
  }

  /** What the recorded onset of a stall means: the time of an event from which on the controller has looked stalled. */
  lemma {:induction false} OnsetMeans(s: Station, run: seq<Timed>, i: nat) returns (m: nat)
    requires i <= |run| && After(s, run, i).re.stallSince.Some?
    ensures m < i && run[m].at == After(s, run, i).re.stallSince.value && StalledFrom(s, run, m, i)
  {
    hide During, After, Sends, Stalled;
    StartIs(s, run);
    StepIs(s, run, i - 1);
    OnsetStep(s, run, i - 1);
    ControllerIsLastReport(s, run, i);
    StalledController(During(s, run, i - 1));
    if After(s, run, i - 1).re.stallSince.Some? {
      m := OnsetMeans(s, run, i - 1);
      assert StalledFrom(s, run, m, i - 1);
    } else {
      m := i - 1;
    }
  }

  lemma {:induction false} StalledController(k: Client)
    requires Stalled(k)
    ensures k.controller == Controller(true, true, true, false)
  {}

  /** Whether the controller is being counted as stalled and since when, event by event. */
  lemma {:induction false} OnsetStep(s: Station, run: seq<Timed>, i: nat)
    requires i < |run| && During(s, run, i).re.stallSince.Some?
    ensures Stalled(During(s, run, i))
    ensures After(s, run, i).re.stallSince.Some? ==> During(s, run, i).re.stallSince == After(s, run, i).re.stallSince
    ensures After(s, run, i).re.stallSince.None? ==> During(s, run, i).re.stallSince == Some(run[i].at)
  {
    hide After, During, Stalled;
    if After(s, run, i).re.stallSince.Some? { OnsetMeansStalled(s, run, i); }
    KeptStalled(s, run, i);
    OnsetKept(s, run, i);
  }

  lemma {:induction false} OnsetKept(s: Station, run: seq<Timed>, i: nat)
    requires i < |run| && During(s, run, i).re.stallSince.Some?
    ensures var was := After(s, run, i).re.stallSince;
      During(s, run, i).re.stallSince == if was.Some? then was else Some(run[i].at)
  {
    hide After, Held;
  }

  lemma {:induction false} OnsetMeansStalled(s: Station, run: seq<Timed>, i: nat)
    requires i <= |run| && After(s, run, i).re.stallSince.Some?
    ensures Stalled(After(s, run, i))
  {
    hide During, After, Sends;
    StartIs(s, run);
    StepIs(s, run, i - 1);
    if After(s, run, i - 1).re.stallSince.Some? { OnsetMeansStalled(s, run, i - 1); }
    KeptStalled(s, run, i - 1);
    assert Sends(s, run, i - 1).freq != Some(0) by { NeverSendsZero(s, run, i - 1); }
  }

  lemma {:induction false} KeptStalled(s: Station, run: seq<Timed>, i: nat)
    requires i < |run| && During(s, run, i).re.stallSince.Some?
    requires After(s, run, i).re.stallSince.Some? ==> Stalled(After(s, run, i))
    ensures Stalled(During(s, run, i))
  {
    hide After, StallChecked, Stalled, Mutated;
    CheckingStalls();
    JudgedOrKept(After(s, run, i), run[i].event, s.idle, run[i].at);
    SameStall(After(s, run, i), During(s, run, i));
  }

  /** An event has the stall judged last of all, or touches nothing a stall depends on. */
  lemma {:induction false} JudgedOrKept(k: Client, e: Event, idle: Idle, now: int)
    ensures var t := Mutated(k, e, idle, now);
      || (exists x: Client, tick: bool :: t == StallChecked(x, tick, now))
      || (t.re == k.re && t.sent == k.sent && t.controller == k.controller && t.ins.locked == k.ins.locked)
  {
    hide Held, StallChecked;
  }

  lemma {:induction false} CheckingStalls()
    ensures forall k: Client, tick: bool, now: int :: StallChecked(k, tick, now).re.stallSince.Some? ==> Stalled(StallChecked(k, tick, now))
  {}

  lemma {:induction false} SameStall(k: Client, t: Client)
    ensures t.re == k.re && t.sent == k.sent && t.controller == k.controller && t.ins.locked == k.ins.locked
      ==> Stalled(t) == Stalled(k)
  {}

  lemma {:induction false} NeverSendsZero(s: Station, run: seq<Timed>, i: nat)
    requires i < |run|
    ensures Sends(s, run, i).freq != Some(0)
  {
    hide During;
  }

  /** A return is an offline-to-online edge in the controller's own reports; a retry comes at least fifteen seconds
      after an event since which its last report has been online, elements in and lock not shown, with no lock on and
      the unlock's frequency sent; and both take some unlock before. */
  lemma {:induction false} CausesAreReal(s: Station, run: seq<Timed>, i: nat)
    requires i < |run|
    ensures ReturnsAt(s, run, i) ==>
      && LastReport(run, i).Some? && LastReport(run, i).value.FollowState? && !LastReport(run, i).value.online
      && run[i].event.online
    ensures RetriesAt(s, run, i) ==>
      exists m: nat :: m < i && run[i].at - run[m].at >= STALL_GRACE && StalledFrom(s, run, m, i)
    ensures ReturnsAt(s, run, i) || RetriesAt(s, run, i) ==> exists u: nat :: u < i && UnlocksAt(s, run, u)
  {
    hide After, During;
    ControllerIsLastReport(s, run, i);
    if RetriesAt(s, run, i) {
      RetryNeedsGrace(s, run, i);
      var m := OnsetMeans(s, run, i);
    }
    if After(s, run, i).re.pending { PendingMeansUnlocked(s, run, i); }
  }

  lemma {:induction false} RetryNeedsGrace(s: Station, run: seq<Timed>, i: nat)
    requires i < |run| && RetriesAt(s, run, i)
    ensures var t := After(s, run, i).re; t.pending && t.stallSince.Some? && run[i].at - t.stallSince.value >= STALL_GRACE
  {
    hide After;
  }

  lemma {:induction false} PendingMeansUnlocked(s: Station, run: seq<Timed>, i: nat)
    requires i <= |run| && After(s, run, i).re.pending
    ensures exists u: nat :: u < i && UnlocksAt(s, run, u)
  {
    hide UnlocksAt, During, After, Sends;
    StartIs(s, run);
    if i > 0 {
      StepIs(s, run, i - 1);
      PendingSince(s, run, i - 1);
      if After(s, run, i - 1).re.pending { PendingMeansUnlocked(s, run, i - 1); }
    }
  }

  lemma {:induction false} PendingSince(s: Station, run: seq<Timed>, i: nat)
    requires i < |run|
    ensures During(s, run, i).re.pending ==> After(s, run, i).re.pending || UnlocksAt(s, run, i)
  {
    hide After;
  }
}
