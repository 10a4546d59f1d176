/** The walk-away rule over whole runs: when the station counts as left, told by the messages alone. Activity is a VFO move
    or a transmission on a live radio, an operator's hold, or a station hold that keeps itself alive. */
module FollowPresence {
  import opened Options
  import opened Reconcile
  import opened Follow
  import opened FollowRuns

  // ------------------------------------------------------------- what the messages say

  /** Whether the slot's last status before event i is online. */
  function SlotOnline(run: seq<Timed>, i: nat, slot: string): bool
    requires i <= |run|
  {
    if i == 0 then false
    else if run[i - 1].event.HoldStatus? && run[i - 1].event.slot == slot then run[i - 1].event.slotOnline
    else SlotOnline(run, i - 1, slot)
  }

  /** The slot's last state message before event i, if it is a hold: its claimed end and when it came in. */
  function SlotHold(run: seq<Timed>, i: nat, slot: string): Option<(int, int)>
    requires i <= |run|
  {
    if i == 0 then None
    else if run[i - 1].event.HoldState? && run[i - 1].event.slot == slot then
      if run[i - 1].event.until.Some? then Some((run[i - 1].event.until.value, run[i - 1].event.received)) else None
    else SlotHold(run, i - 1, slot)
  }

  /** The slot holds the station by its messages before event i: online, before its claimed end, and the hold came in
      less than ten minutes ago. */
  predicate Holds(run: seq<Timed>, i: nat, slot: string, now: int)
    requires i <= |run|
  {
    && SlotOnline(run, i, slot)
    && SlotHold(run, i, slot).Some?
    && now < SlotHold(run, i, slot).value.0 && now < SlotHold(run, i, slot).value.1 + MAX_HOLD_TTL
  }

  predicate HeldBy(slots: seq<string>, run: seq<Timed>, i: nat, now: int)
    requires i <= |run|
  {
    exists k :: 0 <= k < |slots| && Holds(run, i, slots[k], now)
  }

  /** Whether the radio has reported before event i, and the frequency it was last live on. */
  predicate RadioSeen(run: seq<Timed>, i: nat)
    requires i <= |run|
  {
    exists k :: 0 <= k < i && run[k].event.RadioState?
  }

  function LiveFreq(run: seq<Timed>, i: nat): int
    requires i <= |run|
  {
    if i == 0 then 0
    else match run[i - 1].event
      case RadioState(_, hz, _, device) => if (device && hz > 0) || hz == 0 then hz else LiveFreq(run, i - 1)
      case _ => LiveFreq(run, i - 1)
  }

  /** Event i is activity. */
  predicate Active(slots: seq<string>, run: seq<Timed>, i: nat)
    requires i < |run|
  {
    match run[i].event
    case RadioState(_, hz, tx, device) =>
      device && ((hz > 0 && LiveFreq(run, i) != 0 && hz != LiveFreq(run, i)) || (RadioSeen(run, i) && tx))
    case Operator(r) => HoldActive(r)
    case HoldStatus(_, _) => HeldBy(slots, run, i + 1, run[i].at)
    case HoldState(_, _, _) => HeldBy(slots, run, i + 1, run[i].at)
    case IdleCheck => HeldBy(slots, run, i + 1, run[i].at)
    case _ => false
  }

  // ------------------------------------------------------------- the client's record is the messages

  ghost predicate HoldsTrue(k: Client, run: seq<Timed>, i: nat)
    requires i <= |run|
  {
    forall slot: string :: HoldTrue(HoldOf(k, slot), run, i, slot)
  }

  predicate HoldTrue(h: StationHold, run: seq<Timed>, i: nat, slot: string)
    requires i <= |run|
  {
    && h.online == SlotOnline(run, i, slot) && h.held == SlotHold(run, i, slot).Some?
    && (h.held ==> (h.until, h.received) == SlotHold(run, i, slot).value)
  }

  /** Handling an event brings the hold records up to date before anything is judged on them. */
  lemma {:induction false} HoldsHeard(s: Station, run: seq<Timed>, i: nat)
    requires i < |run| && HoldsTrue(After(s, run, i), run, i)
    ensures HoldsTrue(During(s, run, i), run, i + 1)
  {
    hide After, StallChecked, Held;
    var k := After(s, run, i);
    forall slot: string ensures HoldTrue(HoldOf(During(s, run, i), slot), run, i + 1, slot) {
      assert HoldTrue(HoldOf(k, slot), run, i, slot);
      HoldsKept(k, run[i].event, s.idle, run[i].at, slot);
    }
  }

  lemma {:induction false} HoldsKept(k: Client, e: Event, idle: Idle, now: int, slot: string)
    ensures HoldOf(Mutated(k, e, idle, now), slot) ==
      match e
      case HoldStatus(t, online) => if t == slot then HoldOf(k, slot).(online := online) else HoldOf(k, slot)
      case HoldState(t, until, received) =>
        if t == slot then StationHold(HoldOf(k, slot).online, until.Some?, until.GetOr(0), received) else HoldOf(k, slot)
      case _ => HoldOf(k, slot)
  {
    hide Held;
  }

  lemma {:induction false} HoldsAlwaysTrue(s: Station, run: seq<Timed>, i: nat)
    requires i <= |run|
    ensures HoldsTrue(After(s, run, i), run, i)
  {
    hide After, During, Sends;
    StartIs(s, run);
    if i > 0 {
      HoldsAlwaysTrue(s, run, i - 1);
      HoldsHeard(s, run, i - 1);
      StepIs(s, run, i - 1);
      SameHolds(During(s, run, i - 1), After(s, run, i), run, i);
    } else {
      forall slot: string ensures HoldTrue(HoldOf(After(s, run, 0), slot), run, 0, slot) {}
    }
  }

  lemma {:induction false} SameHolds(k: Client, t: Client, run: seq<Timed>, i: nat)
    requires i <= |run| && k.holds == t.holds && HoldsTrue(k, run, i)
    ensures HoldsTrue(t, run, i)
  {
    forall slot: string ensures HoldTrue(HoldOf(t, slot), run, i, slot) {
      assert HoldTrue(HoldOf(k, slot), run, i, slot);
    }
  }

  lemma {:induction false} HeldIsHistory(k: Client, slots: seq<string>, run: seq<Timed>, i: nat, now: int)
    requires i <= |run| && HoldsTrue(k, run, i)
    ensures Held(k, slots, now) <==> HeldBy(slots, run, i, now)
  {
    forall j | 0 <= j < |slots| ensures HoldOf(k, slots[j]).Live(now) == Holds(run, i, slots[j], now) {
      assert HoldTrue(HoldOf(k, slots[j]), run, i, slots[j]);
    }
  }

  lemma {:induction false} RadioIsHistory(s: Station, run: seq<Timed>, i: nat)
    requires i <= |run|
    ensures After(s, run, i).radio.seen == RadioSeen(run, i) && After(s, run, i).radio.liveFreqHz == LiveFreq(run, i)
  {
    hide After, During, Sends;
    StartIs(s, run);
    if i > 0 {
      RadioIsHistory(s, run, i - 1);
      StepIs(s, run, i - 1);
      RadioKept(s, run, i - 1);
      assert RadioSeen(run, i) <==> RadioSeen(run, i - 1) || run[i - 1].event.RadioState?;
    }
  }

  lemma {:induction false} RadioKept(s: Station, run: seq<Timed>, i: nat)
    requires i < |run|
    ensures var r, t := After(s, run, i).radio, During(s, run, i).radio;
      match run[i].event
      case RadioState(_, hz, _, device) => t.seen && t.liveFreqHz == if (device && hz > 0) || hz == 0 then hz else r.liveFreqHz
      case _ => t.seen == r.seen && t.liveFreqHz == r.liveFreqHz
  {
    hide After, Held;
  }

  /** Exactly the active events mark the station active, and only an idle check marks it left. */
  lemma {:induction false} PresenceStep(s: Station, run: seq<Timed>, i: nat)
    requires i < |run|
    ensures var k, t := After(s, run, i), After(s, run, i + 1);
      && t.lastActivity == (if Active(s.idle.slots, run, i) then run[i].at else k.lastActivity)
      && (t.ins.inactive <==>
            || (run[i].event.IdleCheck? && run[i].at - t.lastActivity >= s.idle.timeout)
            || (k.ins.inactive && !Active(s.idle.slots, run, i)))
  {
    hide After, Sends, Held, HeldBy, HoldsTrue, StallChecked;
    StepIs(s, run, i);
    RadioIsHistory(s, run, i);
    HoldsAlwaysTrue(s, run, i);
    HoldsHeard(s, run, i);
    HeldIsHistory(During(s, run, i), s.idle.slots, run, i + 1, run[i].at);
    Judged(After(s, run, i), run[i].event, s.idle, run[i].at);
  }

  /** What one event does to the presence record, the holds judged as they then stand. */
  lemma {:induction false} Judged(k: Client, e: Event, idle: Idle, now: int)
    ensures var t := Mutated(k, e, idle, now); var held := Held(t, idle.slots, now);
      var active := match e
        case RadioState(_, hz, tx, device) =>
          device && ((hz > 0 && k.radio.liveFreqHz != 0 && hz != k.radio.liveFreqHz) || (k.radio.seen && tx))
        case Operator(r) => HoldActive(r)
        case HoldStatus(_, _) => held
        case HoldState(_, _, _) => held
        case IdleCheck => held
        case _ => false;
      && t.lastActivity == (if active then now else k.lastActivity)
      && (t.ins.inactive <==> (e.IdleCheck? && now - t.lastActivity >= idle.timeout) || (k.ins.inactive && !active))
  {
  }

  // ------------------------------------------------------------- main result

  predicate Ordered(run: seq<Timed>) { forall i, j :: 0 <= i < j < |run| ==> run[i].at <= run[j].at }

  /** No activity in the walk-away timeout up to this time, nor the start of the process. */
  ghost predicate QuietUntil(s: Station, run: seq<Timed>, i: nat, now: int)
    requires i <= |run|
  {
    now - s.start >= s.idle.timeout && forall m: nat :: m < i && Active(s.idle.slots, run, m) ==> now - run[m].at >= s.idle.timeout
  }

  lemma {:induction false} LastActivityIs(s: Station, run: seq<Timed>, i: nat, now: int)
    requires i <= |run| && Ordered(run) && (|run| > 0 ==> s.start <= run[0].at)
    ensures now - After(s, run, i).lastActivity >= s.idle.timeout <==> QuietUntil(s, run, i, now)
    ensures s.start <= After(s, run, i).lastActivity && (i > 0 ==> After(s, run, i).lastActivity <= run[i - 1].at)
  {
    hide After, Active;
    StartIs(s, run);
    if i > 0 {
      LastActivityIs(s, run, i - 1, now);
      PresenceStep(s, run, i - 1);
    }
  }

  /** In every run the station counts as left exactly when some idle check found the whole walk-away timeout before it
      without activity, and there has been none since. */
  lemma {:induction false} LeftExactlyWhen(s: Station, run: seq<Timed>, i: nat)
    requires i <= |run| && Ordered(run) && (|run| > 0 ==> s.start <= run[0].at)
    ensures After(s, run, i).ins.inactive
      <==> exists c: nat :: c < i && run[c].event.IdleCheck? && QuietUntil(s, run, c + 1, run[c].at) && QuietSince(s, run, c + 1, i)
  {
    hide After, Active, QuietUntil;
    StartIs(s, run);
    if i > 0 {
      LeftExactlyWhen(s, run, i - 1);
      PresenceStep(s, run, i - 1);
      LastActivityIs(s, run, i, run[i - 1].at);
    }
  }

  ghost predicate QuietSince(s: Station, run: seq<Timed>, j: nat, i: nat)
    requires i <= |run|
  {
    forall m: nat :: j <= m < i ==> !Active(s.idle.slots, run, m)
  }

  /** So while a hold keeps itself alive the station never counts as left after an idle check. */
  lemma {:induction false} HeldIsNeverLeft(s: Station, run: seq<Timed>, i: nat)
    requires i < |run| && run[i].event.IdleCheck? && HeldBy(s.idle.slots, run, i, run[i].at) && s.idle.timeout > 0
    ensures !After(s, run, i + 1).ins.inactive
  {
    hide After;
    PresenceStep(s, run, i);
    var k :| 0 <= k < |s.idle.slots| && Holds(run, i, s.idle.slots[k], run[i].at);
    assert Holds(run, i + 1, s.idle.slots[k], run[i].at);
  }
}
