/** The antenna-mode policy: who put the station into which mode, and when automation may change that. Warnings
    enter as their ids; ids are compared by order, as sorted texts are. Times are in milliseconds. */
module Policy {
  import opened Options

  type Id = int
  datatype Mode = Normal | StormMode | Maintenance
  datatype Source = Manual | Auto
  datatype Presence = Manned | Unmanned

  datatype PolicyConfig = PolicyConfig(autoEnter: bool, exitHoldoff: int)

  /** The persisted policy state. */
  datatype Standing = Standing(mode: Mode, source: Source, since: int, seq_: int, acked: seq<Id>, dismissed: seq<Id>,
                               quietFor: int)

  /** lastClean: the previous successful poll without a warning in an auto storm, not persisted. */
  datatype Pol = Pol(s: Standing, lastClean: Option<int>)

  // ------------------------------------------------------------- sorted id sets

  predicate Sorted(s: seq<Id>) { forall i, j :: 0 <= i < j < |s| ==> s[i] <= s[j] }

  /** Where v is, or would go: the number of members below it. */
  function Rank(s: seq<Id>, v: Id): (r: nat)
    ensures r <= |s|
  {
    if s == [] || s[0] >= v then 0 else 1 + Rank(s[1..], v)
  }

  function Inserted(s: seq<Id>, v: Id): seq<Id> { s[..Rank(s, v)] + [v] + s[Rank(s, v)..] }

  function Pruned(s: seq<Id>, keep: seq<Id>): seq<Id> {
    if s == [] then [] else (if s[0] in keep then [s[0]] else []) + Pruned(s[1..], keep)
  }

  function InsertedAll(s: seq<Id>, vs: seq<Id>): seq<Id> {
    if vs == [] then s
    else
      var t := InsertedAll(s, vs[..|vs| - 1]);
      var v := vs[|vs| - 1];
      if v in t then t else Inserted(t, v)
  }

  lemma {:induction false} RankSplits(s: seq<Id>, v: Id)
    requires Sorted(s)
    ensures forall k :: 0 <= k < Rank(s, v) ==> s[k] < v
    ensures forall k :: Rank(s, v) <= k < |s| ==> s[k] >= v
  {
    if s != [] && s[0] < v {
      RankSplits(s[1..], v);
      assert forall k :: 1 <= k < |s| ==> s[k] == s[1..][k - 1];
    }
  }

  /** Binary search: the index is the rank. */
  method Search(s: seq<Id>, v: Id) returns (i: nat)
    requires Sorted(s)
    ensures i == Rank(s, v)
  {
    RankSplits(s, v);
    i := 0;
    var j := |s|;
    while i < j
      invariant i <= Rank(s, v) <= j <= |s|
    {
      var h := (i + j) / 2;
      if s[h] < v { i := h + 1; } else { j := h; }
    }
  }

  /** On a sorted set, and only because it is sorted, the search finds every member. */
  method Contains(s: seq<Id>, v: Id) returns (found: bool)
    requires Sorted(s)
    ensures found <==> v in s
  {
    RankSplits(s, v);
    var i := Search(s, v);
    found := i < |s| && s[i] == v;
  }

  method Insert(s: seq<Id>, v: Id) returns (t: seq<Id>)
    requires Sorted(s)
    ensures t == Inserted(s, v)
  {
    var i := Search(s, v);
    t := s[..i] + [v] + s[i..];
  }

  method Prune(s: seq<Id>, keep: seq<Id>) returns (t: seq<Id>)
    ensures t == Pruned(s, keep)
  {
    t := [];
    for i := 0 to |s|
      invariant t + Pruned(s[i..], keep) == Pruned(s, keep)
    {
      assert s[i..][1..] == s[i + 1..];
      if s[i] in keep { t := t + [s[i]]; }
    }
  }

  lemma {:induction false} InsertKeepsSorted(s: seq<Id>, v: Id)
    requires Sorted(s)
    ensures Sorted(Inserted(s, v)) && multiset(Inserted(s, v)) == multiset(s) + multiset{v}
    ensures forall x :: x in Inserted(s, v) <==> x in s || x == v
  {
    RankSplits(s, v);
    var r := Rank(s, v);
    assert s == s[..r] + s[r..];
  }

  lemma {:induction false} PruneKeepsSorted(s: seq<Id>, keep: seq<Id>)
    requires Sorted(s)
    ensures Sorted(Pruned(s, keep)) && forall x :: x in Pruned(s, keep) <==> x in s && x in keep
  {
    if s != [] {
      hide Pruned, Sorted;
      SortedTail(s);
      PruneKeepsSorted(s[1..], keep);
      PrunedFirst(s, keep);
      SortedFirst(s[0], Pruned(s[1..], keep));
    }
  }

  lemma {:induction false} SortedTail(s: seq<Id>)
    requires Sorted(s) && s != []
    ensures Sorted(s[1..]) && forall x :: x in s[1..] ==> s[0] <= x
    ensures forall x :: x in s <==> x == s[0] || x in s[1..]
  {}

  lemma {:induction false} PrunedFirst(s: seq<Id>, keep: seq<Id>)
    requires s != []
    ensures Pruned(s, keep) == if s[0] in keep then [s[0]] + Pruned(s[1..], keep) else Pruned(s[1..], keep)
  {}

  lemma {:induction false} SortedFirst(v: Id, s: seq<Id>)
    requires Sorted(s)
    ensures (forall x :: x in s ==> v <= x) ==> Sorted([v] + s)
  {
    assert forall k :: 0 <= k < |s| ==> s[k] in s;
  }

  lemma {:induction false} InsertAllKeepsSorted(s: seq<Id>, vs: seq<Id>)
    requires Sorted(s)
    ensures Sorted(InsertedAll(s, vs)) && forall x :: x in InsertedAll(s, vs) <==> x in s || x in vs
  {
    if vs != [] {
      var rest, v := vs[..|vs| - 1], vs[|vs| - 1];
      InsertAllKeepsSorted(s, rest);
      assert vs == rest + [v];
      if v !in InsertedAll(s, rest) { InsertKeepsSorted(InsertedAll(s, rest), v); }
    }
  }

  // ------------------------------------------------------------- id lists as loaded

  /** A loaded list in order, duplicates kept. */
  function SortedIds(s: seq<Id>): seq<Id> {
    if s == [] then [] else Inserted(SortedIds(s[..|s| - 1]), s[|s| - 1])
  }

  lemma {:induction false} SortingSorts(s: seq<Id>)
    ensures Sorted(SortedIds(s)) && multiset(SortedIds(s)) == multiset(s)
    ensures forall x :: x in SortedIds(s) <==> x in s
  {
    if s != [] {
      assert s == s[..|s| - 1] + [s[|s| - 1]];
      SortingSorts(s[..|s| - 1]);
      InsertKeepsSorted(SortedIds(s[..|s| - 1]), s[|s| - 1]);
    }
  }

  /** A list in order is loaded as it is. */
  lemma {:induction false} SortingKeepsSorted(s: seq<Id>)
    requires Sorted(s)
    ensures SortedIds(s) == s
  {
    if s != [] {
      hide Inserted;
      var front, v := s[..|s| - 1], s[|s| - 1];
      SortingKeepsSorted(front);
      InsertedLast(front, v);
      assert s == front + [v];
    }
  }

  lemma {:induction false} InsertedLast(s: seq<Id>, v: Id)
    requires Sorted(s) && forall k :: 0 <= k < |s| ==> s[k] <= v
    ensures Inserted(s, v) == s + [v]
  {
    RankSplits(s, v);
    assert forall k :: Rank(s, v) <= k < |s| ==> s[k] == v;
  }

  function Loaded(s: Standing): Standing { s.(acked := SortedIds(s.acked), dismissed := SortedIds(s.dismissed)) }

  lemma {:induction false} LoadedIsSorted(s: Standing)
    ensures Sorted(Loaded(s).acked) && Sorted(Loaded(s).dismissed)
  {
    SortingSorts(s.acked);
    SortingSorts(s.dismissed);
  }

  // ------------------------------------------------------------- the policy's operations

  const ZERO := Standing(Normal, Manual, 0, 0, [], [], 0)

  function Entered(p: Pol, m: Mode, src: Source, now: int): Pol {
    Pol(p.s.(mode := m, source := src, since := now, seq_ := if m != Normal then p.s.seq_ + 1 else p.s.seq_, quietFor := 0), None)
  }

  /** An operator's set_ant_mode; setting the mode the station is in does nothing. */
  function ModeSet(p: Pol, m: Mode, now: int, active: seq<Id>): Pol {
    if m == p.s.mode then p
    else Entered(if m == Normal then p.(s := p.s.(acked := InsertedAll(p.s.acked, active))) else p, m, Manual, now)
  }

  function Reparked(p: Pol): Pol { if p.s.mode == Normal then p else p.(s := p.s.(seq_ := p.s.seq_ + 1)) }

  function Dismissed(p: Pol, active: seq<Id>): Pol { p.(s := p.s.(dismissed := InsertedAll(p.s.dismissed, active))) }

  /** One warning poll; active is None when it failed. */
  function Polled(c: PolicyConfig, p: Pol, now: int, active: Option<seq<Id>>): Pol {
    if active.None? then p.(lastClean := None)
    else
      var s := p.s.(acked := Pruned(p.s.acked, active.value), dismissed := Pruned(p.s.dismissed, active.value));
      if !AutoStorm(s) then p.(s := s)
      else if active.value != [] then Pol(s.(quietFor := 0), None)
      else
        var quiet := s.quietFor + if p.lastClean.Some? && p.lastClean.value < now then now - p.lastClean.value else 0;
        if quiet >= c.exitHoldoff then Entered(p.(s := s), Normal, Auto, now)
        else Pol(s.(quietFor := quiet), Some(now))
  }

  predicate AutoStorm(s: Standing) { s.mode == StormMode && s.source == Auto }

  predicate Unacked(p: Pol, active: seq<Id>) { exists id :: id in active && id !in p.s.acked }

  /** Automatic storm entry. */
  function Evaluated(c: PolicyConfig, p: Pol, now: int, active: seq<Id>, presence: Presence): Pol {
    if p.s.mode == Normal && presence == Unmanned && c.autoEnter && Unacked(p, active) then Entered(p, StormMode, Auto, now)
    else p
  }

  // ------------------------------------------------------------- the policy as it runs

  class AntPolicy {
    const cfg: PolicyConfig
    var s: Standing
    var lastClean: Option<int>

    function Now(): Pol reads this { Pol(s, lastClean) }

    ghost predicate Valid() reads this { Sorted(s.acked) && Sorted(s.dismissed) }

    /** Over a loaded or zero standing, its id lists put in order. */
    constructor (c: PolicyConfig, loaded: Standing)
      ensures cfg == c && Now() == Pol(Loaded(loaded), None) && Valid()
    {
      LoadedIsSorted(loaded);
      cfg, s, lastClean := c, Loaded(loaded), None;
    }

    method Enter(m: Mode, src: Source, now: int)
      modifies this
      ensures Now() == Entered(old(Now()), m, src, now)
    {
      s := s.(mode := m, source := src, since := now);
      if m != Normal { s := s.(seq_ := s.seq_ + 1); }
      s := s.(quietFor := 0);
      lastClean := None;
    }

    /** Adds the ids not yet in the sorted set. */
    method AddAll(set0: seq<Id>, active: seq<Id>) returns (t: seq<Id>)
      requires Sorted(set0)
      ensures t == InsertedAll(set0, active) && Sorted(t)
    {
      t := set0;
      for i := 0 to |active|
        invariant t == InsertedAll(set0, active[..i]) && Sorted(t)
      {
        assert active[..i + 1][..i] == active[..i];
        var known := Contains(t, active[i]);
        if !known {
          InsertKeepsSorted(t, active[i]);
          t := Insert(t, active[i]);
        }
      }
      assert active[..|active|] == active;
    }

    method SetMode(m: Mode, now: int, active: seq<Id>) returns (changed: bool)
      requires Valid()
      modifies this
      ensures Now() == ModeSet(old(Now()), m, now, active) && Valid()
      ensures changed <==> m != old(s.mode)
    {
      if m == s.mode { return false; }
      if m == Normal && |active| > 0 {
        var acked := AddAll(s.acked, active);
        s := s.(acked := acked);
      }
      Enter(m, Manual, now);
      return true;
    }

    method Repark() returns (reparked: bool)
      requires Valid()
      modifies this
      ensures Now() == Reparked(old(Now())) && Valid()
      ensures reparked <==> s.mode != Normal
    {
      if s.mode == Normal { return false; }
      s := s.(seq_ := s.seq_ + 1);
      return true;
    }

    method Dismiss(active: seq<Id>)
      requires Valid()
      modifies this
      ensures Now() == Dismissed(old(Now()), active) && Valid()
    {
      var dismissed := AddAll(s.dismissed, active);
      s := s.(dismissed := dismissed);
    }

    method Poll(now: int, active: Option<seq<Id>>) returns (modeChanged: bool)
      requires Valid()
      modifies this
      ensures Now() == Polled(cfg, old(Now()), now, active) && Valid()
      ensures modeChanged <==> s.mode != old(s.mode)
    {
      if active.None? {
        lastClean := None;
        return false;
      }
      PruneKeepsSorted(s.acked, active.value);
      PruneKeepsSorted(s.dismissed, active.value);
      var acked := Prune(s.acked, active.value);
      var dismissed := Prune(s.dismissed, active.value);
      s := s.(acked := acked, dismissed := dismissed);
      if s.mode != StormMode || s.source != Auto { return false; }
      if |active.value| > 0 {
        s := s.(quietFor := 0);
        lastClean := None;
        return false;
      }
      var quiet := s.quietFor;
      if lastClean.Some? && lastClean.value < now { quiet := quiet + (now - lastClean.value); }
      if quiet >= cfg.exitHoldoff {
        Enter(Normal, Auto, now);
        return true;
      }
      s := s.(quietFor := quiet);
      lastClean := Some(now);
      return false;
    }

    method Evaluate(now: int, active: seq<Id>, presence: Presence) returns (modeChanged: bool)
      requires Valid()
      modifies this
      ensures Now() == Evaluated(cfg, old(Now()), now, active, presence) && Valid()
      ensures modeChanged <==> s.mode != old(s.mode)
    {
      if s.mode != Normal || presence != Unmanned || !cfg.autoEnter { return false; }
      var open := false;
      for i := 0 to |active|
        invariant Now() == old(Now())
        invariant open <==> exists k :: 0 <= k < i && active[k] !in s.acked
      {
        var known := Contains(s.acked, active[i]);
        if !known { open := true; }
      }
      if !open { return false; }
      assert Unacked(Now(), active) by {
        ghost var k :| 0 <= k < |active| && active[k] !in s.acked;
        ghost var id := active[k];
        assert id in active && id !in Now().s.acked;
      }
      Enter(StormMode, Auto, now);
      return true;
    }
  }
}
