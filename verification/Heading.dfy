/** The storm park azimuth: the boom broadside to the wind, as near as the rotator can turn it. */
module Heading {
  datatype Inputs = Inputs(windDeg: real, windOk: bool, az: real, azOk: bool, maxAz: int, fallbackAz: int)

  function Norm(d: int): (n: int)
    ensures 0 <= n < 360 && (d - n) % 360 == 0
  {
    d % 360
  }

  /** Rounding to whole degrees, halves away from zero. */
  function Round(x: real): int { if x >= 0.0 then (x + 0.5).Floor else -(-x + 0.5).Floor }

  function Top(i: Inputs): int { if i.maxAz < 360 then 360 else i.maxAz }

  function Distance(i: Inputs, c: int): real { if c as real < i.az then i.az - c as real else c as real - i.az }

  /** c is to be preferred over the best so far: nearer in linear travel, or as near and lower; the lower one when
      the azimuth is unknown. */
  predicate Better(i: Inputs, c: int, best: int) {
    if !i.azOk then c < best
    else Distance(i, c) < Distance(i, best) || (Distance(i, c) == Distance(i, best) && c < best)
  }

  /** A target broadside to the wind that the rotator can be sent to. */
  predicate Broadside(i: Inputs, c: int) {
    0 <= c <= Top(i) && (c - Round(i.windDeg)) % 180 == 90
  }

  function Prefer(i: Inputs, c: int, best: int): int { if Better(i, c, best) then c else best }

  function Side(i: Inputs, off: int): int { Norm(Norm(Round(i.windDeg)) + off) }

  /** The preferred one of a heading and, where it fits, the same heading a turn further. */
  function WithTurn(i: Inputs, best: int, c: int): int {
    var b := Prefer(i, c, best);
    if c + 360 <= Top(i) then Prefer(i, c + 360, b) else b
  }

  /** The park azimuth. */
  function StormAz(i: Inputs): int {
    if !i.windOk then i.fallbackAz else WithTurn(i, WithTurn(i, Side(i, 90), Side(i, 90)), Side(i, 270))
  }

  /** Of two targets the preferred one is one of them, and nothing is preferred to it that was not to the best so far. */
  lemma {:induction false} PreferLeast(i: Inputs, c: int, best: int, x: int)
    ensures var p := Prefer(i, c, best);
      p in {c, best} && !Better(i, c, p) && !Better(i, best, p) && (!Better(i, x, best) ==> !Better(i, x, p))
  {}

  lemma {:induction false} WithTurnLeast(i: Inputs, best: int, c: int, x: int)
    ensures var t := WithTurn(i, best, c);
      && (t in {best, c} || (t == c + 360 && c + 360 <= Top(i)))
      && !Better(i, c, t) && (c + 360 <= Top(i) ==> !Better(i, c + 360, t))
      && (!Better(i, x, best) ==> !Better(i, x, t))
  {
    hide Better, Prefer;
    var b := Prefer(i, c, best);
    PreferLeast(i, c, best, x);
    PreferLeast(i, c + 360, b, x);
    PreferLeast(i, c + 360, b, c);
  }

  lemma {:induction false} OneIsBetter(i: Inputs, c: int, d: int)
    ensures !Better(i, c, d) && c != d ==> Better(i, d, c)
  {}

  /** With the wind known the result is a broadside target, and no other broadside target is to be preferred: none
      is nearer, and of two as near (or with the azimuth unknown) none is lower. So it is the only such target. */
  lemma {:induction false} StormIsNearestBroadside(i: Inputs, c: int)
    requires i.windOk && i.maxAz <= 450
    ensures Broadside(i, StormAz(i))
    ensures Broadside(i, c) ==> c == StormAz(i) || Better(i, StormAz(i), c)
    ensures Broadside(i, c) ==> !Better(i, c, StormAz(i))
  {
    hide Side, Better, WithTurn, Broadside;
    var a, b := Side(i, 90), Side(i, 270);
    var first := WithTurn(i, a, a);
    FourTargets(i, c);
    WithTurnLeast(i, a, a, c);
    WithTurnLeast(i, first, b, c);
    WithTurnLeast(i, first, b, a);
    WithTurnLeast(i, first, b, a + 360);
    OneIsBetter(i, c, StormAz(i));
  }

  /** The broadside targets in range are the two sides and, where it fits, each of them a turn further. */
  lemma {:induction false} FourTargets(i: Inputs, c: int)
    requires i.maxAz <= 450
    ensures var a, b := Side(i, 90), Side(i, 270);
      && Broadside(i, a) && Broadside(i, b)
      && (a + 360 <= Top(i) ==> Broadside(i, a + 360)) && (b + 360 <= Top(i) ==> Broadside(i, b + 360))
      && (Broadside(i, c) ==> c in {a, b} || (c == a + 360 && c <= Top(i)) || (c == b + 360 && c <= Top(i)))
  {
    hide Side, Round;
    var r, a, b := Round(i.windDeg), Side(i, 90), Side(i, 270);
    SidesAreBroadside(i);
    HalfTurns(a - r, 2);
    HalfTurns(b - r, 2);
    if Broadside(i, c) {
      var k := HalfTurnsApart(c - r, a - r);
      assert c == a + 180 * k && (k == -2 || k == -1 || k == 0 || k == 1 || k == 2);
    }
  }

  lemma {:induction false} HalfTurns(x: int, k: int)
    ensures (x + 180 * k) % 180 == x % 180
  {}

  lemma {:induction false} HalfTurnsApart(x: int, y: int) returns (k: int)
    requires x % 180 == y % 180
    ensures x == y + 180 * k
  {
    k := x / 180 - y / 180;
  }

  lemma {:induction false} SidesAreBroadside(i: Inputs)
    ensures var r := Round(i.windDeg); var a := Side(i, 90); var b := Side(i, 270);
      && 0 <= a < 360 && 0 <= b < 360 && (b == a + 180 || b == a - 180)
      && (a - r) % 180 == 90 && (b - r) % 180 == 90
  {
    hide Round;
    var n := Norm(Round(i.windDeg));
    SideOf(Round(i.windDeg), n, 90);
    SideOf(Round(i.windDeg), n, 270);
  }

  /** A heading a quarter turn either way from n. */
  lemma {:induction false} SideOf(r: int, n: int, off: int)
    requires 0 <= n < 360 && (r - n) % 360 == 0 && (off == 90 || off == 270)
    ensures var a := Norm(n + off); a == (if n + off < 360 then n + off else n + off - 360) && (a - r) % 180 == 90
  {
    var k := (r - n) / 360;
    var a := if n + off < 360 then n + off else n + off - 360;
    var m := (if off == 90 then 0 else 1) - (if n + off < 360 then 0 else 2) - 2 * k;
    assert a - r == 90 + 180 * m;
    HalfTurns(90, m);
  }

  /** Whatever the inputs, a valid configuration's azimuth is one the lock may carry. */
  lemma {:induction false} StormInRange(i: Inputs)
    requires 360 <= i.maxAz <= 450 && 0 <= i.fallbackAz <= i.maxAz
    ensures 0 <= StormAz(i) <= i.maxAz <= 450
  {}

  method Storm(i: Inputs) returns (best: int)
    ensures best == StormAz(i)
  {
    hide Norm, Round, Better;
    if !i.windOk { return i.fallbackAz; }
    var maxAz := i.maxAz;
    if maxAz < 360 { maxAz := 360; }
    var w := Norm(Round(i.windDeg));
    var sides := [Norm(w + 90), Norm(w + 270)];
    var cands: seq<int> := [];
    for k := 0 to 2
      invariant cands == (if k > 0 then Turns(i, sides[0]) else []) + (if k > 1 then Turns(i, sides[1]) else [])
    {
      cands := cands + [sides[k]];
      if sides[k] + 360 <= maxAz { cands := cands + [sides[k] + 360]; }
    }
    best := cands[0];
    for k := 1 to |cands|
      invariant best == Preferred(i, cands[..k])
    {
      assert cands[..k + 1][..k] == cands[..k];
      if Better(i, cands[k], best) { best := cands[k]; }
    }
    assert cands[..|cands|] == cands;
    PreferredOfTurns(i, sides[0], sides[1]);
  }

  function Turns(i: Inputs, c: int): seq<int> { if c + 360 <= Top(i) then [c, c + 360] else [c] }

  function Preferred(i: Inputs, cs: seq<int>): int
    requires cs != []
  {
    if |cs| == 1 then cs[0] else Prefer(i, cs[|cs| - 1], Preferred(i, cs[..|cs| - 1]))
  }

  lemma {:induction false} PreferredMore(i: Inputs, cs: seq<int>, c: int)
    requires cs != []
    ensures Preferred(i, cs + [c]) == Prefer(i, c, Preferred(i, cs))
  {}

  lemma {:induction false} PreferredOfTurns(i: Inputs, a: int, b: int)
    ensures Preferred(i, Turns(i, a) + Turns(i, b)) == WithTurn(i, WithTurn(i, a, a), b)
  {
    var t := Turns(i, a);
    assert Preferred(i, [a]) == a && Prefer(i, a, a) == a;
    if |t| == 2 { PreferredMore(i, [a], a + 360); assert t == [a] + [a + 360]; }
    PreferredMore(i, t, b);
    if |Turns(i, b)| == 2 {
      PreferredMore(i, t + [b], b + 360);
      assert t + Turns(i, b) == (t + [b]) + [b + 360];
    }
  }
}
