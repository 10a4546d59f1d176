/** Band derivation of the PA-arm interlock: the firmware's table of inclusive
    band edges, the 2 kHz exit hysteresis and the set of bands the PA may amplify. */
module ArmBands {

  datatype Band = NoBand | Metres(wavelength: nat)

  datatype BandEdge = BandEdge(lo: nat, hi: nat, band: Band)

  const BAND_EDGES: seq<BandEdge> := [
    BandEdge(1800000, 2000000, Metres(160)), BandEdge(3500000, 4000000, Metres(80)),
    BandEdge(5351500, 5366500, Metres(60)), BandEdge(7000000, 7300000, Metres(40)),
    BandEdge(10100000, 10150000, Metres(30)), BandEdge(14000000, 14350000, Metres(20)),
    BandEdge(18068000, 18168000, Metres(17)), BandEdge(21000000, 21450000, Metres(15)),
    BandEdge(24890000, 24990000, Metres(12)), BandEdge(28000000, 29700000, Metres(10)),
    BandEdge(50000000, 54000000, Metres(6))
  ]

  const BAND_EDGE_HYSTERESIS_HZ: nat := 2000

  // 60m is deliberately absent.
  const SAFE_BANDS: seq<Band> := [Metres(160), Metres(80), Metres(40), Metres(30), Metres(20), Metres(17), Metres(15), Metres(12), Metres(10), Metres(6)]

  predicate BandSafe(band: Band) { band in SAFE_BANDS }

  predicate Contains(e: BandEdge, hz: nat) { e.lo <= hz <= e.hi }

  /** hz lies just outside e, within the hysteresis. */
  predicate JustOutside(e: BandEdge, hz: nat) {
    || e.hi < hz <= e.hi + BAND_EDGE_HYSTERESIS_HZ
    || (hz < e.lo && e.lo <= hz + BAND_EDGE_HYSTERESIS_HZ)
  }

  /** hz is inside the edges of e widened by the hysteresis. */
  predicate NearEdge(e: BandEdge, hz: nat) {
    e.lo <= hz + BAND_EDGE_HYSTERESIS_HZ && hz <= e.hi + BAND_EDGE_HYSTERESIS_HZ
  }

  predicate GeneralCoverage(hz: nat) { 1800000 <= hz <= 30000000 }

  /** The first row of t at or after i whose edges hold hz; |t| if there is none. */
  function RowHolding(t: seq<BandEdge>, hz: nat, i: nat): (r: nat)
    requires i <= |t|
    ensures i <= r <= |t|
    ensures forall k :: i <= k < r ==> !Contains(t[k], hz)
    ensures r < |t| ==> Contains(t[r], hz)
    decreases |t| - i
  {
    if i == |t| || Contains(t[i], hz) then i else RowHolding(t, hz, i + 1)
  }

  /** The first row of t at or after i for band prev that hz has only just left; |t| if there is none. */
  function RowJustLeft(t: seq<BandEdge>, hz: nat, prev: Band, i: nat): (r: nat)
    requires i <= |t|
    ensures i <= r <= |t|
    ensures forall k :: i <= k < r ==> !(t[k].band == prev && JustOutside(t[k], hz))
    ensures r < |t| ==> t[r].band == prev && JustOutside(t[r], hz)
    decreases |t| - i
  {
    if i == |t| || (t[i].band == prev && JustOutside(t[i], hz)) then i else RowJustLeft(t, hz, prev, i + 1)
  }

  function BandIn(t: seq<BandEdge>, hz: nat, prev: Band): Band {
    if RowHolding(t, hz, 0) < |t| then t[RowHolding(t, hz, 0)].band
    else if prev != NoBand && GeneralCoverage(hz) && RowJustLeft(t, hz, prev, 0) < |t| then prev
    else NoBand
  }

  function BandForFreq(hz: nat, prev: Band): Band { BandIn(BAND_EDGES, hz, prev) }

  /** The firmware's two table scans. */
  method ScanBands(t: seq<BandEdge>, hz: nat, prev: Band) returns (r: Band)
    ensures r == BandIn(t, hz, prev)
  {
    for i := 0 to |t|
      invariant RowHolding(t, hz, 0) == RowHolding(t, hz, i)
    {
      if t[i].lo <= hz && hz <= t[i].hi { return t[i].band; }
    }
    if prev != NoBand && hz >= 1800000 && hz <= 30000000 {
      for i := 0 to |t|
        invariant RowJustLeft(t, hz, prev, 0) == RowJustLeft(t, hz, prev, i)
      {
        if prev == t[i].band {
          var lo, hi := t[i].lo, t[i].hi;
          if hz > hi && hz <= hi + BAND_EDGE_HYSTERESIS_HZ { return prev; }
          if hz < lo && hz + BAND_EDGE_HYSTERESIS_HZ >= lo { return prev; }
        }
      }
    }
    return NoBand;
  }

  method ScanBand(hz: nat, prev: Band) returns (r: Band)
    ensures r == BandForFreq(hz, prev)
  {
    r := ScanBands(BAND_EDGES, hz, prev);
  }

  ghost predicate NearIn(t: seq<BandEdge>, hz: nat, b: Band) {
    exists i :: 0 <= i < |t| && t[i].band == b && NearEdge(t[i], hz)
  }

  ghost predicate Near(hz: nat, b: Band) { NearIn(BAND_EDGES, hz, b) }

  /** Search-order-free reading of the derivation: a derived band is one whose edges hold hz, or
      the previous band with no band holding hz; "none" means hz is in no band and past prev's hysteresis. */
  lemma {:induction false} DerivedBandIn(t: seq<BandEdge>, hz: nat, prev: Band)
    requires forall i :: 0 <= i < |t| ==> t[i].band != NoBand && t[i].lo <= t[i].hi
    ensures var r := BandIn(t, hz, prev);
      && (r != NoBand ==> NearIn(t, hz, r))
      && (r != NoBand && r != prev ==> exists i :: 0 <= i < |t| && t[i].band == r && Contains(t[i], hz))
      && (r == NoBand ==> forall i :: 0 <= i < |t| ==> !Contains(t[i], hz))
      && (r == NoBand && prev != NoBand && GeneralCoverage(hz) ==> !NearIn(t, hz, prev))
  {
    var a := RowHolding(t, hz, 0);
    var b := RowJustLeft(t, hz, prev, 0);
    var r := BandIn(t, hz, prev);
    if a < |t| {
      assert t[a].band == r && NearEdge(t[a], hz);
    } else if r != NoBand {
      assert t[b].band == r && NearEdge(t[b], hz);
    } else if prev != NoBand && GeneralCoverage(hz) {
      forall i | 0 <= i < |t| && t[i].band == prev ensures !NearEdge(t[i], hz) {
        assert !Contains(t[i], hz) && !JustOutside(t[i], hz);
      }
    }
  }

  lemma {:induction false} DerivedBandIsNear(hz: nat, prev: Band)
    ensures BandForFreq(hz, prev) != NoBand ==> Near(hz, BandForFreq(hz, prev))
  {
    assert forall i :: 0 <= i < |BAND_EDGES| ==> BAND_EDGES[i].band != NoBand && BAND_EDGES[i].lo <= BAND_EDGES[i].hi;
    DerivedBandIn(BAND_EDGES, hz, prev);
  }

  /** No frequency near a safe band is a 60m frequency. */
  lemma {:induction false} SafeIsNever60m(hz: nat, b: Band)
    requires Near(hz, b) && BandSafe(b)
    ensures !(5351500 <= hz <= 5366500)
  {
    var i :| 0 <= i < |BAND_EDGES| && BAND_EDGES[i].band == b && NearEdge(BAND_EDGES[i], hz);
    assert i != 2;
    assert i in {0, 1, 3, 4, 5, 6, 7, 8, 9, 10};
  }
}
