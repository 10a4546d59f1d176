/** The ACOM device: every accepted frame is acknowledged and classified, commands go out as frames, and whatever
    has been handed to the port reads back as those same frames. */
module AcomDevice {
  import opened Options
  import opened AcomFrames

  /** How a write to the port ends; a timeout drops the port. */
  datatype Outcome = Written | Failed | TimedOut

  /** mode: the amplifier's mode nibble, None when unknown. band: its band index, 0 when unknown.
      tx: every frame handed to the port; seen: every telemetry frame passed on. */
  datatype Device = Device(open: bool, tx: seq<seq<byte>>, mode: Option<nat>, band: nat,
                           rxFrames: nat, rxDiscarded: nat, rxIgnored: nat, seen: seq<seq<byte>>)

  const TELEMETRY_LEN: nat := 72

  // ------------------------------------------------------------- outbound frames

  function ChecksumOf(data: seq<byte>): byte { (256 - Sum(data)) % 256 }

  /** Every frame but enable-telemetry has its checksum appended as it is written. */
  function OnWire(packet: seq<byte>): seq<byte>
    requires |packet| >= 2
  {
    if packet[1] == MSG_ENABLE_AUTO then packet else packet + [ChecksumOf(packet)]
  }

  const ENABLE_PACKET: seq<byte> := [START_BYTE, MSG_ENABLE_AUTO, 0x04, 0x15]
  function ModePacket(mode: byte): seq<byte> { [START_BYTE, MSG_AMP_MGMT, 0x08, CMD_MODE_CHANGE, 0x00, mode, 0x00] }
  function BandPacket(dir: byte): seq<byte> { [START_BYTE, MSG_AMP_MGMT, 0x08, CMD_BAND_CHANGE, 0x00, dir, 0x00] }
  function AckPacket(addr: byte): seq<byte> { [START_BYTE, MSG_ACK, 0x05, addr] }

  /** The packets the device ever builds. */
  predicate Outbound(p: seq<byte>) {
    || p == ENABLE_PACKET
    || (exists m: byte :: p == ModePacket(m))
    || (exists d: byte :: p == BandPacket(d))
    || (exists a: byte :: p == AckPacket(a))
  }

  /** The write makes a frame of every packet the device builds. */
  lemma {:induction false} OutboundIsFramed(p: seq<byte>)
    requires Outbound(p)
    ensures |p| >= 2 && Framed(OnWire(p))
  {
    if p == ENABLE_PACKET {
      assert p[..3][..2] == [START_BYTE, MSG_ENABLE_AUTO] && p[..3][..2][..1] == [START_BYTE];
      assert Sum(p[..3][..2][..1]) == 0x55;
      assert Sum(p[..3][..2]) == 0xE7;
      assert Sum(p[..3]) == 0xEB;
    } else {
      ChecksumUnique(p, ChecksumOf(p));
    }
  }

  function Sent(outcomes: nat -> Outcome, d: Device, packet: seq<byte>): Device
    requires |packet| >= 2
  {
    if !d.open then d else d.(tx := d.tx + [OnWire(packet)], open := outcomes(|d.tx|) != TimedOut)
  }

  predicate SendsOk(outcomes: nat -> Outcome, d: Device) { d.open && outcomes(|d.tx|) == Written }

  // ------------------------------------------------------------- inbound frames

  function Decoded(d: Device, f: seq<byte>): Device
    requires |f| == TELEMETRY_LEN
  {
    var b := f[69] % 16;
    d.(mode := Some(f[3] / 16), band := if 1 <= b <= 10 then b else 0, rxFrames := d.rxFrames + 1, seen := d.seen + [f])
  }

  function Handled(outcomes: nat -> Outcome, d: Device, f: seq<byte>): Device
    requires |f| >= 4
  {
    var acked := Sent(outcomes, d, AckPacket(f[1]));
    if f[1] == MSG_TELEMETRY && |f| == TELEMETRY_LEN then Decoded(acked, f)
    else acked.(rxIgnored := acked.rxIgnored + 1)
  }

  function Took(outcomes: nat -> Outcome, d: Device, p: Piece): Device {
    match p
    case Noise(_) => d.(rxDiscarded := d.rxDiscarded + 1)
    case Frame(f) => if |f| >= 4 then Handled(outcomes, d, f) else d
  }

  /** The device after the pieces of a scan, in order. */
  function After(outcomes: nat -> Outcome, d: Device, ps: seq<Piece>): Device {
    if ps == [] then d else Took(outcomes, After(outcomes, d, ps[..|ps| - 1]), ps[|ps| - 1])
  }

  lemma {:induction false} AfterJoined(outcomes: nat -> Outcome, d: Device, ps: seq<Piece>, qs: seq<Piece>)
    ensures After(outcomes, d, ps + qs) == After(outcomes, After(outcomes, d, ps), qs)
    decreases |qs|
  {
    if qs == [] {
      assert ps + qs == ps;
    } else {
      assert (ps + qs)[..|ps + qs| - 1] == ps + qs[..|qs| - 1];
      AfterJoined(outcomes, d, ps, qs[..|qs| - 1]);
    }
  }

  // ------------------------------------------------------------- chunked reading

  datatype Reader = Reader(device: Device, rest: seq<byte>)

  function Read(outcomes: nat -> Outcome, r: Reader, chunk: seq<byte>): Reader {
    var s := ScanAll(r.rest + chunk);
    Reader(After(outcomes, r.device, s.pieces), s.rest)
  }

  function ReadAll(outcomes: nat -> Outcome, r: Reader, chunks: seq<seq<byte>>): Reader
    decreases |chunks|
  {
    if chunks == [] then r else ReadAll(outcomes, Read(outcomes, r, chunks[0]), chunks[1..])
  }

  lemma {:induction false} ReadAllIsFed(outcomes: nat -> Outcome, r: Reader, chunks: seq<seq<byte>>)
    ensures var s := Fed(r.rest, chunks);
      ReadAll(outcomes, r, chunks) == Reader(After(outcomes, r.device, s.pieces), s.rest)
    decreases |chunks|
  {
    hide ScanAll, After;
    if chunks == [] {
      assert After(outcomes, r.device, []) == r.device by { NothingAfter(outcomes, r.device); }
    } else {
      var now := ScanAll(r.rest + chunks[0]);
      ReadAllIsFed(outcomes, Read(outcomes, r, chunks[0]), chunks[1..]);
      AfterJoined(outcomes, r.device, now.pieces, Fed(now.rest, chunks[1..]).pieces);
    }
  }

  lemma {:induction false} NothingAfter(outcomes: nat -> Outcome, d: Device)
    ensures After(outcomes, d, []) == d
  {}

  /** However the port cuts the byte stream into reads, the device ends up the same: counters, decoded mode and
      band, observations, acknowledgements sent, and unread remainder. */
  lemma {:induction false} SplitsDoNotMatter(outcomes: nat -> Outcome, r: Reader, chunks: seq<seq<byte>>)
    requires Waits(r.rest)
    ensures ReadAll(outcomes, r, chunks) == Read(outcomes, r, Joined(chunks))
  {
    ReadAllIsFed(outcomes, r, chunks);
    ChunksDoNotMatter(r.rest, chunks);
  }

  // ------------------------------------------------------------- what the counters and acknowledgements mean

  function Acks(fs: seq<seq<byte>>): seq<seq<byte>>
    requires forall i :: 0 <= i < |fs| ==> Framed(fs[i])
  {
    seq(|fs|, i requires 0 <= i < |fs| && Framed(fs[i]) => OnWire(AckPacket(fs[i][1])))
  }

  lemma {:induction false} LastPiece(ps: seq<Piece>)
    requires ps != []
    ensures var k := |ps| - 1;
      && FramesIn(ps) == FramesIn(ps[..k]) + (if ps[k].Frame? then [ps[k].bytes] else [])
      && NoiseIn(ps) == NoiseIn(ps[..k]) + (if ps[k].Noise? then 1 else 0)
  {
    var k := |ps| - 1;
    if k > 0 {
      assert ps[1..][..k - 1] == ps[..k][1..] && ps[..k][0] == ps[0] && ps[1..][k - 1] == ps[k];
      LastPiece(ps[1..]);
      assert FramesIn(ps[..k]) == (if ps[0].Frame? then [ps[0].bytes] else []) + FramesIn(ps[..k][1..]);
    }
  }

  /** Every accepted frame is counted exactly once, as telemetry or as ignored, and every noise byte as discarded;
      while the port neither is closed nor times out, exactly one acknowledgement goes out per accepted frame, in order. */
  lemma {:induction false} EveryFrameCountedAndAcknowledged(outcomes: nat -> Outcome, d: Device, ps: seq<Piece>)
    requires forall i :: 0 <= i < |FramesIn(ps)| ==> Framed(FramesIn(ps)[i])
    ensures var e := After(outcomes, d, ps);
      && (e.rxFrames - d.rxFrames) + (e.rxIgnored - d.rxIgnored) == |FramesIn(ps)|
      && e.rxDiscarded - d.rxDiscarded == NoiseIn(ps)
      && |e.seen| - |d.seen| == e.rxFrames - d.rxFrames
      && (d.open && (forall k: nat :: outcomes(k) != TimedOut) ==> e.open && e.tx == d.tx + Acks(FramesIn(ps)))
    decreases |ps|
  {
    if ps == [] {
      assert Acks([]) == [];
    } else {
      hide FramesIn, NoiseIn, Framed, Took, Acks, OnWire, AckPacket;
      var k := |ps| - 1;
      LastPiece(ps);
      assert forall i :: 0 <= i < |FramesIn(ps[..k])| ==> FramesIn(ps[..k])[i] == FramesIn(ps)[i];
      EveryFrameCountedAndAcknowledged(outcomes, d, ps[..k]);
      var fs := FramesIn(ps[..k]);
      if ps[k].Frame? {
        assert ps[k].bytes == FramesIn(ps)[|fs|];
        AcksMore(fs, ps[k].bytes);
      }
      PieceTaken(outcomes, After(outcomes, d, ps[..k]), ps[k]);
    }
  }

  lemma {:induction false} AcksMore(fs: seq<seq<byte>>, f: seq<byte>)
    requires Framed(f) && forall i :: 0 <= i < |fs| ==> Framed(fs[i])
    ensures |f| >= 2 && Acks(fs + [f]) == Acks(fs) + [OnWire(AckPacket(f[1]))]
  {}

  /** One piece of a scan: a frame is counted and acknowledged, a noise byte counted. */
  lemma {:induction false} PieceTaken(outcomes: nat -> Outcome, e: Device, p: Piece)
    requires p.Frame? ==> Framed(p.bytes)
    ensures var t := Took(outcomes, e, p);
      && (t.rxFrames - e.rxFrames) + (t.rxIgnored - e.rxIgnored) == (if p.Frame? then 1 else 0)
      && t.rxDiscarded - e.rxDiscarded == (if p.Noise? then 1 else 0)
      && |t.seen| - |e.seen| == t.rxFrames - e.rxFrames
      && (p.Noise? ==> t.open == e.open && t.tx == e.tx)
      && (p.Frame? ==> |p.bytes| >= 2 && (e.open && (forall k: nat :: outcomes(k) != TimedOut) ==>
            t.open && t.tx == e.tx + [OnWire(AckPacket(p.bytes[1]))]))
  {}

  /** For a stretch of input: the bytes read are accounted for by the counters and the remainder, and the frames
      accepted by the acknowledgements. */
  lemma {:induction false} ReadAccounts(outcomes: nat -> Outcome, r: Reader, input: seq<byte>)
    requires Waits(r.rest) && r.device.open && forall k: nat :: outcomes(k) != TimedOut
    ensures var t := Read(outcomes, r, input); var d := t.device; var fs := FramesIn(ScanAll(r.rest + input).pieces);
      && |r.rest| + |input| == (d.rxDiscarded - r.device.rxDiscarded) + TotalBytes(fs) + |t.rest|
      && |d.tx| - |r.device.tx| == |fs| == (d.rxFrames - r.device.rxFrames) + (d.rxIgnored - r.device.rxIgnored)
      && Waits(t.rest)
  {
    var s := ScanAll(r.rest + input);
    ScanAccounts(r.rest + input);
    EveryFrameCountedAndAcknowledged(outcomes, r.device, s.pieces);
  }

  // ------------------------------------------------------------- everything written reads back

  predicate AllFramed(d: Device) { forall f :: f in d.tx ==> Framed(f) }

  lemma {:induction false} SendingKeepsFramed(outcomes: nat -> Outcome, d: Device, p: seq<byte>)
    requires AllFramed(d) && Outbound(p)
    ensures |p| >= 2 && AllFramed(Sent(outcomes, d, p))
  {
    OutboundIsFramed(p);
  }

  lemma {:induction false} ReceivingKeepsFramed(outcomes: nat -> Outcome, d: Device, ps: seq<Piece>)
    requires AllFramed(d)
    ensures AllFramed(After(outcomes, d, ps))
    decreases |ps|
  {
    if ps != [] {
      ReceivingKeepsFramed(outcomes, d, ps[..|ps| - 1]);
      var p := ps[|ps| - 1];
      if p.Frame? && |p.bytes| >= 4 {
        assert Outbound(AckPacket(p.bytes[1]));
        SendingKeepsFramed(outcomes, After(outcomes, d, ps[..|ps| - 1]), AckPacket(p.bytes[1]));
      }
    }
  }

  /** All bytes the device ever wrote scan back into exactly the frames it wrote: nothing discarded, nothing left. */
  lemma {:induction false} EverythingWrittenReadsBack(d: Device)
    requires AllFramed(d)
    ensures ScanAll(Joined(d.tx)) == Scan(AsFrames(d.tx), [])
  {
    FramesReadBack(d.tx, []);
    assert Joined(d.tx) + [] == Joined(d.tx);
    assert AsFrames(d.tx) + [] == AsFrames(d.tx);
  }

  // ------------------------------------------------------------- band navigation

  datatype Walked = Walked(device: Device, ok: bool)

  function Walk(outcomes: nat -> Outcome, d: Device, dir: byte, steps: nat): Walked
    decreases steps
  {
    if steps == 0 then Walked(d, true)
    else
      var e := Sent(outcomes, d, BandPacket(dir));
      if SendsOk(outcomes, d) then Walk(outcomes, e, dir, steps - 1) else Walked(e, false)
  }

  function Banded(outcomes: nat -> Outcome, d: Device, target: Option<nat>): Walked {
    if target.None? || d.band == 0 then Walked(d, false)
    else if d.band <= target.value then Walk(outcomes, d, BAND_NEXT, target.value - d.band)
    else Walk(outcomes, d, BAND_PREV, d.band - target.value)
  }

  /** The amplifier's side of navigation: each band-change frame moves one band up or down. */
  function BandAfter(band: int, fs: seq<seq<byte>>): int {
    if fs == [] then band
    else
      var b := BandAfter(band, fs[..|fs| - 1]);
      var f := fs[|fs| - 1];
      if f == OnWire(BandPacket(BAND_NEXT)) then b + 1 else if f == OnWire(BandPacket(BAND_PREV)) then b - 1 else b
  }

  function Repeated(f: seq<byte>, n: nat): seq<seq<byte>> { seq(n, _ => f) }

  lemma {:induction false} WalkSends(outcomes: nat -> Outcome, d: Device, dir: byte, steps: nat)
    ensures var w := Walk(outcomes, d, dir, steps);
      && |d.tx| <= |w.device.tx| <= |d.tx| + steps
      && w.device.tx == d.tx + Repeated(OnWire(BandPacket(dir)), |w.device.tx| - |d.tx|)
      && (w.ok ==> |w.device.tx| == |d.tx| + steps)
      && w.device.band == d.band
    decreases steps
  {
    if steps > 0 && SendsOk(outcomes, d) { WalkSends(outcomes, Sent(outcomes, d, BandPacket(dir)), dir, steps - 1); }
  }

  lemma {:induction false} BandMoves(band: int, dir: byte, n: nat)
    requires dir == BAND_NEXT || dir == BAND_PREV
    ensures BandAfter(band, Repeated(OnWire(BandPacket(dir)), n)) == if dir == BAND_NEXT then band + n else band - n
  {
    assert BandPacket(BAND_NEXT)[5] != BandPacket(BAND_PREV)[5];
    assert OnWire(BandPacket(BAND_NEXT))[5] != OnWire(BandPacket(BAND_PREV))[5];
    if n > 0 {
      assert Repeated(OnWire(BandPacket(dir)), n)[..n - 1] == Repeated(OnWire(BandPacket(dir)), n - 1);
      BandMoves(band, dir, n - 1);
    }
  }

  /** The bytes sent by a successful band change, read back and followed one band at a time, lead from the band
      last decoded to the target; a failed one stops on the way, never beyond. */
  lemma {:induction false} BandChangeArrives(outcomes: nat -> Outcome, d: Device, target: nat)
    requires 1 <= target <= 10 && 1 <= d.band <= 10
    ensures |d.tx| <= |Banded(outcomes, d, Some(target)).device.tx|
    ensures var w := Banded(outcomes, d, Some(target)); var sent := w.device.tx[|d.tx|..];
      && FramesIn(ScanAll(Joined(sent)).pieces) == sent && NoiseIn(ScanAll(Joined(sent)).pieces) == 0
      && (w.ok ==> BandAfter(d.band, sent) == target)
      && (if d.band <= target then d.band <= BandAfter(d.band, sent) <= target else target <= BandAfter(d.band, sent) <= d.band)
  {
    hide ScanAll, FramesIn, NoiseIn, OnWire, BandAfter, Joined;
    var dir := if d.band <= target then BAND_NEXT else BAND_PREV;
    var steps := if d.band <= target then target - d.band else d.band - target;
    WalkSends(outcomes, d, dir, steps);
    var w := Banded(outcomes, d, Some(target));
    var n := |w.device.tx| - |d.tx|;
    var sent := w.device.tx[|d.tx|..];
    assert sent == Repeated(OnWire(BandPacket(dir)), n);
    BandMoves(d.band, dir, n);
    BandFramesReadBack(dir, n);
  }

  lemma {:induction false} BandFramesReadBack(dir: byte, n: nat)
    ensures var fs := Repeated(OnWire(BandPacket(dir)), n); var ps := ScanAll(Joined(fs)).pieces;
      FramesIn(ps) == fs && NoiseIn(ps) == 0
  {
    hide OnWire;
    var fs := Repeated(OnWire(BandPacket(dir)), n);
    assert Outbound(BandPacket(dir));
    OutboundIsFramed(BandPacket(dir));
    FramesReadBack(fs, []);
    assert Joined(fs) + [] == Joined(fs);
    assert AsFrames(fs) + [] == AsFrames(fs);
    FramesInAsFrames(fs);
  }

  // ------------------------------------------------------------- runs

  datatype Call =
    | Opened
    | Enable
    | Mode(operate: bool)
    | Navigate(target: Option<nat>)
    | Arrives(chunk: seq<byte>)
    | PortLost

  const FRESH := Reader(Device(false, [], None, 0, 0, 0, 0, []), [])

  function Done(outcomes: nat -> Outcome, r: Reader, c: Call): Reader {
    match c
    case Opened => Reader(Sent(outcomes, r.device.(open := true, mode := None, band := 0), ENABLE_PACKET), [])
    case Enable => r.(device := Sent(outcomes, r.device, ENABLE_PACKET))
    case Mode(operate) => r.(device := Sent(outcomes, r.device, ModePacket(if operate then MODE_OPR_RX else MODE_STB)))
    case Navigate(target) => r.(device := Banded(outcomes, r.device, target).device)
    case Arrives(chunk) => Read(outcomes, r, chunk)
    case PortLost => r.(device := r.device.(open := false))
  }

  function Reached(outcomes: nat -> Outcome, calls: seq<Call>): Reader {
    if calls == [] then FRESH else Done(outcomes, Reached(outcomes, calls[..|calls| - 1]), calls[|calls| - 1])
  }

  lemma {:induction false} WalkKeepsFramed(outcomes: nat -> Outcome, d: Device, dir: byte, steps: nat)
    requires AllFramed(d)
    ensures AllFramed(Walk(outcomes, d, dir, steps).device)
    decreases steps
  {
    assert Outbound(BandPacket(dir));
    SendingKeepsFramed(outcomes, d, BandPacket(dir));
    if steps > 0 && SendsOk(outcomes, d) { WalkKeepsFramed(outcomes, Sent(outcomes, d, BandPacket(dir)), dir, steps - 1); }
  }

  lemma {:induction false} CallKeepsFramed(outcomes: nat -> Outcome, r: Reader, c: Call)
    requires AllFramed(r.device)
    ensures AllFramed(Done(outcomes, r, c).device)
  {
    match c
    case Opened => SendingKeepsFramed(outcomes, r.device.(open := true, mode := None, band := 0), ENABLE_PACKET);
    case Enable => SendingKeepsFramed(outcomes, r.device, ENABLE_PACKET);
    case Mode(operate) =>
      assert Outbound(ModePacket(if operate then MODE_OPR_RX else MODE_STB));
      SendingKeepsFramed(outcomes, r.device, ModePacket(if operate then MODE_OPR_RX else MODE_STB));
    case Navigate(target) =>
      if target.Some? && r.device.band != 0 {
        var d := r.device;
        if d.band <= target.value { WalkKeepsFramed(outcomes, d, BAND_NEXT, target.value - d.band); }
        else { WalkKeepsFramed(outcomes, d, BAND_PREV, d.band - target.value); }
      }
    case Arrives(chunk) => ReceivingKeepsFramed(outcomes, r.device, ScanAll(r.rest + chunk).pieces);
    case PortLost =>
  }

  /** In every run, whatever arrives and however writes end: all bytes handed to the port scan back, in any chunks,
      into exactly the frames written, with nothing discarded and nothing left over. */
  lemma {:induction false} EveryRunReadsBack(outcomes: nat -> Outcome, calls: seq<Call>, chunks: seq<seq<byte>>)
    requires Joined(chunks) == Joined(Reached(outcomes, calls).device.tx)
    ensures Fed([], chunks) == Scan(AsFrames(Reached(outcomes, calls).device.tx), [])
  {
    EveryRunFramed(outcomes, calls);
    EverythingWrittenReadsBack(Reached(outcomes, calls).device);
    ChunksDoNotMatter([], chunks);
    assert [] + Joined(chunks) == Joined(chunks);
  }

  lemma {:induction false} EveryRunFramed(outcomes: nat -> Outcome, calls: seq<Call>)
    ensures AllFramed(Reached(outcomes, calls).device)
  {
    if calls != [] {
      EveryRunFramed(outcomes, calls[..|calls| - 1]);
      CallKeepsFramed(outcomes, Reached(outcomes, calls[..|calls| - 1]), calls[|calls| - 1]);
    }
  }

  // ------------------------------------------------------------- the device as it runs

  class Port {
    const outcomes: nat -> Outcome
    var active: bool
    var tx: seq<seq<byte>>
    var mode: Option<nat>
    var band: nat
    var rxFrames: nat
    var rxDiscarded: nat
    var rxIgnored: nat
    var seen: seq<seq<byte>>

    function Now(): Device reads this { Device(active, tx, mode, band, rxFrames, rxDiscarded, rxIgnored, seen) }

    constructor (link: nat -> Outcome)
      ensures outcomes == link && Now() == Device(false, [], None, 0, 0, 0, 0, [])
    {
      outcomes, active, tx, mode, band := link, false, [], None, 0;
      rxFrames, rxDiscarded, rxIgnored, seen := 0, 0, 0, [];
    }

    method Write(packet: seq<byte>) returns (ok: bool)
      requires |packet| >= 2
      modifies `active, `tx
      ensures ok == SendsOk(outcomes, old(Now())) && Now() == Sent(outcomes, old(Now()), packet)
    {
      var framed := packet;
      if packet[1] != MSG_ENABLE_AUTO {
        var c := CalculateChecksum(packet);
        ChecksumUnique(packet, ChecksumOf(packet));
        framed := packet + [c];
      }
      if !active { return false; }
      var end := outcomes(|tx|);
      tx := tx + [framed];
      if end == TimedOut { active := false; }
      return end == Written;
    }

    /** (Re)opening the port: what an earlier session decoded is stale, and telemetry is enabled afresh. */
    method Open() returns (ok: bool)
      modifies `active, `tx, `mode, `band
      ensures Now() == Sent(outcomes, old(Now()).(open := true, mode := None, band := 0), ENABLE_PACKET)
    {
      active, mode, band := true, None, 0;
      ok := EnableTelemetry();
    }

    method EnableTelemetry() returns (ok: bool)
      modifies `active, `tx
      ensures ok == SendsOk(outcomes, old(Now())) && Now() == Sent(outcomes, old(Now()), ENABLE_PACKET)
    {
      ok := Write(ENABLE_PACKET);
    }

    /** operate: None is a mode name that is neither operate nor standby. */
    method SetMode(operate: Option<bool>) returns (ok: bool)
      modifies `active, `tx
      ensures ok == (operate.Some? && SendsOk(outcomes, old(Now())))
      ensures operate.None? ==> Now() == old(Now())
      ensures operate.Some? ==>
        Now() == Sent(outcomes, old(Now()), ModePacket(if operate.value then MODE_OPR_RX else MODE_STB))
    {
      if operate.None? { return false; }
      var modeByte := if operate.value then MODE_OPR_RX else MODE_STB;
      ok := Write([START_BYTE, MSG_AMP_MGMT, 0x08, CMD_MODE_CHANGE, 0x00, modeByte, 0x00]);
    }

    /** target: the amplifier's index of the named band, None for an unknown name. */
    method SetBand(target: Option<nat>) returns (ok: bool)
      modifies `active, `tx
      ensures Banded(outcomes, old(Now()), target) == Walked(Now(), ok)
    {
      if target.None? || band == 0 { return false; }
      if band == target.value { return true; }
      var direction, steps := BAND_NEXT, target.value - band;
      if target.value < band { direction, steps := BAND_PREV, band - target.value; }
      for i := 0 to steps
        invariant Walk(outcomes, old(Now()), direction, steps) == Walk(outcomes, Now(), direction, steps - i)
      {
        var sent := Write([START_BYTE, MSG_AMP_MGMT, 0x08, CMD_BAND_CHANGE, 0x00, direction, 0x00]);
        if !sent { return false; }
      }
      return true;
    }

    method HandlePacket(packet: seq<byte>)
      requires |packet| >= 4
      modifies `active, `tx, `mode, `band, `rxFrames, `rxIgnored, `seen
      ensures Now() == Handled(outcomes, old(Now()), packet)
    {
      var _ := Write([START_BYTE, MSG_ACK, 0x05, packet[1]]);
      if packet[1] != MSG_TELEMETRY || |packet| != TELEMETRY_LEN {
        rxIgnored := rxIgnored + 1;
        return;
      }
      rxFrames := rxFrames + 1;
      mode := Some(packet[3] / 16);
      var b := packet[69] % 16;
      band := if b < 1 || b > 10 then 0 else b;
      seen := seen + [packet];
    }

    /** Scans the buffer for complete frames and returns what is left of it. */
    method ProcessBuffer(input: seq<byte>) returns (buf: seq<byte>)
      modifies `active, `tx, `mode, `band, `rxFrames, `rxDiscarded, `rxIgnored, `seen
      ensures buf == ScanAll(input).rest
      ensures Now() == After(outcomes, old(Now()), ScanAll(input).pieces)
    {
      hide After;
      buf := input;
      ghost var done: seq<Piece> := [];
      NothingAfter(outcomes, Now());
      while |buf| >= 3
        invariant ScanAll(input) == Scan(done + ScanAll(buf).pieces, ScanAll(buf).rest)
        invariant Now() == After(outcomes, old(Now()), done)
        decreases |buf|
      {
        ghost var before := buf;
        if buf[0] != START_BYTE || buf[2] < 4 {
          OnePieceMore(outcomes, old(Now()), done, Noise(buf[0]), ScanAll(buf[1..]).pieces);
          done := done + [Noise(buf[0])];
          buf := buf[1..];
          rxDiscarded := rxDiscarded + 1;
          continue;
        }
        var pktLen := buf[2];
        if |buf| < pktLen { break; }
        var packet := buf[..pktLen];
        var ok := VerifyChecksum(packet);
        if ok {
          OnePieceMore(outcomes, old(Now()), done, Frame(packet), ScanAll(buf[pktLen..]).pieces);
          HandlePacket(packet);
          done := done + [Frame(packet)];
          buf := buf[pktLen..];
        } else {
          OnePieceMore(outcomes, old(Now()), done, Noise(buf[0]), ScanAll(buf[1..]).pieces);
          done := done + [Noise(buf[0])];
          buf := buf[1..];
          rxDiscarded := rxDiscarded + 1;
        }
      }
      assert done + [] == done;
    }
  }

  lemma {:induction false} OnePieceMore(outcomes: nat -> Outcome, d: Device, done: seq<Piece>, p: Piece, later: seq<Piece>)
    ensures After(outcomes, d, done + [p]) == Took(outcomes, After(outcomes, d, done), p)
    ensures done + ([p] + later) == (done + [p]) + later
  {}
}
