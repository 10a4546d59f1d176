/** The ACOM serial frames: what a frame is, how a byte stream is cut into frames and noise, and why it does not
    matter in which chunks the bytes arrive. */
module AcomFrames {
  type byte = x: int | 0 <= x < 256

  const START_BYTE: byte := 0x55
  const MSG_ENABLE_AUTO: byte := 0x92
  const MSG_TELEMETRY: byte := 0x2F
  const MSG_ACK: byte := 0x86
  const MSG_AMP_MGMT: byte := 0x81
  const CMD_MODE_CHANGE: byte := 0x02
  const CMD_BAND_CHANGE: byte := 0x09
  const MODE_STB: byte := 0x05
  const MODE_OPR_RX: byte := 0x06
  const BAND_NEXT: byte := 0x80
  const BAND_PREV: byte := 0x40

  // ------------------------------------------------------------- checksums

  /** The wrapping 8-bit sum. */
  function Sum(s: seq<byte>): byte {
    if s == [] then 0 else (Sum(s[..|s| - 1]) + s[|s| - 1]) % 256
  }

  method VerifyChecksum(packet: seq<byte>) returns (ok: bool)
    ensures ok <==> |packet| >= 4 && Sum(packet) == 0
  {
    if |packet| < 4 { return false; }
    var sum: byte := 0;
    for i := 0 to |packet|
      invariant sum == Sum(packet[..i])
    {
      assert packet[..i + 1][..i] == packet[..i];
      sum := (sum + packet[i]) % 256;
    }
    assert packet[..|packet|] == packet;
    return sum == 0;
  }

  /** The one byte that makes the frame sum to zero. */
  method CalculateChecksum(data: seq<byte>) returns (c: byte)
    ensures Sum(data + [c]) == 0
    ensures forall other: byte :: Sum(data + [other]) == 0 ==> other == c
  {
    var sum: byte := 0;
    for i := 0 to |data|
      invariant sum == Sum(data[..i])
    {
      assert data[..i + 1][..i] == data[..i];
      sum := (sum + data[i]) % 256;
    }
    assert data[..|data|] == data;
    c := (256 - sum) % 256;
    ChecksumUnique(data, c);
  }

  lemma {:induction false} ChecksumUnique(data: seq<byte>, c: byte)
    requires c == (256 - Sum(data)) % 256
    ensures Sum(data + [c]) == 0
    ensures forall other: byte :: Sum(data + [other]) == 0 ==> other == c
  {}

  // ------------------------------------------------------------- scanning

  /** A complete frame: start byte, its own length at offset 2, and bytes that sum to zero. */
  predicate Framed(f: seq<byte>) {
    |f| >= 4 && f[0] == START_BYTE && f[2] == |f| && Sum(f) == 0
  }

  /** What scanning makes of the front of the stream, in stream order. */
  datatype Piece = Frame(bytes: seq<byte>) | Noise(b: byte)
  datatype Scan = Scan(pieces: seq<Piece>, rest: seq<byte>)

  /** Nothing can be said yet: too few bytes for a length, or an announced frame still incomplete. */
  predicate Waits(buf: seq<byte>) {
    |buf| < 3 || (buf[0] == START_BYTE && buf[2] >= 4 && |buf| < buf[2])
  }

  predicate StartsFrame(buf: seq<byte>) {
    |buf| >= 3 && buf[0] == START_BYTE && buf[2] >= 4 && |buf| >= buf[2] && Sum(buf[..buf[2]]) == 0
  }

  function ScanAll(buf: seq<byte>): Scan
    decreases |buf|
  {
    if Waits(buf) then Scan([], buf)
    else if StartsFrame(buf) then
      var s := ScanAll(buf[buf[2]..]);
      Scan([Frame(buf[..buf[2]])] + s.pieces, s.rest)
    else
      var s := ScanAll(buf[1..]);
      Scan([Noise(buf[0])] + s.pieces, s.rest)
  }

  function BytesOf(p: Piece): seq<byte> { match p case Frame(f) => f case Noise(b) => [b] }

  function Flat(ps: seq<Piece>): seq<byte> { if ps == [] then [] else BytesOf(ps[0]) + Flat(ps[1..]) }

  function FramesIn(ps: seq<Piece>): seq<seq<byte>> {
    if ps == [] then [] else (if ps[0].Frame? then [ps[0].bytes] else []) + FramesIn(ps[1..])
  }

  function NoiseIn(ps: seq<Piece>): nat {
    if ps == [] then 0 else (if ps[0].Noise? then 1 else 0) + NoiseIn(ps[1..])
  }

  function TotalBytes(fs: seq<seq<byte>>): nat { if fs == [] then 0 else |fs[0]| + TotalBytes(fs[1..]) }

  lemma {:induction false} FlatOfFirst(first: Piece, ps: seq<Piece>)
    ensures Flat([first] + ps) == BytesOf(first) + Flat(ps)
  {}

  /** Nothing is lost, invented or reordered: frames, discarded bytes and remainder put together are the input. */
  lemma {:induction false} ScanConserves(buf: seq<byte>)
    ensures Flat(ScanAll(buf).pieces) + ScanAll(buf).rest == buf
    decreases |buf|
  {
    hide Waits, ScanAll, Flat, First, Cut, BytesOf;
    if Waits(buf) {
      NothingScanned(buf);
    } else {
      var later := buf[Cut(buf)..];
      ScanConserves(later);
      CutFirst(buf);
      FlatOfFirst(First(buf), ScanAll(later).pieces);
      FirstBytes(buf);
      BytesAssoc(BytesOf(First(buf)), Flat(ScanAll(later).pieces), ScanAll(later).rest);
    }
  }

  lemma {:induction false} NothingScanned(buf: seq<byte>)
    requires Waits(buf)
    ensures Flat(ScanAll(buf).pieces) + ScanAll(buf).rest == buf
  {}

  lemma {:induction false} FirstBytes(buf: seq<byte>)
    requires !Waits(buf)
    ensures BytesOf(First(buf)) + buf[Cut(buf)..] == buf
  {}

  lemma {:induction false} BytesAssoc(a: seq<byte>, b: seq<byte>, c: seq<byte>)
    ensures (a + b) + c == a + (b + c)
  {}

  lemma {:induction false} FlatSize(ps: seq<Piece>)
    ensures |Flat(ps)| == NoiseIn(ps) + TotalBytes(FramesIn(ps))
  {
    if ps != [] {
      FlatSize(ps[1..]);
      var fs := FramesIn(ps[1..]);
      if ps[0].Frame? {
        assert FramesIn(ps) == [ps[0].bytes] + fs && FramesIn(ps)[1..] == fs;
      } else {
        assert FramesIn(ps) == fs;
      }
    }
  }

  /** Counted: bytes in equal bytes discarded, bytes in accepted frames and bytes kept; the remainder is an
      incomplete frame or less than three bytes, so under 255; and every accepted frame is a frame. */
  lemma {:induction false} ScanAccounts(buf: seq<byte>)
    ensures var s := ScanAll(buf);
      && |buf| == NoiseIn(s.pieces) + TotalBytes(FramesIn(s.pieces)) + |s.rest|
      && Waits(s.rest) && |s.rest| < 255
      && (forall f :: f in FramesIn(s.pieces) ==> Framed(f))
    decreases |buf|
  {
    ScanConserves(buf);
    FlatSize(ScanAll(buf).pieces);
    assert |buf| == |Flat(ScanAll(buf).pieces)| + |ScanAll(buf).rest|;
    if !Waits(buf) {
      var n := if StartsFrame(buf) then buf[2] else 1;
      ScanAccounts(buf[n..]);
      assert ScanAll(buf).pieces[1..] == ScanAll(buf[n..]).pieces;
    }
  }

  // ------------------------------------------------------------- chunks

  /** Whatever a scan has settled stays settled when more bytes follow: only its remainder meets them. */
  lemma {:induction false} ScanExtends(a: seq<byte>, b: seq<byte>)
    ensures var s := ScanAll(a); var t := ScanAll(s.rest + b);
      ScanAll(a + b) == Scan(s.pieces + t.pieces, t.rest)
    decreases |a|
  {
    hide Waits, StartsFrame, ScanAll;
    if Waits(a) {
      WaitingScan(a, ScanAll(a + b).pieces);
    } else {
      FrontSettled(a, b);
      ScanExtends(a[Cut(a)..], b);
      CutFirst(a);
      CutFirst(a + b);
      PiecesAssoc(First(a), ScanAll(a[Cut(a)..]).pieces, ScanAll(ScanAll(a[Cut(a)..]).rest + b).pieces);
    }
  }

  lemma {:induction false} WaitingScan(buf: seq<byte>, ps: seq<Piece>)
    requires Waits(buf)
    ensures ScanAll(buf) == Scan([], buf) && [] + ps == ps
  {}

  lemma {:induction false} PiecesAssoc(p: Piece, ps: seq<Piece>, qs: seq<Piece>)
    ensures [p] + ps + qs == [p] + (ps + qs)
  {}

  /** How many bytes the front piece of a stream takes, and that piece. */
  function Cut(buf: seq<byte>): (n: nat)
    requires !Waits(buf)
    ensures 1 <= n <= |buf|
  {
    if StartsFrame(buf) then buf[2] else 1
  }

  function First(buf: seq<byte>): Piece
    requires !Waits(buf)
  {
    if StartsFrame(buf) then Frame(buf[..Cut(buf)]) else Noise(buf[0])
  }

  lemma {:induction false} CutFirst(buf: seq<byte>)
    requires !Waits(buf)
    ensures var s := ScanAll(buf[Cut(buf)..]); ScanAll(buf) == Scan([First(buf)] + s.pieces, s.rest)
  {}

  lemma {:induction false} FrontSettled(a: seq<byte>, b: seq<byte>)
    requires !Waits(a)
    ensures !Waits(a + b) && Cut(a + b) == Cut(a) && First(a + b) == First(a)
    ensures (a + b)[Cut(a)..] == a[Cut(a)..] + b
  {
    if |a| >= a[2] { assert (a + b)[..a[2]] == a[..a[2]]; }
  }

  /** Scanning chunk by chunk: each chunk is appended to the remainder of the one before. */
  function Fed(rest: seq<byte>, chunks: seq<seq<byte>>): Scan
    decreases |chunks|
  {
    if chunks == [] then Scan([], rest)
    else
      var s := ScanAll(rest + chunks[0]);
      var t := Fed(s.rest, chunks[1..]);
      Scan(s.pieces + t.pieces, t.rest)
  }

  function Joined(chunks: seq<seq<byte>>): seq<byte> { if chunks == [] then [] else chunks[0] + Joined(chunks[1..]) }

  /** Any split of the byte stream gives the frames, the discarded bytes and the remainder of one call. */
  lemma {:induction false} ChunksDoNotMatter(rest: seq<byte>, chunks: seq<seq<byte>>)
    requires Waits(rest)
    ensures Fed(rest, chunks) == ScanAll(rest + Joined(chunks))
    decreases |chunks|
  {
    hide Joined;
    JoinedUnfolds(rest, chunks);
    if chunks != [] {
      hide ScanAll, Waits;
      var now, later := rest + chunks[0], Joined(chunks[1..]);
      ScanAccounts(now);
      ChunksDoNotMatter(ScanAll(now).rest, chunks[1..]);
      ScanExtends(now, later);
    }
  }

  lemma {:induction false} JoinedUnfolds(rest: seq<byte>, chunks: seq<seq<byte>>)
    ensures rest + Joined(chunks) == if chunks == [] then rest else (rest + chunks[0]) + Joined(chunks[1..])
  {}

  // ------------------------------------------------------------- reading frames back

  function AsFrames(fs: seq<seq<byte>>): seq<Piece> { seq(|fs|, i requires 0 <= i < |fs| => Frame(fs[i])) }

  lemma {:induction false} FrameFirst(f: seq<byte>, later: seq<byte>)
    requires Framed(f)
    ensures ScanAll(f + later) == Scan([Frame(f)] + ScanAll(later).pieces, ScanAll(later).rest)
  {}

  lemma {:induction false} JoinedFirst(fs: seq<seq<byte>>, tail: seq<byte>)
    requires fs != []
    ensures Joined(fs) + tail == fs[0] + (Joined(fs[1..]) + tail)
  {}

  lemma {:induction false} FramesFirst(fs: seq<seq<byte>>, ps: seq<Piece>)
    requires fs != []
    ensures AsFrames(fs) + ps == [Frame(fs[0])] + (AsFrames(fs[1..]) + ps)
  {}

  /** Frames sent back to back are read back one for one, whatever follows them. */
  lemma {:induction false} FramesReadBack(fs: seq<seq<byte>>, tail: seq<byte>)
    requires forall f :: f in fs ==> Framed(f)
    ensures ScanAll(Joined(fs) + tail) == Scan(AsFrames(fs) + ScanAll(tail).pieces, ScanAll(tail).rest)
    decreases |fs|
  {
    if fs == [] {
      assert [] + tail == tail;
      assert AsFrames(fs) + ScanAll(tail).pieces == ScanAll(tail).pieces;
    } else {
      var f, later := fs[0], Joined(fs[1..]) + tail;
      assert Framed(f) && forall g :: g in fs[1..] ==> g in fs;
      FrameFirst(f, later);
      FramesReadBack(fs[1..], tail);
      hide ScanAll, AsFrames, Joined;
      assert Joined(fs) + tail == f + later by { JoinedFirst(fs, tail); }
      FramesFirst(fs, ScanAll(tail).pieces);
    }
  }

  /** Noise without a start byte in front of frames costs exactly itself. */
  lemma {:induction false} NoiseCostsItself(noise: seq<byte>, fs: seq<seq<byte>>)
    requires START_BYTE !in noise && fs != [] && forall f :: f in fs ==> Framed(f)
    ensures var s := ScanAll(noise + Joined(fs));
      FramesIn(s.pieces) == fs && NoiseIn(s.pieces) == |noise| && s.rest == []
    decreases |noise|
  {
    if noise == [] {
      FramesReadBack(fs, []);
      assert noise + Joined(fs) == Joined(fs) + [];
      assert AsFrames(fs) + [] == AsFrames(fs);
      FramesInAsFrames(fs);
    } else {
      var buf := noise + Joined(fs);
      assert buf[1..] == noise[1..] + Joined(fs);
      assert Framed(fs[0]) && Joined(fs) == fs[0] + Joined(fs[1..]);
      NoiseCostsItself(noise[1..], fs);
      assert ScanAll(buf).pieces[1..] == ScanAll(buf[1..]).pieces;
    }
  }

  lemma {:induction false} FramesInAsFrames(fs: seq<seq<byte>>)
    ensures FramesIn(AsFrames(fs)) == fs && NoiseIn(AsFrames(fs)) == 0
  {
    if fs != [] {
      FramesInAsFrames(fs[1..]);
      assert AsFrames(fs)[1..] == AsFrames(fs[1..]);
    }
  }
}
