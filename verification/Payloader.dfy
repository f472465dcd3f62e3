/** The payloaders of peer/packet.go: a frame is cut into fragments of at most 1172 bytes. */
module Payloader {
  import opened Wire

  /** A frame on its way through a payloader. `bytes` is what the 32-bit length leaves of it. */
  datatype Frame = Frame(stream: Stream, clientNr: uint32, frameNr: uint32, bytes: seq<byte>)

  ghost predicate FrameOk(f: Frame) { |f.bytes| < 0x1_0000_0000 }

  // ---- Where the cuts fall ----

  /** First byte of fragment `k`; past the last fragment, the length of the frame. */
  function Start(f: Frame, k: nat): (start: nat)
    ensures start <= |f.bytes|
  {
    if k == 0 then 0 else Min(Start(f, k - 1) + PayloadSize(f.stream), |f.bytes|)
  }

  predicate HasFragment(f: Frame, k: nat) { Start(f, k) < |f.bytes| }

  /** Number of fragments: the length divided by the chunk size, rounded up. */
  function FragmentCount(f: Frame): nat { (|f.bytes| + PayloadSize(f.stream) - 1) / PayloadSize(f.stream) }

  lemma {:induction false} StartIsMultiple(f: Frame, k: nat)
    ensures Start(f, k) == Min(k * PayloadSize(f.stream), |f.bytes|)
  {
    if k > 0 {
      StartIsMultiple(f, k - 1);
      assert k * PayloadSize(f.stream) == (k - 1) * PayloadSize(f.stream) + PayloadSize(f.stream);
    } else {
      assert k * PayloadSize(f.stream) == 0;
    }
  }

  lemma CountIsCeiling(f: Frame, k: nat)
    ensures HasFragment(f, k) <==> k < FragmentCount(f)
  {
    var n, chunk, q := |f.bytes|, PayloadSize(f.stream), FragmentCount(f);
    StartIsMultiple(f, k);
    assert n + chunk - 1 == q * chunk + (n + chunk - 1) % chunk;
    if k < q {
      MulLe(k, q - 1, chunk);
      assert (q - 1) * chunk == q * chunk - chunk;
    } else {
      MulLe(q, k, chunk);
    }
  }

  lemma MulLe(a: nat, b: nat, c: nat)
    requires a <= b
    ensures a * c <= b * c
  {
    assert (b - a) * c >= 0;
    assert b * c == a * c + (b - a) * c;
  }

  // ---- The fragments of a frame ----

  ghost function FragmentOf(f: Frame, k: nat): Packet
    requires FrameOk(f) && HasFragment(f, k)
  {
    var from, to := Start(f, k), Start(f, k + 1);
    Packet(f.stream, FrameHeader(f.clientNr, f.frameNr, |f.bytes|, from, to - from), f.bytes[from..to])
  }

  ghost function Fragments(f: Frame): (ps: seq<Packet>)
    requires FrameOk(f)
    ensures |ps| == FragmentCount(f)
  {
    seq(FragmentCount(f), k requires 0 <= k < FragmentCount(f) => CountIsCeiling(f, k); FragmentOf(f, k))
  }

  function Concat(ps: seq<Packet>): seq<byte> {
    if ps == [] then [] else ps[0].data + Concat(ps[1..])
  }

  lemma {:induction false} ConcatFrom(f: Frame, k: nat)
    requires FrameOk(f) && k <= FragmentCount(f)
    ensures Concat(Fragments(f)[k..]) == f.bytes[Start(f, k)..]
    decreases FragmentCount(f) - k
  {
    CountIsCeiling(f, k);
    if k == FragmentCount(f) {
      assert f.bytes[Start(f, k)..] == [];
    } else {
      ConcatFrom(f, k + 1);
      assert Fragments(f)[k..][1..] == Fragments(f)[k + 1..];
      assert f.bytes[Start(f, k)..] == f.bytes[Start(f, k)..Start(f, k + 1)] + f.bytes[Start(f, k + 1)..];
    }
  }

  lemma FragmentsConcat(f: Frame)
    requires FrameOk(f)
    ensures Concat(Fragments(f)) == f.bytes
  {
    ConcatFrom(f, 0);
    assert Fragments(f)[0..] == Fragments(f);
  }

  /** Each fragment is a non-empty piece that starts where the previous one ends, and fits into
      1172 bytes on the wire. */
  lemma FragmentShape(f: Frame, k: nat)
    requires FrameOk(f) && HasFragment(f, k)
    ensures var p := FragmentOf(f, k);
      && p.data != [] && |p.data| == p.header.seqLen && |Encode(p)| <= 1172
      && p.header.frameLen == |f.bytes|
      && p.stream == f.stream && p.header.clientNr == f.clientNr && p.header.frameNr == f.frameNr
      && p.data == f.bytes[p.header.seqOffset..p.header.seqOffset + p.header.seqLen]
    ensures k == 0 ==> FragmentOf(f, k).header.seqOffset == 0
    ensures k > 0 ==> HasFragment(f, k - 1)
    ensures k > 0 ==>
      FragmentOf(f, k).header.seqOffset == FragmentOf(f, k - 1).header.seqOffset + FragmentOf(f, k - 1).header.seqLen
  {
  }

  /** Fragment `k` of a frame: 1144 bytes of a tile or 1152 of audio, or what is left, at most 1172 on the
      wire, under the numbers of the frame. */
  predicate IsFragment(f: Frame, k: nat, p: Packet) {
    && p.data != [] && |p.data| == p.header.seqLen && |Encode(p)| <= 1172
    && p.stream == f.stream && p.header.clientNr == f.clientNr && p.header.frameNr == f.frameNr
    && p.header.frameLen == |f.bytes|
    && p.header.seqOffset == if f.stream.Audio? then k * 1152 else k * 1144
  }

  lemma FragmentAt(f: Frame, k: nat)
    requires FrameOk(f) && k < |Fragments(f)|
    ensures IsFragment(f, k, Fragments(f)[k])
    ensures k > 0 ==>
      Fragments(f)[k].header.seqOffset == Fragments(f)[k - 1].header.seqOffset + Fragments(f)[k - 1].header.seqLen
  {
    CountIsCeiling(f, k);
    StartIsMultiple(f, k);
    FragmentShape(f, k);
  }

  /** The fragments partition the frame: consecutive, non-empty, at most 1172 bytes on the wire, as
      many as the length divided by the chunk size rounded up, and together the frame. */
  lemma FragmentsPartition(f: Frame)
    requires FrameOk(f)
    ensures Concat(Fragments(f)) == f.bytes
    ensures |Fragments(f)| == if f.stream.Audio? then (|f.bytes| + 1151) / 1152 else (|f.bytes| + 1143) / 1144
    ensures forall k {:trigger Fragments(f)[k]} | 0 <= k < |Fragments(f)| :: IsFragment(f, k, Fragments(f)[k])
    ensures forall k {:trigger Fragments(f)[k]} | 0 < k < |Fragments(f)| ::
      Fragments(f)[k].header.seqOffset == Fragments(f)[k - 1].header.seqOffset + Fragments(f)[k - 1].header.seqLen
  {
    FragmentsConcat(f);
    forall k | 0 <= k < |Fragments(f)|
      ensures IsFragment(f, k, Fragments(f)[k])
      ensures k > 0 ==>
        Fragments(f)[k].header.seqOffset == Fragments(f)[k - 1].header.seqOffset + Fragments(f)[k - 1].header.seqLen
    {
      FragmentAt(f, k);
    }
  }

  // ---- Frame numbers ----

  /** The number a payloader that starts at `first` gives to the frame of its call `i`. */
  function FrameNumber(first: uint32, i: nat): uint32 { (first + i) % 0x1_0000_0000 }

  /** Two calls share a frame number exactly when they are a multiple of 2^32 calls apart, so fewer
      than 2^32 successive calls never reuse one. */
  lemma FrameNumbersDistinct(first: uint32, i: nat, j: nat)
    requires i < j
    ensures FrameNumber(first, i) == FrameNumber(first, j) <==> (j - i) % 0x1_0000_0000 == 0
    ensures j - i < 0x1_0000_0000 ==> FrameNumber(first, i) != FrameNumber(first, j)
  {
    var a, b := first + i, first + j;
    assert a == 0x1_0000_0000 * (a / 0x1_0000_0000) + a % 0x1_0000_0000;
    assert b == 0x1_0000_0000 * (b / 0x1_0000_0000) + b % 0x1_0000_0000;
  }

  /** Go's conversion to uint32 keeps the low 32 bits. */
  function ToUint32(x: int): uint32 { x % 0x1_0000_0000 }

  /** What the 32-bit length of a payload leaves of it. */
  function Kept(payload: seq<byte>): (bytes: seq<byte>)
    ensures |bytes| < 0x1_0000_0000 && bytes <= payload
  {
    payload[..ToUint32(|payload|)]
  }

  /** The fragments give back the payload exactly when its length is below 2^32. */
  lemma PayloadRecoveredIff(stream: Stream, clientNr: uint32, frameNr: uint32, payload: seq<byte>)
    ensures Concat(Fragments(Frame(stream, clientNr, frameNr, Kept(payload)))) == payload <==> |payload| < 0x1_0000_0000
  {
    FragmentsConcat(Frame(stream, clientNr, frameNr, Kept(payload)));
    if |payload| < 0x1_0000_0000 {
      assert Kept(payload) == payload;
    }
  }

  /** The buffers hold the fragments of the frame, each in a buffer of its own. */
  ghost predicate Holds(payloads: seq<array<byte>>, f: Frame)
    requires FrameOk(f)
    reads payloads
  {
    && |payloads| == FragmentCount(f)
    && HoldsFirst(payloads, f)
  }

  ghost predicate HoldsFirst(payloads: seq<array<byte>>, f: Frame)
    requires FrameOk(f)
    reads payloads
  {
    && (forall k | 0 <= k < |payloads| :: HasFragment(f, k) && payloads[k][..] == Encode(FragmentOf(f, k)))
    && (forall j, k | 0 <= j < k < |payloads| :: payloads[j] != payloads[k])
  }

  lemma HoldsOneMore(payloads: seq<array<byte>>, f: Frame, h: FrameHeader, buf: array<byte>)
    requires FrameOk(f) && HoldsFirst(payloads, f) && HasFragment(f, |payloads|) && buf !in payloads
    requires h == FragmentOf(f, |payloads|).header
    requires buf[..] == HeaderBytes(f.stream, h) + FragmentOf(f, |payloads|).data
    ensures HoldsFirst(payloads + [buf], f)
  {
    var more := payloads + [buf];
    forall k | 0 <= k < |more| ensures HasFragment(f, k) && more[k][..] == Encode(FragmentOf(f, k)) {
      if k < |payloads| {
        assert more[k] == payloads[k];
      }
    }
  }

  ghost function NextHeader(f: Frame, k: nat): (h: FrameHeader)
    requires FrameOk(f) && HasFragment(f, k)
    ensures h == FragmentOf(f, k).header
  {
    FrameHeader(f.clientNr, f.frameNr, |f.bytes|, Start(f, k), Min(PayloadSize(f.stream), |f.bytes| - Start(f, k)))
  }

  /** The buffer of the fragment after those before it. */
  method NextBuffer(payloads: seq<array<byte>>, h: FrameHeader, f: Frame) returns (buf: array<byte>)
    requires FrameOk(f) && HoldsFirst(payloads, f) && HasFragment(f, |payloads|)
    requires h == NextHeader(f, |payloads|)
    ensures fresh(buf) && HoldsFirst(payloads + [buf], f) && Start(f, |payloads| + 1) == h.seqOffset + h.seqLen
  {
    buf := NewFragment(f.stream, h, f.bytes);
    HoldsOneMore(payloads, f, h, buf);
  }

  lemma AllFragments(f: Frame, k: nat)
    requires Start(f, k) == |f.bytes| && (k > 0 ==> HasFragment(f, k - 1))
    ensures k == FragmentCount(f)
  {
    CountIsCeiling(f, k);
    if k > 0 { CountIsCeiling(f, k - 1); }
  }

  method PutHeader(buf: array<byte>, s: Stream, h: FrameHeader)
    requires HeaderSize(s) <= buf.Length
    modifies buf
    ensures buf[..HeaderSize(s)] == HeaderBytes(s, h)
  {
    PutUint32(buf, 0, h.clientNr);
    PutUint32(buf, 4, h.frameNr);
    PutUint32(buf, 8, h.frameLen);
    PutUint32(buf, 12, h.seqOffset);
    PutUint32(buf, 16, h.seqLen);
    assert buf[..20] == CommonBytes(h);
    if s.Tile? {
      PutUint32(buf, 20, s.key.tileNr);
      PutUint32(buf, 24, s.key.quality);
    }
  }

  /** One buffer of a payload: the header fields, then `header.seqLen` bytes of the payload. */
  method NewFragment(s: Stream, h: FrameHeader, payload: seq<byte>) returns (buf: array<byte>)
    requires h.seqOffset + h.seqLen <= |payload|
    ensures fresh(buf) && buf[..] == HeaderBytes(s, h) + payload[h.seqOffset..h.seqOffset + h.seqLen]
  {
    buf := new byte[h.seqLen + HeaderSize(s)](_ => 0);
    PutHeader(buf, s, h);
    CopyInto(buf, HeaderSize(s), payload, h.seqOffset, h.seqLen);
    assert buf[..] == buf[..HeaderSize(s) + h.seqLen];
  }

  /** The loop both payloaders run over the bytes of a frame. */
  method Split(s: Stream, clientNr: uint32, frameCounter: uint32, bytes: seq<byte>) returns (payloads: seq<array<byte>>)
    requires |bytes| < UINT32_LIMIT
    ensures fresh(payloads)
    ensures Holds(payloads, Frame(s, clientNr, frameCounter, bytes))
  {
    var f := Frame(s, clientNr, frameCounter, bytes);
    var payloadLen: uint32 := |bytes|;
    var payloadDataOffset: uint32 := 0;
    var payloadRemaining: uint32 := payloadLen;
    payloads := [];
    while payloadRemaining > 0
      invariant payloadDataOffset + payloadRemaining == payloadLen
      invariant payloadDataOffset == Start(f, |payloads|)
      invariant |payloads| > 0 ==> HasFragment(f, |payloads| - 1)
      invariant fresh(payloads) && HoldsFirst(payloads, f)
      decreases payloadRemaining
    {
      var currentFragmentSize: uint32 := PayloadSize(s);
      if payloadRemaining < currentFragmentSize {
        currentFragmentSize := payloadRemaining;
      }
      assert HasFragment(f, |payloads|);
      var header := FrameHeader(clientNr, frameCounter, payloadLen, payloadDataOffset, currentFragmentSize);
      var buf := NextBuffer(payloads, header, f);
      payloads := payloads + [buf];
      payloadDataOffset := payloadDataOffset + currentFragmentSize;
      payloadRemaining := payloadRemaining - currentFragmentSize;
    }
    AllFragments(f, |payloads|);
  }

  class PointCloudPayloader {
    var frameCounter: uint32
    const tile: uint32
    const quality: uint32

    constructor (tile: uint32, quality: uint32)
      ensures frameCounter == 0 && this.tile == tile && this.quality == quality
    {
      this.frameCounter, this.tile, this.quality := 0, tile, quality;
    }

    method Payload(clientID: int, mtu: nat, payload: seq<byte>) returns (payloads: seq<array<byte>>)
      modifies this
      ensures fresh(payloads)
      ensures Holds(payloads,
                    Frame(Tile(VideoKey(tile, quality)), ToUint32(clientID), old(frameCounter), Kept(payload)))
      ensures frameCounter == FrameNumber(old(frameCounter), 1)
    {
      payloads := Split(Tile(VideoKey(tile, quality)), ToUint32(clientID), frameCounter, Kept(payload));
      frameCounter := (frameCounter + 1) % UINT32_LIMIT;
    }
  }

  class AudioPayloader {
    var frameCounter: uint32

    constructor ()
      ensures frameCounter == 0
    {
      frameCounter := 0;
    }

    method Payload(clientID: int, mtu: nat, payload: seq<byte>) returns (payloads: seq<array<byte>>)
      modifies this
      ensures fresh(payloads)
      ensures Holds(payloads, Frame(Audio, ToUint32(clientID), old(frameCounter), Kept(payload)))
      ensures frameCounter == FrameNumber(old(frameCounter), 1)
    {
      payloads := Split(Audio, ToUint32(clientID), frameCounter, Kept(payload));
      frameCounter := (frameCounter + 1) % UINT32_LIMIT;
    }
  }
}
