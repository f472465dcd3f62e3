/**
 From the payloaders to the consumers of the proxy: several sources cut their frames into
 fragments, the fragments arrive in any order, and every frame comes out as it went in.
 */
module EndToEnd {
  import opened Wire
  import P = Payloader
  import R = Reassembly
  import M = Mailbox

  /** One payloader and the payloads of its successive calls. */
  datatype Source = Source(stream: Stream, clientNr: uint32, first: uint32, payloads: seq<seq<byte>>)

  /** Fragment `k` of call `i` of source `u`. */
  datatype Piece = Piece(u: nat, i: nat, k: nat)

  ghost predicate SourcesOk(ss: seq<Source>) {
    && (forall u, v | 0 <= u < v < |ss| :: ss[u].stream != ss[v].stream)
    && (forall u | 0 <= u < |ss| :: |ss[u].payloads| <= 0x1_0000_0000)
    && (forall u, i | 0 <= u < |ss| && 0 <= i < |ss[u].payloads| :: |ss[u].payloads[i]| < 0x1_0000_0000)
  }

  predicate IsCall(ss: seq<Source>, u: nat, i: nat) { u < |ss| && i < |ss[u].payloads| }

  function FrameOf(ss: seq<Source>, u: nat, i: nat): P.Frame
    requires IsCall(ss, u, i)
  {
    P.Frame(ss[u].stream, ss[u].clientNr, P.FrameNumber(ss[u].first, i), ss[u].payloads[i])
  }

  function IdOf(ss: seq<Source>, u: nat, i: nat): R.FrameId
    requires IsCall(ss, u, i)
  {
    R.FrameId(ss[u].stream, P.FrameNumber(ss[u].first, i))
  }

  lemma IdsDistinct(ss: seq<Source>, u: nat, i: nat, v: nat, j: nat)
    requires SourcesOk(ss) && IsCall(ss, u, i) && IsCall(ss, v, j) && IdOf(ss, u, i) == IdOf(ss, v, j)
    ensures u == v && i == j
  {
    if i < j {
      P.FrameNumbersDistinct(ss[u].first, i, j);
    } else if j < i {
      P.FrameNumbersDistinct(ss[u].first, j, i);
    }
  }

  lemma AllIdsDistinct(ss: seq<Source>)
    requires SourcesOk(ss)
    ensures forall u: nat, i: nat, v: nat, j: nat |
      IsCall(ss, u, i) && IsCall(ss, v, j) && IdOf(ss, u, i) == IdOf(ss, v, j) :: u == v && i == j
  {
    forall u: nat, i: nat, v: nat, j: nat | IsCall(ss, u, i) && IsCall(ss, v, j) && IdOf(ss, u, i) == IdOf(ss, v, j)
      ensures u == v && i == j
    {
      IdsDistinct(ss, u, i, v, j);
    }
  }

  /** All frames that reach the wire: a payloader emits nothing for an empty payload. */
  ghost function SentBy(ss: seq<Source>): R.Sent
    requires SourcesOk(ss)
  {
    AllIdsDistinct(ss);
    map u: nat, i: nat | 0 <= u < |ss| && 0 <= i < |ss[u].payloads| && IsCall(ss, u, i) && ss[u].payloads[i] != [] ::
      IdOf(ss, u, i) := ss[u].payloads[i]
  }

  lemma SentByAt(ss: seq<Source>, u: nat, i: nat)
    requires SourcesOk(ss) && IsCall(ss, u, i) && ss[u].payloads[i] != []
    ensures IdOf(ss, u, i) in SentBy(ss) && SentBy(ss)[IdOf(ss, u, i)] == ss[u].payloads[i]
  {
    AllIdsDistinct(ss);
    assert IdOf(ss, u, i) in SentBy(ss);
  }

  lemma SentByOk(ss: seq<Source>)
    requires SourcesOk(ss)
    ensures R.SentOk(SentBy(ss))
  {
    AllIdsDistinct(ss);
  }

  predicate IsPiece(ss: seq<Source>, x: Piece) {
    IsCall(ss, x.u, x.i) && P.HasFragment(FrameOf(ss, x.u, x.i), x.k)
  }

  ghost function PacketOf(ss: seq<Source>, x: Piece): Packet
    requires SourcesOk(ss) && IsPiece(ss, x)
  {
    P.FragmentOf(FrameOf(ss, x.u, x.i), x.k)
  }

  /** Some of the fragments of all sources, in any order, none twice. */
  ghost predicate Delivery(ss: seq<Source>, order: seq<Piece>) {
    && (forall a | 0 <= a < |order| :: IsPiece(ss, order[a]))
    && (forall a, b | 0 <= a < b < |order| :: order[a] != order[b])
  }

  ghost predicate Complete(ss: seq<Source>, order: seq<Piece>) {
    forall x: Piece | IsPiece(ss, x) :: x in order
  }

  ghost function PacketsOf(ss: seq<Source>, order: seq<Piece>): seq<Packet>
    requires SourcesOk(ss) && Delivery(ss, order)
  {
    seq(|order|, a requires 0 <= a < |order| => PacketOf(ss, order[a]))
  }

  lemma {:induction false} StartMonotone(f: P.Frame, j: nat, k: nat)
    requires j <= k
    ensures P.Start(f, j) <= P.Start(f, k)
    decreases k
  {
    if j < k { StartMonotone(f, j, k - 1); }
  }

  /** Different fragments of all the sources have no byte of a frame in common. */
  lemma NoOverlap(ss: seq<Source>, x: Piece, y: Piece)
    requires SourcesOk(ss) && IsPiece(ss, x) && IsPiece(ss, y) && x != y
    ensures !R.Overlap(PacketOf(ss, x), PacketOf(ss, y))
  {
    if R.IdOf(PacketOf(ss, x)) == R.IdOf(PacketOf(ss, y)) {
      IdsDistinct(ss, x.u, x.i, y.u, y.i);
      var f := FrameOf(ss, x.u, x.i);
      if x.k < y.k { StartMonotone(f, x.k + 1, y.k); } else { StartMonotone(f, y.k + 1, x.k); }
    }
  }

  lemma DeliveryIsPieces(ss: seq<Source>, order: seq<Piece>)
    requires SourcesOk(ss) && Delivery(ss, order)
    ensures R.Pieces(SentBy(ss), PacketsOf(ss, order))
  {
    var ps := PacketsOf(ss, order);
    forall a | 0 <= a < |ps| ensures R.IsPiece(SentBy(ss), ps[a]) {
      var x := order[a];
      SentByAt(ss, x.u, x.i);
      P.FragmentShape(FrameOf(ss, x.u, x.i), x.k);
    }
    forall a, b | 0 <= a < b < |ps| ensures !R.Overlap(ps[a], ps[b]) {
      NoOverlap(ss, order[a], order[b]);
    }
  }

  /** The fragment that carries byte `b` of the frame, looked for from fragment `k` on. */
  lemma {:induction false} FragmentWithByte(f: P.Frame, b: nat, k: nat) returns (m: nat)
    requires P.Start(f, k) <= b < |f.bytes|
    ensures P.HasFragment(f, m) && P.Start(f, m) <= b < P.Start(f, m + 1)
    decreases |f.bytes| - P.Start(f, k)
  {
    if b < P.Start(f, k + 1) {
      m := k;
    } else {
      m := FragmentWithByte(f, b, k + 1);
    }
  }

  lemma ByteIsCovered(ss: seq<Source>, order: seq<Piece>, u: nat, i: nat, b: nat)
    requires SourcesOk(ss) && Delivery(ss, order) && Complete(ss, order)
    requires IsCall(ss, u, i) && b < |ss[u].payloads[i]|
    ensures b in R.Covered(PacketsOf(ss, order), IdOf(ss, u, i))
  {
    var ps := PacketsOf(ss, order);
    var k := FragmentWithByte(FrameOf(ss, u, i), b, 0);
    assert IsPiece(ss, Piece(u, i, k));
    var a :| 0 <= a < |order| && order[a] == Piece(u, i, k);
    assert R.IdOf(ps[a]) == IdOf(ss, u, i) && b in R.BytesOf(ps[a]);
    R.CoveredBy(ps, IdOf(ss, u, i), b);
  }

  lemma CompleteIsFull(ss: seq<Source>, order: seq<Piece>, u: nat, i: nat)
    requires SourcesOk(ss) && Delivery(ss, order) && Complete(ss, order)
    requires IsCall(ss, u, i) && ss[u].payloads[i] != []
    ensures IdOf(ss, u, i) in SentBy(ss) && R.Full(SentBy(ss), PacketsOf(ss, order), IdOf(ss, u, i))
  {
    var id, ps := IdOf(ss, u, i), PacketsOf(ss, order);
    SentByAt(ss, u, i);
    DeliveryIsPieces(ss, order);
    forall b | b in R.Range(0, |ss[u].payloads[i]|) ensures b in R.Covered(ps, id) {
      ByteIsCovered(ss, order, u, i, b);
    }
    R.CoveredWithin(SentBy(ss), ps, id);
    R.FullMeansEveryByte(SentBy(ss), ps, id);
  }

  /** Every non-empty payload of every source is recovered once, under its own stream and number, and
      nothing else is, however the fragments of all the sources are interleaved and reordered. */
  lemma EveryFrameRecovered(ss: seq<Source>, order: seq<Piece>)
    requires SourcesOk(ss) && Delivery(ss, order) && Complete(ss, order)
    ensures R.CanReceiveAll(PacketsOf(ss, order))
    ensures var log := R.ReceiveAll(PacketsOf(ss, order)).log;
      && (forall u: nat, i: nat | IsCall(ss, u, i) && ss[u].payloads[i] != [] ::
            R.Completion(IdOf(ss, u, i), ss[u].payloads[i]) in log)
      && (forall c | c in log :: exists u: nat, i: nat ::
            IsCall(ss, u, i) && ss[u].payloads[i] != [] && c == R.Completion(IdOf(ss, u, i), ss[u].payloads[i]))
      && (forall a, b | 0 <= a < b < |log| :: log[a].id != log[b].id)
  {
    var ps := PacketsOf(ss, order);
    SentByOk(ss);
    DeliveryIsPieces(ss, order);
    R.ReassemblyExact(SentBy(ss), ps);
    var log := R.ReceiveAll(ps).log;
    forall u: nat, i: nat | IsCall(ss, u, i) && ss[u].payloads[i] != []
      ensures R.Completion(IdOf(ss, u, i), ss[u].payloads[i]) in log
    {
      CompleteIsFull(ss, order, u, i);
      SentByAt(ss, u, i);
      var a :| 0 <= a < |log| && log[a].id == IdOf(ss, u, i);
      assert log[a] == R.Completion(IdOf(ss, u, i), ss[u].payloads[i]);
    }
    forall c | c in log
      ensures exists u: nat, i: nat ::
        IsCall(ss, u, i) && ss[u].payloads[i] != [] && c == R.Completion(IdOf(ss, u, i), ss[u].payloads[i])
    {
      assert c.id in SentBy(ss) && c.data == SentBy(ss)[c.id];
      var u: nat, i: nat :| IsCall(ss, u, i) && ss[u].payloads[i] != [] && c.id == IdOf(ss, u, i);
      SentByAt(ss, u, i);
    }
  }

  // ---- Down to the bytes of the datagrams ----

  /** What surrounds a fragment on its way: the RTP header in front of it, the stale bytes of the receive
      buffer behind it, and what is left of the buffer the datagram is read into. */
  datatype Wrapping = Wrapping(rtpHeader: seq<byte>, stale: seq<byte>, tail: seq<byte>)

  predicate Wraps(w: Wrapping, p: Packet) {
    |w.rtpHeader| == 20 && |w.rtpHeader + Encode(p) + w.stale| == 1220
  }

  function DatagramOf(w: Wrapping, p: Packet): (bytes: seq<byte>)
    requires Wraps(w, p)
    ensures TYPE_HEADER_SIZE + VIDEO_HEADER_SIZE <= |bytes|
  {
    ProxyBuffer(w.rtpHeader + Encode(p) + w.stale, WEBRTC_HEADER_SIZE, PacketType(p.stream)) + w.tail
  }

  predicate LongEnough(datagrams: seq<seq<byte>>) {
    forall a | 0 <= a < |datagrams| :: TYPE_HEADER_SIZE + VIDEO_HEADER_SIZE <= |datagrams[a]|
  }

  /** The fragments that the listening loop finds in the datagrams. */
  function ParseAll(datagrams: seq<seq<byte>>): seq<Packet>
    requires LongEnough(datagrams)
  {
    if datagrams == [] then []
    else
      var before := ParseAll(datagrams[..|datagrams| - 1]);
      match Parse(datagrams[|datagrams| - 1])
      case Fragment(p) => before + [p]
      case _ => before
  }

  /** The datagrams are those of the pieces, each in some wrapping. */
  ghost predicate Wrapped(ss: seq<Source>, order: seq<Piece>, ws: seq<Wrapping>, datagrams: seq<seq<byte>>)
    requires SourcesOk(ss) && Delivery(ss, order)
  {
    && |ws| == |order| == |datagrams|
    && forall a | 0 <= a < |order| ::
        Wraps(ws[a], PacketOf(ss, order[a])) && datagrams[a] == DatagramOf(ws[a], PacketOf(ss, order[a]))
  }

  lemma PieceParses(ss: seq<Source>, x: Piece, w: Wrapping)
    requires SourcesOk(ss) && IsPiece(ss, x) && Wraps(w, PacketOf(ss, x))
    ensures Parse(DatagramOf(w, PacketOf(ss, x))) == Fragment(PacketOf(ss, x))
  {
    P.FragmentShape(FrameOf(ss, x.u, x.i), x.k);
    WireRoundTrip(PacketOf(ss, x), w.rtpHeader, w.stale, w.tail);
  }

  lemma ParseMore(datagrams: seq<seq<byte>>, d: seq<byte>, p: Packet)
    requires LongEnough(datagrams) && TYPE_HEADER_SIZE + VIDEO_HEADER_SIZE <= |d| && Parse(d) == Fragment(p)
    ensures LongEnough(datagrams + [d]) && ParseAll(datagrams + [d]) == ParseAll(datagrams) + [p]
  {
    assert (datagrams + [d])[..|datagrams|] == datagrams;
  }

  lemma {:induction false} ParseEach(datagrams: seq<seq<byte>>, ps: seq<Packet>)
    requires |datagrams| == |ps| && LongEnough(datagrams)
    requires forall a | 0 <= a < |ps| :: Parse(datagrams[a]) == Fragment(ps[a])
    ensures ParseAll(datagrams) == ps
    decreases |ps|
  {
    if ps != [] {
      var n := |ps| - 1;
      ParseEach(datagrams[..n], ps[..n]);
      ParseMore(datagrams[..n], datagrams[n], ps[n]);
      assert datagrams == datagrams[..n] + [datagrams[n]];
    }
  }

  lemma DatagramsParse(ss: seq<Source>, order: seq<Piece>, ws: seq<Wrapping>, datagrams: seq<seq<byte>>)
    requires SourcesOk(ss) && Delivery(ss, order) && Wrapped(ss, order, ws, datagrams)
    ensures LongEnough(datagrams) && ParseAll(datagrams) == PacketsOf(ss, order)
  {
    forall a | 0 <= a < |order| ensures Parse(datagrams[a]) == Fragment(PacketsOf(ss, order)[a]) {
      PieceParses(ss, order[a], ws[a]);
    }
    ParseEach(datagrams, PacketsOf(ss, order));
  }

  /** From payloads to frames through the bytes of the datagrams: whatever surrounds the fragments and
      however they are reordered, the listening loop recovers every non-empty payload of every source
      once, under its own stream and number, and nothing else. */
  lemma EveryFrameRecoveredFromBytes(ss: seq<Source>, order: seq<Piece>, ws: seq<Wrapping>, datagrams: seq<seq<byte>>)
    requires SourcesOk(ss) && Delivery(ss, order) && Complete(ss, order) && Wrapped(ss, order, ws, datagrams)
    ensures LongEnough(datagrams) && R.CanReceiveAll(ParseAll(datagrams))
    ensures var log := R.ReceiveAll(ParseAll(datagrams)).log;
      && (forall u: nat, i: nat | IsCall(ss, u, i) && ss[u].payloads[i] != [] ::
            R.Completion(IdOf(ss, u, i), ss[u].payloads[i]) in log)
      && (forall c | c in log :: exists u: nat, i: nat ::
            IsCall(ss, u, i) && ss[u].payloads[i] != [] && c == R.Completion(IdOf(ss, u, i), ss[u].payloads[i]))
      && (forall a, b | 0 <= a < b < |log| :: log[a].id != log[b].id)
  {
    DatagramsParse(ss, order, ws, datagrams);
    EveryFrameRecovered(ss, order);
  }

  /** The frame is a payload of the source of its stream. */
  ghost predicate IsPayload(ss: seq<Source>, stream: Stream, data: seq<byte>) {
    exists u: nat, i: nat :: IsCall(ss, u, i) && ss[u].stream == stream && data == ss[u].payloads[i]
  }

  lemma SentIsPayload(ss: seq<Source>, id: R.FrameId)
    requires SourcesOk(ss) && id in SentBy(ss)
    ensures IsPayload(ss, id.stream, SentBy(ss)[id])
  {
    var u: nat, i: nat :| IsCall(ss, u, i) && ss[u].payloads[i] != [] && id == IdOf(ss, u, i);
    SentByAt(ss, u, i);
  }

  /** A run of the proxy in which those fragments arrive, some perhaps lost, with one consumer per
      stream: each frame a consumer gets is a payload of the source of its stream. */
  lemma ConsumersGetPayloads(ss: seq<Source>, order: seq<Piece>, conds: set<Stream>, streams: seq<Stream>,
                             es: seq<M.Event>)
    requires SourcesOk(ss) && Delivery(ss, order)
    requires M.Distinct(streams) && M.CanRun(M.Start(conds, streams), es) && M.Packets(es) == PacketsOf(ss, order)
    ensures var s := M.Run(M.Start(conds, streams), es);
      !s.crashed && forall n | 0 <= n < |s.delivered| :: IsPayload(ss, s.delivered[n].stream, s.delivered[n].data)
  {
    var s := M.Run(M.Start(conds, streams), es);
    SentByOk(ss);
    DeliveryIsPieces(ss, order);
    M.MailboxSafe(conds, streams, es);
    M.DeliveredFramesWereSent(SentBy(ss), conds, streams, es);
    forall n | 0 <= n < |s.delivered| ensures IsPayload(ss, s.delivered[n].stream, s.delivered[n].data) {
      var d := s.delivered[n];
      SentIsPayload(ss, s.frames.log[M.Source(s.frames.log, d)].id);
    }
  }
}
