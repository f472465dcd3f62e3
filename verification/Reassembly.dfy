/**
 How `StartListening` rebuilds frames from fragments (peer/proxy_connection.go): it copies each
 fragment to its offset, counts bytes, and takes the frame for complete when the count reaches the
 announced length.
 */
module Reassembly {
  import opened Wire

  datatype FrameId = FrameId(stream: Stream, frameNr: uint32)

  /** A frame of which some bytes have arrived. */
  datatype Partial = Partial(currentLen: uint32, fileLen: uint32, fileData: seq<byte>)

  datatype Completion = Completion(id: FrameId, data: seq<byte>)

  /** The unfinished frames, and every completed frame in order of completion. */
  datatype State = State(incomplete: map<FrameId, Partial>, log: seq<Completion>)

  const Empty := State(map[], [])

  function IdOf(p: Packet): FrameId { FrameId(p.stream, p.header.frameNr) }

  /** The entry the fragment is added to. Only the first fragment of a frame decides its length. */
  function Entry(incomplete: map<FrameId, Partial>, p: Packet): Partial {
    if IdOf(p) in incomplete then incomplete[IdOf(p)]
    else Partial(0, p.header.frameLen, Zeros(p.header.frameLen))
  }

  /** The slice expressions on the frame and on the packet do not panic. */
  predicate InRange(incomplete: map<FrameId, Partial>, p: Packet) {
    |p.data| == p.header.seqLen &&
    p.header.seqOffset + p.header.seqLen <= |Entry(incomplete, p).fileData|
  }

  function Overwrite(base: seq<byte>, at: nat, data: seq<byte>): (s: seq<byte>)
    requires at + |data| <= |base|
    ensures |s| == |base|
  {
    seq(|base|, i requires 0 <= i < |base| => if at <= i < at + |data| then data[i - at] else base[i])
  }

  /** The entry after `data` has been copied to offset `at`; the count is a 32-bit sum. */
  function Extend(v: Partial, at: nat, data: seq<byte>): Partial
    requires at + |data| <= |v.fileData|
  {
    Partial(Add32(v.currentLen, |data|), v.fileLen, Overwrite(v.fileData, at, data))
  }

  function Add32(a: uint32, b: nat): (sum: uint32)
    ensures a + b < UINT32_LIMIT ==> sum == a + b
  {
    (a + b) % UINT32_LIMIT
  }

  function Updated(incomplete: map<FrameId, Partial>, p: Packet): Partial
    requires InRange(incomplete, p)
  {
    Extend(Entry(incomplete, p), p.header.seqOffset, p.data)
  }

  predicate Completes(incomplete: map<FrameId, Partial>, p: Packet)
    requires InRange(incomplete, p)
  {
    Updated(incomplete, p).currentLen == Updated(incomplete, p).fileLen
  }

  function Receive(s: State, p: Packet): State
    requires InRange(s.incomplete, p)
  {
    var value := Updated(s.incomplete, p);
    if Completes(s.incomplete, p)
    then State(s.incomplete - {IdOf(p)}, s.log + [Completion(IdOf(p), value.fileData)])
    else State(s.incomplete[IdOf(p) := value], s.log)
  }

  predicate CanReceiveAll(ps: seq<Packet>)
    decreases ps, 0
  {
    ps == [] ||
    (CanReceiveAll(ps[..|ps| - 1]) && InRange(ReceiveAll(ps[..|ps| - 1]).incomplete, ps[|ps| - 1]))
  }

  function ReceiveAll(ps: seq<Packet>): State
    requires CanReceiveAll(ps)
    decreases ps, 1
  {
    if ps == [] then Empty else Receive(ReceiveAll(ps[..|ps| - 1]), ps[|ps| - 1])
  }

  // ---- What a sender may put on the wire ----

  type Sent = map<FrameId, seq<byte>>

  /** `p` is a non-empty piece of the frame that was sent under its number. */
  predicate IsPiece(sent: Sent, p: Packet) {
    && IdOf(p) in sent
    && |p.data| == p.header.seqLen > 0
    && p.header.frameLen == |sent[IdOf(p)]|
    && p.header.seqOffset + p.header.seqLen <= |sent[IdOf(p)]|
    && p.data == sent[IdOf(p)][p.header.seqOffset..p.header.seqOffset + p.header.seqLen]
  }

  predicate Overlap(p: Packet, q: Packet) {
    && IdOf(p) == IdOf(q)
    && p.header.seqOffset < q.header.seqOffset + q.header.seqLen
    && q.header.seqOffset < p.header.seqOffset + p.header.seqLen
  }

  /** Pieces of sent frames, in any order and interleaving, no byte of a frame twice. */
  ghost predicate Pieces(sent: Sent, ps: seq<Packet>) {
    && (forall k | 0 <= k < |ps| :: IsPiece(sent, ps[k]))
    && (forall j, k | 0 <= j < k < |ps| :: !Overlap(ps[j], ps[k]))
  }

  predicate Within(lo: nat, i: nat, hi: nat) { lo <= i < hi }

  function Range(lo: nat, hi: nat): set<nat> { set i: nat | lo <= i < hi && Within(lo, i, hi) }

  lemma {:induction false} RangeSize(lo: nat, hi: nat)
    requires lo <= hi
    ensures |Range(lo, hi)| == hi - lo
    decreases hi - lo
  {
    if lo < hi {
      RangeSize(lo, hi - 1);
      assert Range(lo, hi) == Range(lo, hi - 1) + {hi - 1};
    } else {
      assert Range(lo, hi) == {};
    }
  }

  function BytesOf(p: Packet): set<nat> { Range(p.header.seqOffset, p.header.seqOffset + |p.data|) }

  /** The positions of frame `id` that the packets cover. */
  function Covered(ps: seq<Packet>, id: FrameId): set<nat> {
    if ps == [] then {}
    else
      var rest := Covered(ps[..|ps| - 1], id);
      if IdOf(ps[|ps| - 1]) == id then rest + BytesOf(ps[|ps| - 1]) else rest
  }

  lemma {:induction false} CoveredBy(ps: seq<Packet>, id: FrameId, i: nat)
    ensures i in Covered(ps, id) <==> exists k :: 0 <= k < |ps| && IdOf(ps[k]) == id && i in BytesOf(ps[k])
  {
    if ps != [] {
      var n := |ps| - 1;
      CoveredBy(ps[..n], id, i);
      if i in Covered(ps[..n], id) {
        var k :| 0 <= k < n && IdOf(ps[..n][k]) == id && i in BytesOf(ps[..n][k]);
        assert IdOf(ps[k]) == id && i in BytesOf(ps[k]);
      }
      if exists k :: 0 <= k < |ps| && IdOf(ps[k]) == id && i in BytesOf(ps[k]) {
        var k :| 0 <= k < |ps| && IdOf(ps[k]) == id && i in BytesOf(ps[k]);
        if k < n {
          assert IdOf(ps[..n][k]) == id && i in BytesOf(ps[..n][k]);
        }
      }
    }
  }

  lemma {:induction false} CoveredSnoc(before: seq<Packet>, p: Packet, id: FrameId)
    ensures IdOf(p) == id ==> Covered(before + [p], id) == Covered(before, id) + BytesOf(p)
    ensures IdOf(p) != id ==> Covered(before + [p], id) == Covered(before, id)
  {
    assert (before + [p])[..|before|] == before;
  }

  lemma {:induction false} PiecesSnoc(sent: Sent, before: seq<Packet>, p: Packet)
    requires Pieces(sent, before + [p])
    ensures Pieces(sent, before) && IsPiece(sent, p)
    ensures Covered(before, IdOf(p)) !! BytesOf(p)
  {
    var ps := before + [p];
    assert forall k | 0 <= k < |before| :: before[k] == ps[k];
    assert ps[|before|] == p;
    forall i | i in Covered(before, IdOf(p)) ensures i !in BytesOf(p) {
      CoveredBy(before, IdOf(p), i);
      var k :| 0 <= k < |before| && IdOf(before[k]) == IdOf(p) && i in BytesOf(before[k]);
      assert !Overlap(ps[k], ps[|before|]);
    }
  }

  lemma {:induction false} CoveredWithin(sent: Sent, ps: seq<Packet>, id: FrameId)
    requires Pieces(sent, ps) && id in sent
    ensures Covered(ps, id) <= Range(0, |sent[id]|)
  {
    forall i | i in Covered(ps, id) ensures i in Range(0, |sent[id]|) {
      CoveredBy(ps, id, i);
      var k :| 0 <= k < |ps| && IdOf(ps[k]) == id && i in BytesOf(ps[k]);
      assert IsPiece(sent, ps[k]);
    }
  }

  lemma {:induction false} SubsetSize(a: set<nat>, n: nat)
    requires a <= Range(0, n)
    ensures |a| <= n && (|a| == n <==> a == Range(0, n))
  {
    RangeSize(0, n);
    var b := Range(0, n);
    assert b == a + (b - a);
    assert |b| == |a| + |b - a|;
    if |a| == n {
      assert b - a == {};
    }
  }

  lemma DisjointSize(a: set<nat>, b: set<nat>)
    requires a !! b
    ensures |a + b| == |a| + |b|
  {
  }

  // ---- What the reassembler has after any such delivery ----

  /** The entry of a frame of which exactly the bytes at positions `c` have arrived. */
  ghost predicate Right(original: seq<byte>, c: set<nat>, v: Partial) {
    && v.currentLen == |c|
    && v.fileLen == |original| == |v.fileData|
    && (forall i | i in c :: i < |original| && v.fileData[i] == original[i])
  }

  /** Adding a fragment of bytes that had not arrived yet; `after` are the positions that have then. */
  lemma {:induction false} AddFragment(original: seq<byte>, c: set<nat>, v: Partial, p: Packet, after: set<nat>)
    requires Right(original, c, v) && |original| < UINT32_LIMIT
    requires p.header.seqOffset + |p.data| <= |original|
    requires p.data == original[p.header.seqOffset..p.header.seqOffset + |p.data|]
    requires c !! BytesOf(p) && after == c + BytesOf(p)
    ensures |after| == |c| + |p.data| <= |original|
    ensures Right(original, after, Extend(v, p.header.seqOffset, p.data))
    ensures |after| == |original| ==> Extend(v, p.header.seqOffset, p.data).fileData == original
  {
    var at, data := p.header.seqOffset, Overwrite(v.fileData, p.header.seqOffset, p.data);
    forall i | i in after ensures i < |original| && data[i] == original[i] {
      OverwrittenAt(original, c, v, p, i);
    }
    RangeSize(at, at + |p.data|);
    DisjointSize(c, BytesOf(p));
    WithinSize(after, |original|);
    if |after| == |original| {
      RightWhenFull(original, after, Extend(v, at, p.data));
    }
  }

  lemma {:induction false} OverwrittenAt(original: seq<byte>, c: set<nat>, v: Partial, p: Packet, i: nat)
    requires Right(original, c, v) && p.header.seqOffset + |p.data| <= |original|
    requires p.data == original[p.header.seqOffset..p.header.seqOffset + |p.data|]
    requires i in c || i in BytesOf(p)
    ensures i < |original| && Overwrite(v.fileData, p.header.seqOffset, p.data)[i] == original[i]
  {
  }

  lemma {:induction false} WithinSize(c: set<nat>, n: nat)
    requires forall i | i in c :: i < n
    ensures |c| <= n && (|c| == n ==> forall i: nat | i < n :: i in c)
  {
    assert c <= Range(0, n);
    SubsetSize(c, n);
  }

  /** With every byte in place the data is the frame. */
  lemma {:induction false} RightWhenFull(original: seq<byte>, c: set<nat>, v: Partial)
    requires Right(original, c, v) && |c| == |original|
    ensures v.fileData == original
  {
    WithinSize(c, |original|);
    assert forall i: nat | i < |original| :: i in c;
  }

  /** All bytes of the frame have arrived. */
  ghost predicate Full(sent: Sent, ps: seq<Packet>, id: FrameId)
    requires id in sent
  {
    |Covered(ps, id)| == |sent[id]|
  }

  lemma {:induction false} FullMeansEveryByte(sent: Sent, ps: seq<Packet>, id: FrameId)
    requires Pieces(sent, ps) && id in sent
    ensures Full(sent, ps, id) <==> Covered(ps, id) == Range(0, |sent[id]|)
  {
    CoveredWithin(sent, ps, id);
    SubsetSize(Covered(ps, id), |sent[id]|);
  }

  /** Frame `id` after the packets: without an entry before its first fragment and after its last,
      and in between with the number of bytes covered and exactly the right bytes in place. */
  ghost predicate Tracks(sent: Sent, ps: seq<Packet>, s: State, id: FrameId)
    requires id in sent
  {
    var c := Covered(ps, id);
    if |c| == 0 || |c| == |sent[id]| then id !in s.incomplete
    else id in s.incomplete && Right(sent[id], c, s.incomplete[id])
  }

  /** The log holds each fully covered frame once, with its original bytes, and no other. */
  ghost predicate LogExact(sent: Sent, ps: seq<Packet>, log: seq<Completion>) {
    && (forall k | 0 <= k < |log| ::
          log[k].id in sent && log[k].data == sent[log[k].id] && Full(sent, ps, log[k].id))
    && (forall id | id in sent && Full(sent, ps, id) :: exists k :: 0 <= k < |log| && log[k].id == id)
    && (forall j, k | 0 <= j < k < |log| :: log[j].id != log[k].id)
  }

  ghost predicate Exact(sent: Sent, ps: seq<Packet>) {
    && CanReceiveAll(ps)
    && (forall id | id in sent :: Tracks(sent, ps, ReceiveAll(ps), id))
    && LogExact(sent, ps, ReceiveAll(ps).log)
  }

  ghost predicate SentOk(sent: Sent) {
    forall id | id in sent :: 0 < |sent[id]| < 0x1_0000_0000
  }

  /** Before a fragment arrives its frame is not full and its entry, new or not, is right. */
  lemma {:induction false} EntryRight(sent: Sent, before: seq<Packet>, p: Packet, s: State)
    requires SentOk(sent) && Pieces(sent, before + [p]) && IdOf(p) in sent
    requires Tracks(sent, before, s, IdOf(p))
    ensures IsPiece(sent, p) && Covered(before, IdOf(p)) !! BytesOf(p) && !Full(sent, before, IdOf(p))
    ensures Right(sent[IdOf(p)], Covered(before, IdOf(p)), Entry(s.incomplete, p))
  {
    PiecesSnoc(sent, before, p);
    FullMeansEveryByte(sent, before, IdOf(p));
    assert p.header.seqOffset in BytesOf(p) && p.header.seqOffset in Range(0, |sent[IdOf(p)]|);
  }

  lemma {:induction false} StepCounts(sent: Sent, before: seq<Packet>, p: Packet, s: State)
    requires SentOk(sent) && Pieces(sent, before + [p]) && IdOf(p) in sent
    requires Tracks(sent, before, s, IdOf(p))
    ensures InRange(s.incomplete, p)
    ensures Completes(s.incomplete, p) <==> Full(sent, before + [p], IdOf(p))
    ensures Completes(s.incomplete, p) ==> Updated(s.incomplete, p).fileData == sent[IdOf(p)]
    ensures var c := Covered(before + [p], IdOf(p)); |c| > 0 && Right(sent[IdOf(p)], c, Updated(s.incomplete, p))
  {
    var id := IdOf(p);
    EntryRight(sent, before, p, s);
    CoveredSnoc(before, p, id);
    AddFragment(sent[id], Covered(before, id), Entry(s.incomplete, p), p, Covered(before + [p], id));
  }

  lemma ReceiveTracks(sent: Sent, ps: seq<Packet>, p: Packet, s: State)
    requires IdOf(p) in sent && InRange(s.incomplete, p) && |Covered(ps, IdOf(p))| > 0
    requires Right(sent[IdOf(p)], Covered(ps, IdOf(p)), Updated(s.incomplete, p))
    ensures Tracks(sent, ps, Receive(s, p), IdOf(p))
  {
  }

  /** The fragment is in range, and it completes its frame exactly when no byte is missing then. */
  lemma {:induction false} StepFrame(sent: Sent, before: seq<Packet>, p: Packet, s: State)
    requires SentOk(sent) && Pieces(sent, before + [p]) && IdOf(p) in sent
    requires Tracks(sent, before, s, IdOf(p))
    ensures InRange(s.incomplete, p)
    ensures Completes(s.incomplete, p) <==> Full(sent, before + [p], IdOf(p))
    ensures Completes(s.incomplete, p) ==> Updated(s.incomplete, p).fileData == sent[IdOf(p)]
    ensures Tracks(sent, before + [p], Receive(s, p), IdOf(p))
  {
    StepCounts(sent, before, p, s);
    ReceiveTracks(sent, before + [p], p, s);
  }

  lemma {:induction false} StepOthers(sent: Sent, before: seq<Packet>, p: Packet, s: State, id: FrameId)
    requires id in sent && id != IdOf(p) && InRange(s.incomplete, p)
    requires Tracks(sent, before, s, id)
    ensures Tracks(sent, before + [p], Receive(s, p), id)
  {
    CoveredSnoc(before, p, id);
  }

  lemma {:induction false} FullSnoc(sent: Sent, before: seq<Packet>, p: Packet, i: FrameId)
    requires i in sent && IdOf(p) in sent && !Full(sent, before, IdOf(p))
    ensures Full(sent, before + [p], i) <==> Full(sent, before, i) || (i == IdOf(p) && Full(sent, before + [p], i))
  {
    CoveredSnoc(before, p, i);
  }

  lemma {:induction false} LogSnoc(sent: Sent, before: seq<Packet>, p: Packet, log: seq<Completion>)
    requires IdOf(p) in sent && !Full(sent, before, IdOf(p)) && LogExact(sent, before, log)
    ensures Full(sent, before + [p], IdOf(p)) ==>
      LogExact(sent, before + [p], log + [Completion(IdOf(p), sent[IdOf(p)])])
    ensures !Full(sent, before + [p], IdOf(p)) ==> LogExact(sent, before + [p], log)
  {
    var id := IdOf(p);
    forall i | i in sent
      ensures Full(sent, before + [p], i) <==> Full(sent, before, i) || (i == id && Full(sent, before + [p], i))
    {
      FullSnoc(sent, before, p, i);
    }
    var log' := if Full(sent, before + [p], id) then log + [Completion(id, sent[id])] else log;
    assert forall k | 0 <= k < |log| :: log'[k] == log[k];
    forall i | i in sent && Full(sent, before + [p], i) ensures exists k :: 0 <= k < |log'| && log'[k].id == i {
      if i == id {
        assert log'[|log|].id == id;
      } else {
        var k :| 0 <= k < |log| && log[k].id == i;
        assert log'[k].id == i;
      }
    }
  }

  lemma {:induction false} ReceiveSnoc(before: seq<Packet>, p: Packet)
    requires CanReceiveAll(before) && InRange(ReceiveAll(before).incomplete, p)
    ensures CanReceiveAll(before + [p]) && ReceiveAll(before + [p]) == Receive(ReceiveAll(before), p)
  {
    assert (before + [p])[..|before|] == before;
  }

  /** Fragments of any frames, cut anywhere, delivered in any order and interleaving: nothing goes
      out of range, the byte count of every frame is the number of its bytes that arrived, a frame
      completes exactly when its last missing bytes arrive, and then it is the frame that was sent. */
  lemma {:induction false} ReassemblyExact(sent: Sent, ps: seq<Packet>)
    requires SentOk(sent) && Pieces(sent, ps)
    ensures Exact(sent, ps)
    decreases ps
  {
    if ps == [] {
      assert forall id | id in sent :: !Full(sent, ps, id);
    } else {
      var before, p := ps[..|ps| - 1], ps[|ps| - 1];
      assert ps == before + [p];
      PiecesSnoc(sent, before, p);
      ReassemblyExact(sent, before);
      var s := ReceiveAll(before);
      StepFrame(sent, before, p, s);
      ReceiveSnoc(before, p);
      EntryRight(sent, before, p, s);
      LogSnoc(sent, before, p, s.log);
      forall id | id in sent ensures Tracks(sent, ps, ReceiveAll(ps), id) {
        if id != IdOf(p) { StepOthers(sent, before, p, s, id); }
      }
    }
  }

  /** A packet completes its frame exactly when it brings the last missing bytes. */
  lemma {:induction false} CompletesAtLastFragment(sent: Sent, before: seq<Packet>, p: Packet)
    requires SentOk(sent) && Pieces(sent, before + [p])
    ensures CanReceiveAll(before) && CanReceiveAll(before + [p]) && IdOf(p) in sent
    ensures ReceiveAll(before + [p]).log ==
      ReceiveAll(before).log + if Full(sent, before + [p], IdOf(p)) then [Completion(IdOf(p), sent[IdOf(p)])] else []
  {
    PiecesSnoc(sent, before, p);
    ReassemblyExact(sent, before);
    StepFrame(sent, before, p, ReceiveAll(before));
    ReceiveSnoc(before, p);
  }

  /** The first of two bytes. */
  function FirstByte(): Packet { Packet(Audio, FrameHeader(0, 0, 2, 0, 1), [1]) }

  lemma FirstByteOnce()
    ensures InRange(map[], FirstByte())
    ensures Receive(Empty, FirstByte()) == State(map[FrameId(Audio, 0) := Partial(1, 2, [1, 0])], [])
  {
    assert Zeros(2) == [0, 0];
    assert Overwrite([0, 0], 0, [1]) == [1, 0];
  }

  lemma FirstByteAgain()
    ensures var incomplete := map[FrameId(Audio, 0) := Partial(1, 2, [1, 0])];
      && InRange(incomplete, FirstByte())
      && Receive(State(incomplete, []), FirstByte()).log == [Completion(FrameId(Audio, 0), [1, 0])]
  {
    assert Overwrite([1, 0], 0, [1]) == [1, 0];
  }

  /** Counting bytes is fooled by a fragment that arrives twice: the frame [1, 2] is taken for
      complete when its first byte has been delivered twice. */
  lemma {:induction false} DuplicateCompletesWrongly()
    ensures var id, p := FrameId(Audio, 0), FirstByte();
      && IsPiece(map[id := [1, 2]], p)
      && CanReceiveAll([p, p])
      && ReceiveAll([p, p]).log == [Completion(id, [1, 0])]
  {
    var p := FirstByte();
    FirstByteOnce();
    ReceiveSnoc([], p);
    assert [] + [p] == [p] && [p] + [p] == [p, p];
    FirstByteAgain();
    ReceiveSnoc([p], p);
  }
}
