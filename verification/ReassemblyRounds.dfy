/**
 What counting bytes makes of fragments that overlap or arrive twice. A round of a frame is the
 fragments of it that have been counted since it was last taken for complete.
 */
module ReassemblyRounds {
  import opened Wire
  import opened Reassembly

  /** Pieces of sent frames, in any order, with any overlaps and repetitions. */
  ghost predicate AllPieces(sent: Sent, ps: seq<Packet>) { forall k | 0 <= k < |ps| :: IsPiece(sent, ps[k]) }

  function Total(r: seq<Packet>): nat { if r == [] then 0 else Total(r[..|r| - 1]) + |r[|r| - 1].data| }

  /** The 32-bit count of these fragments is the announced length. */
  predicate Reaches(original: seq<byte>, r: seq<Packet>) { Total(r) % 0x1_0000_0000 == |original| }

  function Round(sent: Sent, ps: seq<Packet>, id: FrameId): seq<Packet>
    requires id in sent
  {
    if ps == [] then []
    else
      var r, p := Round(sent, ps[..|ps| - 1], id), ps[|ps| - 1];
      if IdOf(p) != id then r else if Reaches(sent[id], r + [p]) then [] else r + [p]
  }

  /** The frame with the positions `c` filled in. */
  function Paint(original: seq<byte>, c: set<nat>): (data: seq<byte>)
    ensures |data| == |original|
  {
    seq(|original|, i requires 0 <= i < |original| => if i in c then original[i] else 0)
  }

  function Completions(sent: Sent, ps: seq<Packet>): seq<Completion>
    requires AllPieces(sent, ps)
  {
    if ps == [] then []
    else
      var before, p := ps[..|ps| - 1], ps[|ps| - 1];
      var id := IdOf(p);
      assert IsPiece(sent, ps[|ps| - 1]);
      var r := Round(sent, before, id) + [p];
      Completions(sent, before) + if Reaches(sent[id], r) then [Completion(id, Paint(sent[id], Covered(r, id)))] else []
  }

  /** The entry of a frame holds the count and the bytes of its round. */
  predicate Painted(original: seq<byte>, r: seq<Packet>, id: FrameId, v: Partial) {
    && v.currentLen == Total(r) % 0x1_0000_0000
    && v.fileLen == |original|
    && v.fileData == Paint(original, Covered(r, id))
  }

  predicate Follows(sent: Sent, ps: seq<Packet>, s: State, id: FrameId)
    requires id in sent
  {
    var r := Round(sent, ps, id);
    if r == [] then id !in s.incomplete else id in s.incomplete && Painted(sent[id], r, id, s.incomplete[id])
  }

  // ---- The reassembler does this and nothing else ----

  lemma TotalSnoc(r: seq<Packet>, p: Packet)
    ensures Total(r + [p]) == Total(r) + |p.data|
  {
    assert (r + [p])[..|r|] == r;
  }

  lemma RoundSnoc(sent: Sent, before: seq<Packet>, p: Packet, id: FrameId)
    requires id in sent
    ensures var r := Round(sent, before, id);
            Round(sent, before + [p], id) ==
            if IdOf(p) != id then r else if Reaches(sent[id], r + [p]) then [] else r + [p]
  {
    assert (before + [p])[..|before|] == before;
  }

  lemma AddMod(a: nat, b: nat)
    ensures Add32(a % 0x1_0000_0000, b) == (a + b) % 0x1_0000_0000
  {
    var q := a / 0x1_0000_0000;
    assert a + b == q * 0x1_0000_0000 + (a % 0x1_0000_0000 + b);
    AddMultiple(q, a % 0x1_0000_0000 + b);
  }

  lemma SmallMod(x: nat)
    requires x < 0x1_0000_0000
    ensures x % 0x1_0000_0000 == x
  {
  }

  lemma AddMultiple(q: nat, x: nat)
    ensures (q * 0x1_0000_0000 + x) % 0x1_0000_0000 == x % 0x1_0000_0000
  {
  }

  lemma {:induction false} ExtendPaints(original: seq<byte>, r: seq<Packet>, v: Partial, p: Packet)
    requires Painted(original, r, IdOf(p), v) && p.header.seqOffset + |p.data| <= |original|
    requires p.data == original[p.header.seqOffset..p.header.seqOffset + |p.data|]
    ensures Painted(original, r + [p], IdOf(p), Extend(v, p.header.seqOffset, p.data))
  {
    TotalSnoc(r, p);
    AddMod(Total(r), |p.data|);
    CoveredSnoc(r, p, IdOf(p));
    var data := Overwrite(v.fileData, p.header.seqOffset, p.data);
    forall i | 0 <= i < |original| ensures data[i] == Paint(original, Covered(r + [p], IdOf(p)))[i] {
      assert i in BytesOf(p) <==> p.header.seqOffset <= i < p.header.seqOffset + |p.data|;
    }
  }

  lemma {:induction false} EntryPainted(sent: Sent, before: seq<Packet>, p: Packet, s: State)
    requires SentOk(sent) && IsPiece(sent, p) && Follows(sent, before, s, IdOf(p))
    ensures Painted(sent[IdOf(p)], Round(sent, before, IdOf(p)), IdOf(p), Entry(s.incomplete, p))
  {
    if Round(sent, before, IdOf(p)) == [] {
      assert Covered([], IdOf(p)) == {};
      assert Zeros(|sent[IdOf(p)]|) == Paint(sent[IdOf(p)], {});
    }
  }

  lemma {:induction false} StepPaints(sent: Sent, before: seq<Packet>, p: Packet, s: State)
    requires SentOk(sent) && IsPiece(sent, p) && Follows(sent, before, s, IdOf(p))
    ensures InRange(s.incomplete, p)
    ensures var r := Round(sent, before, IdOf(p)) + [p];
            && Painted(sent[IdOf(p)], r, IdOf(p), Updated(s.incomplete, p))
            && (Completes(s.incomplete, p) <==> Reaches(sent[IdOf(p)], r))
  {
    EntryPainted(sent, before, p, s);
    ExtendPaints(sent[IdOf(p)], Round(sent, before, IdOf(p)), Entry(s.incomplete, p), p);
  }

  lemma {:induction false} OthersFollow(sent: Sent, before: seq<Packet>, p: Packet, s: State, id: FrameId)
    requires SentOk(sent) && IsPiece(sent, p) && id in sent
    requires Follows(sent, before, s, IdOf(p)) && Follows(sent, before, s, id)
    ensures InRange(s.incomplete, p) && Follows(sent, before + [p], Receive(s, p), id)
  {
    StepPaints(sent, before, p, s);
    RoundSnoc(sent, before, p, id);
  }

  lemma {:induction false} CompletionsSnoc(sent: Sent, before: seq<Packet>, p: Packet)
    requires AllPieces(sent, before) && AllPieces(sent, before + [p]) && IsPiece(sent, p)
    ensures var id := IdOf(p); var r := Round(sent, before, id) + [p];
            Completions(sent, before + [p]) == Completions(sent, before) +
              if Reaches(sent[id], r) then [Completion(id, Paint(sent[id], Covered(r, id)))] else []
  {
    assert (before + [p])[..|before|] == before;
  }

  ghost predicate Paints(sent: Sent, ps: seq<Packet>)
    requires AllPieces(sent, ps)
  {
    && CanReceiveAll(ps)
    && (forall id | id in sent :: Follows(sent, ps, ReceiveAll(ps), id))
    && ReceiveAll(ps).log == Completions(sent, ps)
  }

  lemma {:induction false} PaintsSnoc(sent: Sent, before: seq<Packet>, p: Packet)
    requires SentOk(sent) && AllPieces(sent, before) && AllPieces(sent, before + [p]) && IsPiece(sent, p)
    requires Paints(sent, before)
    ensures Paints(sent, before + [p])
  {
    StepPaints(sent, before, p, ReceiveAll(before));
    ReceiveSnoc(before, p);
    CompletionsSnoc(sent, before, p);
    forall id | id in sent ensures Follows(sent, before + [p], ReceiveAll(before + [p]), id) {
      OthersFollow(sent, before, p, ReceiveAll(before), id);
    }
  }

  /** For all pieces, whatever overlaps and however often it arrives: the count and the bytes of every
      unfinished frame are those of its round, and each completion is what its round has painted. */
  lemma {:induction false} ReassemblyPaints(sent: Sent, ps: seq<Packet>)
    requires SentOk(sent) && AllPieces(sent, ps)
    ensures CanReceiveAll(ps)
    ensures forall id | id in sent :: Follows(sent, ps, ReceiveAll(ps), id)
    ensures ReceiveAll(ps).log == Completions(sent, ps)
  {
    AllPaint(sent, ps);
  }

  lemma {:induction false} AllPaint(sent: Sent, ps: seq<Packet>)
    requires SentOk(sent) && AllPieces(sent, ps)
    ensures Paints(sent, ps)
    decreases ps
  {
    if ps != [] {
      var before, p := ps[..|ps| - 1], ps[|ps| - 1];
      AllPaint(sent, before);
      assert ps == before + [p];
      PaintsSnoc(sent, before, p);
    }
  }

  // ---- When a completion is right ----

  ghost predicate OfFrame(sent: Sent, r: seq<Packet>, id: FrameId) {
    id in sent && forall k | 0 <= k < |r| :: IsPiece(sent, r[k]) && IdOf(r[k]) == id
  }

  predicate NoOverlaps(r: seq<Packet>) { forall j, k | 0 <= j < k < |r| :: !Overlap(r[j], r[k]) }

  predicate EveryByte(original: seq<byte>, r: seq<Packet>, id: FrameId) { Covered(r, id) == Range(0, |original|) }

  lemma UnionSize(a: set<nat>, b: set<nat>)
    ensures |a + b| <= |a| + |b| && (|a + b| == |a| + |b| <==> a !! b)
  {
    assert a + b == a + (b - a) && b == (b - a) + (b * a);
    assert |a + b| == |a| + |b - a| && |b| == |b - a| + |b * a|;
  }

  lemma {:induction false} DisjointFromLast(sent: Sent, before: seq<Packet>, p: Packet, id: FrameId)
    requires OfFrame(sent, before + [p], id)
    ensures Covered(before, id) !! BytesOf(p) <==> forall j | 0 <= j < |before| :: !Overlap(before[j], p)
  {
    var ps := before + [p];
    assert IsPiece(sent, ps[|before|]) && IdOf(ps[|before|]) == id;
    forall j | 0 <= j < |before| ensures IsPiece(sent, before[j]) && IdOf(before[j]) == id {
      assert ps[j] == before[j];
    }
    if j :| 0 <= j < |before| && Overlap(before[j], p) {
      var q := before[j].header;
      var x := if q.seqOffset >= p.header.seqOffset then q.seqOffset else p.header.seqOffset;
      CoveredBy(before, id, x);
      assert x in BytesOf(before[j]) && x in BytesOf(p) && x in Covered(before, id);
    }
    if x :| x in Covered(before, id) && x in BytesOf(p) {
      CoveredBy(before, id, x);
      var j :| 0 <= j < |before| && IdOf(before[j]) == id && x in BytesOf(before[j]);
      assert Overlap(before[j], p);
    }
  }

  lemma {:induction false} NoOverlapsSnoc(before: seq<Packet>, p: Packet)
    ensures NoOverlaps(before + [p]) <==> NoOverlaps(before) && forall j | 0 <= j < |before| :: !Overlap(before[j], p)
  {
    var r := before + [p];
    assert r[|before|] == p && forall j | 0 <= j < |before| :: r[j] == before[j];
  }

  ghost predicate SizeRight(r: seq<Packet>, id: FrameId) {
    |Covered(r, id)| <= Total(r) && (|Covered(r, id)| == Total(r) <==> NoOverlaps(r))
  }

  lemma SizeSnoc(sent: Sent, before: seq<Packet>, p: Packet, id: FrameId)
    requires OfFrame(sent, before + [p], id) && SizeRight(before, id)
    ensures SizeRight(before + [p], id)
  {
    assert (before + [p])[|before|] == p;
    CoveredSnoc(before, p, id);
    TotalSnoc(before, p);
    RangeSize(p.header.seqOffset, p.header.seqOffset + |p.data|);
    UnionSize(Covered(before, id), BytesOf(p));
    DisjointFromLast(sent, before, p, id);
    NoOverlapsSnoc(before, p);
  }

  /** Fragments cover at most as many positions as they have bytes, and exactly as many if and only if
      no two of them overlap. */
  lemma {:induction false} CoveredSize(sent: Sent, r: seq<Packet>, id: FrameId)
    requires OfFrame(sent, r, id)
    ensures SizeRight(r, id)
    decreases |r|
  {
    if r != [] {
      var before, p := r[..|r| - 1], r[|r| - 1];
      CoveredSize(sent, before, id);
      SizeSnoc(sent, before, p, id);
      assert r == before + [p];
    }
  }

  lemma {:induction false} CoveredInFrame(sent: Sent, r: seq<Packet>, id: FrameId)
    requires OfFrame(sent, r, id)
    ensures Covered(r, id) <= Range(0, |sent[id]|)
    ensures |Covered(r, id)| <= |sent[id]|
    ensures |Covered(r, id)| == |sent[id]| <==> EveryByte(sent[id], r, id)
  {
    forall i | i in Covered(r, id) ensures i in Range(0, |sent[id]|) {
      CoveredBy(r, id, i);
      var k :| 0 <= k < |r| && IdOf(r[k]) == id && i in BytesOf(r[k]);
      assert IsPiece(sent, r[k]);
    }
    SubsetSize(Covered(r, id), |sent[id]|);
  }

  /** Fragments of a frame whose lengths add up to its length bring every byte if and only if no two of
      them overlap. Where every byte has arrived, overlaps make the lengths add up to more. */
  lemma {:induction false} EveryByteIffNoOverlaps(sent: Sent, r: seq<Packet>, id: FrameId)
    requires OfFrame(sent, r, id)
    ensures Total(r) == |sent[id]| ==> (EveryByte(sent[id], r, id) <==> NoOverlaps(r))
    ensures EveryByte(sent[id], r, id) ==> Total(r) >= |sent[id]| && (Total(r) == |sent[id]| <==> NoOverlaps(r))
  {
    CoveredSize(sent, r, id);
    CoveredInFrame(sent, r, id);
  }

  /** With the count modulo 2^32: a round that is taken for complete has brought every byte, and has not
      wrapped around, if and only if no two of its fragments overlap. */
  lemma {:induction false} CompleteRoundRightIff(sent: Sent, r: seq<Packet>, id: FrameId)
    requires SentOk(sent) && OfFrame(sent, r, id) && Reaches(sent[id], r)
    ensures EveryByte(sent[id], r, id) && Total(r) < 0x1_0000_0000 <==> NoOverlaps(r)
  {
    EveryByteIffNoOverlaps(sent, r, id);
    CoveredSize(sent, r, id);
    CoveredInFrame(sent, r, id);
  }

  /** The data is the original if and only if the bytes that did not arrive happen to be zero. */
  lemma PaintIsOriginalIff(original: seq<byte>, c: set<nat>)
    ensures Paint(original, c) == original <==> forall i | 0 <= i < |original| && i !in c :: original[i] == 0
  {
    if forall i | 0 <= i < |original| && i !in c :: original[i] == 0 {
      assert forall i | 0 <= i < |original| :: Paint(original, c)[i] == original[i];
    } else {
      var i :| 0 <= i < |original| && i !in c && original[i] != 0;
      assert Paint(original, c)[i] != original[i];
    }
  }

  lemma {:induction false} RoundOfFrame(sent: Sent, ps: seq<Packet>, id: FrameId)
    requires AllPieces(sent, ps) && id in sent
    ensures OfFrame(sent, Round(sent, ps, id), id)
    decreases ps
  {
    if ps != [] {
      assert AllPieces(sent, ps[..|ps| - 1]);
      assert IsPiece(sent, ps[|ps| - 1]);
      RoundOfFrame(sent, ps[..|ps| - 1], id);
    }
  }

  /** The count of a round reaches the length, with every byte arrived and without a wrap, if and only if
      its lengths add up and no two of its fragments overlap. */
  lemma {:induction false} RoundRightIff(sent: Sent, r: seq<Packet>, id: FrameId)
    requires SentOk(sent) && OfFrame(sent, r, id)
    ensures Reaches(sent[id], r) && EveryByte(sent[id], r, id) && Total(r) < 0x1_0000_0000
            <==> Total(r) == |sent[id]| && NoOverlaps(r)
  {
    EveryByteIffNoOverlaps(sent, r, id);
  }

  lemma {:induction false} LogSteps(sent: Sent, before: seq<Packet>, p: Packet)
    requires SentOk(sent) && AllPieces(sent, before) && AllPieces(sent, before + [p]) && IsPiece(sent, p)
    ensures CanReceiveAll(before) && CanReceiveAll(before + [p])
    ensures var id := IdOf(p); var r := Round(sent, before, id) + [p];
            ReceiveAll(before + [p]).log == ReceiveAll(before).log +
              if Reaches(sent[id], r) then [Completion(id, Paint(sent[id], Covered(r, id)))] else []
  {
    ReassemblyPaints(sent, before);
    ReassemblyPaints(sent, before + [p]);
    CompletionsSnoc(sent, before, p);
  }

  /** One packet after any others. It completes its frame exactly when the count of its round reaches
      the length; and it completes it with every byte arrived, without a wrap of the count, if and only
      if the lengths add up and no two fragments of the round overlap. */
  lemma {:induction false} CompletionRightIff(sent: Sent, before: seq<Packet>, p: Packet)
    requires SentOk(sent) && AllPieces(sent, before) && IsPiece(sent, p)
    ensures CanReceiveAll(before) && CanReceiveAll(before + [p])
    ensures var id := IdOf(p); var r := Round(sent, before, id) + [p];
            && ReceiveAll(before + [p]).log == ReceiveAll(before).log +
                 (if Reaches(sent[id], r) then [Completion(id, Paint(sent[id], Covered(r, id)))] else [])
            && (Reaches(sent[id], r) && EveryByte(sent[id], r, id) && Total(r) < 0x1_0000_0000
                <==> Total(r) == |sent[id]| && NoOverlaps(r))
  {
    LogSteps(sent, before, p);
    RoundOfFrame(sent, before, IdOf(p));
    RoundRightIff(sent, Round(sent, before, IdOf(p)) + [p], IdOf(p));
  }

  // ---- What overlapping fragments do instead ----

  function Select(ps: seq<Packet>, id: FrameId): seq<Packet> {
    if ps == [] then []
    else Select(ps[..|ps| - 1], id) + if IdOf(ps[|ps| - 1]) == id then [ps[|ps| - 1]] else []
  }

  /** How many times the frame has been taken for complete. */
  function Times(log: seq<Completion>, id: FrameId): nat {
    if log == [] then 0 else Times(log[..|log| - 1], id) + if log[|log| - 1].id == id then 1 else 0
  }

  lemma {:induction false} TotalConcat(a: seq<Packet>, b: seq<Packet>)
    ensures Total(a + b) == Total(a) + Total(b)
    decreases |b|
  {
    if b == [] {
      assert a + b == a;
    } else {
      assert (a + b)[..|a + b| - 1] == a + b[..|b| - 1];
      TotalConcat(a, b[..|b| - 1]);
    }
  }

  lemma TimesSnoc(log: seq<Completion>, c: Completion, id: FrameId)
    ensures Times(log + [c], id) == Times(log, id) + if c.id == id then 1 else 0
  {
    assert (log + [c])[..|log|] == log;
  }

  lemma {:induction false} TimesStep(sent: Sent, before: seq<Packet>, p: Packet, id: FrameId)
    requires AllPieces(sent, before + [p]) && AllPieces(sent, before) && id in sent
    ensures Times(Completions(sent, before + [p]), id) == Times(Completions(sent, before), id) +
              if IdOf(p) == id && Reaches(sent[id], Round(sent, before, id) + [p]) then 1 else 0
  {
    assert IsPiece(sent, (before + [p])[|before|]);
    CompletionsSnoc(sent, before, p);
    var r := Round(sent, before, IdOf(p)) + [p];
    var log := Completions(sent, before);
    if Reaches(sent[IdOf(p)], r) {
      TimesSnoc(log, Completion(IdOf(p), Paint(sent[IdOf(p)], Covered(r, IdOf(p)))), id);
    } else {
      assert log + [] == log;
    }
  }

  lemma {:induction false} SelectSnoc(before: seq<Packet>, p: Packet, id: FrameId)
    ensures Select(before + [p], id) == if IdOf(p) == id then Select(before, id) + [p] else Select(before, id)
  {
    assert (before + [p])[..|before|] == before;
  }

  lemma OvershotNotReached(original: seq<byte>, r: seq<Packet>, p: Packet)
    requires |original| < Total(r) && Total(r) + |p.data| < 0x1_0000_0000
    ensures !Reaches(original, r + [p])
  {
    TotalSnoc(r, p);
    SmallMod(Total(r + [p]));
  }

  /** One more fragment after the count has overshot. */
  lemma {:induction false} OvershotStep(sent: Sent, before: seq<Packet>, p: Packet, id: FrameId)
    requires SentOk(sent) && AllPieces(sent, before) && AllPieces(sent, before + [p]) && id in sent
    requires |sent[id]| < Total(Round(sent, before, id))
    requires IdOf(p) == id ==> Total(Round(sent, before, id)) + |p.data| < 0x1_0000_0000
    ensures Round(sent, before + [p], id) == Round(sent, before, id) + if IdOf(p) == id then [p] else []
    ensures Times(Completions(sent, before + [p]), id) == Times(Completions(sent, before), id)
  {
    if IdOf(p) == id {
      OvershotNotReached(sent[id], Round(sent, before, id), p);
    }
    RoundSnoc(sent, before, p, id);
    TimesStep(sent, before, p, id);
  }

  lemma Associative(a: seq<Packet>, b: seq<Packet>, p: Packet)
    ensures a + (b + [p]) == (a + b) + [p]
  {
  }

  /** After `more` the count is still in the round it was in after `ps`. */
  ghost predicate StillOvershot(sent: Sent, ps: seq<Packet>, more: seq<Packet>, id: FrameId)
    requires AllPieces(sent, ps) && AllPieces(sent, ps + more) && id in sent
  {
    && Round(sent, ps + more, id) == Round(sent, ps, id) + Select(more, id)
    && Times(Completions(sent, ps + more), id) == Times(Completions(sent, ps), id)
  }

  lemma {:induction false} StillOvershotSnoc(sent: Sent, ps: seq<Packet>, before: seq<Packet>, p: Packet, id: FrameId)
    requires SentOk(sent) && id in sent && AllPieces(sent, ps)
    requires AllPieces(sent, ps + before) && AllPieces(sent, ps + (before + [p]))
    requires Total(Round(sent, ps, id)) > |sent[id]|
    requires Total(Round(sent, ps, id)) + Total(Select(before + [p], id)) < 0x1_0000_0000
    requires StillOvershot(sent, ps, before, id)
    ensures StillOvershot(sent, ps, before + [p], id)
  {
    var m, r := ps + before, Round(sent, ps, id);
    Associative(ps, before, p);
    SelectSnoc(before, p, id);
    TotalSnoc(Select(before, id), p);
    TotalConcat(r, Select(before, id));
    OvershotStep(sent, m, p, id);
    Associative(r, Select(before, id), p);
  }

  lemma {:induction false} SelectTotal(more: seq<Packet>, id: FrameId)
    requires more != []
    ensures Total(Select(more[..|more| - 1], id)) <= Total(Select(more, id))
  {
    TotalSnoc(Select(more[..|more| - 1], id), more[|more| - 1]);
    assert Select(more[..|more| - 1], id) + [] == Select(more[..|more| - 1], id);
  }

  /** A count that has overshot: however many fragments follow, the frame is not taken for complete
      again, until the 32-bit count wraps around. */
  lemma {:induction false} OvershotNeverCompletes(sent: Sent, ps: seq<Packet>, more: seq<Packet>, id: FrameId)
    requires SentOk(sent) && AllPieces(sent, ps) && AllPieces(sent, ps + more) && id in sent
    requires Total(Round(sent, ps, id)) > |sent[id]|
    requires Total(Round(sent, ps, id)) + Total(Select(more, id)) < 0x1_0000_0000
    ensures Round(sent, ps + more, id) == Round(sent, ps, id) + Select(more, id)
    ensures Times(Completions(sent, ps + more), id) == Times(Completions(sent, ps), id)
    decreases |more|
  {
    if more == [] {
      assert ps + more == ps;
    } else {
      var before, p := more[..|more| - 1], more[|more| - 1];
      assert AllPieces(sent, ps + before) by {
        assert forall k | 0 <= k < |ps + before| :: (ps + before)[k] == (ps + more)[k];
      }
      SelectTotal(more, id);
      OvershotNeverCompletes(sent, ps, before, id);
      assert more == before + [p];
      StillOvershotSnoc(sent, ps, before, p, id);
    }
  }

  lemma {:induction false} CoveredSelect(ps: seq<Packet>, id: FrameId)
    ensures Covered(Select(ps, id), id) == Covered(ps, id)
    decreases ps
  {
    if ps != [] {
      var before, p := ps[..|ps| - 1], ps[|ps| - 1];
      CoveredSelect(before, id);
      if IdOf(p) == id {
        CoveredSnoc(Select(before, id), p, id);
      } else {
        assert Select(before, id) + [] == Select(before, id);
      }
    }
  }

  lemma {:induction false} NeverCompletedBefore(sent: Sent, before: seq<Packet>, p: Packet, id: FrameId)
    requires AllPieces(sent, before) && AllPieces(sent, before + [p]) && id in sent
    ensures var times := Times(Completions(sent, before + [p]), id);
            times == 0 ==>
              && Times(Completions(sent, before), id) == 0
              && !(IdOf(p) == id && Reaches(sent[id], Round(sent, before, id) + [p]))
  {
    TimesStep(sent, before, p, id);
  }

  lemma {:induction false} NeverCompleted(sent: Sent, ps: seq<Packet>, id: FrameId)
    requires AllPieces(sent, ps) && id in sent && Times(Completions(sent, ps), id) == 0
    ensures Round(sent, ps, id) == Select(ps, id)
    ensures Select(ps, id) != [] ==> !Reaches(sent[id], Select(ps, id))
    decreases ps
  {
    if ps != [] {
      var before, p := ps[..|ps| - 1], ps[|ps| - 1];
      NeverCompletedBefore(sent, before, p, id);
      assert before + [p] == ps;
      NeverCompleted(sent, before, id);
    }
  }

  lemma {:induction false} FullButNotReached(sent: Sent, r: seq<Packet>, id: FrameId)
    requires SentOk(sent) && OfFrame(sent, r, id) && EveryByte(sent[id], r, id)
    requires Total(r) < 0x1_0000_0000 && (r != [] ==> !Reaches(sent[id], r))
    ensures Total(r) > |sent[id]| && !NoOverlaps(r)
  {
    EveryByteIffNoOverlaps(sent, r, id);
    RangeSize(0, |sent[id]|);
  }

  /** A frame all of whose bytes have arrived, but that was never taken for complete: its fragments
      overlap and its count has overshot, so it never will be. Without overlaps it was completed. */
  lemma {:induction false} FullDeliveryOutcome(sent: Sent, ps: seq<Packet>, id: FrameId)
    requires SentOk(sent) && AllPieces(sent, ps) && id in sent
    requires EveryByte(sent[id], ps, id) && Total(Select(ps, id)) < 0x1_0000_0000
    ensures Times(Completions(sent, ps), id) == 0 ==>
      Round(sent, ps, id) == Select(ps, id) && Total(Select(ps, id)) > |sent[id]| && !NoOverlaps(Select(ps, id))
    ensures NoOverlaps(Select(ps, id)) ==> Times(Completions(sent, ps), id) > 0
  {
    if Times(Completions(sent, ps), id) == 0 {
      NeverCompleted(sent, ps, id);
      RoundOfFrame(sent, ps, id);
      CoveredSelect(ps, id);
      FullButNotReached(sent, Select(ps, id), id);
    }
  }

  /** A round in which two fragments overlap and that is taken for complete before its count wraps
      around: a byte is missing. */
  lemma {:induction false} OverlapMissesByte(sent: Sent, r: seq<Packet>, id: FrameId)
    requires SentOk(sent) && OfFrame(sent, r, id) && Reaches(sent[id], r) && Total(r) < 0x1_0000_0000 && !NoOverlaps(r)
    ensures exists i :: 0 <= i < |sent[id]| && i !in Covered(r, id) && Paint(sent[id], Covered(r, id))[i] == 0
  {
    CompleteRoundRightIff(sent, r, id);
    CoveredInFrame(sent, r, id);
    var i :| i in Range(0, |sent[id]|) && i !in Covered(r, id);
    assert Paint(sent[id], Covered(r, id))[i] == 0;
  }
}
