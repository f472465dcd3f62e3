/** The interceptor that numbers the packets of each outgoing stream by itself, whatever track the
    packets come from. */
module SequenceNumbers {
  import opened Registry

  const UINT16_LIMIT := 0x1_0000

  function Successor(n: nat): nat { (n + 1) % UINT16_LIMIT }

  class Header {
    var sequenceNumber: nat

    constructor (sequenceNumber: nat)
      ensures this.sequenceNumber == sequenceNumber
    {
      this.sequenceNumber := sequenceNumber;
    }
  }

  /** The numbers are 0, 1, 2, ... modulo 2^16. */
  ghost predicate Numbered(numbers: seq<nat>) { forall k | 0 <= k < |numbers| :: numbers[k] == k % 65536 }

  /** What BindLocalStream captures for one stream. */
  class LocalStream {
    var seqNr: nat
    /** The numbers written so far. */
    ghost var written: seq<nat>

    ghost predicate Valid()
      reads this
    {
      seqNr == |written| % UINT16_LIMIT && Numbered(written)
    }

    constructor ()
      ensures Valid() && written == []
    {
      seqNr, written := 0, [];
    }

    method Write(header: Header)
      requires Valid()
      modifies this, header
      ensures Valid() && written == old(written) + [header.sequenceNumber]
      ensures header.sequenceNumber == |old(written)| % 65536
    {
      header.sequenceNumber := seqNr;
      written := written + [seqNr];
      seqNr := Successor(seqNr);
    }
  }

  // ---- All streams of the SFU ----

  /** A packet of a track, with the number it came with and the number it went out with. */
  datatype Sent = Sent(track: TrackLocal, was: nat, number: nat)

  /** What each sender carries, its next number, and the packets it sent. */
  datatype Streams = Streams(
    carried: map<RTPSender, TrackLocal?>, next: map<RTPSender, nat>, sent: map<RTPSender, seq<Sent>>)

  /** A sender is bound to a new stream, replaces its track, is removed; a packet of a track arrives. */
  datatype Event =
    | Bind(x: RTPSender, carried: TrackLocal?)
    | Switch(x: RTPSender, carried: TrackLocal?)
    | Remove(x: RTPSender)
    | Arrive(t: TrackLocal, number: nat)

  const NoStreams := Streams(map[], map[], map[])

  predicate Enabled(s: Streams, e: Event) {
    match e
    case Bind(x, _) => x !in s.next
    case Switch(x, _) => x in s.carried
    case Remove(x) => x in s.carried
    case Arrive(_, _) => true
  }

  predicate Takes(s: Streams, x: RTPSender, t: TrackLocal) { x in s.carried && s.carried[x] == t }

  predicate Bound(s: Streams) {
    s.carried.Keys <= s.next.Keys && s.next.Keys == s.sent.Keys
  }

  /** Every sender that carries the track sends the packet. */
  function Forward(s: Streams, t: TrackLocal, number: nat): Streams
    requires Bound(s)
  {
    s.(next := map x | x in s.next :: if Takes(s, x, t) then Successor(s.next[x]) else s.next[x],
       sent := map x | x in s.sent :: if Takes(s, x, t) then s.sent[x] + [Sent(t, number, s.next[x])] else s.sent[x])
  }

  function Apply(s: Streams, e: Event): (s': Streams)
    requires Bound(s) && Enabled(s, e)
    ensures Bound(s')
  {
    match e
    case Bind(x, t) => Streams(s.carried[x := t], s.next[x := 0], s.sent[x := []])
    case Switch(x, t) => s.(carried := s.carried[x := t])
    case Remove(x) => s.(carried := s.carried - {x})
    case Arrive(t, number) => Forward(s, t, number)
  }

  predicate CanRun(s: Streams, es: seq<Event>)
    requires Bound(s)
    decreases es
  {
    es == [] || (Enabled(s, es[0]) && CanRun(Apply(s, es[0]), es[1..]))
  }

  function Run(s: Streams, es: seq<Event>): (s': Streams)
    requires Bound(s) && CanRun(s, es)
    ensures Bound(s')
    decreases es
  {
    if es == [] then s else Run(Apply(s, es[0]), es[1..])
  }

  function Numbers(ps: seq<Sent>): (ns: seq<nat>)
    ensures |ns| == |ps| && forall k | 0 <= k < |ps| :: ns[k] == ps[k].number
  {
    seq(|ps|, k requires 0 <= k < |ps| => ps[k].number)
  }

  ghost predicate Inv(s: Streams)
    requires Bound(s)
  {
    forall x | x in s.next :: s.next[x] == |s.sent[x]| % UINT16_LIMIT && Numbered(Numbers(s.sent[x]))
  }

  lemma SuccessorOfCount(n: nat)
    ensures Successor(n % UINT16_LIMIT) == (n + 1) % UINT16_LIMIT
  {
  }

  lemma StepInv(s: Streams, e: Event)
    requires Bound(s) && Inv(s) && Enabled(s, e)
    ensures Inv(Apply(s, e))
  {
    if e.Arrive? {
      forall x | x in s.next { SuccessorOfCount(|s.sent[x]|); }
    }
  }

  lemma {:induction false} RunInv(s: Streams, es: seq<Event>)
    requires Bound(s) && Inv(s) && CanRun(s, es)
    ensures Inv(Run(s, es))
    decreases es
  {
    if es != [] {
      StepInv(s, es[0]);
      RunInv(Apply(s, es[0]), es[1..]);
    }
  }

  /** In any run, however the packets of the tracks and the switches interleave, the k-th packet of a
      stream goes out with number k modulo 2^16, whatever number and track it came with. */
  lemma NumbersOfEachStream(es: seq<Event>, x: RTPSender, k: nat)
    requires CanRun(NoStreams, es) && x in Run(NoStreams, es).sent && k < |Run(NoStreams, es).sent[x]|
    ensures Run(NoStreams, es).sent[x][k].number == k % 65536
  {
    RunInv(NoStreams, es);
    assert Numbers(Run(NoStreams, es).sent[x])[k] == k % 65536;
  }

  /** So the number increases by one from packet to packet, also over a switch of the track, as section
      5.1 of RFC 3550 asks. */
  lemma NoJumpAtSwitch(es: seq<Event>, x: RTPSender, k: nat)
    requires CanRun(NoStreams, es) && x in Run(NoStreams, es).sent && k + 1 < |Run(NoStreams, es).sent[x]|
    ensures var ps := Run(NoStreams, es).sent[x]; ps[k + 1].number == (ps[k].number + 1) % 65536
  {
    NumbersOfEachStream(es, x, k);
    NumbersOfEachStream(es, x, k + 1);
    SuccessorOfCount(k);
  }

  // ---- Packets and tracks ----

  /** The event gives the sender the track to carry. */
  predicate Gives(e: Event, x: RTPSender, t: TrackLocal?) { (e.Bind? || e.Switch?) && e.x == x && e.carried == t }

  /** The event decides what the sender carries from then on. */
  predicate Decides(e: Event, x: RTPSender) { !e.Arrive? && e.x == x }

  /** The event at `j` gives the sender the track, and no later one decides for it. */
  ghost predicate GivenAt(es: seq<Event>, j: nat, x: RTPSender, t: TrackLocal?) {
    j < |es| && Gives(es[j], x, t) && forall k | j < k < |es| :: !Decides(es[k], x)
  }

  /** The last event that decided for the sender gave it the track. */
  ghost predicate LastGiven(es: seq<Event>, x: RTPSender, t: TrackLocal?) { exists j :: GivenAt(es, j, x, t) }

  /** What there is to hear for the sender in the events: the packets of the track it was given last. */
  ghost function HeardIn(es: seq<Event>, x: RTPSender): seq<(TrackLocal, nat)> {
    if es == [] then []
    else
      var before, e := es[..|es| - 1], es[|es| - 1];
      if e.Arrive? && LastGiven(before, x, e.t) then HeardIn(before, x) + [(e.t, e.number)] else HeardIn(before, x)
  }

  lemma GivenAtMore(es: seq<Event>, e: Event, j: nat, x: RTPSender, t: TrackLocal?)
    ensures GivenAt(es + [e], j, x, t) <==>
            if Decides(e, x) then j == |es| && Gives(e, x, t) else GivenAt(es, j, x, t)
  {
    var more := es + [e];
    assert more[|es|] == e;
    if GivenAt(more, j, x, t) && j < |es| {
      assert forall k | j < k < |es| :: es[k] == more[k];
    }
  }

  lemma LastGivenMore(es: seq<Event>, e: Event, x: RTPSender, t: TrackLocal?)
    ensures LastGiven(es + [e], x, t) <==> if Decides(e, x) then Gives(e, x, t) else LastGiven(es, x, t)
  {
    forall j: nat { GivenAtMore(es, e, j, x, t); }
    if Decides(e, x) && Gives(e, x, t) {
      assert GivenAt(es + [e], |es|, x, t);
    }
  }

  lemma {:induction false} RunMore(s: Streams, es: seq<Event>, e: Event)
    requires Bound(s) && CanRun(s, es + [e])
    ensures CanRun(s, es) && Enabled(Run(s, es), e) && Run(s, es + [e]) == Apply(Run(s, es), e)
    decreases es
  {
    var more := es + [e];
    if es == [] {
      assert more[1..] == [];
    } else {
      assert more[1..] == es[1..] + [e];
      RunMore(Apply(s, es[0]), es[1..], e);
    }
  }

  lemma RunLast(es: seq<Event>)
    requires CanRun(NoStreams, es) && es != []
    ensures var before, e := es[..|es| - 1], es[|es| - 1];
            && CanRun(NoStreams, before) && Enabled(Run(NoStreams, before), e)
            && Run(NoStreams, es) == Apply(Run(NoStreams, before), e)
  {
    assert es == es[..|es| - 1] + [es[|es| - 1]];
    RunMore(NoStreams, es[..|es| - 1], es[|es| - 1]);
  }

  /** What a sender carries after a run is what it was given last. */
  lemma {:induction false} CarriesLastGiven(es: seq<Event>, x: RTPSender, t: TrackLocal?)
    requires CanRun(NoStreams, es)
    ensures var s := Run(NoStreams, es); x in s.carried && s.carried[x] == t <==> LastGiven(es, x, t)
  {
    if es != [] {
      var before, e := es[..|es| - 1], es[|es| - 1];
      RunLast(es);
      CarriesLastGiven(before, x, t);
      assert es == before + [e];
      LastGivenMore(before, e, x, t);
    }
  }

  /** A packet that arrives is sent on exactly the streams whose sender was given its track last, behind what
      they sent before; no other stream sends anything. */
  lemma SentIffGivenLast(es: seq<Event>, t: TrackLocal, number: nat, x: RTPSender)
    requires CanRun(NoStreams, es + [Arrive(t, number)])
    ensures CanRun(NoStreams, es)
    ensures var sent, sent' := Run(NoStreams, es).sent, Run(NoStreams, es + [Arrive(t, number)]).sent;
            && (x in sent' <==> x in sent)
            && (LastGiven(es, x, t) ==> x in sent && sent'[x] == sent[x] + [Sent(t, number, |sent[x]| % 65536)])
            && (!LastGiven(es, x, t) && x in sent ==> sent'[x] == sent[x])
  {
    RunMore(NoStreams, es, Arrive(t, number));
    CarriesLastGiven(es, x, t);
    RunInv(NoStreams, es);
  }

  function Origins(ps: seq<Sent>): (r: seq<(TrackLocal, nat)>)
    ensures |r| == |ps| && forall k | 0 <= k < |ps| :: r[k] == (ps[k].track, ps[k].was)
  {
    seq(|ps|, k requires 0 <= k < |ps| => (ps[k].track, ps[k].was))
  }

  /** The packets sent on the stream so far; none before it is bound. */
  function SentOn(s: Streams, x: RTPSender): seq<(TrackLocal, nat)> { if x in s.sent then Origins(s.sent[x]) else [] }

  lemma OriginsMore(ps: seq<Sent>, p: Sent)
    ensures Origins(ps + [p]) == Origins(ps) + [(p.track, p.was)]
  {
  }

  /** A stream sends exactly the packets, in order, of the track that its sender was given last. */
  lemma {:induction false} SendsWhatItCarries(es: seq<Event>, x: RTPSender)
    requires CanRun(NoStreams, es)
    ensures SentOn(Run(NoStreams, es), x) == HeardIn(es, x)
  {
    if es != [] {
      var before, e := es[..|es| - 1], es[|es| - 1];
      RunLast(es);
      SendsWhatItCarries(before, x);
      assert es == before + [e];
      if e.Arrive? {
        var s := Run(NoStreams, before);
        SentIffGivenLast(before, e.t, e.number, x);
        if x in s.sent && LastGiven(before, x, e.t) {
          OriginsMore(s.sent[x], Sent(e.t, e.number, |s.sent[x]| % 65536));
        }
      }
    }
  }
}
