/**
 The registry together with the streams its senders are bound to: packets of the tracks arrive between
 the steps of the registry, and each stream numbers what its sender forwards.
 */
module Forwarding {
  import opened Registry
  import opened RegistryInvariant
  import opened RegistryRuns
  import S = SequenceNumbers

  /** What the senders of all listed peers carry. */
  function Carrying(ps: seq<Peer>): map<RTPSender, TrackLocal?> {
    if ps == [] then map[] else Carrying(ps[1..]) + ps[0].senders
  }

  lemma {:induction false} CarryingKeys(ps: seq<Peer>, x: RTPSender)
    ensures x in Carrying(ps) <==> exists i :: 0 <= i < |ps| && x in ps[i].senders
  {
    if ps != [] {
      CarryingKeys(ps[1..], x);
      if i :| 0 <= i < |ps[1..]| && x in ps[1..][i].senders {
        assert x in ps[i + 1].senders;
      }
      if i :| 0 <= i < |ps| && x in ps[i].senders && i > 0 {
        assert x in ps[1..][i - 1].senders;
      }
    }
  }

  /** Each sender carries what its peer says. */
  lemma {:induction false} CarryingAt(ps: seq<Peer>, i: nat, x: RTPSender)
    requires SendersDisjoint(ps) && i < |ps| && x in ps[i].senders
    ensures x in Carrying(ps) && Carrying(ps)[x] == ps[i].senders[x]
  {
    if i > 0 {
      assert SendersDisjoint(ps[1..]);
      CarryingAt(ps[1..], i - 1, x);
      assert ps[0].senders.Keys !! ps[i].senders.Keys;
    }
  }

  // ---- Streams that follow the senders ----

  /** The senders carry other tracks now, some are gone, and new ones are bound to new streams. */
  function Follow(s: S.Streams, carried: map<RTPSender, TrackLocal?>): (s': S.Streams)
    requires S.Bound(s)
    ensures S.Bound(s') && s'.carried == carried
    ensures forall x | x in s.next :: x in s'.next && s'.next[x] == s.next[x] && s'.sent[x] == s.sent[x]
  {
    S.Streams(carried,
              map x | x in s.next.Keys + carried.Keys :: if x in s.next then s.next[x] else 0,
              map x | x in s.next.Keys + carried.Keys :: if x in s.next then s.sent[x] else [])
  }

  /** Binding, switching and removing, but no packet. */
  predicate NoPacket(e: S.Event) { !e.Arrive? }

  function Differing(s: S.Streams, carried: map<RTPSender, TrackLocal?>): set<RTPSender> {
    set x | x in s.carried.Keys + carried.Keys && !(x in s.carried && x in carried && s.carried[x] == carried[x])
  }

  function EventFor(s: S.Streams, carried: map<RTPSender, TrackLocal?>, x: RTPSender): S.Event
    requires x in Differing(s, carried)
  {
    if x !in carried then S.Remove(x) else if x in s.carried then S.Switch(x, carried[x]) else S.Bind(x, carried[x])
  }

  lemma OneEvent(s: S.Streams, carried: map<RTPSender, TrackLocal?>, x: RTPSender)
    requires S.Bound(s) && (carried.Keys - s.carried.Keys) !! s.next.Keys && x in Differing(s, carried)
    ensures var e := EventFor(s, carried, x);
            && S.Enabled(s, e) && NoPacket(e)
            && var s' := S.Apply(s, e);
            && Differing(s', carried) == Differing(s, carried) - {x}
            && (carried.Keys - s'.carried.Keys) !! s'.next.Keys
            && Follow(s', carried) == Follow(s, carried)
  {
    var s' := S.Apply(s, EventFor(s, carried, x));
    assert Follow(s', carried).next == Follow(s, carried).next;
    assert Follow(s', carried).sent == Follow(s, carried).sent;
    OneLessDiffers(s, carried, x);
  }

  lemma OneLessDiffers(s: S.Streams, carried: map<RTPSender, TrackLocal?>, x: RTPSender)
    requires S.Bound(s) && (carried.Keys - s.carried.Keys) !! s.next.Keys && x in Differing(s, carried)
    ensures S.Enabled(s, EventFor(s, carried, x))
    ensures Differing(S.Apply(s, EventFor(s, carried, x)), carried) == Differing(s, carried) - {x}
  {
  }

  lemma NoDifference(s: S.Streams, carried: map<RTPSender, TrackLocal?>)
    requires S.Bound(s) && Differing(s, carried) == {}
    ensures Follow(s, carried) == s
  {
    assert forall x | x in s.carried.Keys + carried.Keys :: x !in Differing(s, carried);
    assert carried == s.carried;
    assert Follow(s, carried).next == s.next && Follow(s, carried).sent == s.sent;
  }

  /** Following is a run of the streams in which no packet arrives. */
  lemma {:induction false} FollowIsRun(s: S.Streams, carried: map<RTPSender, TrackLocal?>) returns (es: seq<S.Event>)
    requires S.Bound(s) && (carried.Keys - s.carried.Keys) !! s.next.Keys
    ensures S.CanRun(s, es) && S.Run(s, es) == Follow(s, carried) && forall e | e in es :: NoPacket(e)
    decreases Differing(s, carried)
  {
    if Differing(s, carried) == {} {
      NoDifference(s, carried);
      es := [];
    } else {
      var x :| x in Differing(s, carried);
      var e := EventFor(s, carried, x);
      OneEvent(s, carried, x);
      var rest := FollowIsRun(S.Apply(s, e), carried);
      es := [e] + rest;
      assert es[0] == e && es[1..] == rest;
    }
  }

  // ---- Registry and streams ----

  datatype Both = Both(registry: State, streams: S.Streams)

  datatype Event = Step(l: Label) | Packet(t: TrackLocal, number: nat)

  const Start := Both(Initial, S.NoStreams)

  /** Pion makes a new sender for every track it adds. */
  ghost predicate Possible(b: Both, e: Event) {
    match e
    case Step(l) => Enabled(b.registry, l) && (l.SyncAdd? ==> l.sender !in b.streams.next)
    case Packet(_, _) => true
  }

  ghost function After(b: Both, e: Event): (b': Both)
    requires S.Bound(b.streams) && Possible(b, e)
    ensures S.Bound(b'.streams)
  {
    match e
    case Step(l) => Both(Apply(b.registry, l), Follow(b.streams, Carrying(Apply(b.registry, l).peers)))
    case Packet(t, number) => Both(b.registry, S.Apply(b.streams, S.Arrive(t, number)))
  }

  ghost predicate CanGo(b: Both, es: seq<Event>)
    requires S.Bound(b.streams)
    decreases es
  {
    es == [] || (Possible(b, es[0]) && CanGo(After(b, es[0]), es[1..]))
  }

  ghost function Go(b: Both, es: seq<Event>): (b': Both)
    requires S.Bound(b.streams) && CanGo(b, es)
    ensures S.Bound(b'.streams)
    decreases es
  {
    if es == [] then b else Go(After(b, es[0]), es[1..])
  }

  /** Every sender of a listed peer is bound to a stream that carries what the sender carries. */
  ghost predicate Together(b: Both) {
    Inv(b.registry) && S.Bound(b.streams) && S.Inv(b.streams) && b.streams.carried == Carrying(b.registry.peers)
  }

  lemma FollowNumbered(s: S.Streams, carried: map<RTPSender, TrackLocal?>)
    requires S.Bound(s) && S.Inv(s)
    ensures S.Inv(Follow(s, carried))
  {
  }

  lemma AfterTogether(b: Both, e: Event)
    requires Together(b) && Possible(b, e)
    ensures Together(After(b, e))
  {
    match e
    case Step(l) =>
      StepInv(b.registry, l);
      FollowNumbered(b.streams, Carrying(Apply(b.registry, l).peers));
    case Packet(t, number) => S.StepInv(b.streams, S.Arrive(t, number));
  }

  lemma {:induction false} GoTogether(b: Both, es: seq<Event>)
    requires Together(b) && CanGo(b, es)
    ensures Together(Go(b, es))
    decreases es
  {
    if es != [] {
      AfterTogether(b, es[0]);
      GoTogether(After(b, es[0]), es[1..]);
    }
  }

  /** Whatever the registry does in between, the k-th packet of each stream goes out with number k modulo
      2^16. */
  lemma NumberingUndisturbed(es: seq<Event>, x: RTPSender, k: nat)
    requires CanGo(Start, es) && x in Go(Start, es).streams.sent && k < |Go(Start, es).streams.sent[x]|
    ensures Go(Start, es).streams.sent[x][k].number == k % 65536
  {
    GoTogether(Start, es);
    assert S.Numbers(Go(Start, es).streams.sent[x])[k] == k % 65536;
  }

  // ---- Steps of the registry induce events of the streams ----

  /** The senders that a step may add. */
  function Gained(l: Label): set<RTPSender> { if l.SyncAdd? then {l.sender} else {} }

  lemma SyncPeerGains(s: State, l: Label, i: nat)
    requires Enabled(s, l) && OfSync(l) && !Drops(s, l) && i < |s.peers|
    ensures |Apply(s, l).peers| == |s.peers|
    ensures Apply(s, l).peers[i].senders.Keys <= s.peers[i].senders.Keys + Gained(l)
  {
    if l.SyncVisit? {
      VisitGains(s, i);
    }
  }

  lemma VisitGains(s: State, i: nat)
    requires s.sync.Visit? && !Drops(s, SyncVisit) && i < |s.peers|
    ensures |VisitNext(s).peers| == |s.peers| && VisitNext(s).peers[i].senders.Keys <= s.peers[i].senders.Keys
  {
  }

  lemma OtherPeerGains(s: State, l: Label, i: nat)
    requires Enabled(s, l) && !OfSync(l) && i < |s.peers|
    ensures |Apply(s, l).peers| == |s.peers| || (l.Register? && |Apply(s, l).peers| == |s.peers| + 1)
    ensures Apply(s, l).peers[i].senders.Keys <= s.peers[i].senders.Keys
  {
  }

  lemma PeerGains(s: State, l: Label, i: nat)
    requires Enabled(s, l) && i < |Apply(s, l).peers|
    ensures var keys := Apply(s, l).peers[i].senders.Keys;
            || keys == {}
            || exists j :: 0 <= j < |s.peers| && keys <= s.peers[j].senders.Keys + Gained(l)
  {
    if Drops(s, l) {
      var j := if i < s.sync.i then i else i + 1;
      assert Apply(s, l).peers[i] == s.peers[j];
    } else if i < |s.peers| {
      if OfSync(l) {
        SyncPeerGains(s, l, i);
      } else {
        OtherPeerGains(s, l, i);
      }
    }
  }

  lemma StepGains(s: State, l: Label)
    requires Enabled(s, l)
    ensures Carrying(Apply(s, l).peers).Keys <= Carrying(s.peers).Keys + Gained(l)
  {
    var qs := Apply(s, l).peers;
    forall x | x in Carrying(qs) ensures x in Carrying(s.peers).Keys + Gained(l) {
      CarryingKeys(qs, x);
      var i :| 0 <= i < |qs| && x in qs[i].senders;
      PeerGains(s, l, i);
      CarryingKeys(s.peers, x);
    }
  }

  /** Every step of the registry, whatever it does to the senders, is for the streams a run of bindings,
      switches and removals: no packet is sent, and every stream goes on with its next number. */
  lemma StepInducesEvents(b: Both, l: Label) returns (es: seq<S.Event>)
    requires Together(b) && Possible(b, Step(l))
    ensures S.CanRun(b.streams, es) && S.Run(b.streams, es) == After(b, Step(l)).streams
    ensures forall e | e in es :: NoPacket(e)
    ensures forall x | x in b.streams.next ::
              && x in After(b, Step(l)).streams.next
              && After(b, Step(l)).streams.next[x] == b.streams.next[x]
              && After(b, Step(l)).streams.sent[x] == b.streams.sent[x]
  {
    StepGains(b.registry, l);
    es := FollowIsRun(b.streams, Carrying(Apply(b.registry, l).peers));
  }

  lemma SwitchedSender(p: Peer, s: State, id: string, q: int)
    requires Wired(p) && id in p.decisions && p.decisions[id] != q >= 0 && Available(s.qualities, id, q)
    ensures id in p.registered && p.registered[id] in p.senders
    ensures var p' := Decide(p, s.qualities, id, q);
            p.registered[id] in p'.senders && p'.senders[p.registered[id]] == s.qualities[id][q]
  {
  }

  /** The stream of `x` goes on with its next number. */
  predicate GoesOn(s: S.Streams, s': S.Streams, x: RTPSender)
    requires S.Bound(s) && S.Bound(s')
  {
    x in s.next && x in s'.next && s'.next[x] == s.next[x] && s'.sent[x] == s.sent[x]
  }

  lemma CarriedIs(b: Both, i: nat, x: RTPSender)
    requires Together(b) && i < |b.registry.peers| && x in b.registry.peers[i].senders
    ensures x in b.streams.carried && b.streams.carried[x] == b.registry.peers[i].senders[x] && x in b.streams.next
  {
    CarryingAt(b.registry.peers, i, x);
  }

  lemma StepGoesOn(b: Both, l: Label, x: RTPSender)
    requires S.Bound(b.streams) && Possible(b, Step(l)) && x in b.streams.next
    ensures GoesOn(b.streams, After(b, Step(l)).streams, x)
  {
  }

  lemma DecisionStep(s: State, l: Label)
    requires Enabled(s, l) && l.SetQuality?
    ensures l.p < |s.peers| && |Apply(s, l).peers| == |s.peers|
    ensures Apply(s, l).peers[l.p] == Decide(s.peers[l.p], s.qualities, l.id, l.q)
  {
  }

  /** The step switches a track of a peer to another quality, which is available. */
  ghost predicate Switches(s: State, l: Label) {
    && l.SetQuality? && s.sync == Free && l.p < |s.peers| && l.id in s.peers[l.p].decisions
    && s.peers[l.p].decisions[l.id] != l.q >= 0 && Available(s.qualities, l.id, l.q)
  }

  /** Then the sender's stream goes on with the same next number, and from then on it sends the packets of
      the track of that quality. */
  lemma SwitchingKeepsNumbering(b: Both, l: Label, b': Both)
    requires Together(b) && Switches(b.registry, l) && Possible(b, Step(l)) && b' == After(b, Step(l))
    ensures l.id in b.registry.peers[l.p].registered
    ensures var x := b.registry.peers[l.p].registered[l.id];
            && GoesOn(b.streams, b'.streams, x)
            && x in b'.streams.carried && b'.streams.carried[x] == b.registry.qualities[l.id][l.q]
  {
    var p := b.registry.peers[l.p];
    assert PeerInv(p, b.registry);
    SwitchedSender(p, b.registry, l.id, l.q);
    var x := p.registered[l.id];
    DecisionStep(b.registry, l);
    CarriedIs(b, l.p, x);
    StepGoesOn(b, l, x);
    AfterTogether(b, Step(l));
    CarriedIs(b', l.p, x);
  }

  // ---- Who is sent a packet ----

  /** `x` is a sender of some listed peer and carries the track. */
  predicate SenderOf(ps: seq<Peer>, x: RTPSender, t: TrackLocal) {
    exists p | p in ps :: x in p.senders && p.senders[x] == t
  }

  lemma CarriedBySender(b: Both, x: RTPSender, t: TrackLocal)
    requires Together(b)
    ensures x in b.streams.carried && b.streams.carried[x] == t <==> SenderOf(b.registry.peers, x, t)
  {
    var ps := b.registry.peers;
    forall p | p in ps && x in p.senders ensures x in b.streams.carried && b.streams.carried[x] == p.senders[x] {
      var i :| 0 <= i < |ps| && ps[i] == p;
      CarriedIs(b, i, x);
    }
    CarryingKeys(ps, x);
    if i :| 0 <= i < |ps| && x in ps[i].senders {
      assert ps[i] in ps;
    }
  }

  /** A packet of a track goes out once on each sender of a listed peer that carries the track, with the
      stream's next number, and on no other; the registry does not change. */
  lemma PacketGoesTo(b: Both, t: TrackLocal, number: nat, x: RTPSender)
    requires Together(b)
    ensures var b' := After(b, Packet(t, number));
            && b'.registry == b.registry
            && (x in b'.streams.sent <==> x in b.streams.sent)
            && var sent, sent' := b.streams.sent, b'.streams.sent;
            && (SenderOf(b.registry.peers, x, t) ==>
                  x in sent && sent'[x] == sent[x] + [S.Sent(t, number, |sent[x]| % 65536)])
            && (!SenderOf(b.registry.peers, x, t) && x in sent ==> sent'[x] == sent[x])
  {
    CarriedBySender(b, x, t);
  }

  /** What the event has to be heard of it on `x`: a packet of the track that `x` carries as a sender of a
      listed peer. */
  function HeardNow(ps: seq<Peer>, e: Event, x: RTPSender): seq<(TrackLocal, nat)> {
    if e.Packet? && SenderOf(ps, x, e.t) then [(e.t, e.number)] else []
  }

  ghost function Heard(b: Both, es: seq<Event>, x: RTPSender): seq<(TrackLocal, nat)>
    requires S.Bound(b.streams) && CanGo(b, es)
    decreases es
  {
    if es == [] then [] else HeardNow(b.registry.peers, es[0], x) + Heard(After(b, es[0]), es[1..], x)
  }

  lemma StepSendsNothing(b: Both, l: Label, x: RTPSender)
    requires S.Bound(b.streams) && Possible(b, Step(l))
    ensures S.SentOn(After(b, Step(l)).streams, x) == S.SentOn(b.streams, x)
  {
  }

  lemma PacketSent(b: Both, t: TrackLocal, number: nat, x: RTPSender)
    requires Together(b)
    ensures S.SentOn(After(b, Packet(t, number)).streams, x)
         == S.SentOn(b.streams, x) + if SenderOf(b.registry.peers, x, t) then [(t, number)] else []
  {
    PacketGoesTo(b, t, number, x);
    if SenderOf(b.registry.peers, x, t) {
      var sent := b.streams.sent[x];
      S.OriginsMore(sent, S.Sent(t, number, |sent| % 65536));
    }
  }

  /** Between the two states the stream of `x` has sent `heard`. */
  predicate SentBetween(b: Both, b': Both, x: RTPSender, heard: seq<(TrackLocal, nat)>) {
    S.SentOn(b'.streams, x) == S.SentOn(b.streams, x) + heard
  }

  lemma SentThen(b: Both, b1: Both, b2: Both, x: RTPSender, first: seq<(TrackLocal, nat)>, next: seq<(TrackLocal, nat)>)
    requires SentBetween(b, b1, x, first) && SentBetween(b1, b2, x, next)
    ensures SentBetween(b, b2, x, first + next)
  {
  }

  lemma EventSent(b: Both, e: Event, x: RTPSender)
    requires Together(b) && Possible(b, e)
    ensures SentBetween(b, After(b, e), x, HeardNow(b.registry.peers, e, x))
  {
    match e
    case Step(l) => StepSendsNothing(b, l, x);
    case Packet(t, number) => PacketSent(b, t, number, x);
  }

  /** In every run, whatever the registry does between the packets, a sender's stream carries exactly the
      packets of the tracks that the sender carried at the moment they arrived, in order. */
  lemma {:induction false} SendsWhatSendersCarry(b: Both, es: seq<Event>, x: RTPSender)
    requires Together(b) && CanGo(b, es)
    ensures SentBetween(b, Go(b, es), x, Heard(b, es, x))
    decreases es
  {
    if es != [] {
      var b1, rest := After(b, es[0]), es[1..];
      EventSent(b, es[0], x);
      AfterTogether(b, es[0]);
      SendsWhatSendersCarry(b1, rest, x);
      SentThen(b, b1, Go(b1, rest), x, HeardNow(b.registry.peers, es[0], x), Heard(b1, rest, x));
    }
  }

  lemma OwnSender(b: Both, p: Peer, x: RTPSender, t: TrackLocal)
    requires Together(b) && p in b.registry.peers && x in p.senders
    ensures SenderOf(b.registry.peers, x, t) <==> p.senders[x] == t
    ensures x in b.streams.sent
  {
    var i :| 0 <= i < |b.registry.peers| && b.registry.peers[i] == p;
    CarriedIs(b, i, x);
    CarriedBySender(b, x, t);
  }

  /** The stored track of the quality, if it is not negative. */
  predicate IsQuality(s: State, id: string, q: int, t: TrackLocal) {
    q >= 0 && Available(s.qualities, id, q) && t == s.qualities[id][q]
  }

  /** What a viewer sees of a tile, while no callback of the decided quality is under way: a packet goes out
      to it if and only if it is of the stored track of the quality the viewer decided for; after a negative
      decision none does. */
  lemma ViewerSeesDecision(b: Both, p: Peer, id: string, t: TrackLocal, number: nat)
    requires Together(b) && p in b.registry.peers && id in p.decisions
    requires (id, p.decisions[id]) !in b.registry.startingVideo
    ensures id in p.registered && p.registered[id] in b.streams.sent
    ensures SentBetween(b, After(b, Packet(t, number)), p.registered[id],
                        if IsQuality(b.registry, id, p.decisions[id], t) then [(t, number)] else [])
  {
    var s := b.registry;
    assert PeerInv(p, s);
    var x := p.registered[id];
    assert VideoRight(s, id, p.decisions[id], Carried(p, id));
    OwnSender(b, p, x, t);
    PacketSent(b, t, number, x);
  }
}
