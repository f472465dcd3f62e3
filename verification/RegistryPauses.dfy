/** What an attempt to synchronize makes of the quality decisions: paused tracks come back. */
module RegistryPauses {
  import opened TrackID
  import opened Registry
  import opened RegistryInvariant
  import opened RegistryRuns
  import opened Reregistration

  /** The peer may have closed or started to send more. */
  ghost predicate SamePeer(p: Peer, p': Peer) { p' == p.(closed := p'.closed, receivers := p'.receivers) }

  /** The decision and the sender of a track are as they were, and so is what the sender carries. */
  predicate KeptTrack(p: Peer, p': Peer, id: string)
    requires id in p.decisions
  {
    && id in p'.decisions && p'.decisions[id] == p.decisions[id]
    && id in p.registered && id in p'.registered && p'.registered[id] == p.registered[id]
    && Carried(p', id) == Carried(p, id)
  }

  /** The track has been added again at quality 0 with another sender; the old one is left with nothing. */
  predicate RenewedTrack(p: Peer, p': Peer, id: string)
    requires id in p.decisions
  {
    && id in p'.decisions && p'.decisions[id] == 0
    && id in p.registered && id in p'.registered && p'.registered[id] != p.registered[id]
    && p.registered[id] in p'.senders && p'.senders[p.registered[id]] == null
  }

  /** A peer that the attempt has visited, with the tracks `todo` still to be added. */
  ghost predicate Refreshed(p: Peer, p': Peer, todo: set<string>) {
    && (forall id | id in p.decisions && p.decisions[id] >= 0 :: id !in todo && KeptTrack(p, p', id))
    && (forall id | id in p.decisions && p.decisions[id] < 0 ::
          if id in todo then KeptTrack(p, p', id) && p.registered[id] in p'.senders else RenewedTrack(p, p', id))
    && (forall id | id in p'.decisions && id !in p.decisions :: p'.decisions[id] == 0)
  }

  /** How far an attempt that began in `s0` has got. */
  ghost predicate Midway(s0: State, s: State) {
    && s.sync != Free && |s.peers| == |s0.peers| && s.sync.i <= |s.peers|
    && (forall j | 0 <= j < s.sync.i :: Refreshed(s0.peers[j], s.peers[j], {}))
    && (forall j | s.sync.i < j < |s.peers| :: SamePeer(s0.peers[j], s.peers[j]))
    && (s.sync.i < |s.peers| ==>
          if s.sync.Adding? then Refreshed(s0.peers[s.sync.i], s.peers[s.sync.i], s.sync.todo)
          else SamePeer(s0.peers[s.sync.i], s.peers[s.sync.i]))
  }

  // ---- One peer ----

  lemma DecidedCarries(p: Peer, s: State, id: string)
    requires PeerInv(p, s) && Stored(s) && Starting(s) && id in p.decisions
    ensures id in p.registered && p.registered[id] in p.senders && id in s.locals && id !in OwnOf(p)
    ensures Carried(p, id) == null <==> p.decisions[id] < 0
    ensures id in ActiveIDs(p) <==> p.decisions[id] >= 0
  {
    assert VideoRight(s, id, p.decisions[id], Carried(p, id));
    if Carried(p, id) != null {
      assert p.senders[p.registered[id]].id == id;
    }
  }

  lemma VisitRefreshes(p0: Peer, p: Peer, s: State)
    requires PeerInv(p, s) && Stored(s) && Starting(s) && SamePeer(p0, p)
    ensures Refreshed(p0, Clean(p, s.locals), Missing(p, s.locals))
  {
    CleanInv(p, s);
    CleanWired(p, s.locals);
    ReceiversOwn(p, s);
    forall id | id in p.decisions
      ensures KeptTrack(p0, Clean(p, s.locals), id) && p.registered[id] in Clean(p, s.locals).senders
      ensures id in Missing(p, s.locals) <==> p.decisions[id] < 0
    {
      DecidedCarries(p, s, id);
      assert Carried(p0, id) == Carried(p, id);
    }
  }

  lemma AddKeepsOthers(p0: Peer, p: Peer, id: string, sender: RTPSender, t: TrackLocal, other: string)
    requires other in p0.decisions && other != id && sender !in p.senders
    requires other in p.registered ==> p.registered[other] in p.senders
    ensures KeptTrack(p0, p, other) ==> KeptTrack(p0, AddSender(p, id, sender, t), other)
    ensures RenewedTrack(p0, p, other) ==> RenewedTrack(p0, AddSender(p, id, sender, t), other)
  {
  }

  lemma AddRenews(p0: Peer, p: Peer, id: string, sender: RTPSender, t: TrackLocal)
    requires id in p0.decisions && !IsAudio(id) && Carried(p0, id) == null && sender !in p.senders
    requires KeptTrack(p0, p, id) && p.registered[id] in p.senders
    ensures RenewedTrack(p0, AddSender(p, id, sender, t), id)
  {
  }

  lemma AddRefreshes(p0: Peer, p: Peer, todo: set<string>, id: string, sender: RTPSender, t: TrackLocal)
    requires Refreshed(p0, p, todo) && id in todo && sender !in p.senders
    requires forall other | other in p.registered :: p.registered[other] in p.senders
    requires forall other | other in p0.decisions :: !IsAudio(other)
    requires forall other | other in p0.decisions && p0.decisions[other] < 0 :: Carried(p0, other) == null
    ensures Refreshed(p0, AddSender(p, id, sender, t), todo - {id})
  {
    forall other | other in p0.decisions && other != id
      ensures KeptTrack(p0, p, other) ==> KeptTrack(p0, AddSender(p, id, sender, t), other)
      ensures RenewedTrack(p0, p, other) ==> RenewedTrack(p0, AddSender(p, id, sender, t), other)
    {
      AddKeepsOthers(p0, p, id, sender, t, other);
    }
    if id in p0.decisions {
      AddRenews(p0, p, id, sender, t);
    }
  }

  lemma StillRefreshed(p0: Peer, p: Peer, p': Peer, todo: set<string>)
    requires Refreshed(p0, p, todo) && SamePeer(p, p')
    ensures Refreshed(p0, p', todo)
  {
    assert forall id :: Carried(p', id) == Carried(p, id);
  }

  // ---- The steps of an attempt ----

  lemma VisitMidway(s0: State, s: State)
    requires Inv(s) && Midway(s0, s) && s.sync.Visit? && s.sync.i < |s.peers| && !s.peers[s.sync.i].closed
    ensures Midway(s0, Visited(s))
  {
    var i := s.sync.i;
    VisitRefreshes(s0.peers[i], s.peers[i], s);
    assert Visited(s).peers[i] == Clean(s.peers[i], s.locals);
  }

  lemma AddMidway(s0: State, s: State, id: string, sender: RTPSender)
    requires Inv(s0) && Inv(s) && Midway(s0, s) && Enabled(s, SyncAdd(id, sender))
    ensures Midway(s0, Added(s, id, sender))
  {
    var i := s.sync.i;
    assert id in ActiveIDs(s.peers[i]) + s.sync.todo;
    TrackFound(s, id);
    forall other | other in s0.peers[i].decisions
      ensures !IsAudio(other) && (s0.peers[i].decisions[other] < 0 ==> Carried(s0.peers[i], other) == null)
    {
      DecidedCarries(s0.peers[i], s0, other);
    }
    AddRefreshes(s0.peers[i], s.peers[i], s.sync.todo, id, sender, NewTrack(s, id));
    assert Added(s, id, sender).peers[i] == AddSender(s.peers[i], id, sender, NewTrack(s, id));
  }

  /** Steps of other goroutines that can come in between. */
  lemma OtherMidway(s0: State, s: State, l: Label)
    requires Midway(s0, s) && Enabled(s, l) && (l.StartReceiver? || l.Close? || l.AddQuality?)
    ensures Midway(s0, Apply(s, l))
  {
    var s' := Apply(s, l);
    forall j | 0 <= j < |s.peers| ensures SamePeer(s.peers[j], s'.peers[j]) {}
    forall j, todo | 0 <= j < |s.peers| && Refreshed(s0.peers[j], s.peers[j], todo)
      ensures Refreshed(s0.peers[j], s'.peers[j], todo)
    {
      StillRefreshed(s0.peers[j], s.peers[j], s'.peers[j], todo);
    }
  }

  lemma OfferMidway(s0: State, s: State)
    requires Midway(s0, s) && s.sync.Adding? && s.sync.todo == {} && s.sync.i < |s.peers|
    ensures Midway(s0, s.(sync := Visit(s.sync.i + 1)))
  {
  }

  lemma BeginMidway(s: State)
    requires s.sync == Free
    ensures Midway(s, s.(sync := Visit(0)))
  {
  }

  lemma StepMidway(s0: State, s: State, l: Label)
    requires Inv(s0) && Inv(s) && Midway(s0, s) && Enabled(s, l) && Apply(s, l).sync != Free
    ensures Midway(s0, Apply(s, l))
  {
    if l.SyncVisit? {
      VisitMidway(s0, s);
    } else if l.SyncAdd? {
      AddMidway(s0, s, l.id, l.sender);
    } else if l.SyncOffer? {
      OfferMidway(s0, s);
    } else {
      OtherMidway(s0, s, l);
    }
  }

  /** The attempt that is under way in `s` is under way all through the run. */
  ghost predicate Busy(s: State, ls: seq<Label>)
    requires CanRun(s, ls)
    decreases ls
  {
    s.sync != Free && (ls != [] ==> Busy(Apply(s, ls[0]), ls[1..]))
  }

  lemma {:induction false} RunMidway(s0: State, s: State, ls: seq<Label>)
    requires Inv(s0) && Inv(s) && Midway(s0, s) && CanRun(s, ls) && Busy(s, ls)
    ensures Midway(s0, Run(s, ls))
    decreases ls
  {
    if ls != [] {
      StepMidway(s0, s, ls[0]);
      StepInv(s, ls[0]);
      RunMidway(s0, Apply(s, ls[0]), ls[1..]);
    }
  }

  /** The run has gone past the peer at position `j`. */
  ghost predicate Past(s: State, ls: seq<Label>, j: nat)
    requires CanRun(s, ls)
  {
    Busy(s, ls) && Run(s, ls).sync != Free && j < Run(s, ls).sync.i
  }

  /** What an attempt makes of a decided track of a peer. */
  ghost predicate Outcome(p: Peer, p': Peer, id: string)
    requires id in p.decisions
  {
    && id in p'.decisions && id in p.registered && id in p'.registered
    && (p'.decisions[id] == p.decisions[id] && p'.registered[id] == p.registered[id] <==> p.decisions[id] >= 0)
    && (p.decisions[id] >= 0 ==> Carried(p', id) == Carried(p, id))
    && (p.decisions[id] < 0 ==>
          && p'.decisions[id] == 0 && p'.registered[id] != p.registered[id]
          && Carried(p', id) != null && Carried(p', id).id == id
          && p.registered[id] in p'.senders && p'.senders[p.registered[id]] == null)
  }

  lemma RefreshedOutcome(p: Peer, p': Peer, s': State, id: string)
    requires Refreshed(p, p', {}) && id in p.decisions && PeerInv(p', s') && Stored(s') && Starting(s')
    ensures Outcome(p, p', id)
  {
    assert id in p'.decisions;
    DecidedCarries(p', s', id);
  }

  /** An attempt that has gone past a peer, with whatever else happened in between: a track keeps its
      decision and its sender if and only if the decision was not negative. A paused track has been added
      again: it is decided for quality 0 and has another sender that carries a track of its ID, while
      the paused sender stays on the connection with nothing. */
  lemma AttemptEndsPauses(s: State, ls: seq<Label>, j: nat, id: string)
    requires Inv(s) && s.sync == Free && j < |s.peers| && id in s.peers[j].decisions
    requires CanRun(Apply(s, SyncBegin), ls) && Past(Apply(s, SyncBegin), ls, j)
    ensures j < |Run(Apply(s, SyncBegin), ls).peers|
    ensures Outcome(s.peers[j], Run(Apply(s, SyncBegin), ls).peers[j], id)
  {
    var s1 := Apply(s, SyncBegin);
    StepInv(s, SyncBegin);
    BeginMidway(s);
    RunMidway(s, s1, ls);
    RunInv(s1, ls);
    RefreshedOutcome(s.peers[j], Run(s1, ls).peers[j], Run(s1, ls), id);
  }

  /** A paused track in a reachable state: client 2 has paused the video of client 1. */
  lemma PausedReachable(t: TrackLocal, a: TrackLocal, b: TrackLocal, x: RTPSender, y: RTPSender)
    returns (ls: seq<Label>, s: State)
    requires t.id == VideoID(1, 0) && a.id == AudioID(1) && b.id == AudioID(2) && x != y
    ensures Reaches(ls, s) && s.sync == Free && |s.peers| == 1
    ensures var p := s.peers[0]; p.decisions == map[t.id := -1] && Carried(p, t.id) == null
  {
    ls, s := Watched(t, a, b, x, y);
    ReachableInv(ls, s);
    IDsTell(1, 0);
    assert PeerInv(s.peers[0], s);
    PausedPeer(s.peers[0], s.qualities, t.id);
    ls, s := Next(ls, s, SetQuality(0, t.id, -1));
  }

  lemma PausedPeer(p: Peer, qualities: Tracks, id: string)
    requires Wired(p) && id in p.decisions && p.decisions[id] == 0
    ensures var p' := Decide(p, qualities, id, -1);
            p'.decisions == p.decisions[id := -1] && Carried(p', id) == null
  {
    ReplaceWired(p, id, null);
    var p' := Replace(p, id, null).(decisions := p.decisions[id := -1]);
    assert Carried(p', id) == Carried(Replace(p, id, null), id);
  }
}
