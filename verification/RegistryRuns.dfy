/** What holds in every state the registry can reach, and of every run. */
module RegistryRuns {
  import opened TrackID
  import opened Registry
  import opened RegistryInvariant
  import opened RegistrySteps

  predicate OfSync(l: Label) { l.SyncBegin? || l.SyncVisit? || l.SyncAdd? || l.SyncOffer? }

  lemma SyncVisitInv(s: State)
    requires Inv(s) && s.sync.Visit?
    ensures Inv(Apply(s, SyncVisit))
  {
    if s.sync.i >= |s.peers| {
      SyncKept(s, Apply(s, SyncVisit));
    } else if s.peers[s.sync.i].closed {
      DropInv(s, s.sync.i);
    } else {
      VisitInv(s);
    }
  }

  lemma SyncAddInv(s: State, l: Label)
    requires Inv(s) && Enabled(s, l) && l.SyncAdd?
    ensures Inv(Apply(s, l))
  {
    AddInv(s, l.id, l.sender);
    assert Apply(s, l) == Added(s, l.id, l.sender);
  }

  lemma SyncOfferInv(s: State, l: Label)
    requires Inv(s) && Enabled(s, l) && l.SyncOffer?
    ensures Inv(Apply(s, l))
  {
    OfferInv(s, l.ok);
    assert Apply(s, l) == s.(sync := if l.ok then Visit(s.sync.i + 1) else Free);
  }

  lemma SyncStepInv(s: State, l: Label)
    requires Inv(s) && Enabled(s, l) && OfSync(l)
    ensures Inv(Apply(s, l))
  {
    if l.SyncBegin? {
      SyncKept(s, Apply(s, l));
    } else if l.SyncVisit? {
      SyncVisitInv(s);
    } else if l.SyncAdd? {
      SyncAddInv(s, l);
    } else {
      SyncOfferInv(s, l);
    }
  }

  lemma TrackStepInv(s: State, l: Label)
    requires Inv(s) && Enabled(s, l)
    requires l.AddQuality? || l.AddVideo? || l.UpdateQuality? || l.AddAudio? || l.UpdateAudio? || l.RemoveAudio?
    ensures Inv(Apply(s, l))
  {
    match l
    case AddQuality(client, tile, q, t) =>
      IDsTell(client, tile);
      AddQualityInv(s, q, t);
    case AddVideo(id) => PutVideoInv(s, s.startingVideo[(id, 0)]);
    case UpdateQuality(id, q) => UpdateQualityInv(s, id, q);
    case AddAudio(client, t) =>
      IDsTell(client, 0);
      AddAudioInv(s, t);
    case UpdateAudio(id) => UpdateAudioInv(s, id);
    case RemoveAudio(id) =>
      assert s.startingAudio - {id} == s.startingAudio;
      RemoveAudioInv(s, id);
  }

  lemma StepInv(s: State, l: Label)
    requires Inv(s) && Enabled(s, l)
    ensures Inv(Apply(s, l))
  {
    if OfSync(l) {
      SyncStepInv(s, l);
    } else if l.Register? {
      RegisterInv(s, l.client, l.tiles, l.audio, l.video);
    } else if l.StartReceiver? {
      StartReceiverInv(s, l.p, l.id);
    } else if l.Close? {
      CloseInv(s, l.p);
    } else if l.SetQuality? {
      SetQualityInv(s, l.p, l.id, l.q);
    } else {
      TrackStepInv(s, l);
    }
  }

  lemma {:induction false} RunInv(s: State, ls: seq<Label>)
    requires Inv(s) && CanRun(s, ls)
    ensures Inv(Run(s, ls))
    decreases ls
  {
    if ls != [] {
      StepInv(s, ls[0]);
      RunInv(Apply(s, ls[0]), ls[1..]);
    }
  }

  lemma ReachableInv(ls: seq<Label>, s: State)
    requires Reaches(ls, s)
    ensures Inv(s)
  {
    RunInv(Initial, ls);
  }

  // ---- Every reachable state ----

  /** Each registered video sender has a quality decision, and carries the stored track of that quality
      if the decision is not negative and nothing if it is, except between addQualityTrack and
      updateClientTrackStateQuality of the callback for that very ID and quality. */
  lemma SendersCarryDecisions(ls: seq<Label>, s: State, p: Peer, id: string)
    requires Reaches(ls, s) && p in s.peers && id in p.registered && !IsAudio(id)
    ensures p.registered[id] in p.senders && id in p.decisions
    ensures var q, t := p.decisions[id], p.senders[p.registered[id]];
            if q < 0 then t == null
            else Available(s.qualities, id, q) && t != null && (t == s.qualities[id][q] || (id, q) in s.startingVideo)
  {
    ReachableInv(ls, s);
    var i :| 0 <= i < |s.peers| && s.peers[i] == p;
    assert VideoRight(s, id, p.decisions[id], Carried(p, id));
  }

  /** Likewise for audio, which has no qualities: while its client's track is in `trackLocals`, that is
      the track carried, except between addTrack and updateClientTrackState. */
  lemma AudioSendersCarry(ls: seq<Label>, s: State, p: Peer, id: string)
    requires Reaches(ls, s) && p in s.peers && id in p.registered && IsAudio(id)
    ensures p.registered[id] in p.senders
    ensures var t := p.senders[p.registered[id]];
            t != null && (id in s.locals ==> t == s.locals[id] || id in s.startingAudio)
  {
    ReachableInv(ls, s);
    var i :| 0 <= i < |s.peers| && s.peers[i] == p;
    assert AudioRight(s, id, Carried(p, id));
  }

  /** No peer is sent its own audio or video, and what a sender carries it carries as the one sender
      registered for the ID. */
  lemma NoLoopbackNoDoubles(ls: seq<Label>, s: State, p: Peer, x: RTPSender)
    requires Reaches(ls, s) && p in s.peers && x in p.senders && p.senders[x] != null
    ensures p.senders[x].id !in OwnOf(p)
    ensures p.senders[x].id in p.registered && p.registered[p.senders[x].id] == x
    ensures forall y | y in p.senders && p.senders[y] != null && p.senders[y].id == p.senders[x].id :: y == x
  {
    ReachableInv(ls, s);
  }

  lemma NoOwnRegistered(ls: seq<Label>, s: State, p: Peer)
    requires Reaches(ls, s) && p in s.peers
    ensures p.registered.Keys !! OwnOf(p)
  {
    ReachableInv(ls, s);
  }

  /** Every track is stored under its own ID, and every video ID in `trackLocals` has quality 0. */
  lemma MapsAgree(ls: seq<Label>, s: State)
    requires Reaches(ls, s)
    ensures forall id | id in s.locals :: s.locals[id].id == id && (!IsAudio(id) ==> Available(s.qualities, id, 0))
    ensures forall id, q | Available(s.qualities, id, q) :: s.qualities[id][q].id == id
  {
    ReachableInv(ls, s);
  }

  /** A synchronization never adds a missing track. */
  lemma NeverAddsMissing(ls: seq<Label>, s: State, id: string, sender: RTPSender)
    requires Reaches(ls, s) && Enabled(s, SyncAdd(id, sender))
    ensures NewTrack(s, id) != null && NewTrack(s, id).id == id
  {
    ReachableInv(ls, s);
    assert id in ActiveIDs(s.peers[s.sync.i]) + s.sync.todo;
  }

  /** A video ID that is in `trackLocals` stays there in every run, also after its client is gone. */
  lemma {:induction false} VideoNeverLeaves(s: State, ls: seq<Label>, id: string)
    requires CanRun(s, ls) && id in s.locals && !IsAudio(id)
    ensures id in Run(s, ls).locals
    decreases ls
  {
    if ls != [] {
      VideoNeverLeaves(Apply(s, ls[0]), ls[1..], id);
    }
  }

  // ---- The result of a synchronization ----

  ghost predicate AllInSync(s: State) { forall i | 0 <= i < |s.peers| :: InSync(s.peers[i], s) }

  /** An attempt that has visited the last peer leaves every peer with exactly the tracks in
      `trackLocals` that are not its own. */
  lemma SyncResult(ls: seq<Label>, s: State)
    requires Reaches(ls, s) && s.sync == Visit(|s.peers|)
    ensures AllInSync(s)
    ensures Apply(s, SyncVisit) == s.(sync := Free)
  {
    ReachableInv(ls, s);
  }

  /** Negative decisions do not survive a synchronization. */
  lemma SyncForgetsPauses(s: State, p: Peer, id: string)
    requires Inv(s) && AllInSync(s) && p in s.peers && id in p.decisions
    ensures p.decisions[id] >= 0
  {
    var i :| 0 <= i < |s.peers| && s.peers[i] == p;
    assert id in p.registered && id in s.locals;
    assert id in ActiveIDs(p);
    assert VideoRight(s, id, p.decisions[id], Carried(p, id));
  }

  /** The listed peers are in sync, and the one visited last has nothing to be added. */
  ghost predicate Quiet(s: State) { Inv(s) && AllInSync(s) && (s.sync.Adding? ==> s.sync.todo == {}) }

  lemma CleanNothing(p: Peer, s: State)
    requires Wired(p) && Foreign(p, s) && InSync(p, s)
    ensures Clean(p, s.locals) == p && Missing(p, s.locals) == {}
  {
    forall x | x in p.senders && p.senders[x] != null ensures p.senders[x].id in s.locals {
      assert p.senders[x].id in ActiveIDs(p);
    }
    assert Clean(p, s.locals).senders == p.senders;
    assert ActiveIDs(p) - s.locals.Keys == {};
    assert p.registered - {} == p.registered;
  }

  lemma QuietVisit(s: State)
    requires Quiet(s) && s.sync.Visit? && s.sync.i < |s.peers| && !s.peers[s.sync.i].closed
    ensures Visited(s) == s.(sync := Adding(s.sync.i, {}))
  {
    CleanNothing(s.peers[s.sync.i], s);
    assert s.peers[s.sync.i := s.peers[s.sync.i]] == s.peers;
  }

  lemma SomeInSync(s: State, s': State)
    requires AllInSync(s) && s'.locals == s.locals && forall p | p in s'.peers :: p in s.peers
    ensures AllInSync(s')
  {
    forall i | 0 <= i < |s'.peers| ensures InSync(s'.peers[i], s') {
      assert s'.peers[i] in s.peers;
    }
  }

  lemma QuietStep(s: State, l: Label)
    requires Quiet(s) && Enabled(s, l) && OfSync(l)
    ensures Quiet(Apply(s, l)) && !l.SyncAdd?
    ensures Apply(s, l).peers == if Drops(s, l) then s.peers[..s.sync.i] + s.peers[s.sync.i + 1..] else s.peers
  {
    SyncStepInv(s, l);
    if l.SyncVisit? && s.sync.i < |s.peers| && !Drops(s, l) {
      QuietVisit(s);
    }
    SomeInSync(s, Apply(s, l));
  }

  /** When nothing changes after a synchronization, further attempts add and remove no sender: the
      listed peers stay exactly as they are, except that closed ones are dropped from the list. */
  lemma {:induction false} SecondAttemptQuiet(s: State, ls: seq<Label>)
    requires Quiet(s) && CanRun(s, ls) && forall l | l in ls :: OfSync(l)
    ensures forall l | l in ls :: !l.SyncAdd?
    ensures forall p | p in Run(s, ls).peers :: p in s.peers
    ensures (forall p | p in s.peers :: !p.closed) ==> Run(s, ls).peers == s.peers
    decreases ls
  {
    if ls != [] {
      QuietStep(s, ls[0]);
      SecondAttemptQuiet(Apply(s, ls[0]), ls[1..]);
    }
  }
}
