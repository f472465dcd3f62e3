/** What the steps on the maps do, said of the single ID, and what comes of it at the peers. */
module RegistryEffects {
  import opened TrackID
  import opened Registry
  import opened RegistryInvariant
  import opened RegistrySteps
  import opened RegistryRuns
  import opened Registration

  // ---- trackLocals ----

  /** removeTrack: the ID is gone, every other ID keeps its track, and nothing else changes. */
  lemma RemoveAudioRemoves(s: State, id: string)
    requires Enabled(s, RemoveAudio(id))
    ensures var s' := Apply(s, RemoveAudio(id));
            && id !in s'.locals
            && (forall other | other != id :: other in s'.locals <==> other in s.locals)
            && (forall other | other != id && other in s.locals :: s'.locals[other] == s.locals[other])
            && s' == s.(locals := s'.locals)
  {
  }

  /** addTrack for video: the ID has the callback's track, every other ID keeps its own. */
  lemma AddVideoStores(s: State, id: string)
    requires Enabled(s, AddVideo(id))
    ensures var s' := Apply(s, AddVideo(id));
            && id in s'.locals && s'.locals[id] == s.startingVideo[(id, 0)]
            && (forall other | other != id :: other in s'.locals <==> other in s.locals)
            && (forall other | other != id && other in s.locals :: s'.locals[other] == s.locals[other])
            && s' == s.(locals := s'.locals)
  {
  }

  /** And for audio; from then on the callback is under way. */
  lemma AddAudioStores(s: State, client: int, t: TrackLocal)
    requires Enabled(s, AddAudio(client, t))
    ensures var s' := Apply(s, AddAudio(client, t));
            && t.id in s'.locals && s'.locals[t.id] == t
            && (forall other | other != t.id :: other in s'.locals <==> other in s.locals)
            && (forall other | other != t.id && other in s.locals :: s'.locals[other] == s.locals[other])
            && s' == s.(locals := s'.locals, startingAudio := s.startingAudio[t.id := t])
  {
  }

  /** addQualityTrack: the ID has the track at the quality, every other ID and quality keeps its own. */
  lemma AddQualityStores(s: State, l: Label)
    requires Enabled(s, l) && l.AddQuality?
    ensures var s' := Apply(s, l);
            && Available(s'.qualities, l.t.id, l.q) && s'.qualities[l.t.id][l.q] == l.t
            && (forall id, q | id != l.t.id || q != l.q ::
                Available(s'.qualities, id, q) <==> Available(s.qualities, id, q))
            && (forall id, q | (id != l.t.id || q != l.q) && Available(s.qualities, id, q) ::
                  s'.qualities[id][q] == s.qualities[id][q])
            && s' == s.(qualities := s'.qualities, startingVideo := s.startingVideo[(l.t.id, l.q) := l.t])
  {
  }

  /** The step stores a track under the ID in `trackLocals`. */
  predicate StoresLocal(l: Label, id: string) {
    || (l.Register? && (l.audio.id == id || id in l.video))
    || (l.AddVideo? && l.id == id)
    || (l.AddAudio? && l.t.id == id)
  }

  lemma StaysOutStep(s: State, l: Label, id: string)
    requires Enabled(s, l) && !StoresLocal(l, id) && id !in s.locals
    ensures id !in Apply(s, l).locals
  {
    if OfSync(l) {
      SyncKeepsMaps(s, l);
    }
  }

  lemma SyncKeepsMaps(s: State, l: Label)
    requires Enabled(s, l) && OfSync(l)
    ensures Apply(s, l).locals == s.locals && Apply(s, l).qualities == s.qualities
  {
    if l.SyncVisit? {
      VisitKeepsMaps(s);
    }
  }

  lemma VisitKeepsMaps(s: State)
    requires s.sync.Visit?
    ensures VisitNext(s).locals == s.locals && VisitNext(s).qualities == s.qualities
  {
    if s.sync.i < |s.peers| && !s.peers[s.sync.i].closed {
      VisitedKeepsMaps(s);
    }
  }

  lemma VisitedKeepsMaps(s: State)
    requires s.sync.Visit? && s.sync.i < |s.peers|
    ensures Visited(s).locals == s.locals && Visited(s).qualities == s.qualities
  {
  }

  /** An ID that is not in `trackLocals` stays out of it in every run in which nothing stores it. */
  lemma {:induction false} StaysOut(s: State, ls: seq<Label>, id: string)
    requires CanRun(s, ls) && (forall l | l in ls :: !StoresLocal(l, id)) && id !in s.locals
    ensures id !in Run(s, ls).locals
    decreases ls
  {
    if ls != [] {
      StaysOutStep(s, ls[0], id);
      StaysOut(Apply(s, ls[0]), ls[1..], id);
    }
  }

  predicate RemovesLocal(l: Label, id: string) { l.RemoveAudio? && l.id == id }

  lemma StaysInStep(s: State, l: Label, id: string)
    requires Enabled(s, l) && !RemovesLocal(l, id) && id in s.locals
    ensures id in Apply(s, l).locals
  {
    if OfSync(l) {
      SyncKeepsMaps(s, l);
    }
  }

  lemma {:induction false} StaysIn(s: State, ls: seq<Label>, id: string)
    requires CanRun(s, ls) && (forall l | l in ls :: !RemovesLocal(l, id)) && id in s.locals
    ensures id in Run(s, ls).locals
    decreases ls
  {
    if ls != [] {
      StaysInStep(s, ls[0], id);
      StaysIn(Apply(s, ls[0]), ls[1..], id);
    }
  }

  // ---- What the peers are sent ----

  /** Some sender of the peer carries a track of this ID. */
  predicate IsSent(p: Peer, id: string) {
    exists x :: x in p.senders && p.senders[x] != null && p.senders[x].id == id
  }

  lemma SentIsActive(p: Peer, id: string)
    ensures IsSent(p, id) <==> id in ActiveIDs(p)
  {
  }

  /** Once an audio track has been removed, and while nothing stores its ID again, an attempt that has gone
      over the list leaves no listed peer with a sender for it, active or registered. */
  lemma RemovedIsSentToNobody(s: State, id: string, ls: seq<Label>)
    requires Inv(s) && Enabled(s, RemoveAudio(id)) && CanRun(Apply(s, RemoveAudio(id)), ls)
    requires forall l | l in ls :: !StoresLocal(l, id)
    ensures var s' := Run(Apply(s, RemoveAudio(id)), ls);
            && id !in s'.locals
            && (s'.sync == Visit(|s'.peers|) ==>
                  forall p | p in s'.peers :: !IsSent(p, id) && id !in p.registered)
  {
    var s1 := Apply(s, RemoveAudio(id));
    RemoveAudioRemoves(s, id);
    StepInv(s, RemoveAudio(id));
    StaysOut(s1, ls, id);
    RunInv(s1, ls);
    var s' := Run(s1, ls);
    if s'.sync == Visit(|s'.peers|) {
      forall i | 0 <= i < |s'.peers| ensures !IsSent(s'.peers[i], id) && id !in s'.peers[i].registered {
        assert InSync(s'.peers[i], s');
        SentIsActive(s'.peers[i], id);
        RegisteredAudioIsSent(s'.peers[i], s', id);
      }
    }
  }

  lemma RegisteredAudioIsSent(p: Peer, s: State, id: string)
    requires PeerInv(p, s) && IsAudio(id)
    ensures id in p.registered ==> IsSent(p, id)
  {
    if id in p.registered {
      assert AudioRight(s, id, Carried(p, id));
      assert p.senders[p.registered[id]] != null && p.senders[p.registered[id]].id == id;
    }
  }

  /** A track that is in `trackLocals` and is not removed: an attempt that has gone over the list leaves every
      listed peer that did not declare the ID itself with a sender for it. */
  lemma StoredIsSentToAll(s: State, id: string, ls: seq<Label>)
    requires Inv(s) && id in s.locals && CanRun(s, ls) && forall l | l in ls :: !RemovesLocal(l, id)
    ensures var s' := Run(s, ls);
            s'.sync == Visit(|s'.peers|) ==> forall p | p in s'.peers && id !in OwnOf(p) :: IsSent(p, id)
  {
    StaysIn(s, ls, id);
    RunInv(s, ls);
    var s' := Run(s, ls);
    if s'.sync == Visit(|s'.peers|) {
      forall i | 0 <= i < |s'.peers| && id !in OwnOf(s'.peers[i]) ensures IsSent(s'.peers[i], id) {
        assert InSync(s'.peers[i], s');
        SentIsActive(s'.peers[i], id);
      }
    }
  }

  // ---- Registration ----

  /** The new peer is the last of the list, with the client's number and tiles and nothing else yet. */
  lemma RegisteredPeer(s: State, client: int, tiles: int, audio: TrackLocal, video: Tracks)
    ensures var s' := Registered(s, client, tiles, audio, video);
            && |s'.peers| == |s.peers| + 1 && s'.peers[..|s.peers|] == s.peers
            && var p := s'.peers[|s.peers|];
            && p.clientID == client && p.tiles == tiles && !p.closed
            && p.receivers == [] && p.senders == map[] && p.registered == map[] && p.decisions == map[]
  {
  }

  /** What a peer may not be sent: its audio, and the videos of the tiles it declared. */
  lemma OwnSpelled(p: Peer, id: string)
    ensures id in OwnOf(p) <==>
            id == AudioID(p.clientID) || exists t: int :: 0 <= t < p.tiles && id == VideoID(p.clientID, t)
  {
  }

  /** So whatever a client announces, its new peer is never sent. */
  lemma AnnouncedIsOwn(s: State, client: int, tiles: int, audio: TrackLocal, video: Tracks, id: string)
    requires Declared(client, tiles, audio, video) && (id == audio.id || id in video)
    ensures id in OwnOf(Registered(s, client, tiles, audio, video).peers[|s.peers|])
  {
  }

  /** After a registration with `qualities` qualities: `trackQualities` has gained exactly the qualities
      below that number for exactly the declared tiles, `trackLocals` the audio and, if there is any
      quality, the tiles. */
  lemma RegistrationStores(s: State, client: int, tiles: int, qualities: int, audio: TrackLocal, video: Tracks)
    requires Declared(client, tiles, audio, video) && OneTrackEach(video, client, tiles, qualities)
    ensures var s' := Registered(s, client, tiles, audio, video);
            && (forall id, q :: Available(s'.qualities, id, q) <==>
                 (Available(s.qualities, id, q) || (0 <= q < qualities && NamesTile(id, client, tiles))))
            && (forall id :: id in s'.locals <==>
                 (id in s.locals || id == AudioID(client) || (qualities > 0 && NamesTile(id, client, tiles))))
  {
    var s' := Registered(s, client, tiles, audio, video);
    forall id, q
      ensures Available(s'.qualities, id, q) <==>
              (Available(s.qualities, id, q) || (0 <= q < qualities && NamesTile(id, client, tiles)))
    {
      MergedAt(s.qualities, video, id, q);
    }
    forall id
      ensures id in s'.locals <==>
              (id in s.locals || id == AudioID(client) || (qualities > 0 && NamesTile(id, client, tiles)))
    {
      RegisteredAt(s, client, tiles, audio, video, id);
      assert Available(video, id, 0) <==> 0 < qualities && NamesTile(id, client, tiles);
    }
  }

  /** A viewer that asks for a quality that was announced gets it. */
  lemma AnnouncedIsAdopted(p: Peer, qualities: Tracks, id: string, q: int)
    requires id in p.decisions && Available(qualities, id, q)
    ensures Decide(p, qualities, id, q).decisions[id] == q
  {
  }
}
