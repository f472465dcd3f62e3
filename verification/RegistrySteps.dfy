/** Every step keeps the invariant. */
module RegistrySteps {
  import opened TrackID
  import opened Registry
  import opened RegistryInvariant

  // ---- Steps that leave the peers' senders alone ----

  /** The maps have grown, and what they had for a video ID has at most been replaced by a track of a
      callback under way; an audio track may also be gone. */
  ghost predicate Grown(s: State, s': State, id: string) {
    && (ClientOf(id) in s.clients ==> ClientOf(id) in s'.clients)
    && (!IsAudio(id) && id in s.locals ==> id in s'.locals)
    && (forall q | Available(s.qualities, id, q) ::
          Available(s'.qualities, id, q) && (s'.qualities[id][q] == s.qualities[id][q] || (id, q) in s'.startingVideo))
    && (forall q | (id, q) in s.startingVideo :: (id, q) in s'.startingVideo)
    && (id in s'.locals ==> (id in s.locals && s'.locals[id] == s.locals[id]) || id in s'.startingAudio || !IsAudio(id))
    && (id in s.startingAudio ==> id in s'.startingAudio || id !in s'.locals)
  }

  lemma PeerGrown(p: Peer, s: State, s': State)
    requires PeerInv(p, s) && Starting(s) && forall id | id in p.registered :: Grown(s, s', id)
    requires p.clientID in s'.clients
    ensures PeerInv(p, s')
  {
    forall id | id in p.decisions ensures VideoRight(s', id, p.decisions[id], Carried(p, id)) {
      assert VideoRight(s, id, p.decisions[id], Carried(p, id));
    }
  }

  lemma PeersGrown(s: State, s': State)
    requires Inv(s) && s'.peers == s.peers && s'.sync == s.sync && Stored(s') && Starting(s')
    requires s.clients.Keys <= s'.clients.Keys
    requires forall id | ClientOf(id) in s.clients :: Grown(s, s', id)
    requires s.sync == Free || s'.locals == s.locals
    ensures Inv(s')
  {
    forall i | 0 <= i < |s'.peers| ensures PeerInv(s'.peers[i], s') {
      PeerGrown(s.peers[i], s, s');
    }
  }

  lemma WithQualityGrown(s: State, q: nat, t: TrackLocal)
    ensures forall id :: Grown(s, WithQuality(s, q, t), id)
  {
  }

  lemma AddQualityInv(s: State, q: nat, t: TrackLocal)
    requires Inv(s) && !IsAudio(t.id) && ClientOf(t.id) in s.clients
    ensures Inv(WithQuality(s, q, t))
  {
    var s' := WithQuality(s, q, t);
    assert Stored(s');
    assert Starting(s');
    WithQualityGrown(s, q, t);
    PeersGrown(s, s');
  }

  /** Putting any track of a video ID that has quality 0 into `trackLocals`. */
  lemma PutVideoInv(s: State, t: TrackLocal)
    requires Inv(s) && s.sync == Free && !IsAudio(t.id) && Available(s.qualities, t.id, 0)
    ensures Inv(s.(locals := s.locals[t.id := t]))
  {
    PeersGrown(s, s.(locals := s.locals[t.id := t]));
  }

  lemma AddAudioInv(s: State, t: TrackLocal)
    requires Inv(s) && s.sync == Free && IsAudio(t.id) && ClientOf(t.id) in s.clients
    ensures Inv(WithAudio(s, t))
  {
    PeersGrown(s, WithAudio(s, t));
  }

  lemma RemoveAudioInv(s: State, id: string)
    requires Inv(s) && s.sync == Free && IsAudio(id)
    ensures Inv(s.(locals := s.locals - {id}, startingAudio := s.startingAudio - {id}))
  {
    PeersGrown(s, s.(locals := s.locals - {id}, startingAudio := s.startingAudio - {id}));
  }

  lemma DeclaredTells(client: int, tiles: int, audio: TrackLocal, video: Tracks)
    requires Declared(client, tiles, audio, video)
    ensures IsAudio(audio.id) && ClientOf(audio.id) == client
    ensures forall id | id in video :: !IsAudio(id) && ClientOf(id) == client
  {
    IDsTell(client, 0);
    OwnTells(client, tiles);
  }

  /** What registration makes of the maps, ID by ID. */
  lemma RegisteredAt(s: State, client: int, tiles: int, audio: TrackLocal, video: Tracks, id: string)
    ensures var s' := Registered(s, client, tiles, audio, video);
            && (id in s'.qualities <==> id in s.qualities || id in video)
            && (id in s'.locals <==> id in s.locals || id == audio.id || (id in video && 0 in video[id]))
            && (id in video && 0 in video[id] ==> s'.locals[id] == video[id][0])
            && (!(id in video && 0 in video[id]) && id == audio.id ==> s'.locals[id] == audio)
            && (!(id in video && 0 in video[id]) && id != audio.id && id in s.locals ==> s'.locals[id] == s.locals[id])
  {
  }

  lemma MergedAt(a: Tracks, b: Tracks, id: string, q: int)
    ensures var m := Merge(a, b);
            && (Available(m, id, q) <==> Available(a, id, q) || Available(b, id, q))
            && (Available(b, id, q) ==> m[id][q] == b[id][q])
            && (Available(a, id, q) && !Available(b, id, q) ==> m[id][q] == a[id][q])
  {
  }

  /** The announced tracks, by ID and quality. */
  function AnnouncedTracks(video: Tracks): map<(string, int), TrackLocal> {
    map id, q | id in video && q in video[id] :: (id, q) := video[id][q]
  }

  /** The state after a client has registered, if the callbacks for all it announced were under way. */
  function Announcing(s: State, client: int, tiles: int, audio: TrackLocal, video: Tracks): State {
    Registered(s, client, tiles, audio, video).(
      startingVideo := s.startingVideo + AnnouncedTracks(video),
      startingAudio := s.startingAudio[audio.id := audio])
  }

  lemma RegisterStored(s: State, client: int, tiles: int, audio: TrackLocal, video: Tracks)
    requires Stored(s) && Declared(client, tiles, audio, video)
    ensures Stored(Registered(s, client, tiles, audio, video))
  {
    var s' := Registered(s, client, tiles, audio, video);
    DeclaredTells(client, tiles, audio, video);
    forall id
      ensures id in s'.locals ==> s'.locals[id].id == id && ClientOf(id) in s'.clients
      ensures id in s'.qualities ==> ClientOf(id) in s'.clients
      ensures id in s'.locals && !IsAudio(id) ==> Available(s'.qualities, id, 0)
    {
      RegisteredAt(s, client, tiles, audio, video, id);
      MergedAt(s.qualities, video, id, 0);
    }
    forall id, q | Available(s'.qualities, id, q) ensures s'.qualities[id][q].id == id && q >= 0 {
      MergedAt(s.qualities, video, id, q);
    }
  }

  lemma AnnouncedAt(video: Tracks, id: string, q: int)
    ensures (id, q) in AnnouncedTracks(video) <==> Available(video, id, q)
    ensures Available(video, id, q) ==> AnnouncedTracks(video)[(id, q)] == video[id][q]
  {
  }

  lemma AnnouncingVideo(s: State, client: int, tiles: int, audio: TrackLocal, video: Tracks, id: string, q: int)
    requires Starting(s) && Declared(client, tiles, audio, video)
    requires (id, q) in Announcing(s, client, tiles, audio, video).startingVideo
    ensures var s' := Announcing(s, client, tiles, audio, video);
            !IsAudio(id) && Available(s'.qualities, id, q) && s'.startingVideo[(id, q)] == s'.qualities[id][q]
  {
    DeclaredTells(client, tiles, audio, video);
    MergedAt(s.qualities, video, id, q);
    AnnouncedAt(video, id, q);
  }

  lemma AnnouncingAudio(s: State, client: int, tiles: int, audio: TrackLocal, video: Tracks, id: string)
    requires Starting(s) && Declared(client, tiles, audio, video)
    requires id in Announcing(s, client, tiles, audio, video).startingAudio
    ensures var s' := Announcing(s, client, tiles, audio, video);
            IsAudio(id) && id in s'.locals && s'.locals[id] == s'.startingAudio[id]
  {
    DeclaredTells(client, tiles, audio, video);
    RegisteredAt(s, client, tiles, audio, video, id);
    if id != audio.id {
      assert id in s.startingAudio && id !in video;
    }
  }

  lemma AnnouncingStarting(s: State, client: int, tiles: int, audio: TrackLocal, video: Tracks)
    requires Starting(s) && Declared(client, tiles, audio, video)
    ensures Starting(Announcing(s, client, tiles, audio, video))
  {
    var s' := Announcing(s, client, tiles, audio, video);
    forall id, q | (id, q) in s'.startingVideo
      ensures !IsAudio(id) && Available(s'.qualities, id, q) && s'.startingVideo[(id, q)] == s'.qualities[id][q]
    {
      AnnouncingVideo(s, client, tiles, audio, video, id, q);
    }
    forall id | id in s'.startingAudio ensures IsAudio(id) && id in s'.locals && s'.locals[id] == s'.startingAudio[id] {
      AnnouncingAudio(s, client, tiles, audio, video, id);
    }
  }

  lemma AnnouncingGrown(s: State, client: int, tiles: int, audio: TrackLocal, video: Tracks, id: string)
    requires Declared(client, tiles, audio, video)
    ensures Grown(s, Announcing(s, client, tiles, audio, video), id)
  {
    DeclaredTells(client, tiles, audio, video);
    RegisteredAt(s, client, tiles, audio, video, id);
    forall q
      ensures Available(s.qualities, id, q) ==> Available(Merge(s.qualities, video), id, q)
      ensures Available(s.qualities, id, q) && !Available(video, id, q) ==>
                Merge(s.qualities, video)[id][q] == s.qualities[id][q]
    {
      MergedAt(s.qualities, video, id, q);
    }
  }

  /** A peer's part of the invariant does not look at the peers. */
  lemma PeerInvOther(p: Peer, s: State, s': State)
    requires PeerInv(p, s) && s' == s.(peers := s'.peers, sync := s'.sync)
    ensures PeerInv(p, s')
  {
    assert forall id | id in p.decisions :: VideoRight(s, id, p.decisions[id], Carried(p, id));
    assert forall id | id in p.registered && IsAudio(id) :: AudioRight(s, id, Carried(p, id));
  }

  lemma AppendInv(s: State, client: int, tiles: int)
    requires Inv(s) && client in s.clients && InInt64(client) && InInt64(tiles) && s.sync == Free
    ensures Inv(s.(peers := s.peers + [NewPeer(client, tiles)]))
  {
    var s' := s.(peers := s.peers + [NewPeer(client, tiles)]);
    forall i | 0 <= i < |s'.peers| ensures PeerInv(s'.peers[i], s') {
      if i < |s.peers| {
        PeerInvOther(s.peers[i], s, s');
      }
    }
  }

  /** Whoever registers, new or known: the state is as right as if the callbacks for all the tracks that
      were announced were under way. */
  lemma AnnouncingInv(s: State, client: int, tiles: int, audio: TrackLocal, video: Tracks)
    requires Inv(s) && s.sync == Free && Declared(client, tiles, audio, video)
    ensures Inv(Announcing(s, client, tiles, audio, video))
  {
    var maps := Announcing(s, client, tiles, audio, video).(peers := s.peers);
    RegisterStored(s, client, tiles, audio, video);
    AnnouncingStarting(s, client, tiles, audio, video);
    forall id ensures Grown(s, maps, id) {
      AnnouncingGrown(s, client, tiles, audio, video, id);
    }
    PeersGrown(s, maps);
    AppendInv(maps, client, tiles);
  }

  // ---- Fewer callbacks under way ----

  /** The peer needs none of the exceptions that `s` has and `s'` has not. */
  ghost predicate Settles(p: Peer, s: State, s': State) {
    && (forall id | id in p.decisions && (id, p.decisions[id]) in s.startingVideo ::
          (id, p.decisions[id]) in s'.startingVideo || Fits(s, id, p.decisions[id], Carried(p, id)))
    && (forall id | id in p.registered && id in s.startingAudio ::
          id in s'.startingAudio || (id in s.locals ==> Carried(p, id) == s.locals[id]))
  }

  lemma PeerSettled(p: Peer, s: State, s': State)
    requires PeerInv(p, s) && Settles(p, s, s')
    requires s' == s.(startingVideo := s'.startingVideo, startingAudio := s'.startingAudio)
    ensures PeerInv(p, s')
  {
    forall id | id in p.decisions ensures VideoRight(s', id, p.decisions[id], Carried(p, id)) {
      assert VideoRight(s, id, p.decisions[id], Carried(p, id));
    }
    forall id | id in p.registered && IsAudio(id) ensures AudioRight(s', id, Carried(p, id)) {
      assert AudioRight(s, id, Carried(p, id));
    }
  }

  lemma SettledInv(s: State, s': State)
    requires Inv(s) && Starting(s') && forall i | 0 <= i < |s.peers| :: Settles(s.peers[i], s, s')
    requires s' == s.(startingVideo := s'.startingVideo, startingAudio := s'.startingAudio)
    ensures Inv(s')
  {
    forall i | 0 <= i < |s.peers| ensures PeerInv(s.peers[i], s') {
      PeerSettled(s.peers[i], s, s');
    }
  }

  /** Nothing that is announced is under way, carried or decided for. */
  ghost predicate Undisturbed(s: State, audio: TrackLocal, video: Tracks) {
    && (forall id, q | Available(video, id, q) :: (id, q) !in s.startingVideo)
    && audio.id !in s.startingAudio
    && (forall i, id | 0 <= i < |s.peers| && id in s.peers[i].decisions ::
        !Available(video, id, s.peers[i].decisions[id]))
    && (forall i | 0 <= i < |s.peers| :: audio.id !in s.peers[i].registered)
  }

  lemma RegisteredStarting(s: State, client: int, tiles: int, audio: TrackLocal, video: Tracks)
    requires Stored(s) && Starting(s) && Declared(client, tiles, audio, video) && Undisturbed(s, audio, video)
    ensures Starting(Registered(s, client, tiles, audio, video))
  {
    var s' := Registered(s, client, tiles, audio, video);
    DeclaredTells(client, tiles, audio, video);
    forall id, q | (id, q) in s.startingVideo
      ensures Available(s'.qualities, id, q) && s'.qualities[id][q] == s.qualities[id][q]
    {
      MergedAt(s.qualities, video, id, q);
    }
    forall id | id in s.startingAudio ensures id in s'.locals && s'.locals[id] == s.locals[id] {
      RegisteredAt(s, client, tiles, audio, video, id);
    }
  }

  lemma UndisturbedPeer(s: State, client: int, tiles: int, audio: TrackLocal, video: Tracks, i: nat)
    requires Undisturbed(s, audio, video) && i < |s.peers|
    ensures Settles(s.peers[i], Announcing(s, client, tiles, audio, video), Registered(s, client, tiles, audio, video))
  {
    var p := s.peers[i];
    forall id | id in p.decisions && (id, p.decisions[id]) in s.startingVideo + AnnouncedTracks(video)
      ensures (id, p.decisions[id]) in s.startingVideo
    {
      AnnouncedAt(video, id, p.decisions[id]);
    }
  }

  lemma NewPeerSettles(client: int, tiles: int, s: State, s': State)
    ensures Settles(NewPeer(client, tiles), s, s')
  {
  }

  lemma UndisturbedSettles(s: State, client: int, tiles: int, audio: TrackLocal, video: Tracks, i: nat)
    requires Undisturbed(s, audio, video) && i < |s.peers| + 1
    ensures var with, s' := Announcing(s, client, tiles, audio, video), Registered(s, client, tiles, audio, video);
            i < |with.peers| && Settles(with.peers[i], with, s')
  {
    var with, s' := Announcing(s, client, tiles, audio, video), Registered(s, client, tiles, audio, video);
    if i < |s.peers| {
      UndisturbedPeer(s, client, tiles, audio, video, i);
      assert with.peers[i] == s.peers[i];
    } else {
      NewPeerSettles(client, tiles, with, s');
      assert with.peers[i] == NewPeer(client, tiles);
    }
  }

  lemma UndisturbedInv(s: State, client: int, tiles: int, audio: TrackLocal, video: Tracks)
    requires Inv(s) && s.sync == Free && Declared(client, tiles, audio, video) && Undisturbed(s, audio, video)
    ensures Inv(Registered(s, client, tiles, audio, video))
  {
    var with, s' := Announcing(s, client, tiles, audio, video), Registered(s, client, tiles, audio, video);
    AnnouncingInv(s, client, tiles, audio, video);
    RegisteredStarting(s, client, tiles, audio, video);
    forall i | 0 <= i < |with.peers| ensures Settles(with.peers[i], with, s') {
      UndisturbedSettles(s, client, tiles, audio, video, i);
    }
    SettledInv(with, s');
  }

  lemma NewIsUndisturbed(s: State, client: int, tiles: int, audio: TrackLocal, video: Tracks)
    requires Inv(s) && client !in s.clients && Declared(client, tiles, audio, video)
    ensures Undisturbed(s, audio, video)
  {
    DeclaredTells(client, tiles, audio, video);
  }

  lemma RegisterInv(s: State, client: int, tiles: int, audio: TrackLocal, video: Tracks)
    requires Inv(s) && s.sync == Free && client !in s.clients && Declared(client, tiles, audio, video)
    ensures Inv(Registered(s, client, tiles, audio, video))
  {
    NewIsUndisturbed(s, client, tiles, audio, video);
    UndisturbedInv(s, client, tiles, audio, video);
  }

  // ---- Steps on the senders ----

  /** One peer changes; any sender that it gains is no other peer's. */
  lemma KeptAt(s: State, s': State, i: nat, p: Peer)
    requires Kept(s) && i < |s.peers| && s' == s.(peers := s.peers[i := p], sync := s'.sync) && PeerInv(p, s)
    requires forall j | 0 <= j < |s.peers| && j != i :: p.senders.Keys !! s.peers[j].senders.Keys
    ensures Kept(s')
  {
    forall j | 0 <= j < |s'.peers| ensures PeerInv(s'.peers[j], s') {
      PeerInvOther(s'.peers[j], s, s');
    }
  }

  lemma SyncKept(s: State, s': State)
    requires Kept(s) && s' == s.(sync := s'.sync)
    ensures Kept(s')
  {
    forall j | 0 <= j < |s'.peers| ensures PeerInv(s'.peers[j], s') {
      PeerInvOther(s'.peers[j], s, s');
    }
  }

  lemma OthersSenders(ps: seq<Peer>, i: nat, p: Peer)
    requires SendersDisjoint(ps) && i < |ps| && p.senders.Keys <= ps[i].senders.Keys
    ensures forall j | 0 <= j < |ps| && j != i :: p.senders.Keys !! ps[j].senders.Keys
  {
    forall j | 0 <= j < |ps| && j != i ensures p.senders.Keys !! ps[j].senders.Keys {
      if j < i {
        assert ps[j].senders.Keys !! ps[i].senders.Keys;
      } else {
        assert ps[i].senders.Keys !! ps[j].senders.Keys;
      }
    }
  }

  /** One peer takes a step that leaves its senders in place and its active IDs alone. */
  lemma PeerInvAt(s: State, i: nat, p: Peer)
    requires Inv(s) && i < |s.peers| && PeerInv(p, s) && p.senders.Keys <= s.peers[i].senders.Keys
    requires s.sync == Free || (ActiveIDs(p) == ActiveIDs(s.peers[i]) && OwnOf(p) == OwnOf(s.peers[i]))
    ensures Inv(s.(peers := s.peers[i := p]))
  {
    OthersSenders(s.peers, i, p);
    KeptAt(s, s.(peers := s.peers[i := p]), i, p);
  }

  lemma SetQualityInv(s: State, p: nat, id: string, q: int)
    requires Inv(s) && s.sync == Free && p < |s.peers|
    ensures Inv(s.(peers := s.peers[p := Decide(s.peers[p], s.qualities, id, q)]))
  {
    DecideInv(s.peers[p], s, id, q);
    PeerInvAt(s, p, Decide(s.peers[p], s.qualities, id, q));
  }

  lemma CloseInv(s: State, p: nat)
    requires Inv(s) && p < |s.peers|
    ensures Inv(s.(peers := s.peers[p := s.peers[p].(closed := true)]))
  {
    var p' := s.peers[p].(closed := true);
    assert forall id :: Carried(p', id) == Carried(s.peers[p], id);
    PeerInvAt(s, p, p');
  }

  lemma ReceiverIsOwn(p: Peer, id: string)
    requires InInt64(p.clientID) && InInt64(p.tiles) && (id == AudioID(p.clientID) || SentBy(p, id))
    ensures BaseID(id).Some? && BaseID(id).value in OwnOf(p)
  {
    if id == AudioID(p.clientID) {
      BaseOfSent(p.clientID, 0, 0);
    } else {
      var t: int, q: int :| 0 <= t < p.tiles && id == SentVideoID(p.clientID, t, q);
      BaseOfSent(p.clientID, t, q);
    }
  }

  lemma StartReceiverInv(s: State, p: nat, id: string)
    requires Inv(s) && p < |s.peers| && (id == AudioID(s.peers[p].clientID) || SentBy(s.peers[p], id))
    ensures Inv(s.(peers := s.peers[p := s.peers[p].(receivers := s.peers[p].receivers + [id])]))
  {
    var p' := s.peers[p].(receivers := s.peers[p].receivers + [id]);
    ReceiverIsOwn(s.peers[p], id);
    assert forall other :: Carried(p', other) == Carried(s.peers[p], other);
    PeerInvAt(s, p, p');
  }

  lemma ReplaceAtInv(p: Peer, s: State, id: string, q: int, t: TrackLocal)
    requires PeerInv(p, s) && Stored(s) && Fits(s, id, q, t)
    ensures var p' := ReplaceAt(p, id, q, t);
            && PeerInv(p', s) && p'.senders.Keys == p.senders.Keys && p'.decisions == p.decisions
            && (id in p.decisions && p.decisions[id] == q ==> Carried(p', id) == t)
  {
    if id in p.decisions && p.decisions[id] == q {
      RedecideInv(p, s, id, q, t);
      assert p.decisions[id := q] == p.decisions;
    }
  }

  /** Once an OnTrack callback has updated a peer, it is no exception any more. */
  lemma UpdatedQuality(p: Peer, s: State, id: string, q: int)
    requires PeerInv(p, s) && Stored(s) && Starting(s) && (id, q) in s.startingVideo
    ensures PeerInv(ReplaceAt(p, id, q, s.startingVideo[(id, q)]), s.(startingVideo := s.startingVideo - {(id, q)}))
    ensures ReplaceAt(p, id, q, s.startingVideo[(id, q)]).senders.Keys == p.senders.Keys
  {
    var t := s.startingVideo[(id, q)];
    ReplaceAtInv(p, s, id, q, t);
    PeerSettled(ReplaceAt(p, id, q, t), s, s.(startingVideo := s.startingVideo - {(id, q)}));
  }

  lemma UpdateQualityInv(s: State, id: string, q: int)
    requires Inv(s) && s.sync == Free && (id, q) in s.startingVideo
    ensures Inv(s.(peers := UpdateSenders(s.peers, id, q, s.startingVideo[(id, q)]),
                   startingVideo := s.startingVideo - {(id, q)}))
  {
    var without := s.(startingVideo := s.startingVideo - {(id, q)});
    var s' := without.(peers := UpdateSenders(s.peers, id, q, s.startingVideo[(id, q)]));
    forall i | 0 <= i < |s.peers|
      ensures PeerInv(s'.peers[i], s') && s'.peers[i].senders.Keys == s.peers[i].senders.Keys
    {
      UpdatedQuality(s.peers[i], s, id, q);
      PeerInvOther(s'.peers[i], without, s');
    }
  }

  lemma ReplaceAudioInv(p: Peer, s: State, id: string, t: TrackLocal)
    requires PeerInv(p, s) && IsAudio(id) && id in s.locals && t == s.locals[id] && t.id == id
    ensures PeerInv(Replace(p, id, t), s) && (id in p.registered ==> Carried(Replace(p, id, t), id) == t)
    ensures Replace(p, id, t).senders.Keys == p.senders.Keys
  {
    ReplaceWired(p, id, t);
    CarriesBut(p, Replace(p, id, t), s, id);
  }

  lemma UpdatedAudio(p: Peer, s: State, id: string)
    requires PeerInv(p, s) && Stored(s) && Starting(s) && id in s.startingAudio
    ensures PeerInv(Replace(p, id, s.startingAudio[id]), s.(startingAudio := s.startingAudio - {id}))
    ensures Replace(p, id, s.startingAudio[id]).senders.Keys == p.senders.Keys
  {
    ReplaceAudioInv(p, s, id, s.startingAudio[id]);
    PeerSettled(Replace(p, id, s.startingAudio[id]), s, s.(startingAudio := s.startingAudio - {id}));
  }

  lemma UpdateAudioInv(s: State, id: string)
    requires Inv(s) && s.sync == Free && id in s.startingAudio
    ensures Inv(s.(peers := UpdateAudioSenders(s.peers, id, s.startingAudio[id]),
                   startingAudio := s.startingAudio - {id}))
  {
    var without := s.(startingAudio := s.startingAudio - {id});
    var s' := without.(peers := UpdateAudioSenders(s.peers, id, s.startingAudio[id]));
    forall i | 0 <= i < |s.peers|
      ensures PeerInv(s'.peers[i], s') && s'.peers[i].senders.Keys == s.peers[i].senders.Keys
    {
      UpdatedAudio(s.peers[i], s, id);
      PeerInvOther(s'.peers[i], without, s');
    }
  }

  // ---- Synchronization ----

  lemma VisitInv(s: State)
    requires Inv(s) && s.sync.Visit? && s.sync.i < |s.peers| && !s.peers[s.sync.i].closed
    ensures Inv(Visited(s))
  {
    var p := s.peers[s.sync.i];
    CleanInv(p, s);
    ReceiversOwn(p, s);
    ActiveForeign(p, s);
    OthersSenders(s.peers, s.sync.i, Clean(p, s.locals));
    KeptAt(s, Visited(s), s.sync.i, Clean(p, s.locals));
  }

  lemma DropInv(s: State, i: nat)
    requires Inv(s) && i < |s.peers|
    ensures Inv(s.(peers := s.peers[..i] + s.peers[i + 1..], sync := Free))
  {
    var s' := s.(peers := s.peers[..i] + s.peers[i + 1..], sync := Free);
    forall j | 0 <= j < |s'.peers| ensures PeerInv(s'.peers[j], s') {
      PeerInvOther(s'.peers[j], s, s');
    }
  }

  lemma AddSync(s: State, id: string, sender: RTPSender)
    requires SyncInv(s) && s.sync.Adding? && id in s.sync.todo
    requires ActiveIDs(Added(s, id, sender).peers[s.sync.i]) == ActiveIDs(s.peers[s.sync.i]) + {id}
    ensures SyncInv(Added(s, id, sender))
  {
    var s' := Added(s, id, sender);
    assert ActiveIDs(s.peers[s.sync.i]) + {id} + (s.sync.todo - {id}) == ActiveIDs(s.peers[s.sync.i]) + s.sync.todo;
    forall j | 0 <= j < s.sync.i ensures InSync(s'.peers[j], s') {
      assert InSync(s.peers[j], s);
    }
  }

  lemma AddInv(s: State, id: string, sender: RTPSender)
    requires Inv(s) && s.sync.Adding? && id in s.sync.todo && forall p | p in s.peers :: sender !in p.senders
    ensures NewTrack(s, id) != null && Inv(Added(s, id, sender))
  {
    var i := s.sync.i;
    assert id in ActiveIDs(s.peers[i]) + s.sync.todo;
    TrackFound(s, id);
    AddSenderInv(s.peers[i], s, id, sender, NewTrack(s, id));
    OthersSenders(s.peers, i, s.peers[i]);
    KeptAt(s, Added(s, id, sender), i, AddSender(s.peers[i], id, sender, NewTrack(s, id)));
    AddSync(s, id, sender);
  }

  lemma OfferSync(s: State)
    requires SyncInv(s) && s.sync.Adding? && s.sync.todo == {}
    ensures SyncInv(s.(sync := Visit(s.sync.i + 1)))
  {
    var s' := s.(sync := Visit(s.sync.i + 1));
    forall j | 0 <= j < s.sync.i + 1 ensures InSync(s'.peers[j], s') {
      assert j < s.sync.i ==> InSync(s.peers[j], s);
    }
  }

  lemma OfferInv(s: State, ok: bool)
    requires Inv(s) && s.sync.Adding? && s.sync.todo == {}
    ensures Inv(s.(sync := if ok then Visit(s.sync.i + 1) else Free))
  {
    SyncKept(s, s.(sync := if ok then Visit(s.sync.i + 1) else Free));
    OfferSync(s);
  }
}
