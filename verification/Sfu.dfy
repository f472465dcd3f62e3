/** The SFU's registry, updated in place, one method for each section that runs under its locks. */
module SFU {
  import opened TrackID
  import opened Registry
  import opened RegistryInvariant
  import opened RegistryRuns
  import opened RegistryRetry
  import opened PeerConnections
  import opened Registration
  import opened Reregistration
  import opened Text
  import opened QualityMessage
  import Signaling

  class SFU {
    var trackLocals: map<string, TrackLocal>
    var trackQualities: Tracks
    var peerConnections: seq<PeerConnection>
    /** The state of the registry as the steps see it. */
    ghost var state: State

    ghost function Senders(): set<RTPSender>
      reads this, peerConnections
    {
      set p, x | p in peerConnections && x in p.senders :: x
    }

    /** No two peers share a sender. */
    ghost predicate Separate()
      reads this, peerConnections
    {
      forall i, j | 0 <= i < j < |peerConnections| ::
        peerConnections[i] != peerConnections[j] && peerConnections[i].senders !! peerConnections[j].senders
    }

    /** The listed objects show these peers. */
    ghost predicate Shown(peers: seq<Peer>)
      reads this, peerConnections, Senders()
    {
      && |peerConnections| == |peers|
      && (forall i | 0 <= i < |peerConnections| :: peerConnections[i].Valid() && peerConnections[i].View() == peers[i])
      && Separate()
    }

    /** The objects show the state. */
    ghost predicate Valid()
      reads this, peerConnections, Senders()
    {
      trackLocals == state.locals && trackQualities == state.qualities && Shown(state.peers)
    }

    constructor ()
      ensures Valid() && state == Initial
    {
      trackLocals, trackQualities, peerConnections, state := map[], map[], [], Initial;
    }

    // ---- The maps ----

    method AddTrack(t: TrackLocal)
      modifies this`trackLocals
      ensures trackLocals == old(trackLocals)[t.id := t]
    {
      trackLocals := trackLocals[t.id := t];
    }

    method AddQualityTrack(t: TrackLocal, quality: int, newID: string)
      modifies this`trackQualities
      ensures trackQualities == Store(old(trackQualities), newID, quality, t)
    {
      if newID !in trackQualities {
        trackQualities := trackQualities[newID := map[]];
      }
      var byQuality: map<int, TrackLocal> := trackQualities[newID];
      trackQualities := trackQualities[newID := byQuality[quality := t]];
      assert trackQualities == Store(old(trackQualities), newID, quality, t);
    }

    method RemoveTrack(t: TrackLocal)
      requires Valid() && Enabled(state, RemoveAudio(t.id))
      modifies this`trackLocals, this`state
      ensures Valid() && state == Apply(old(state), RemoveAudio(t.id))
      ensures trackLocals == old(trackLocals) - {t.id}
    {
      trackLocals := trackLocals - {t.id};
      state := state.(locals := trackLocals);
    }

    // ---- Registration ----

    /** The block that registers a client: an audio track, and tracks for its tiles at each quality. */
    method Register(clientID: int, numberOfTiles: int, numberOfQualities: int)
      returns (pcState: PeerConnection, audio: TrackLocal, ghost items: seq<Item>)
      requires Valid() && state.sync == Free && InInt64(clientID) && InInt64(numberOfTiles)
      modifies this
      ensures fresh(pcState) && peerConnections == old(peerConnections) + [pcState]
      ensures pcState.clientID == clientID && pcState.numberOfTiles == numberOfTiles && audio.id == AudioID(clientID)
      ensures OneTrackEach(StoreAll(map[], items), clientID, numberOfTiles, numberOfQualities)
      ensures fresh(audio) && Unused(old(state), audio, StoreAll(map[], items))
      ensures Declared(clientID, numberOfTiles, audio, StoreAll(map[], items))
      ensures Valid() && state == Registered(old(state), clientID, numberOfTiles, audio, StoreAll(map[], items))
    {
      pcState := new PeerConnection(clientID, numberOfTiles);
      audio, items := Announce(clientID, numberOfTiles, numberOfQualities, state);
      ListPeer(pcState, numberOfTiles, audio, StoreAll(map[], items));
    }

    /** The tracks of the client are new, whatever the peers `before` carry. */
    method Announce(clientID: int, numberOfTiles: int, numberOfQualities: int, ghost before: State)
      returns (audio: TrackLocal, ghost items: seq<Item>)
      requires InInt64(clientID) && InInt64(numberOfTiles)
      modifies this`trackLocals, this`trackQualities
      ensures fresh(audio) && Unused(before, audio, StoreAll(map[], items)) && audio.id == AudioID(clientID)
      ensures OneTrackEach(StoreAll(map[], items), clientID, numberOfTiles, numberOfQualities)
      ensures Declared(clientID, numberOfTiles, audio, StoreAll(map[], items))
      ensures trackLocals == old(trackLocals)[audio.id := audio] + Zeros(StoreAll(map[], items))
      ensures trackQualities == Merge(old(trackQualities), StoreAll(map[], items))
    {
      audio := new TrackLocal(AudioID(clientID));
      AddTrack(audio);
      items := AnnounceTiles(clientID, numberOfTiles, numberOfQualities);
      AnnouncedAll(items);
      AllTracksEach(items, clientID, numberOfTiles, numberOfQualities);
      assert IDs(items) == {} ==> StoreAll(map[], items) == map[];
      AllMerged(old(trackQualities), items);
      AllZeros(old(trackLocals)[audio.id := audio], items);
      forall id, q | Available(StoreAll(map[], items), id, q) ensures fresh(StoreAll(map[], items)[id][q]) {
        TracksOf(items, id, q);
      }
    }

    method ListPeer(pcState: PeerConnection, ghost tiles: int, ghost audio: TrackLocal, ghost video: Tracks)
      requires Shown(state.peers) && pcState !in peerConnections && pcState.Valid() && pcState.senders == {}
      requires pcState.View() == NewPeer(pcState.clientID, tiles)
      requires trackLocals == state.locals[audio.id := audio] + Zeros(video)
      requires trackQualities == Merge(state.qualities, video)
      modifies this`peerConnections, this`state
      ensures peerConnections == old(peerConnections) + [pcState]
      ensures Valid() && state == Registered(old(state), pcState.clientID, tiles, audio, video)
    {
      peerConnections := peerConnections + [pcState];
      state := Registered(state, pcState.clientID, tiles, audio, video);
    }

    method AnnounceTiles(clientID: int, numberOfTiles: int, numberOfQualities: int) returns (ghost items: seq<Item>)
      modifies this`trackLocals, this`trackQualities
      ensures Sound(items) && (IDs(items) == {} || IDs(items) == OwnVideo(clientID, numberOfTiles))
      ensures Pairs(items) == TilePairs(clientID, numberOfTiles, numberOfQualities) && DistinctTracks(items)
      ensures forall x | x in items :: fresh(x.t)
      ensures trackLocals == PutAll(old(trackLocals), items) && trackQualities == StoreAll(old(trackQualities), items)
    {
      items := [];
      assert OwnVideo(clientID, 0) == {} && TilePairs(clientID, 0, numberOfQualities) == {};
      var i := 0;
      while i < numberOfTiles
        invariant 0 <= i && (i <= numberOfTiles || i == 0)
        invariant Sound(items) && IDs(items) == AnnouncedIDs(clientID, i, numberOfQualities)
        invariant Pairs(items) == TilePairs(clientID, i, numberOfQualities) && DistinctTracks(items)
        invariant forall x | x in items :: fresh(x.t)
        invariant trackLocals == PutAll(old(trackLocals), items)
        invariant trackQualities == StoreAll(old(trackQualities), items)
      {
        MoreIDs(clientID, i, numberOfQualities);
        MorePairs(clientID, i, numberOfQualities);
        items := AnnounceTile(clientID, i, numberOfQualities, items, old(trackLocals), old(trackQualities));
        i := i + 1;
      }
    }

    method AnnounceTile(clientID: int, i: nat, numberOfQualities: int, ghost items: seq<Item>,
                        ghost locals: map<string, TrackLocal>, ghost qualities: Tracks)
      returns (ghost items': seq<Item>)
      requires Sound(items) && trackLocals == PutAll(locals, items) && trackQualities == StoreAll(qualities, items)
      requires DistinctTracks(items)
      modifies this`trackLocals, this`trackQualities
      ensures Pairs(items') == Pairs(items) + QualityPairs(VideoID(clientID, i), numberOfQualities)
      ensures DistinctTracks(items')
      ensures Sound(items') && trackLocals == PutAll(locals, items') && trackQualities == StoreAll(qualities, items')
      ensures IDs(items') == IDs(items) + (if numberOfQualities > 0 then {VideoID(clientID, i)} else {})
      ensures forall x | x in items' :: x in items || fresh(x.t)
    {
      var newID := VideoID(clientID, i);
      items' := items;
      var j := 0;
      while j < numberOfQualities
        invariant 0 <= j && (j == 0 || j <= numberOfQualities)
        invariant Sound(items') && trackLocals == PutAll(locals, items')
        invariant trackQualities == StoreAll(qualities, items')
        invariant IDs(items') == IDs(items) + (if j > 0 then {newID} else {})
        invariant Pairs(items') == Pairs(items) + QualityPairs(newID, j) && DistinctTracks(items')
        invariant forall x | x in items' :: x in items || fresh(x.t)
      {
        MoreQualityPairs(newID, j);
        items' := AnnounceTrack(newID, j, items', locals, qualities);
        j := j + 1;
      }
    }

    /** One track, which for quality 0 is also the one in `trackLocals`. */
    method AnnounceTrack(newID: string, j: nat, ghost items: seq<Item>,
                         ghost locals: map<string, TrackLocal>, ghost qualities: Tracks)
      returns (ghost items': seq<Item>)
      requires Sound(items) && trackLocals == PutAll(locals, items) && trackQualities == StoreAll(qualities, items)
      requires DistinctTracks(items) && (j > 0 ==> newID in IDs(items))
      modifies this`trackLocals, this`trackQualities
      ensures Sound(items') && trackLocals == PutAll(locals, items') && trackQualities == StoreAll(qualities, items')
      ensures IDs(items') == IDs(items) + {newID}
      ensures Pairs(items') == Pairs(items) + {(newID, j)} && DistinctTracks(items')
      ensures forall x | x in items' :: x in items || fresh(x.t)
    {
      var t := new TrackLocal(newID);
      items' := items + [Item(newID, j, t)];
      OneMore(qualities, locals, items, Item(newID, j, t));
      OneMorePair(items, Item(newID, j, t));
      AddQualityTrack(t, j, newID);
      if j == 0 {
        AddTrack(t);
      }
    }

    // ---- OnTrack ----

    /** OnTrack for a video track, up to its first locked section. */
    method StartVideo(sentID: string, ghost client: int, ghost tile: int, ghost q: int)
      returns (t: TrackLocal, quality: int)
      requires Valid() && InInt64(client) && InInt64(tile) && InInt64(q) && sentID == SentVideoID(client, tile, q)
      requires client in state.clients && 0 <= tile < state.clients[client] && q >= 0
      requires (VideoID(client, tile), q) !in state.startingVideo
      modifies this`trackQualities, this`state
      ensures fresh(t) && t.id == VideoID(client, tile) && quality == q
      ensures Enabled(old(state), AddQuality(client, tile, q, t))
      ensures Valid() && state == Apply(old(state), AddQuality(client, tile, q, t))
    {
      PartsOfSent(client, tile, q);
      var newID := SentParts(sentID).value.0;
      quality := SentParts(sentID).value.1;
      t := new TrackLocal(newID);
      AddQualityTrack(t, quality, newID);
      state := WithQuality(state, quality, t);
    }

    /** The second, for quality 0 only. */
    method StartVideoLocal(t: TrackLocal)
      requires Valid() && Enabled(state, AddVideo(t.id)) && state.startingVideo[(t.id, 0)] == t
      modifies this`trackLocals, this`state
      ensures Valid() && state == Apply(old(state), AddVideo(t.id))
      ensures trackLocals == old(trackLocals)[t.id := t]
    {
      AddTrack(t);
      state := state.(locals := trackLocals);
    }

    /** The last. */
    method UpdateClientTrackStateQuality(trackLocal: TrackLocal, quality: int)
      requires Valid() && Enabled(state, UpdateQuality(trackLocal.id, quality))
      requires state.startingVideo[(trackLocal.id, quality)] == trackLocal
      modifies this`state, Senders()
      ensures Valid() && state == Apply(old(state), UpdateQuality(trackLocal.id, quality))
    {
      UpdateEachQuality(trackLocal, quality, state.peers);
      state := state.(peers := UpdateSenders(state.peers, trackLocal.id, quality, trackLocal),
                      startingVideo := state.startingVideo - {(trackLocal.id, quality)});
    }

    method UpdateEachQuality(trackLocal: TrackLocal, quality: int, ghost peers: seq<Peer>)
      requires Shown(peers)
      modifies Senders()
      ensures Shown(UpdateSenders(peers, trackLocal.id, quality, trackLocal))
    {
      for k := 0 to |peerConnections|
        invariant forall i | 0 <= i < k ::
            peerConnections[i].View() == ReplaceAt(peers[i], trackLocal.id, quality, trackLocal)
        invariant forall i | k <= i < |peerConnections| :: peerConnections[i].View() == peers[i]
      {
        label Before:
        peerConnections[k].UpdateTrackQuality(trackLocal, quality);
        assert peerConnections[k].View() == ReplaceAt(peers[k], trackLocal.id, quality, trackLocal);
        forall i | 0 <= i < |peerConnections| && i != k
          ensures peerConnections[i].View() == old@Before(peerConnections[i].View())
        {
          assert peerConnections[i].senders !! peerConnections[k].senders;
        }
      }
    }

    /** The first locked section of OnTrack for an audio track. */
    method StartAudio(t: TrackLocal, ghost client: int)
      requires Valid() && Enabled(state, AddAudio(client, t))
      modifies this`trackLocals, this`state
      ensures Valid() && state == Apply(old(state), AddAudio(client, t))
      ensures trackLocals == old(trackLocals)[t.id := t]
    {
      AddTrack(t);
      state := state.(locals := trackLocals, startingAudio := state.startingAudio[t.id := t]);
    }

    method UpdateClientTrackState(trackLocal: TrackLocal)
      requires Valid() && Enabled(state, UpdateAudio(trackLocal.id)) && state.startingAudio[trackLocal.id] == trackLocal
      modifies this`state, Senders()
      ensures Valid() && state == Apply(old(state), UpdateAudio(trackLocal.id))
    {
      UpdateEach(trackLocal, state.peers);
      state := state.(peers := UpdateAudioSenders(state.peers, trackLocal.id, trackLocal),
                      startingAudio := state.startingAudio - {trackLocal.id});
    }

    method UpdateEach(trackLocal: TrackLocal, ghost peers: seq<Peer>)
      requires Shown(peers)
      modifies Senders()
      ensures Shown(UpdateAudioSenders(peers, trackLocal.id, trackLocal))
    {
      for k := 0 to |peerConnections|
        invariant forall i | 0 <= i < k :: peerConnections[i].View() == Replace(peers[i], trackLocal.id, trackLocal)
        invariant forall i | k <= i < |peerConnections| :: peerConnections[i].View() == peers[i]
      {
        label Before:
        peerConnections[k].UpdateTrack(trackLocal);
        assert peerConnections[k].View() == Replace(peers[k], trackLocal.id, trackLocal);
        forall i | 0 <= i < |peerConnections| && i != k
          ensures peerConnections[i].View() == old@Before(peerConnections[i].View())
        {
          assert peerConnections[i].senders !! peerConnections[k].senders;
        }
      }
    }

    // ---- Steps of one peer ----

    method SetTrackQuality(pcState: PeerConnection, trackID: string, quality: int, ghost i: nat)
      requires Valid() && i < |peerConnections| && peerConnections[i] == pcState && state.sync == Free
      modifies this`state, pcState`qualityDecisions, pcState.senders
      ensures Valid() && state == Apply(old(state), SetQuality(i, trackID, quality))
      ensures pcState.senders == old(pcState.senders)
    {
      pcState.SetTrackQuality(trackQualities, trackID, quality);
      state := WithPeer(state, i, pcState.View());
    }

    method Close(pcState: PeerConnection, ghost i: nat)
      requires Valid() && i < |peerConnections| && peerConnections[i] == pcState
      modifies this`state, pcState`closed
      ensures Valid() && state == Apply(old(state), Registry.Close(i)) && pcState.closed
    {
      pcState.Close();
      state := WithPeer(state, i, pcState.View());
    }

    method StartReceiver(pcState: PeerConnection, id: string, ghost i: nat)
      requires Valid() && i < |peerConnections| && peerConnections[i] == pcState
      requires Enabled(state, Registry.StartReceiver(i, id))
      modifies this`state, pcState`receivers
      ensures Valid() && state == Apply(old(state), Registry.StartReceiver(i, id))
      ensures pcState.receivers == old(pcState.receivers) + [id]
    {
      pcState.StartReceiver(id);
      state := WithPeer(state, i, pcState.View());
    }

    // ---- Quality messages ----

    /** What the websocket loop does with a text, of which type 7 carries quality decisions. */
    method ReceiveText(pcState: PeerConnection, raw: string, ghost i: nat)
      requires Valid() && i < |peerConnections| && peerConnections[i] == pcState && state.sync == Free
      requires Signaling.Parse(raw).Some?
      modifies this`state, pcState`qualityDecisions, pcState.senders
      ensures Valid()
      ensures var p := Signaling.Parse(raw).value;
              state == if p.messageType == 7 then DecidedAll(old(state), i, Decisions(p.message)) else old(state)
    {
      var v := Split(raw, '@');
      var messageType := ParseUint(v[1]);
      var message := v[2];
      if messageType == 7 {
        SetTrackQualities(pcState, message, i);
      } else {
        assert state == old(state);
      }
    }

    method SetTrackQualities(pcState: PeerConnection, message: string, ghost i: nat)
      requires Valid() && i < |peerConnections| && peerConnections[i] == pcState && state.sync == Free
      modifies this`state, pcState`qualityDecisions, pcState.senders
      ensures Valid() && pcState.senders == old(pcState.senders)
      ensures state == DecidedAll(old(state), i, Decisions(message))
    {
      var v := Split(message, ';');
      ghost var start := state;
      for k := 0 to |v|
        invariant Valid() && state == DecidedAll(start, i, RowsDecisions(v, k))
      {
        SetMoreQualities(pcState, v[k], i, start, RowsDecisions(v, k));
      }
    }

    method SetMoreQualities(pcState: PeerConnection, w: string, ghost i: nat, ghost start: State,
                            ghost done: seq<Decision>)
      requires Valid() && i < |peerConnections| && peerConnections[i] == pcState && state.sync == Free
      requires i < |start.peers| && state == DecidedAll(start, i, done)
      modifies this`state, pcState`qualityDecisions, pcState.senders
      ensures Valid() && pcState.senders == old(pcState.senders)
      ensures state == DecidedAll(start, i, done + AllOfRow(w))
    {
      DecidedInTurn(start, i, done, AllOfRow(w));
      SetRowQualities(pcState, Split(w, ','), i);
    }

    method SetRowQualities(pcState: PeerConnection, x: seq<string>, ghost i: nat)
      requires Valid() && i < |peerConnections| && peerConnections[i] == pcState && state.sync == Free && |x| >= 1
      modifies this`state, pcState`qualityDecisions, pcState.senders
      ensures Valid() && pcState.senders == old(pcState.senders)
      ensures state == DecidedAll(old(state), i, RowDecisions(x, |x| - 1))
    {
      var clientID := x[0];
      for tileID := 0 to |x| - 1
        invariant Valid() && state == DecidedAll(old(state), i, RowDecisions(x, tileID))
      {
        var sQuality := x[tileID + 1];
        var trackID := "video_" + clientID + "_" + Itoa(tileID);
        match Atoi(sQuality) {
          case Some(quality) =>
            SetTrackQuality(pcState, trackID, quality, i);
            DecidedOneMore(old(state), i, RowDecisions(x, tileID), Decision(trackID, quality));
          case None =>
        }
      }
    }

    // ---- Synchronization ----

    /** A visit of an open peer, up to the tracks to be added. */
    method VisitPeer(pc: PeerConnection, ghost i: nat) returns (existingSenders: set<string>)
      requires Valid() && state.sync == Visit(i) && i < |peerConnections| && peerConnections[i] == pc && !pc.closed
      requires VisitReady(state.peers[i], trackLocals)
      modifies this`state, pc`senders, pc`trackRTPSenders
      ensures Valid() && state == Apply(old(state), SyncVisit)
      ensures state.sync == Adding(i, trackLocals.Keys - existingSenders)
    {
      VisitOpen(state);
      existingSenders := CleanPeer(pc, i, state.peers);
      state := Visited(state);
    }

    method CleanPeer(pc: PeerConnection, ghost i: nat, ghost peers: seq<Peer>) returns (existingSenders: set<string>)
      requires Shown(peers) && i < |peerConnections| && peerConnections[i] == pc && VisitReady(peers[i], trackLocals)
      modifies pc`senders, pc`trackRTPSenders
      ensures Shown(peers[i := Clean(peers[i], trackLocals)])
      ensures trackLocals.Keys - existingSenders == Missing(peers[i], trackLocals)
    {
      existingSenders := RemoveFromPeer(pc, i, peers);
      var own := pc.CollectOwn();
      existingSenders := existingSenders + own;
    }

    method RemoveFromPeer(pc: PeerConnection, ghost i: nat, ghost peers: seq<Peer>)
      returns (existingSenders: set<string>)
      requires Shown(peers) && i < |peerConnections| && peerConnections[i] == pc && VisitReady(peers[i], trackLocals)
      modifies pc`senders, pc`trackRTPSenders
      ensures Shown(peers[i := Clean(peers[i], trackLocals)]) && pc.View() == Clean(peers[i], trackLocals)
      ensures existingSenders == ActiveIDs(peers[i])
    {
      existingSenders := pc.RemoveGone(trackLocals);
      forall j | 0 <= j < |peerConnections| && j != i
        ensures peerConnections[j].View() == peers[j] && peerConnections[j].senders !! pc.senders
      {
      }
    }

    method AddNewTrackForPeer(pc: PeerConnection, trackID: string, ghost i: nat) returns (ghost sender: RTPSender)
      requires Valid() && i < |peerConnections| && peerConnections[i] == pc
      requires state.sync.Adding? && state.sync.i == i && trackID in state.sync.todo && NewTrack(state, trackID) != null
      modifies this`state, pc`senders, pc`trackRTPSenders, pc`qualityDecisions
      ensures fresh(sender) && Enabled(old(state), SyncAdd(trackID, sender))
      ensures Valid() && state == Apply(old(state), SyncAdd(trackID, sender))
    {
      sender := AddToPeer(pc, trackID, i, state.peers);
      state := Added(state, trackID, sender);
    }

    method AddToPeer(pc: PeerConnection, trackID: string, ghost i: nat, ghost peers: seq<Peer>)
      returns (sender: RTPSender)
      requires Shown(peers) && i < |peerConnections| && peerConnections[i] == pc
      requires TrackFor(trackLocals, trackQualities, trackID) != null
      modifies pc`senders, pc`trackRTPSenders, pc`qualityDecisions
      ensures fresh(sender) && forall p | p in peers :: sender !in p.senders
      ensures Shown(peers[i := AddSender(peers[i], trackID, sender, TrackFor(trackLocals, trackQualities, trackID))])
    {
      sender := pc.AddNewTrack(trackLocals, trackQualities, trackID);
    }

    /** The last loop of a visit, in a synchronization that so far took the steps `ls` from `start`. */
    method AddMissing(pc: PeerConnection, existingSenders: set<string>, ghost i: nat, ghost start: State,
                      ghost ls: seq<Label>)
      returns (ghost ls': seq<Label>)
      requires Valid() && i < |peerConnections| && peerConnections[i] == pc && Inv(start) && Ran(start, ls, state)
      requires state.sync == Adding(i, trackLocals.Keys - existingSenders)
      modifies this`state, pc`senders, pc`trackRTPSenders, pc`qualityDecisions
      ensures Valid() && state.sync == Adding(i, {}) && Ran(start, ls', state)
    {
      ls' := ls;
      var rest := trackLocals.Keys;
      while rest != {}
        invariant Valid() && Ran(start, ls', state)
        invariant state.sync == Adding(i, rest - existingSenders)
        decreases rest
      {
        var trackID :| trackID in rest;
        if trackID !in existingSenders {
          ls' := AddOneMissing(pc, trackID, i, start, ls');
        }
        rest := rest - {trackID};
        assert state.sync.todo == rest - existingSenders;
      }
    }

    method AddOneMissing(pc: PeerConnection, trackID: string, ghost i: nat, ghost start: State, ghost ls: seq<Label>)
      returns (ghost ls': seq<Label>)
      requires Valid() && i < |peerConnections| && peerConnections[i] == pc && Inv(start) && Ran(start, ls, state)
      requires state.sync.Adding? && state.sync.i == i && trackID in state.sync.todo
      modifies this`state, pc`senders, pc`trackRTPSenders, pc`qualityDecisions
      ensures Valid() && Ran(start, ls', state) && state.sync == Adding(i, old(state).sync.todo - {trackID})
      ensures state.locals == old(state).locals
    {
      TodoFound(start, ls, state, trackID);
      ghost var before := state;
      ghost var sender := AddNewTrackForPeer(pc, trackID, i);
      ls' := RanStep(start, ls, before, SyncAdd(trackID, sender));
    }

    /** What attemptSync does for one open peer, before the offer. */
    method SyncTracks(pc: PeerConnection, ghost i: nat, ghost start: State, ghost ls: seq<Label>)
      returns (ghost ls': seq<Label>)
      requires Valid() && i < |peerConnections| && peerConnections[i] == pc && !pc.closed
      requires Inv(start) && Ran(start, ls, state) && state.sync == Visit(i)
      modifies this`state, pc`senders, pc`trackRTPSenders, pc`qualityDecisions
      ensures Valid() && Ran(start, ls', state) && state.sync == Adding(i, {})
    {
      ghost var before := state;
      AllReady(start, ls, state);
      var existingSenders := VisitPeer(pc, i);
      ls' := RanStep(start, ls, before, SyncVisit);
      ls' := AddMissing(pc, existingSenders, i, start, ls');
    }

    /** Making the offer or setting it may fail when `fallible`. */
    method SendOffer(fallible: bool, ghost start: State, ghost ls: seq<Label>) returns (ok: bool, ghost ls': seq<Label>)
      requires Valid() && Ran(start, ls, state) && state.sync.Adding? && state.sync.todo == {}
      modifies this`state
      ensures Valid() && Ran(start, ls', state) && state.sync == if ok then Visit(old(state).sync.i + 1) else Free
      ensures !fallible ==> ok
    {
      ok := true;
      if fallible {
        ok := *;
      }
      ls' := RanStep(start, ls, state, SyncOffer(ok));
      state := state.(sync := if ok then Visit(state.sync.i + 1) else Free);
    }

    /** What attemptSync does for one open peer. */
    method SyncPeer(pc: PeerConnection, fallible: bool, ghost i: nat, ghost start: State, ghost ls: seq<Label>)
      returns (ok: bool, ghost ls': seq<Label>)
      requires Valid() && i < |peerConnections| && peerConnections[i] == pc && !pc.closed
      requires Inv(start) && Ran(start, ls, state) && state.sync == Visit(i) && OpenUpTo(i)
      modifies this`state, pc`senders, pc`trackRTPSenders, pc`qualityDecisions
      ensures Valid() && Ran(start, ls', state) && state.sync == if ok then Visit(i + 1) else Free
      ensures !fallible ==> ok
      ensures OpenUpTo(i + 1)
    {
      ls' := SyncTracks(pc, i, start, ls);
      ok, ls' := SendOffer(fallible, start, ls');
      assert OpenUpTo(i);
    }

    method TakeOff(i: nat, ghost peers: seq<Peer>)
      requires Shown(peers) && i < |peerConnections|
      modifies this`peerConnections
      ensures Shown(peers[..i] + peers[i + 1..])
      ensures peerConnections == old(peerConnections)[..i] + old(peerConnections)[i + 1..]
    {
      ghost var all := peerConnections;
      peerConnections := peerConnections[..i] + peerConnections[i + 1..];
      forall j | 0 <= j < |peerConnections|
        ensures peerConnections[j].Valid() && peerConnections[j].View() == (peers[..i] + peers[i + 1..])[j]
      {
        var k := if j < i then j else j + 1;
        assert peerConnections[j] == all[k] && (peers[..i] + peers[i + 1..])[j] == peers[k];
      }
      forall j, k | 0 <= j < k < |peerConnections|
        ensures peerConnections[j] != peerConnections[k] && peerConnections[j].senders !! peerConnections[k].senders
      {
        assert peerConnections[j] == all[if j < i then j else j + 1];
        assert peerConnections[k] == all[if k < i then k else k + 1];
      }
    }

    /** A closed peer is taken off the list. */
    method DropPeer(i: nat, ghost start: State, ghost ls: seq<Label>) returns (ghost ls': seq<Label>)
      requires Valid() && i < |peerConnections| && peerConnections[i].closed
      requires Ran(start, ls, state) && state.sync == Visit(i)
      modifies this`peerConnections, this`state
      ensures Valid() && Ran(start, ls', state) && state.sync == Free
      ensures peerConnections == old(peerConnections)[..i] + old(peerConnections)[i + 1..]
      ensures ClosedCount(state.peers) < ClosedCount(start.peers)
    {
      ls' := Dropped(start, ls, state, i);
      TakeOff(i, state.peers);
      state := state.(peers := state.peers[..i] + state.peers[i + 1..], sync := Free);
    }

    /** One closed peer is gone from the list, and the others are as they were. */
    ghost predicate OneLess(before: seq<PeerConnection>, after: seq<PeerConnection>)
      reads before`closed
    {
      exists i :: 0 <= i < |before| && before[i].closed && after == before[..i] + before[i + 1..]
    }

    ghost predicate OpenUpTo(i: nat)
      reads this`peerConnections, peerConnections`closed
    {
      i <= |peerConnections| && forall j | 0 <= j < i :: !peerConnections[j].closed
    }

    /** The loop of attemptSync, which ends early with `tryAgain`. */
    method VisitAll(fallible: bool, ghost start: State, ghost ls: seq<Label>)
      returns (tryAgain: bool, ghost ls': seq<Label>)
      requires Valid() && Inv(start) && Ran(start, ls, state) && state.sync == Visit(0)
      modifies this`peerConnections, this`state, peerConnections
      ensures Valid() && Ran(start, ls', state)
      ensures !tryAgain ==> peerConnections == old(peerConnections) && OpenUpTo(|peerConnections|)
      ensures !tryAgain ==> state.sync == Visit(|peerConnections|)
      ensures tryAgain ==> state.sync == Free && (!fallible ==> ClosedCount(state.peers) < ClosedCount(start.peers))
      ensures tryAgain && !fallible ==> OneLess(old(peerConnections), peerConnections)
      ensures forall pc | pc in peerConnections :: pc in old(peerConnections)
    {
      ls' := ls;
      var i := 0;
      while i < |peerConnections|
        invariant Valid() && Ran(start, ls', state)
        invariant OpenUpTo(i) && state.sync == Visit(i) && peerConnections == old(peerConnections)
      {
        if peerConnections[i].closed {
          ls' := DropPeer(i, start, ls');
          assert OneLess(old(peerConnections), peerConnections);
          return true, ls';
        }
        var ok;
        ok, ls' := SyncPeer(peerConnections[i], fallible, i, start, ls');
        if !ok {
          return true, ls';
        }
        i := i + 1;
      }
      tryAgain := false;
    }

    ghost method BeginSync() returns (ls: seq<Label>)
      requires Valid() && state.sync == Free
      modifies this`state
      ensures Valid() && Ran(old(state), ls, state) && state == old(state).(sync := Visit(0))
    {
      ls := RanStep(state, [], state, SyncBegin);
      state := state.(sync := Visit(0));
    }

    ghost method EndSync(start: State, ls: seq<Label>) returns (ls': seq<Label>)
      requires Valid() && Inv(start) && Ran(start, ls, state)
      requires state.sync == Visit(|peerConnections|) && OpenUpTo(|peerConnections|)
      modifies this`state
      ensures Valid() && Ran(start, ls', state) && state.sync == Free
      ensures AllInSync(state) && ClosedCount(state.peers) == 0
    {
      assert forall i | 0 <= i < |state.peers| :: state.peers[i].closed == peerConnections[i].closed;
      ls' := AttemptDone(start, ls, state);
      state := state.(sync := Free);
    }

    /** One attempt to bring all peers in sync. */
    method AttemptSync(fallible: bool) returns (tryAgain: bool, ghost ls: seq<Label>)
      requires Valid() && Inv(state) && state.sync == Free
      modifies this`peerConnections, this`state, peerConnections
      ensures Valid() && state.sync == Free && Ran(old(state), ls, state)
      ensures !tryAgain ==> peerConnections == old(peerConnections) && AllInSync(state) && ClosedCount(state.peers) == 0
      ensures tryAgain && !fallible ==> ClosedCount(state.peers) < ClosedCount(old(state).peers)
      ensures tryAgain && !fallible ==> OneLess(old(peerConnections), peerConnections)
      ensures forall pc | pc in peerConnections :: pc in old(peerConnections)
    {
      ghost var start := state;
      ls := BeginSync();
      tryAgain, ls := VisitAll(fallible, start, ls);
      if !tryAgain {
        ls := EndSync(start, ls);
      }
    }

    /** The retry chain, when no offer fails and nobody registers or closes in the meantime. `all` holds
        the connections it may change. */
    method SignalPeerConnections(ghost all: set<PeerConnection>) returns (attempts: nat)
      requires Valid() && Inv(state) && state.sync == Free && forall pc | pc in peerConnections :: pc in all
      modifies this`peerConnections, this`state, all
      ensures Valid() && Inv(state) && state.sync == Free && AllInSync(state)
      ensures attempts <= ClosedCount(old(state).peers) + 1
      ensures ClosedCount(state.peers) == 0 && Open(state.peers) == Open(old(state).peers)
      decreases ClosedCount(state.peers)
    {
      ghost var start := state;
      var tryAgain, ls := AttemptSync(false);
      SameClosed(start, ls, state);
      RunInv(start, ls);
      attempts := 1;
      if tryAgain {
        var more := SignalPeerConnections(all);
        attempts := attempts + more;
      }
    }
  }

  // ---- Quality messages ----

  ghost function DecidedAll(s: State, i: nat, ds: seq<Decision>): State
    requires i < |s.peers|
  {
    WithPeer(s, i, DecideAll(s.peers[i], s.qualities, ds))
  }

  lemma DecidedOneMore(s: State, i: nat, ds: seq<Decision>, d: Decision)
    requires i < |s.peers| && s.sync == Free
    ensures Apply(DecidedAll(s, i, ds), SetQuality(i, d.id, d.quality)) == DecidedAll(s, i, ds + [d])
  {
    assert (ds + [d])[..|ds|] == ds;
  }

  lemma DecidedInTurn(s: State, i: nat, a: seq<Decision>, b: seq<Decision>)
    requires i < |s.peers|
    ensures DecidedAll(DecidedAll(s, i, a), i, b) == DecidedAll(s, i, a + b)
  {
    DecideAllInTurn(s.peers[i], s.qualities, a, b);
  }

  // ---- Runs of a synchronization ----

  /** The steps of a synchronization, one after the other, lead from one state to the other. */
  ghost predicate Ran(s: State, ls: seq<Label>, s': State) {
    CanRun(s, ls) && Run(s, ls) == s' && AllOfSync(ls)
  }

  ghost predicate AllOfSync(ls: seq<Label>) { forall l | l in ls :: OfSync(l) }

  lemma RanStep(s: State, ls: seq<Label>, s': State, l: Label) returns (more: seq<Label>)
    requires Ran(s, ls, s') && Enabled(s', l) && OfSync(l)
    ensures Ran(s, more, Apply(s', l))
  {
    more := ls + [l];
    RunThen(s, ls, l);
  }

  lemma VisitOpen(s: State)
    requires s.sync.Visit? && s.sync.i < |s.peers| && !s.peers[s.sync.i].closed
    ensures Apply(s, SyncVisit) == Visited(s)
  {
  }

  lemma TodoFound(start: State, ls: seq<Label>, s: State, id: string)
    requires Inv(start) && Ran(start, ls, s) && s.sync.Adding? && id in s.sync.todo
    ensures NewTrack(s, id) != null
  {
    RunInv(start, ls);
    assert id in ActiveIDs(s.peers[s.sync.i]) + s.sync.todo;
  }

  /** What a visit relies on. */
  ghost predicate VisitReady(p: Peer, locals: map<string, TrackLocal>) {
    Wired(p) && VideoStays(p, locals) && forall r | r in p.receivers :: BaseID(r).Some?
  }

  lemma AllReady(start: State, ls: seq<Label>, s: State)
    requires Inv(start) && Ran(start, ls, s)
    ensures forall i | 0 <= i < |s.peers| :: VisitReady(s.peers[i], s.locals)
  {
    RunInv(start, ls);
  }

  lemma SameClosed(start: State, ls: seq<Label>, s: State)
    requires Ran(start, ls, s)
    ensures ClosedCount(s.peers) <= ClosedCount(start.peers) && Open(s.peers) == Open(start.peers)
  {
    AttemptsAccounted(start, ls);
  }

  lemma Dropped(start: State, ls: seq<Label>, s: State, i: nat) returns (ls': seq<Label>)
    requires Ran(start, ls, s) && s.sync == Visit(i) && i < |s.peers| && s.peers[i].closed
    ensures var ps := s.peers[..i] + s.peers[i + 1..];
            Ran(start, ls', s.(peers := ps, sync := Free)) && ClosedCount(ps) < ClosedCount(start.peers)
  {
    SameClosed(start, ls, s);
    Removed(s.peers, i);
    ls' := RanStep(start, ls, s, SyncVisit);
  }

  lemma {:induction false} NoneClosed(ps: seq<Peer>)
    requires forall p | p in ps :: !p.closed
    ensures ClosedCount(ps) == 0
  {
    if ps != [] {
      NoneClosed(ps[1..]);
    }
  }

  /** The attempt has visited all peers and found them open. */
  lemma AttemptDone(start: State, ls: seq<Label>, s: State) returns (ls': seq<Label>)
    requires Inv(start) && Ran(start, ls, s) && s.sync == Visit(|s.peers|) && forall p | p in s.peers :: !p.closed
    ensures Ran(start, ls', s.(sync := Free)) && AllInSync(s.(sync := Free)) && ClosedCount(s.peers) == 0
  {
    ls' := RanStep(start, ls, s, SyncVisit);
    RunInv(start, ls);
    NoneClosed(s.peers);
    forall i | 0 <= i < |s.peers| ensures InSync(s.peers[i], s.(sync := Free)) {
      assert InSync(s.peers[i], s);
    }
  }

  ghost function WithPeer(s: State, i: nat, p: Peer): State
    requires i < |s.peers|
  {
    s.(peers := s.peers[i := p])
  }
}
