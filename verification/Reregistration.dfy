/** A client that registers again, as after a reconnect: its new tracks replace the stored ones, but no
    sender is told until the callbacks for them have run. */
module Reregistration {
  import opened TrackID
  import opened Registry
  import opened RegistryInvariant
  import opened RegistrySteps

  /** The tracks are new: nothing carries them and no callback has them. */
  ghost predicate Unused(s: State, audio: TrackLocal, video: Tracks) {
    && (forall p, x | p in s.peers && x in p.senders :: p.senders[x] != audio)
    && (forall p, x, id, q | p in s.peers && x in p.senders && Available(video, id, q) :: p.senders[x] != video[id][q])
    && (forall id | id in s.startingAudio :: s.startingAudio[id] != audio)
    && (forall y, id, q | y in s.startingVideo && Available(video, id, q) :: s.startingVideo[y] != video[id][q])
  }

  ghost predicate AllCarry(s: State) {
    forall i | 0 <= i < |s.peers| :: CarriesVideo(s.peers[i], s) && CarriesAudio(s.peers[i], s)
  }

  /** Registering any client, new or known, keeps the invariant, and so keeps it in all runs that follow,
      if and only if nothing that is announced is decided for, registered as audio at a listed peer, or
      under way in a callback. */
  lemma RegistrationKeepsInvIff(s: State, client: int, tiles: int, audio: TrackLocal, video: Tracks)
    requires Inv(s) && s.sync == Free && Declared(client, tiles, audio, video) && Unused(s, audio, video)
    ensures Inv(Registered(s, client, tiles, audio, video)) <==> Undisturbed(s, audio, video)
  {
    if Undisturbed(s, audio, video) {
      UndisturbedInv(s, client, tiles, audio, video);
    }
    if Inv(Registered(s, client, tiles, audio, video)) {
      InvMeansUndisturbed(s, client, tiles, audio, video);
    }
  }

  lemma UnderWayNotStarting(s: State, client: int, tiles: int, audio: TrackLocal, video: Tracks)
    requires Declared(client, tiles, audio, video) && Unused(s, audio, video)
    requires Starting(Registered(s, client, tiles, audio, video))
    ensures forall id, q | Available(video, id, q) :: (id, q) !in s.startingVideo
    ensures audio.id !in s.startingAudio
  {
    DeclaredTells(client, tiles, audio, video);
    forall id, q | Available(video, id, q) ensures (id, q) !in s.startingVideo {
      MergedAt(s.qualities, video, id, q);
    }
    RegisteredAt(s, client, tiles, audio, video, audio.id);
  }

  lemma InvMeansUndisturbed(s: State, client: int, tiles: int, audio: TrackLocal, video: Tracks)
    requires Inv(s) && s.sync == Free && Declared(client, tiles, audio, video) && Unused(s, audio, video)
    requires Inv(Registered(s, client, tiles, audio, video))
    ensures Undisturbed(s, audio, video)
  {
    UnderWayNotStarting(s, client, tiles, audio, video);
    forall i, id | 0 <= i < |s.peers| && id in s.peers[i].decisions
      ensures !Available(video, id, s.peers[i].decisions[id])
    {
      DecidedNotAnnounced(s, client, tiles, audio, video, i, id);
    }
    forall i | 0 <= i < |s.peers| ensures audio.id !in s.peers[i].registered {
      AudioNotRegistered(s, client, tiles, audio, video, i);
    }
  }

  lemma DecidedNotAnnounced(s: State, client: int, tiles: int, audio: TrackLocal, video: Tracks, i: nat, id: string)
    requires Inv(s) && Declared(client, tiles, audio, video) && Unused(s, audio, video)
    requires Inv(Registered(s, client, tiles, audio, video)) && i < |s.peers| && id in s.peers[i].decisions
    ensures Available(video, id, s.peers[i].decisions[id]) ==> (id, s.peers[i].decisions[id]) in s.startingVideo
  {
    var s' := Registered(s, client, tiles, audio, video);
    WatchedChanges(s, client, tiles, audio, video, i, id);
    assert PeerInv(s'.peers[i], s');
    assert VideoRight(s', id, s'.peers[i].decisions[id], Carried(s'.peers[i], id));
  }

  lemma AudioNotRegistered(s: State, client: int, tiles: int, audio: TrackLocal, video: Tracks, i: nat)
    requires Inv(s) && Declared(client, tiles, audio, video) && Unused(s, audio, video)
    requires Inv(Registered(s, client, tiles, audio, video)) && i < |s.peers|
    ensures audio.id in s.peers[i].registered ==> audio.id in s.startingAudio
  {
    if audio.id in s.peers[i].registered {
      var s' := Registered(s, client, tiles, audio, video);
      DeclaredTells(client, tiles, audio, video);
      HeardChanges(s, client, tiles, audio, video, i);
      assert PeerInv(s'.peers[i], s');
      assert AudioRight(s', audio.id, Carried(s'.peers[i], audio.id));
    }
  }

  /** Right after the registration the sender of a decided track is right if and only if the quality was
      not announced, or its callback is under way. */
  lemma WatchedChanges(s: State, client: int, tiles: int, audio: TrackLocal, video: Tracks, i: nat, id: string)
    requires Inv(s) && Declared(client, tiles, audio, video) && Unused(s, audio, video)
    requires i < |s.peers| && id in s.peers[i].decisions
    ensures var s' := Registered(s, client, tiles, audio, video);
            var q, t := s.peers[i].decisions[id], Carried(s.peers[i], id);
            && s'.peers[i] == s.peers[i]
            && (VideoRight(s', id, q, t) <==> !Available(video, id, q) || (id, q) in s.startingVideo)
  {
    var p := s.peers[i];
    var q := p.decisions[id];
    MergedAt(s.qualities, video, id, q);
    assert p in s.peers && PeerInv(p, s);
    assert VideoRight(s, id, q, Carried(p, id));
    assert p.registered[id] in p.senders;
    if Available(video, id, q) && (id, q) !in s.startingVideo {
      assert Carried(p, id) == p.senders[p.registered[id]] != video[id][q];
    }
  }

  lemma HeardChanges(s: State, client: int, tiles: int, audio: TrackLocal, video: Tracks, i: nat)
    requires Inv(s) && Declared(client, tiles, audio, video) && Unused(s, audio, video)
    requires i < |s.peers| && audio.id in s.peers[i].registered
    ensures var s' := Registered(s, client, tiles, audio, video);
            && s'.peers[i] == s.peers[i]
            && (AudioRight(s', audio.id, Carried(s.peers[i], audio.id)) <==> audio.id in s.startingAudio)
  {
    var p := s.peers[i];
    DeclaredTells(client, tiles, audio, video);
    RegisteredAt(s, client, tiles, audio, video, audio.id);
    assert p in s.peers && PeerInv(p, s);
    assert AudioRight(s, audio.id, Carried(p, audio.id));
    assert Carried(p, audio.id) == p.senders[p.registered[audio.id]] != audio;
  }

  ghost predicate NoVideoTo(s: State, video: Tracks, p: Peer) {
    forall id | id in p.decisions && Available(video, id, p.decisions[id]) :: (id, p.decisions[id]) in s.startingVideo
  }

  ghost predicate NoAudioTo(s: State, audio: TrackLocal, p: Peer) {
    audio.id in p.registered ==> audio.id in s.startingAudio
  }

  /** No listed peer has decided for a quality that is announced, or has a sender for the audio, unless the
      callback for it has yet to update the senders. */
  ghost predicate NoneReceives(s: State, audio: TrackLocal, video: Tracks) {
    forall i | 0 <= i < |s.peers| :: NoVideoTo(s, video, s.peers[i]) && NoAudioTo(s, audio, s.peers[i])
  }

  /** Right after the registration every sender carries what it should if and only if nobody receives
      what is announced. */
  lemma RegistrationKeepsCarriersIff(s: State, client: int, tiles: int, audio: TrackLocal, video: Tracks)
    requires Inv(s) && s.sync == Free && Declared(client, tiles, audio, video) && Unused(s, audio, video)
    ensures AllCarry(Registered(s, client, tiles, audio, video)) <==> NoneReceives(s, audio, video)
  {
    var s' := Registered(s, client, tiles, audio, video);
    DeclaredTells(client, tiles, audio, video);
    forall i | 0 <= i < |s.peers|
      ensures s'.peers[i] == s.peers[i]
      ensures CarriesVideo(s.peers[i], s') <==> NoVideoTo(s, video, s.peers[i])
      ensures CarriesAudio(s.peers[i], s') <==> NoAudioTo(s, audio, s.peers[i])
    {
      PeerKeepsVideoIff(s, client, tiles, audio, video, i);
      PeerKeepsAudioIff(s, client, tiles, audio, video, i);
    }
    assert |s'.peers| == |s.peers| + 1;
  }

  lemma PeerKeepsVideoIff(s: State, client: int, tiles: int, audio: TrackLocal, video: Tracks, i: nat)
    requires Inv(s) && Declared(client, tiles, audio, video) && Unused(s, audio, video) && i < |s.peers|
    ensures CarriesVideo(s.peers[i], Registered(s, client, tiles, audio, video)) <==> NoVideoTo(s, video, s.peers[i])
  {
    var p := s.peers[i];
    forall id | id in p.decisions
      ensures VideoRight(Registered(s, client, tiles, audio, video), id, p.decisions[id], Carried(p, id))
              <==> (Available(video, id, p.decisions[id]) ==> (id, p.decisions[id]) in s.startingVideo)
    {
      WatchedChanges(s, client, tiles, audio, video, i, id);
    }
  }

  lemma PeerKeepsAudioIff(s: State, client: int, tiles: int, audio: TrackLocal, video: Tracks, i: nat)
    requires Inv(s) && Declared(client, tiles, audio, video) && Unused(s, audio, video) && i < |s.peers|
    ensures CarriesAudio(s.peers[i], Registered(s, client, tiles, audio, video)) <==> NoAudioTo(s, audio, s.peers[i])
  {
    var p := s.peers[i];
    DeclaredTells(client, tiles, audio, video);
    forall id | id in p.registered && IsAudio(id)
      ensures AudioRight(Registered(s, client, tiles, audio, video), id, Carried(p, id))
              <==> (id == audio.id ==> id in s.startingAudio)
    {
      HeardOrKept(s, client, tiles, audio, video, i, id);
    }
  }

  lemma HeardOrKept(s: State, client: int, tiles: int, audio: TrackLocal, video: Tracks, i: nat, id: string)
    requires Inv(s) && Declared(client, tiles, audio, video) && Unused(s, audio, video)
    requires i < |s.peers| && id in s.peers[i].registered && IsAudio(id)
    ensures AudioRight(Registered(s, client, tiles, audio, video), id, Carried(s.peers[i], id))
            <==> (id == audio.id ==> id in s.startingAudio)
  {
    if id == audio.id {
      HeardChanges(s, client, tiles, audio, video, i);
    } else {
      DeclaredTells(client, tiles, audio, video);
      RegisteredAt(s, client, tiles, audio, video, id);
      assert PeerInv(s.peers[i], s) && AudioRight(s, id, Carried(s.peers[i], id));
    }
  }

  /** A callback that was under way when its track was announced again puts its older track back: after it
      no exception is left, but the sender does not carry the stored track. */
  lemma CallbackPutsOldTrackBack(s: State, client: int, tiles: int, audio: TrackLocal, video: Tracks, i: nat,
                                 id: string)
    requires Inv(s) && s.sync == Free && Declared(client, tiles, audio, video) && Unused(s, audio, video)
    requires i < |s.peers| && id in s.peers[i].decisions && Available(video, id, s.peers[i].decisions[id])
    requires (id, s.peers[i].decisions[id]) in s.startingVideo
    ensures var s', q := Registered(s, client, tiles, audio, video), s.peers[i].decisions[id];
            && Enabled(s', UpdateQuality(id, q))
            && var s'' := Apply(s', UpdateQuality(id, q));
            && s''.peers[i].decisions[id] == q && (id, q) !in s''.startingVideo
            && Carried(s''.peers[i], id) == s.startingVideo[(id, q)] != s''.qualities[id][q]
            && !CarriesVideo(s''.peers[i], s'')
  {
    var s', q := Registered(s, client, tiles, audio, video), s.peers[i].decisions[id];
    var s'' := Apply(s', UpdateQuality(id, q));
    MergedAt(s.qualities, video, id, q);
    assert PeerInv(s.peers[i], s) && s'.peers[i] == s.peers[i];
    assert s''.peers[i] == ReplaceAt(s.peers[i], id, q, s.startingVideo[(id, q)]);
    ReplaceWired(s.peers[i], id, s.startingVideo[(id, q)]);
    assert !VideoRight(s'', id, q, Carried(s''.peers[i], id));
  }

  lemma Next(ls: seq<Label>, s: State, l: Label) returns (ls': seq<Label>, s': State)
    requires Reaches(ls, s) && Enabled(s, l)
    ensures Reaches(ls', s') && s' == Apply(s, l)
  {
    ReachStep(ls, s, l);
    ls', s' := ls + [l], Apply(s, l);
  }

  lemma First(t: TrackLocal, a: TrackLocal)
    requires t.id == VideoID(1, 0) && a.id == AudioID(1)
    ensures var s := Registered(Initial, 1, 1, a, map[t.id := map[0 := t]]);
            s.locals == map[a.id := a, t.id := t] && Available(s.qualities, t.id, 0) && s.qualities[t.id][0] == t
  {
    IDsTell(1, 0);
  }

  /** Both clients have registered. */
  lemma BothHere(t: TrackLocal, a: TrackLocal, b: TrackLocal) returns (ls: seq<Label>, s: State)
    requires t.id == VideoID(1, 0) && a.id == AudioID(1) && b.id == AudioID(2)
    ensures Reaches(ls, s) && s.sync == Free && s.peers == [NewPeer(1, 1), NewPeer(2, 0)]
    ensures s.startingVideo == map[] && 1 in s.clients
    ensures s.locals == map[a.id := a, t.id := t, b.id := b] && Available(s.qualities, t.id, 0)
    ensures s.qualities[t.id][0] == t
  {
    IDsTell(1, 0);
    IDsTell(2, 0);
    assert OwnVideo(1, 1) == {t.id} by {
      assert VideoID(1, 0) in OwnVideo(1, 1);
    }
    First(t, a);
    ls, s := Next([], Initial, Register(1, 1, a, map[t.id := map[0 := t]]));
    ls, s := Next(ls, s, Register(2, 0, b, map[]));
  }

  /** Client 1 goes, and an attempt drops it. */
  lemma Alone(t: TrackLocal, a: TrackLocal, b: TrackLocal) returns (ls: seq<Label>, s: State)
    requires t.id == VideoID(1, 0) && a.id == AudioID(1) && b.id == AudioID(2)
    ensures Reaches(ls, s) && s.sync == Free && s.peers == [NewPeer(2, 0)]
    ensures s.startingVideo == map[] && 1 in s.clients
    ensures s.locals == map[a.id := a, t.id := t, b.id := b] && Available(s.qualities, t.id, 0)
    ensures s.qualities[t.id][0] == t
  {
    ls, s := BothHere(t, a, b);
    ls, s := Next(ls, s, Close(0));
    ls, s := Next(ls, s, SyncBegin);
    ls, s := Next(ls, s, SyncVisit);
  }

  lemma MissingBoth(t: TrackLocal, a: TrackLocal, b: TrackLocal, locals: map<string, TrackLocal>)
    requires t.id == VideoID(1, 0) && a.id == AudioID(1) && b.id == AudioID(2)
    requires locals == map[a.id := a, t.id := t, b.id := b]
    ensures Missing(NewPeer(2, 0), locals) == {a.id, t.id} && Clean(NewPeer(2, 0), locals) == NewPeer(2, 0)
  {
    IDsTell(1, 0);
    IDsTell(2, 0);
    assert OwnOf(NewPeer(2, 0)) == {b.id};
    assert Clean(NewPeer(2, 0), locals).senders == map[];
  }

  /** The next attempt is to add its tracks to client 2. */
  lemma Visiting(t: TrackLocal, a: TrackLocal, b: TrackLocal) returns (ls: seq<Label>, s: State)
    requires t.id == VideoID(1, 0) && a.id == AudioID(1) && b.id == AudioID(2)
    ensures Reaches(ls, s) && s.sync == Adding(0, {a.id, t.id}) && s.peers == [NewPeer(2, 0)]
    ensures s.startingVideo == map[] && 1 in s.clients
    ensures s.locals == map[a.id := a, t.id := t, b.id := b] && Available(s.qualities, t.id, 0)
    ensures s.qualities[t.id][0] == t
  {
    ls, s := Alone(t, a, b);
    MissingBoth(t, a, b, s.locals);
    ls, s := Next(ls, s, SyncBegin);
    ls, s := Next(ls, s, SyncVisit);
    assert s.peers == [NewPeer(2, 0)];
  }

  /** Client 2 is sent the tracks of client 1. */
  lemma Watched(t: TrackLocal, a: TrackLocal, b: TrackLocal, x: RTPSender, y: RTPSender)
    returns (ls: seq<Label>, s: State)
    requires t.id == VideoID(1, 0) && a.id == AudioID(1) && b.id == AudioID(2) && x != y
    ensures Reaches(ls, s) && s.sync == Free && |s.peers| == 1 && 1 in s.clients && s.startingVideo == map[]
    ensures var p := s.peers[0]; p.decisions == map[t.id := 0] && Carried(p, t.id) == t
  {
    ls, s := Visiting(t, a, b);
    IDsTell(1, 0);
    var p := AddSender(s.peers[0], t.id, x, t);
    ls, s := Next(ls, s, SyncAdd(t.id, x));
    assert s.peers == [p] && s.sync.todo == {a.id};
    ls, s := Next(ls, s, SyncAdd(a.id, y));
    assert s.sync.todo == {};
    ls, s := Next(ls, s, SyncOffer(true));
    ls, s := Next(ls, s, SyncVisit);
  }

  /** So when client 1 comes back, client 2 carries a track that is no longer the stored one, until the
      callback for the new one has run. */
  lemma ReconnectLosesVideo(t: TrackLocal, t': TrackLocal, a: TrackLocal, a': TrackLocal, b: TrackLocal,
                            x: RTPSender, y: RTPSender)
    returns (ls: seq<Label>, s: State)
    requires t != t' && t.id == t'.id == VideoID(1, 0) && a.id == a'.id == AudioID(1) && b.id == AudioID(2) && x != y
    ensures Reaches(ls, s) && 1 in s.clients && !AllCarry(Registered(s, 1, 1, a', map[t.id := map[0 := t']]))
  {
    ls, s := Watched(t, a, b, x, y);
    var s' := Registered(s, 1, 1, a', map[t.id := map[0 := t']]);
    assert s'.qualities[t.id][0] == t' && s'.peers[0] == s.peers[0];
    assert !VideoRight(s', t.id, 0, Carried(s'.peers[0], t.id));
  }
}
