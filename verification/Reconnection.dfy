/**
 Runs in which clients may register any number of times, as after a reconnect. A registration of a
 known client replaces stored tracks without telling the senders; those tracks are owed an update until
 a callback for them has completed. What the registry keeps, it keeps up to the tracks that are owed.
 */
module Reconnection {
  import opened TrackID
  import opened Registry
  import opened RegistryInvariant
  import opened RegistrySteps
  import opened RegistryRuns

  /** Tracks that were announced again and whose callback has not completed since. */
  datatype Owed = Owed(video: set<(string, int)>, audio: set<string>)

  const NothingOwed := Owed({}, {})

  ghost predicate Recorded(s: State, o: Owed) {
    (forall x | x in o.video :: Available(s.qualities, x.0, x.1)) && o.audio <= s.locals.Keys
  }

  /** The state if the callbacks for the owed tracks were all under way. */
  ghost function Excused(s: State, o: Owed): State
    requires Recorded(s, o)
  {
    s.(startingVideo := s.startingVideo + StoredVideo(s, o), startingAudio := s.startingAudio + StoredAudio(s, o))
  }

  ghost function StoredVideo(s: State, o: Owed): map<(string, int), TrackLocal>
    requires Recorded(s, o)
  {
    map x | x in o.video :: s.qualities[x.0][x.1]
  }

  ghost function StoredAudio(s: State, o: Owed): map<string, TrackLocal>
    requires Recorded(s, o)
  {
    map id | id in o.audio :: s.locals[id]
  }

  /** The callbacks under way have tracks of their own IDs, though perhaps no longer the stored ones. */
  ghost predicate Named(s: State) {
    && (forall x | x in s.startingVideo :: s.startingVideo[x].id == x.0)
    && (forall id | id in s.startingAudio :: s.startingAudio[id].id == id)
  }

  ghost predicate InvBut(s: State, o: Owed) { Recorded(s, o) && Named(s) && Inv(Excused(s, o)) }

  lemma ExcusedAt(s: State, o: Owed, x: (string, int))
    requires Recorded(s, o)
    ensures x in Excused(s, o).startingVideo <==> x in s.startingVideo || x in o.video
    ensures x in o.video ==> Excused(s, o).startingVideo[x] == s.qualities[x.0][x.1]
    ensures x in s.startingVideo && x !in o.video ==> Excused(s, o).startingVideo[x] == s.startingVideo[x]
  {
  }

  lemma ExcusedAudioAt(s: State, o: Owed, id: string)
    requires Recorded(s, o)
    ensures id in Excused(s, o).startingAudio <==> id in s.startingAudio || id in o.audio
    ensures id in o.audio ==> Excused(s, o).startingAudio[id] == s.locals[id]
    ensures id in s.startingAudio && id !in o.audio ==> Excused(s, o).startingAudio[id] == s.startingAudio[id]
  {
  }

  /** A state that is excused like this. */
  lemma ExcusedIs(s: State, o: Owed, e: State)
    requires Recorded(s, o) && e == s.(startingVideo := e.startingVideo, startingAudio := e.startingAudio)
    requires forall x :: x in e.startingVideo <==> x in s.startingVideo || x in o.video
    requires forall x | x in o.video :: e.startingVideo[x] == s.qualities[x.0][x.1]
    requires forall x | x in s.startingVideo && x !in o.video :: e.startingVideo[x] == s.startingVideo[x]
    requires forall id :: id in e.startingAudio <==> id in s.startingAudio || id in o.audio
    requires forall id | id in o.audio :: e.startingAudio[id] == s.locals[id]
    requires forall id | id in s.startingAudio && id !in o.audio :: e.startingAudio[id] == s.startingAudio[id]
    ensures Excused(s, o) == e
  {
    MapIs(s.startingVideo, StoredVideo(s, o), e.startingVideo);
    MapIs(s.startingAudio, StoredAudio(s, o), e.startingAudio);
  }

  lemma MapIs<K, V>(a: map<K, V>, b: map<K, V>, m: map<K, V>)
    requires forall x :: x in m <==> x in a || x in b
    requires forall x | x in b :: m[x] == b[x]
    requires forall x | x in a && x !in b :: m[x] == a[x]
    ensures a + b == m
  {
  }

  /** The excuses depend on the callbacks under way and on the stored tracks that are owed. */
  lemma ExcusedLike(s: State, s': State, o: Owed)
    requires Recorded(s, o) && Recorded(s', o)
    requires s'.startingVideo == s.startingVideo && s'.startingAudio == s.startingAudio
    requires forall x | x in o.video :: s'.qualities[x.0][x.1] == s.qualities[x.0][x.1]
    requires forall id | id in o.audio :: s'.locals[id] == s.locals[id]
    ensures Excused(s', o) ==
            s'.(startingVideo := Excused(s, o).startingVideo, startingAudio := Excused(s, o).startingAudio)
  {
    assert StoredVideo(s', o) == StoredVideo(s, o);
    assert StoredAudio(s', o) == StoredAudio(s, o);
  }

  lemma NothingOwedInv(s: State)
    ensures InvBut(s, NothingOwed) <==> Inv(s)
  {
    ExcusedIs(s, NothingOwed, s);
    if Inv(s) {
      forall x | x in s.startingVideo ensures s.startingVideo[x].id == x.0 {
        assert x == (x.0, x.1) && Available(s.qualities, x.0, x.1);
      }
    }
  }

  // ---- Runs with registrations of any client ----

  datatype Event = Step(l: Label) | Join(client: int, tiles: int, audio: TrackLocal, video: Tracks)

  ghost predicate Possible(s: State, e: Event) {
    match e
    case Step(l) => Enabled(s, l) && !l.Register?
    case Join(client, tiles, audio, video) => s.sync == Free && Declared(client, tiles, audio, video)
  }

  ghost function After(s: State, e: Event): State
    requires Possible(s, e)
  {
    match e
    case Step(l) => Apply(s, l)
    case Join(client, tiles, audio, video) => Registered(s, client, tiles, audio, video)
  }

  /** The callback for the track has it as the stored one, not an older one. */
  predicate UpToDate(s: State, id: string, q: int) {
    (id, q) in s.startingVideo && Available(s.qualities, id, q) && s.startingVideo[(id, q)] == s.qualities[id][q]
  }

  predicate AudioUpToDate(s: State, id: string) {
    id in s.startingAudio && id in s.locals && s.startingAudio[id] == s.locals[id]
  }

  function OwedTo(o: Owed, audio: TrackLocal, video: Tracks): Owed {
    Owed(o.video + AnnouncedTracks(video).Keys, o.audio + {audio.id})
  }

  ghost function OwedAfter(s: State, o: Owed, e: Event): Owed
    requires Possible(s, e)
  {
    match e
    case Join(client, _, audio, video) =>
      if client in s.clients then OwedTo(o, audio, video) else o
    case Step(l) =>
      match l
      case UpdateQuality(id, q) => if UpToDate(s, id, q) then Owed(o.video - {(id, q)}, o.audio) else o
      case UpdateAudio(id) => if AudioUpToDate(s, id) then Owed(o.video, o.audio - {id}) else o
      case RemoveAudio(id) => Owed(o.video, o.audio - {id})
      case _ => o
  }

  ghost predicate CanGo(s: State, es: seq<Event>)
    decreases es
  {
    es == [] || (Possible(s, es[0]) && CanGo(After(s, es[0]), es[1..]))
  }

  ghost function Go(s: State, es: seq<Event>): State
    requires CanGo(s, es)
    decreases es
  {
    if es == [] then s else Go(After(s, es[0]), es[1..])
  }

  ghost function Owing(s: State, o: Owed, es: seq<Event>): Owed
    requires CanGo(s, es)
    decreases es
  {
    if es == [] then o else Owing(After(s, es[0]), OwedAfter(s, o, es[0]), es[1..])
  }

  // ---- Steps on an excused state ----

  lemma ExcusedWithQuality(s: State, o: Owed, q: int, t: TrackLocal)
    requires Recorded(s, o)
    ensures Recorded(WithQuality(s, q, t), o) && Excused(WithQuality(s, q, t), o) == WithQuality(Excused(s, o), q, t)
  {
    var s', e' := WithQuality(s, q, t), WithQuality(Excused(s, o), q, t);
    forall x
      ensures x in e'.startingVideo <==> x in s'.startingVideo || x in o.video
      ensures x in o.video ==> Available(s'.qualities, x.0, x.1) && e'.startingVideo[x] == s'.qualities[x.0][x.1]
      ensures x in s'.startingVideo && x !in o.video ==> e'.startingVideo[x] == s'.startingVideo[x]
    {
      ExcusedAt(s, o, x);
    }
    ExcusedIs(s', o, e');
  }

  lemma ExcusedWithAudio(s: State, o: Owed, t: TrackLocal)
    requires Recorded(s, o)
    ensures Recorded(WithAudio(s, t), o) && Excused(WithAudio(s, t), o) == WithAudio(Excused(s, o), t)
  {
    var s', e' := WithAudio(s, t), WithAudio(Excused(s, o), t);
    forall id
      ensures id in e'.startingAudio <==> id in s'.startingAudio || id in o.audio
      ensures id in o.audio ==> e'.startingAudio[id] == s'.locals[id]
      ensures id in s'.startingAudio && id !in o.audio ==> e'.startingAudio[id] == s'.startingAudio[id]
    {
      ExcusedAudioAt(s, o, id);
    }
    ExcusedIs(s', o, e');
  }

  lemma ExcusedPutVideo(s: State, o: Owed, t: TrackLocal)
    requires Recorded(s, o) && t.id !in o.audio
    ensures var s' := s.(locals := s.locals[t.id := t]);
            Recorded(s', o) && Excused(s', o) == Excused(s, o).(locals := s'.locals)
  {
    ExcusedIs(s.(locals := s.locals[t.id := t]), o, Excused(s, o).(locals := s.locals[t.id := t]));
  }

  lemma ExcusedRemoveAudio(s: State, o: Owed, id: string)
    requires Recorded(s, o) && id !in s.startingAudio
    ensures var s', o' := s.(locals := s.locals - {id}), Owed(o.video, o.audio - {id});
            Recorded(s', o') &&
            Excused(s', o') == Excused(s, o).(locals := s'.locals, startingAudio := Excused(s, o).startingAudio - {id})
  {
    var s', o' := s.(locals := s.locals - {id}), Owed(o.video, o.audio - {id});
    ExcusedIs(s', o', Excused(s, o).(locals := s'.locals, startingAudio := Excused(s, o).startingAudio - {id}));
  }

  lemma ExcusedPeers(s: State, o: Owed, ps: seq<Peer>, sync: Sync)
    requires Recorded(s, o)
    ensures Recorded(s.(peers := ps, sync := sync), o)
    ensures Excused(s.(peers := ps, sync := sync), o) == Excused(s, o).(peers := ps, sync := sync)
  {
  }

  /** The callback for `x` is over; it had the stored track, or is excused further on. */
  lemma ExcusedDone(s: State, o: Owed, x: (string, int))
    requires Recorded(s, o) && x in s.startingVideo
    ensures var s', o' := s.(startingVideo := s.startingVideo - {x}), Owed(o.video - {x}, o.audio);
            && Recorded(s', o') && Recorded(s', o)
            && Excused(s', o') == Excused(s, o).(startingVideo := Excused(s, o).startingVideo - {x})
            && (x in o.video ==> Excused(s', o) == Excused(s, o))
  {
    var s', o' := s.(startingVideo := s.startingVideo - {x}), Owed(o.video - {x}, o.audio);
    ExcusedIs(s', o', Excused(s, o).(startingVideo := Excused(s, o).startingVideo - {x}));
    if x in o.video {
      ExcusedIs(s', o, Excused(s, o));
    }
  }

  lemma ExcusedAudioDone(s: State, o: Owed, id: string)
    requires Recorded(s, o) && id in s.startingAudio
    ensures var s', o' := s.(startingAudio := s.startingAudio - {id}), Owed(o.video, o.audio - {id});
            && Recorded(s', o') && Recorded(s', o)
            && Excused(s', o') == Excused(s, o).(startingAudio := Excused(s, o).startingAudio - {id})
            && (id in o.audio ==> Excused(s', o) == Excused(s, o))
  {
    var s', o' := s.(startingAudio := s.startingAudio - {id}), Owed(o.video, o.audio - {id});
    forall y
      ensures y in Excused(s, o).startingAudio <==> y in s.startingAudio || y in o.audio
      ensures y in o.audio ==> Excused(s, o).startingAudio[y] == s.locals[y]
      ensures y in s.startingAudio && y !in o.audio ==> Excused(s, o).startingAudio[y] == s.startingAudio[y]
    {
      ExcusedAudioAt(s, o, y);
    }
    ExcusedIs(s', o', Excused(s, o).(startingAudio := Excused(s, o).startingAudio - {id}));
    StillExcusedAudio(s, o, id);
  }

  lemma StillExcusedAudio(s: State, o: Owed, id: string)
    requires Recorded(s, o) && id in s.startingAudio
    ensures var s' := s.(startingAudio := s.startingAudio - {id});
            Recorded(s', o) && (id in o.audio ==> Excused(s', o) == Excused(s, o))
  {
    if id in o.audio {
      ExcusedIs(s.(startingAudio := s.startingAudio - {id}), o, Excused(s, o));
    }
  }

  lemma ExcusedAgainVideo(s: State, o: Owed, client: int, tiles: int, audio: TrackLocal, video: Tracks,
                          x: (string, int))
    requires Recorded(s, o)
    ensures var s', o' := Registered(s, client, tiles, audio, video), OwedTo(o, audio, video);
            var e' := Announcing(Excused(s, o), client, tiles, audio, video);
            && (x in e'.startingVideo <==> x in s'.startingVideo || x in o'.video)
            && (x in o'.video ==> Available(s'.qualities, x.0, x.1) && e'.startingVideo[x] == s'.qualities[x.0][x.1])
            && (x in s'.startingVideo && x !in o'.video ==> e'.startingVideo[x] == s'.startingVideo[x])
  {
    ExcusedAt(s, o, x);
    MergedAt(s.qualities, video, x.0, x.1);
    AnnouncedAt(video, x.0, x.1);
    assert (x.0, x.1) == x;
  }

  lemma ExcusedAgainAudio(s: State, o: Owed, client: int, tiles: int, audio: TrackLocal, video: Tracks, id: string)
    requires Recorded(s, o) && audio.id !in video && (id in o.audio ==> id !in video)
    ensures var s', o' := Registered(s, client, tiles, audio, video), OwedTo(o, audio, video);
            var e' := Announcing(Excused(s, o), client, tiles, audio, video);
            && (id in e'.startingAudio <==> id in s'.startingAudio || id in o'.audio)
            && (id in o'.audio ==> id in s'.locals && e'.startingAudio[id] == s'.locals[id])
            && (id in s'.startingAudio && id !in o'.audio ==> e'.startingAudio[id] == s'.startingAudio[id])
  {
    ExcusedAudioAt(s, o, id);
    RegisteredAt(s, client, tiles, audio, video, id);
  }

  lemma ExcusedAgain(s: State, o: Owed, client: int, tiles: int, audio: TrackLocal, video: Tracks)
    requires Recorded(s, o) && Declared(client, tiles, audio, video) && (forall id | id in o.audio :: IsAudio(id))
    ensures var s', o' := Registered(s, client, tiles, audio, video), OwedTo(o, audio, video);
            Recorded(s', o') && Excused(s', o') == Announcing(Excused(s, o), client, tiles, audio, video)
  {
    var s', o' := Registered(s, client, tiles, audio, video), OwedTo(o, audio, video);
    var e' := Announcing(Excused(s, o), client, tiles, audio, video);
    DeclaredTells(client, tiles, audio, video);
    forall x
      ensures x in e'.startingVideo <==> x in s'.startingVideo || x in o'.video
      ensures x in o'.video ==> Available(s'.qualities, x.0, x.1) && e'.startingVideo[x] == s'.qualities[x.0][x.1]
      ensures x in s'.startingVideo && x !in o'.video ==> e'.startingVideo[x] == s'.startingVideo[x]
    {
      ExcusedAgainVideo(s, o, client, tiles, audio, video, x);
    }
    forall id
      ensures id in e'.startingAudio <==> id in s'.startingAudio || id in o'.audio
      ensures id in o'.audio ==> id in s'.locals && e'.startingAudio[id] == s'.locals[id]
      ensures id in s'.startingAudio && id !in o'.audio ==> e'.startingAudio[id] == s'.startingAudio[id]
    {
      ExcusedAgainAudio(s, o, client, tiles, audio, video, id);
    }
    ExcusedIs(s', o', e');
  }

  /** Registration keeps what is stored under the IDs of others. */
  lemma KeepsOwed(s: State, o: Owed, client: int, tiles: int, audio: TrackLocal, video: Tracks)
    requires Recorded(s, o)
    requires forall x | x in o.video :: x.0 !in video
    requires forall id | id in o.audio :: id !in video && id != audio.id
    ensures var s' := Registered(s, client, tiles, audio, video);
            && Recorded(s', o)
            && (forall x | x in o.video :: s'.qualities[x.0][x.1] == s.qualities[x.0][x.1])
            && (forall id | id in o.audio :: s'.locals[id] == s.locals[id])
  {
    var s' := Registered(s, client, tiles, audio, video);
    forall x | x in o.video
      ensures Available(s'.qualities, x.0, x.1) && s'.qualities[x.0][x.1] == s.qualities[x.0][x.1]
    {
      MergedAt(s.qualities, video, x.0, x.1);
    }
    forall id | id in o.audio ensures id in s'.locals && s'.locals[id] == s.locals[id] {
      RegisteredAt(s, client, tiles, audio, video, id);
    }
  }

  lemma ExcusedNew(s: State, o: Owed, client: int, tiles: int, audio: TrackLocal, video: Tracks)
    requires Recorded(s, o)
    requires forall x | x in o.video :: x.0 !in video
    requires forall id | id in o.audio :: id !in video && id != audio.id
    ensures var s' := Registered(s, client, tiles, audio, video);
            Recorded(s', o) && Excused(s', o) == Registered(Excused(s, o), client, tiles, audio, video)
  {
    KeepsOwed(s, o, client, tiles, audio, video);
    ExcusedLike(s, Registered(s, client, tiles, audio, video), o);
  }

  // ---- Every step keeps it ----

  lemma AddQualityBut(s: State, o: Owed, q: nat, t: TrackLocal)
    requires InvBut(s, o) && !IsAudio(t.id) && ClientOf(t.id) in s.clients
    ensures InvBut(WithQuality(s, q, t), o)
  {
    ExcusedWithQuality(s, o, q, t);
    AddQualityInv(Excused(s, o), q, t);
  }

  lemma StartingAt(s: State, id: string, q: int)
    requires Starting(s) && (id, q) in s.startingVideo
    ensures !IsAudio(id) && Available(s.qualities, id, q)
  {
  }

  lemma OwedAreStarting(s: State, o: Owed)
    requires InvBut(s, o)
    ensures forall x | x in o.video :: !IsAudio(x.0) && ClientOf(x.0) in s.clients
    ensures forall id | id in o.audio :: IsAudio(id) && ClientOf(id) in s.clients
    ensures forall x | x in s.startingVideo :: !IsAudio(x.0) && Available(s.qualities, x.0, x.1)
    ensures forall id | id in s.startingAudio :: IsAudio(id) && id in s.locals
  {
    forall x | x in o.video || x in s.startingVideo ensures !IsAudio(x.0) && Available(s.qualities, x.0, x.1) {
      ExcusedAt(s, o, x);
      assert x == (x.0, x.1);
      StartingAt(Excused(s, o), x.0, x.1);
    }
    forall id | id in o.audio || id in s.startingAudio ensures IsAudio(id) && id in s.locals {
      ExcusedAudioAt(s, o, id);
    }
  }

  lemma AddVideoBut(s: State, o: Owed, t: TrackLocal)
    requires InvBut(s, o) && s.sync == Free && !IsAudio(t.id) && Available(s.qualities, t.id, 0)
    ensures InvBut(s.(locals := s.locals[t.id := t]), o)
  {
    OwedAreStarting(s, o);
    ExcusedPutVideo(s, o, t);
    PutVideoInv(Excused(s, o), t);
  }

  lemma AddAudioBut(s: State, o: Owed, t: TrackLocal)
    requires InvBut(s, o) && s.sync == Free && IsAudio(t.id) && ClientOf(t.id) in s.clients
    ensures InvBut(WithAudio(s, t), o)
  {
    ExcusedWithAudio(s, o, t);
    AddAudioInv(Excused(s, o), t);
  }

  lemma RemoveAudioBut(s: State, o: Owed, id: string)
    requires InvBut(s, o) && s.sync == Free && IsAudio(id) && id !in s.startingAudio
    ensures InvBut(s.(locals := s.locals - {id}), Owed(o.video, o.audio - {id}))
  {
    ExcusedRemoveAudio(s, o, id);
    RemoveAudioInv(Excused(s, o), id);
  }

  /** A callback that puts an older track into the senders of an excused ID. */
  lemma StalePeer(p: Peer, s: State, id: string, q: int, t: TrackLocal)
    requires PeerInv(p, s) && t.id == id && (id, q) in s.startingVideo && !IsAudio(id)
    ensures PeerInv(ReplaceAt(p, id, q, t), s) && ReplaceAt(p, id, q, t).senders.Keys == p.senders.Keys
  {
    ReplaceWired(p, id, t);
    if id in p.registered && id in p.decisions && p.decisions[id] == q {
      CarriesBut(p, Replace(p, id, t), s, id);
    }
  }

  lemma StaleUpdate(s: State, id: string, q: int, t: TrackLocal)
    requires Inv(s) && s.sync == Free && t.id == id && (id, q) in s.startingVideo
    ensures Inv(s.(peers := UpdateSenders(s.peers, id, q, t)))
  {
    var s' := s.(peers := UpdateSenders(s.peers, id, q, t));
    forall i | 0 <= i < |s.peers|
      ensures PeerInv(s'.peers[i], s') && s'.peers[i].senders.Keys == s.peers[i].senders.Keys
    {
      StalePeer(s.peers[i], s, id, q, t);
      PeerInvOther(s'.peers[i], s, s');
    }
  }

  lemma UpdateQualityBut(s: State, o: Owed, id: string, q: int)
    requires InvBut(s, o) && s.sync == Free && (id, q) in s.startingVideo
    ensures var s' := s.(peers := UpdateSenders(s.peers, id, q, s.startingVideo[(id, q)]),
                         startingVideo := s.startingVideo - {(id, q)});
            InvBut(s', if UpToDate(s, id, q) then Owed(o.video - {(id, q)}, o.audio) else o)
  {
    var e, t, x := Excused(s, o), s.startingVideo[(id, q)], (id, q);
    ExcusedAt(s, o, x);
    ExcusedDone(s, o, x);
    var ended, ps := s.(startingVideo := s.startingVideo - {x}), UpdateSenders(s.peers, id, q, t);
    ExcusedPeers(ended, Owed(o.video - {x}, o.audio), ps, s.sync);
    if UpToDate(s, id, q) {
      UpdateQualityInv(e, id, q);
    } else {
      assert x in o.video;
      ExcusedPeers(ended, o, ps, s.sync);
      StaleUpdate(e, id, q, t);
    }
  }

  lemma StaleAudioPeer(p: Peer, s: State, id: string, t: TrackLocal)
    requires PeerInv(p, s) && t.id == id && id in s.startingAudio && IsAudio(id)
    ensures PeerInv(Replace(p, id, t), s) && Replace(p, id, t).senders.Keys == p.senders.Keys
  {
    ReplaceWired(p, id, t);
    if id in p.registered {
      CarriesBut(p, Replace(p, id, t), s, id);
    }
  }

  lemma StaleAudioUpdate(s: State, id: string, t: TrackLocal)
    requires Inv(s) && s.sync == Free && t.id == id && id in s.startingAudio
    ensures Inv(s.(peers := UpdateAudioSenders(s.peers, id, t)))
  {
    var s' := s.(peers := UpdateAudioSenders(s.peers, id, t));
    forall i | 0 <= i < |s.peers|
      ensures PeerInv(s'.peers[i], s') && s'.peers[i].senders.Keys == s.peers[i].senders.Keys
    {
      StaleAudioPeer(s.peers[i], s, id, t);
      PeerInvOther(s'.peers[i], s, s');
    }
  }

  lemma UpdateAudioBut(s: State, o: Owed, id: string)
    requires InvBut(s, o) && s.sync == Free && id in s.startingAudio
    ensures var s' := s.(peers := UpdateAudioSenders(s.peers, id, s.startingAudio[id]),
                         startingAudio := s.startingAudio - {id});
            InvBut(s', if AudioUpToDate(s, id) then Owed(o.video, o.audio - {id}) else o)
  {
    var e, t := Excused(s, o), s.startingAudio[id];
    ExcusedAudioAt(s, o, id);
    ExcusedAudioDone(s, o, id);
    var ended, ps := s.(startingAudio := s.startingAudio - {id}), UpdateAudioSenders(s.peers, id, t);
    ExcusedPeers(ended, Owed(o.video, o.audio - {id}), ps, s.sync);
    if AudioUpToDate(s, id) {
      UpdateAudioInv(e, id);
    } else {
      OwedAreStarting(s, o);
      assert id in o.audio;
      ExcusedPeers(ended, o, ps, s.sync);
      StaleAudioUpdate(e, id, t);
    }
  }

  /** Steps that touch only the peers and the synchronization do the same with and without excuses. */
  predicate OnPeers(l: Label) { l.StartReceiver? || l.Close? || l.SetQuality? || OfSync(l) }

  lemma OnlyPeers(s: State, l: Label)
    requires Enabled(s, l) && OnPeers(l)
    ensures Apply(s, l) == s.(peers := Apply(s, l).peers, sync := Apply(s, l).sync)
  {
    if OfSync(l) {
      OnlyPeersSync(s, l);
    }
  }

  lemma OnlyPeersSync(s: State, l: Label)
    requires Enabled(s, l) && OfSync(l)
    ensures Apply(s, l) == s.(peers := Apply(s, l).peers, sync := Apply(s, l).sync)
  {
  }

  lemma SamePeers(s: State, e: State, l: Label)
    requires Enabled(s, l) && OnPeers(l) && e == s.(startingVideo := e.startingVideo, startingAudio := e.startingAudio)
    ensures Enabled(e, l) && Apply(e, l).peers == Apply(s, l).peers && Apply(e, l).sync == Apply(s, l).sync
  {
    if OfSync(l) {
      SameSync(s, e, l);
    } else {
      SameOther(s, e, l);
    }
  }

  lemma SameSync(s: State, e: State, l: Label)
    requires Enabled(s, l) && OfSync(l) && e == s.(startingVideo := e.startingVideo, startingAudio := e.startingAudio)
    ensures Enabled(e, l) && Apply(e, l).peers == Apply(s, l).peers && Apply(e, l).sync == Apply(s, l).sync
  {
    if l.SyncAdd? {
      SameAdd(s, e, l);
    } else if l.SyncVisit? {
      SameVisit(s, e);
    }
  }

  lemma SameVisit(s: State, e: State)
    requires s.sync.Visit? && e == s.(startingVideo := e.startingVideo, startingAudio := e.startingAudio)
    ensures VisitNext(e).peers == VisitNext(s).peers && VisitNext(e).sync == VisitNext(s).sync
  {
    var i, ps := s.sync.i, s.peers;
    assert e.peers == ps && e.locals == s.locals && e.sync == s.sync;
    if i < |ps| && !ps[i].closed {
      VisitedAlike(s, e);
    }
  }

  lemma VisitedAlike(s: State, e: State)
    requires s.sync.Visit? && s.sync.i < |s.peers|
    requires e.peers == s.peers && e.locals == s.locals && e.sync == s.sync
    ensures Visited(e).peers == Visited(s).peers && Visited(e).sync == Visited(s).sync
  {
    assert Clean(e.peers[e.sync.i], e.locals) == Clean(s.peers[s.sync.i], s.locals);
  }

  lemma SameAdd(s: State, e: State, l: Label)
    requires Enabled(s, l) && l.SyncAdd? && e == s.(startingVideo := e.startingVideo, startingAudio := e.startingAudio)
    ensures Enabled(e, l) && Apply(e, l).peers == Apply(s, l).peers && Apply(e, l).sync == Apply(s, l).sync
  {
    assert NewTrack(e, l.id) == NewTrack(s, l.id);
  }

  lemma SameOther(s: State, e: State, l: Label)
    requires Enabled(s, l) && (l.StartReceiver? || l.Close? || l.SetQuality?)
    requires e == s.(startingVideo := e.startingVideo, startingAudio := e.startingAudio)
    ensures Enabled(e, l) && Apply(e, l).peers == Apply(s, l).peers && Apply(e, l).sync == Apply(s, l).sync
  {
  }

  lemma OnPeersBut(s: State, o: Owed, l: Label)
    requires InvBut(s, o) && Enabled(s, l) && OnPeers(l)
    ensures InvBut(Apply(s, l), o)
  {
    OnlyPeers(s, l);
    SamePeers(s, Excused(s, o), l);
    OnlyPeers(Excused(s, o), l);
    ExcusedPeers(s, o, Apply(s, l).peers, Apply(s, l).sync);
    StepInv(Excused(s, o), l);
  }

  lemma JoinKnownBut(s: State, o: Owed, client: int, tiles: int, audio: TrackLocal, video: Tracks)
    requires InvBut(s, o) && s.sync == Free && Declared(client, tiles, audio, video)
    ensures InvBut(Registered(s, client, tiles, audio, video), OwedTo(o, audio, video))
  {
    OwedAreStarting(s, o);
    ExcusedAgain(s, o, client, tiles, audio, video);
    AnnouncingInv(Excused(s, o), client, tiles, audio, video);
  }

  lemma JoinNewBut(s: State, o: Owed, client: int, tiles: int, audio: TrackLocal, video: Tracks)
    requires InvBut(s, o) && s.sync == Free && Declared(client, tiles, audio, video) && client !in s.clients
    ensures InvBut(Registered(s, client, tiles, audio, video), o)
  {
    OwedAreStarting(s, o);
    DeclaredTells(client, tiles, audio, video);
    ExcusedNew(s, o, client, tiles, audio, video);
    RegisterInv(Excused(s, o), client, tiles, audio, video);
  }
}
