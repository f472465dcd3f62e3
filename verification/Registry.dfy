/**
 The track registry of sfu/main.go as a state machine. A label is one section that runs under its
 locks; the synchronization of the peers, which holds listLock but takes qualitiesLock only around
 each added track, is cut into the pieces between which other goroutines can run.
 */
module Registry {
  import opened TrackID

  class TrackLocal {
    const id: string

    constructor (id: string)
      ensures this.id == id
    {
      this.id := id;
    }
  }

  class RTPSender {
    var track: TrackLocal?

    constructor (track: TrackLocal?)
      ensures this.track == track
    {
      this.track := track;
    }

    method ReplaceTrack(t: TrackLocal?)
      modifies this
      ensures track == t
    {
      track := t;
    }
  }

  /** A peer and what its senders carry. `receivers` are the IDs of the tracks it has started to send. */
  datatype Peer = Peer(
    clientID: int, tiles: int, closed: bool, receivers: seq<string>,
    senders: map<RTPSender, TrackLocal?>, registered: map<string, RTPSender>, decisions: map<string, int>)

  /** Where the goroutine that holds listLock for a synchronization is: about to visit peer `i`, or
      adding the tracks `todo` to it. */
  datatype Sync = Free | Visit(i: nat) | Adding(i: nat, todo: set<string>)

  /** `clients` maps the clients that ever registered to the largest number of tiles they declared. `startingVideo` and
      `startingAudio` are the tracks of the OnTrack callbacks that have stored their track but not
      yet updated the senders. */
  datatype State = State(
    locals: map<string, TrackLocal>, qualities: map<string, map<int, TrackLocal>>, peers: seq<Peer>,
    clients: map<int, int>, startingVideo: map<(string, int), TrackLocal>, startingAudio: map<string, TrackLocal>,
    sync: Sync)

  const Initial := State(map[], map[], [], map[], map[], map[], Free)

  type Tracks = map<string, map<int, TrackLocal>>

  datatype Label =
    | Register(client: int, tiles: int, audio: TrackLocal, video: Tracks)
    | StartReceiver(p: nat, id: string)
    | Close(p: nat)
    | AddQuality(client: int, tile: int, q: int, t: TrackLocal)
    | AddVideo(id: string)
    | UpdateQuality(id: string, q: int)
    | AddAudio(client: int, t: TrackLocal)
    | UpdateAudio(id: string)
    | RemoveAudio(id: string)
    | SetQuality(p: nat, id: string, q: int)
    | SyncBegin
    | SyncVisit
    | SyncAdd(id: string, sender: RTPSender)
    | SyncOffer(ok: bool)

  // ---- Peers ----

  /** A peer that has just registered. */
  function NewPeer(client: int, tiles: int): Peer {
    Peer(client, tiles, false, [], map[], map[], map[])
  }

  function OwnOf(p: Peer): set<string> { Own(p.clientID, p.tiles) }

  /** The IDs of the tracks that are being sent to the peer. */
  function ActiveIDs(p: Peer): set<string> {
    set s | s in p.senders && p.senders[s] != null :: p.senders[s].id
  }

  function ReceiverIDs(p: Peer): set<string> { BaseIDs(p.receivers) }

  /** Pion's ReplaceTrack on the sender registered for `id`. */
  function Replace(p: Peer, id: string, t: TrackLocal?): Peer {
    if id in p.registered && p.registered[id] in p.senders
    then p.(senders := p.senders[p.registered[id] := t]) else p
  }

  function ReplaceAt(p: Peer, id: string, q: int, t: TrackLocal): Peer {
    if id in p.registered && id in p.decisions && p.decisions[id] == q then Replace(p, id, t) else p
  }

  predicate Available(qualities: Tracks, id: string, q: int) { id in qualities && q in qualities[id] }

  /** setTrackQuality. */
  function Decide(p: Peer, qualities: Tracks, id: string, q: int): Peer {
    if id !in p.decisions || p.decisions[id] == q then p
    else if id !in p.registered then p.(decisions := p.decisions[id := q])
    else if q < 0 then Replace(p, id, null).(decisions := p.decisions[id := q])
    else if Available(qualities, id, q) then Replace(p, id, qualities[id][q]).(decisions := p.decisions[id := q])
    else p
  }

  /** The senders of tracks that are gone are removed. */
  function Clean(p: Peer, locals: map<string, TrackLocal>): Peer {
    p.(senders := map s | s in p.senders && (p.senders[s] == null || p.senders[s].id in locals) :: p.senders[s],
       registered := p.registered - (ActiveIDs(p) - locals.Keys))
  }

  /** The tracks a visit decides to add. */
  function Missing(p: Peer, locals: map<string, TrackLocal>): set<string> {
    locals.Keys - (ActiveIDs(p) + ReceiverIDs(p) + OwnOf(p))
  }

  /** The track addNewTrackForPeer looks up; null where the maps have none. */
  function TrackFor(locals: map<string, TrackLocal>, qualities: Tracks, id: string): TrackLocal? {
    if IsAudio(id) then (if id in locals then locals[id] else null)
    else if Available(qualities, id, 0) then qualities[id][0] else null
  }

  function NewTrack(s: State, id: string): TrackLocal? { TrackFor(s.locals, s.qualities, id) }

  /** addNewTrackForPeer, with the track it found and the sender that Pion makes. */
  function AddSender(p: Peer, id: string, sender: RTPSender, t: TrackLocal?): Peer {
    p.(senders := p.senders[sender := t],
       registered := p.registered[id := sender],
       decisions := if IsAudio(id) then p.decisions else p.decisions[id := 0])
  }

  // ---- Steps ----

  /** Tracks for all declared tiles of a client, each stored under its own ID; there are none at all
      when the client announces no qualities. */
  ghost predicate Declared(client: int, tiles: int, audio: TrackLocal, video: Tracks) {
    && InInt64(client) && InInt64(tiles)
    && audio.id == AudioID(client)
    && (video == map[] || video.Keys == OwnVideo(client, tiles))
    && (forall id | id in video :: 0 in video[id])
    && (forall id, q | id in video && q in video[id] :: 0 <= q && video[id][q].id == id)
  }

  /** `id` names a video track that the peer declared, at some quality. */
  ghost predicate SentBy(p: Peer, id: string) {
    exists t: int, q: int :: 0 <= t < p.tiles && id == SentVideoID(p.clientID, t, q)
  }

  ghost predicate Enabled(s: State, l: Label) {
    match l
    case Register(client, tiles, audio, video) =>
      s.sync == Free && client !in s.clients && Declared(client, tiles, audio, video)
    case StartReceiver(p, id) =>
      p < |s.peers| && (id == AudioID(s.peers[p].clientID) || SentBy(s.peers[p], id))
    case Close(p) => p < |s.peers|
    case AddQuality(client, tile, q, t) =>
      client in s.clients && 0 <= tile < s.clients[client] && q >= 0
      && t.id == VideoID(client, tile) && (t.id, q) !in s.startingVideo
    case AddVideo(id) => s.sync == Free && (id, 0) in s.startingVideo
    case UpdateQuality(id, q) => s.sync == Free && (id, q) in s.startingVideo
    case AddAudio(client, t) =>
      s.sync == Free && client in s.clients && t.id == AudioID(client) && t.id !in s.startingAudio
    case UpdateAudio(id) => s.sync == Free && id in s.startingAudio
    case RemoveAudio(id) => s.sync == Free && IsAudio(id) && id !in s.startingAudio
    case SetQuality(p, id, q) => s.sync == Free && p < |s.peers|
    case SyncBegin => s.sync == Free
    case SyncVisit => s.sync.Visit?
    case SyncAdd(id, sender) =>
      s.sync.Adding? && s.sync.i < |s.peers| && id in s.sync.todo
      && forall p | p in s.peers :: sender !in p.senders
    case SyncOffer(ok) => s.sync.Adding? && s.sync.todo == {}
  }

  function Merge(a: Tracks, b: Tracks): Tracks {
    map id | id in a.Keys + b.Keys :: if id !in b then a[id] else if id !in a then b[id] else a[id] + b[id]
  }

  function Store(qualities: Tracks, id: string, q: int, t: TrackLocal): Tracks {
    var byQuality: map<int, TrackLocal> := if id in qualities then qualities[id] else map[];
    qualities[id := byQuality[q := t]]
  }

  /** The tracks of quality 0. */
  function Zeros(video: Tracks): map<string, TrackLocal> { map id | id in video && 0 in video[id] :: video[id][0] }

  function MostTiles(clients: map<int, int>, client: int, tiles: int): int {
    if client in clients && clients[client] > tiles then clients[client] else tiles
  }

  /** The registration block: for each tile and quality addQualityTrack, for quality 0 also addTrack. */
  function Registered(s: State, client: int, tiles: int, audio: TrackLocal, video: Tracks): State {
    s.(locals := s.locals[audio.id := audio] + Zeros(video),
       qualities := Merge(s.qualities, video),
       peers := s.peers + [NewPeer(client, tiles)],
       clients := s.clients[client := MostTiles(s.clients, client, tiles)])
  }

  /** updateClientTrackStateQuality. */
  function UpdateSenders(ps: seq<Peer>, id: string, q: int, t: TrackLocal): (r: seq<Peer>)
    ensures |r| == |ps| && forall i | 0 <= i < |ps| :: r[i] == ReplaceAt(ps[i], id, q, t)
  {
    seq(|ps|, i requires 0 <= i < |ps| => ReplaceAt(ps[i], id, q, t))
  }

  /** updateClientTrackState. */
  function UpdateAudioSenders(ps: seq<Peer>, id: string, t: TrackLocal): (r: seq<Peer>)
    ensures |r| == |ps| && forall i | 0 <= i < |ps| :: r[i] == Replace(ps[i], id, t)
  {
    seq(|ps|, i requires 0 <= i < |ps| => Replace(ps[i], id, t))
  }

  /** The visited peer has lost the senders of tracks that are gone, and has tracks to be added. */
  function Visited(s: State): State
    requires s.sync.Visit? && s.sync.i < |s.peers|
  {
    var i := s.sync.i;
    s.(peers := s.peers[i := Clean(s.peers[i], s.locals)], sync := Adding(i, Missing(s.peers[i], s.locals)))
  }

  /** The attempt ends at the end of the list and at a closed peer, which it drops. */
  function VisitNext(s: State): State
    requires s.sync.Visit?
  {
    var i := s.sync.i;
    if i >= |s.peers| then s.(sync := Free)
    else if s.peers[i].closed then s.(peers := s.peers[..i] + s.peers[i + 1..], sync := Free)
    else Visited(s)
  }

  function Added(s: State, id: string, sender: RTPSender): State
    requires s.sync.Adding? && s.sync.i < |s.peers|
  {
    var i := s.sync.i;
    s.(peers := s.peers[i := AddSender(s.peers[i], id, sender, NewTrack(s, id))], sync := Adding(i, s.sync.todo - {id}))
  }

  /** The first locked section of OnTrack for a video track. */
  function WithQuality(s: State, q: int, t: TrackLocal): State {
    s.(qualities := Store(s.qualities, t.id, q, t), startingVideo := s.startingVideo[(t.id, q) := t])
  }

  /** And for an audio track. */
  function WithAudio(s: State, t: TrackLocal): State {
    s.(locals := s.locals[t.id := t], startingAudio := s.startingAudio[t.id := t])
  }

  ghost function Apply(s: State, l: Label): State
    requires Enabled(s, l)
  {
    match l
    case Register(client, tiles, audio, video) => Registered(s, client, tiles, audio, video)
    case StartReceiver(p, id) => s.(peers := s.peers[p := s.peers[p].(receivers := s.peers[p].receivers + [id])])
    case Close(p) => s.(peers := s.peers[p := s.peers[p].(closed := true)])
    case AddQuality(_, _, q, t) => WithQuality(s, q, t)
    case AddVideo(id) => s.(locals := s.locals[id := s.startingVideo[(id, 0)]])
    case UpdateQuality(id, q) =>
      var t := s.startingVideo[(id, q)];
      s.(peers := UpdateSenders(s.peers, id, q, t),
         startingVideo := s.startingVideo - {(id, q)})
    case AddAudio(_, t) => WithAudio(s, t)
    case UpdateAudio(id) =>
      var t := s.startingAudio[id];
      s.(peers := UpdateAudioSenders(s.peers, id, t),
         startingAudio := s.startingAudio - {id})
    case RemoveAudio(id) => s.(locals := s.locals - {id})
    case SetQuality(p, id, q) => s.(peers := s.peers[p := Decide(s.peers[p], s.qualities, id, q)])
    case SyncBegin => s.(sync := Visit(0))
    case SyncVisit => VisitNext(s)
    case SyncAdd(id, sender) => Added(s, id, sender)
    case SyncOffer(ok) => s.(sync := if ok then Visit(s.sync.i + 1) else Free)
  }

  /** The attempt drops the peer it is about to visit, and asks for a retry. */
  predicate Drops(s: State, l: Label) {
    l.SyncVisit? && s.sync.Visit? && s.sync.i < |s.peers| && s.peers[s.sync.i].closed
  }

  ghost predicate CanRun(s: State, ls: seq<Label>)
    decreases ls
  {
    ls == [] || (Enabled(s, ls[0]) && CanRun(Apply(s, ls[0]), ls[1..]))
  }

  ghost function Run(s: State, ls: seq<Label>): State
    requires CanRun(s, ls)
    decreases ls
  {
    if ls == [] then s else Run(Apply(s, ls[0]), ls[1..])
  }

  /** The run leads to `s`. */
  ghost predicate Reaches(ls: seq<Label>, s: State) { CanRun(Initial, ls) && Run(Initial, ls) == s }

  lemma {:induction false} RunThen(s: State, ls: seq<Label>, l: Label)
    requires CanRun(s, ls) && Enabled(Run(s, ls), l)
    ensures CanRun(s, ls + [l]) && Run(s, ls + [l]) == Apply(Run(s, ls), l)
    decreases ls
  {
    if ls == [] {
      assert [] + [l] == [l];
      assert CanRun(Apply(s, l), []);
    } else {
      assert (ls + [l])[1..] == ls[1..] + [l];
      RunThen(Apply(s, ls[0]), ls[1..], l);
    }
  }

  lemma ReachStep(ls: seq<Label>, s: State, l: Label)
    requires Reaches(ls, s) && Enabled(s, l)
    ensures Reaches(ls + [l], Apply(s, l))
  {
    RunThen(Initial, ls, l);
  }
}
