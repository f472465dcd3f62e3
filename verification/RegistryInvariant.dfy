/** What every step of the registry keeps, for any number of peers and any interleaving. */
module RegistryInvariant {
  import opened TrackID
  import opened Registry

  // ---- One peer ----

  /** What the sender registered for `id` carries. */
  function Carried(p: Peer, id: string): TrackLocal? {
    if id in p.registered && p.registered[id] in p.senders then p.senders[p.registered[id]] else null
  }

  /** The registered senders are senders of the connection, each registered once and carrying a track
      of its ID or nothing, and every sender that carries a track is registered under its ID. Exactly
      the registered video senders have a quality decision. */
  ghost predicate Wired(p: Peer) {
    && (forall id | id in p.registered :: p.registered[id] in p.senders)
    && (forall id | id in p.registered && Carried(p, id) != null :: Carried(p, id).id == id)
    && (forall s | s in p.senders && p.senders[s] != null ::
          p.senders[s].id in p.registered && p.registered[p.senders[s].id] == s)
    && (forall a, b | a in p.registered && b in p.registered && a != b :: p.registered[a] != p.registered[b])
    && (forall id :: id in p.decisions <==> id in p.registered && !IsAudio(id))
  }

  /** The peer is sent nothing of its own, and only tracks of clients that registered. */
  ghost predicate Foreign(p: Peer, s: State) {
    && p.clientID in s.clients && InInt64(p.clientID) && InInt64(p.tiles)
    && (forall r | r in p.receivers :: BaseID(r).Some? && BaseID(r).value in OwnOf(p))
    && (forall id | id in p.registered :: id !in OwnOf(p) && ClientOf(id) in s.clients)
    && (forall id | id in p.registered && !IsAudio(id) :: id in s.locals)
  }

  /** The track of the decided quality, or nothing when the decision is negative. */
  predicate Fits(s: State, id: string, q: int, t: TrackLocal?) {
    if q < 0 then t == null else Available(s.qualities, id, q) && t == s.qualities[id][q]
  }

  /** Only between the time an OnTrack callback stores a track and the time it updates the senders may
      another track than the stored one be carried. */
  predicate VideoRight(s: State, id: string, q: int, t: TrackLocal?) {
    Fits(s, id, q, t) || ((id, q) in s.startingVideo && t != null)
  }

  predicate AudioRight(s: State, id: string, t: TrackLocal?) {
    t != null && (id in s.locals ==> t == s.locals[id] || id in s.startingAudio)
  }

  ghost predicate CarriesVideo(p: Peer, s: State) {
    forall id | id in p.decisions :: VideoRight(s, id, p.decisions[id], Carried(p, id))
  }

  ghost predicate CarriesAudio(p: Peer, s: State) {
    forall id | id in p.registered && IsAudio(id) :: AudioRight(s, id, Carried(p, id))
  }

  ghost predicate PeerInv(p: Peer, s: State) {
    Wired(p) && Foreign(p, s) && CarriesVideo(p, s) && CarriesAudio(p, s)
  }

  // ---- The maps ----

  /** Every track is stored under its own ID, and every video ID has a track of quality 0. */
  ghost predicate Stored(s: State) {
    && (forall id | id in s.locals :: s.locals[id].id == id && ClientOf(id) in s.clients)
    && (forall id, q | Available(s.qualities, id, q) :: s.qualities[id][q].id == id && q >= 0)
    && (forall id | id in s.qualities :: ClientOf(id) in s.clients)
    && (forall id | id in s.locals && !IsAudio(id) :: Available(s.qualities, id, 0))
  }

  /** The tracks of the OnTrack callbacks under way are the stored ones. */
  ghost predicate Starting(s: State) {
    && (forall id, q | (id, q) in s.startingVideo ::
          !IsAudio(id) && Available(s.qualities, id, q) && s.startingVideo[(id, q)] == s.qualities[id][q])
    && (forall id | id in s.startingAudio :: IsAudio(id) && id in s.locals && s.locals[id] == s.startingAudio[id])
  }

  ghost predicate SendersDisjoint(ps: seq<Peer>) {
    forall i, j | 0 <= i < j < |ps| :: ps[i].senders.Keys !! ps[j].senders.Keys
  }

  // ---- Synchronization ----

  /** The peer is sent exactly the tracks in `trackLocals` other than its own. */
  predicate InSync(p: Peer, s: State) { ActiveIDs(p) == s.locals.Keys - OwnOf(p) }

  ghost predicate SyncInv(s: State) {
    match s.sync
    case Free => true
    case Visit(i) => i <= |s.peers| && forall j | 0 <= j < i :: InSync(s.peers[j], s)
    case Adding(i, todo) =>
      && i < |s.peers|
      && (forall j | 0 <= j < i :: InSync(s.peers[j], s))
      && ActiveIDs(s.peers[i]) + todo == s.locals.Keys - OwnOf(s.peers[i])
      && ActiveIDs(s.peers[i]) !! todo
  }

  ghost predicate Kept(s: State) {
    && Stored(s) && Starting(s)
    && (forall i | 0 <= i < |s.peers| :: PeerInv(s.peers[i], s))
    && SendersDisjoint(s.peers)
  }

  ghost predicate Inv(s: State) { Kept(s) && SyncInv(s) }

  // ---- Steps on one peer ----

  lemma ReplaceWired(p: Peer, id: string, t: TrackLocal?)
    requires Wired(p) && (t != null ==> t.id == id)
    ensures Wired(Replace(p, id, t)) && Replace(p, id, t).senders.Keys == p.senders.Keys
    ensures id in p.registered ==> Carried(Replace(p, id, t), id) == t
    ensures forall other | other in p.registered && other != id ::
        Carried(Replace(p, id, t), other) == Carried(p, other)
  {
  }

  /** Peers whose senders differ at one ID at most. */
  ghost predicate SameBut(p: Peer, p': Peer, id: string) {
    && (forall other | other in p'.registered && other != id ::
        other in p.registered && Carried(p', other) == Carried(p, other))
    && (forall other | other in p'.decisions && other != id ::
        other in p.decisions && p'.decisions[other] == p.decisions[other])
  }

  lemma CarriesBut(p: Peer, p': Peer, s: State, id: string)
    requires CarriesVideo(p, s) && CarriesAudio(p, s) && SameBut(p, p', id)
    requires forall other | other in p'.decisions :: other in p'.registered
    requires id in p'.decisions ==> VideoRight(s, id, p'.decisions[id], Carried(p', id))
    requires id in p'.registered && IsAudio(id) ==> AudioRight(s, id, Carried(p', id))
    ensures CarriesVideo(p', s) && CarriesAudio(p', s)
  {
  }

  lemma RedecideWired(p: Peer, id: string, q: int, t: TrackLocal?)
    requires Wired(p) && id in p.decisions && (t != null ==> t.id == id)
    ensures var p' := Replace(p, id, t).(decisions := p.decisions[id := q]);
            Wired(p') && SameBut(p, p', id) && Carried(p', id) == t && p'.senders.Keys == p.senders.Keys
  {
    ReplaceWired(p, id, t);
    var p' := Replace(p, id, t).(decisions := p.decisions[id := q]);
    assert forall other :: Carried(p', other) == Carried(Replace(p, id, t), other);
  }

  lemma SameForeign(p: Peer, p': Peer, s: State)
    requires Foreign(p, s) && p' == p.(senders := p'.senders, decisions := p'.decisions)
    ensures Foreign(p', s)
  {
  }

  lemma RedecideInv(p: Peer, s: State, id: string, q: int, t: TrackLocal?)
    requires PeerInv(p, s) && Stored(s) && id in p.decisions && Fits(s, id, q, t)
    ensures PeerInv(Replace(p, id, t).(decisions := p.decisions[id := q]), s)
    ensures Carried(Replace(p, id, t), id) == t && Replace(p, id, t).senders.Keys == p.senders.Keys
  {
    RedecideWired(p, id, q, t);
    SameForeign(p, Replace(p, id, t).(decisions := p.decisions[id := q]), s);
    CarriesBut(p, Replace(p, id, t).(decisions := p.decisions[id := q]), s, id);
  }

  lemma DecideInv(p: Peer, s: State, id: string, q: int)
    requires PeerInv(p, s) && Stored(s)
    ensures PeerInv(Decide(p, s.qualities, id, q), s)
    ensures Decide(p, s.qualities, id, q).senders.Keys == p.senders.Keys
  {
    if id in p.decisions && p.decisions[id] != q {
      if q < 0 {
        RedecideInv(p, s, id, q, null);
      } else if Available(s.qualities, id, q) {
        RedecideInv(p, s, id, q, s.qualities[id][q]);
      }
    }
  }

  /** Only audio tracks can be gone, which have no quality decision. */
  ghost predicate VideoStays(p: Peer, locals: map<string, TrackLocal>) {
    forall id | id in p.registered && !IsAudio(id) :: id in locals
  }

  lemma CleanWired(p: Peer, locals: map<string, TrackLocal>)
    requires Wired(p) && VideoStays(p, locals)
    ensures Wired(Clean(p, locals))
    ensures forall id | id in Clean(p, locals).registered :: Carried(Clean(p, locals), id) == Carried(p, id)
  {
    var p' := Clean(p, locals);
    forall id | id in p.registered && id in ActiveIDs(p) ensures Carried(p, id) != null && Carried(p, id).id == id {
      var x :| x in p.senders && p.senders[x] != null && p.senders[x].id == id;
    }
    forall id | id in p'.registered ensures p'.registered[id] in p'.senders {
      if Carried(p, id) != null {
        assert id in ActiveIDs(p);
      }
    }
  }

  lemma CleanInv(p: Peer, s: State)
    requires PeerInv(p, s)
    ensures PeerInv(Clean(p, s.locals), s)
    ensures ActiveIDs(Clean(p, s.locals)) == ActiveIDs(p) * s.locals.Keys
  {
    CleanWired(p, s.locals);
    CleanActive(p, s);
  }

  lemma CleanActive(p: Peer, s: State)
    ensures ActiveIDs(Clean(p, s.locals)) == ActiveIDs(p) * s.locals.Keys
  {
    var p' := Clean(p, s.locals);
    forall id | id in ActiveIDs(p) * s.locals.Keys ensures id in ActiveIDs(p') {
      var x :| x in p.senders && p.senders[x] != null && p.senders[x].id == id;
      assert x in p'.senders && p'.senders[x] != null;
    }
    forall id | id in ActiveIDs(p') ensures id in ActiveIDs(p) * s.locals.Keys {
      var x :| x in p'.senders && p'.senders[x] != null && p'.senders[x].id == id;
      assert x in p.senders && p.senders[x] != null;
    }
  }

  lemma AddSenderWired(p: Peer, id: string, sender: RTPSender, t: TrackLocal)
    requires Wired(p) && t.id == id && id !in ActiveIDs(p) && sender !in p.senders
    ensures Wired(AddSender(p, id, sender, t))
    ensures ActiveIDs(AddSender(p, id, sender, t)) == ActiveIDs(p) + {id}
  {
    var p' := AddSender(p, id, sender, t);
    forall x | x in p'.senders && p'.senders[x] != null
      ensures p'.senders[x].id in p'.registered && p'.registered[p'.senders[x].id] == x
    {
      if x != sender {
        assert p.senders[x] != null && p.senders[x].id in ActiveIDs(p);
      }
    }
    assert p'.senders[sender].id == id;
    forall y | y in ActiveIDs(p) ensures y in ActiveIDs(p') {
      var x :| x in p.senders && p.senders[x] != null && p.senders[x].id == y;
      assert p'.senders[x] == p.senders[x];
    }
  }

  /** addNewTrackForPeer finds a track, which never is a missing one. */
  lemma TrackFound(s: State, id: string)
    requires Stored(s) && id in s.locals
    ensures NewTrack(s, id) != null && NewTrack(s, id).id == id
    ensures if IsAudio(id) then NewTrack(s, id) == s.locals[id] else Fits(s, id, 0, NewTrack(s, id))
  {
  }

  lemma AddSenderInv(p: Peer, s: State, id: string, sender: RTPSender, t: TrackLocal)
    requires PeerInv(p, s) && id in s.locals && id !in OwnOf(p) && ClientOf(id) in s.clients && t.id == id
    requires if IsAudio(id) then t == s.locals[id] else Fits(s, id, 0, t)
    requires id !in ActiveIDs(p) && sender !in p.senders
    ensures PeerInv(AddSender(p, id, sender, t), s)
    ensures ActiveIDs(AddSender(p, id, sender, t)) == ActiveIDs(p) + {id}
  {
    AddSenderWired(p, id, sender, t);
    CarriesBut(p, AddSender(p, id, sender, t), s, id);
  }

  lemma ActiveForeign(p: Peer, s: State)
    requires PeerInv(p, s)
    ensures ActiveIDs(p) !! OwnOf(p)
  {
  }

  lemma ReceiversOwn(p: Peer, s: State)
    requires Foreign(p, s)
    ensures ReceiverIDs(p) <= OwnOf(p)
  {
  }
}
