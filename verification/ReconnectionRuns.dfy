/** What holds of every run in which clients may register any number of times. */
module ReconnectionRuns {
  import opened TrackID
  import opened Registry
  import opened RegistryInvariant
  import opened RegistrySteps
  import opened RegistryRuns
  import opened Reconnection

  lemma TrackStepBut(s: State, o: Owed, l: Label)
    requires InvBut(s, o) && Possible(s, Step(l)) && !OnPeers(l)
    ensures InvBut(Apply(s, l), OwedAfter(s, o, Step(l)))
  {
    match l
    case AddQuality(client, tile, q, t) =>
      IDsTell(client, tile);
      AddQualityBut(s, o, q, t);
    case AddVideo(id) =>
      OwedAreStarting(s, o);
      assert (id, 0).0 == id && (id, 0).1 == 0;
      AddVideoBut(s, o, s.startingVideo[(id, 0)]);
    case UpdateQuality(id, q) => UpdateQualityBut(s, o, id, q);
    case AddAudio(client, t) =>
      IDsTell(client, 0);
      AddAudioBut(s, o, t);
    case UpdateAudio(id) => UpdateAudioBut(s, o, id);
    case RemoveAudio(id) => RemoveAudioBut(s, o, id);
  }

  lemma JoinBut(s: State, o: Owed, e: Event)
    requires InvBut(s, o) && Possible(s, e) && e.Join?
    ensures InvBut(After(s, e), OwedAfter(s, o, e))
  {
    if e.client in s.clients {
      JoinKnownBut(s, o, e.client, e.tiles, e.audio, e.video);
    } else {
      JoinNewBut(s, o, e.client, e.tiles, e.audio, e.video);
    }
  }

  lemma PeersOweTheSame(s: State, o: Owed, l: Label)
    requires Possible(s, Step(l)) && OnPeers(l)
    ensures OwedAfter(s, o, Step(l)) == o
  {
  }

  lemma StepBut(s: State, o: Owed, l: Label)
    requires InvBut(s, o) && Possible(s, Step(l))
    ensures InvBut(Apply(s, l), OwedAfter(s, o, Step(l)))
  {
    if OnPeers(l) {
      PeersOweTheSame(s, o, l);
      OnPeersBut(s, o, l);
    } else {
      TrackStepBut(s, o, l);
    }
  }

  lemma EventBut(s: State, o: Owed, e: Event)
    requires InvBut(s, o) && Possible(s, e)
    ensures InvBut(After(s, e), OwedAfter(s, o, e))
  {
    if e.Join? {
      JoinBut(s, o, e);
    } else {
      StepBut(s, o, e.l);
    }
  }

  /** Every run keeps the invariant up to the tracks that are owed. */
  lemma {:induction false} GoBut(s: State, o: Owed, es: seq<Event>)
    requires InvBut(s, o) && CanGo(s, es)
    ensures InvBut(Go(s, es), Owing(s, o, es))
    decreases es
  {
    if es != [] {
      EventBut(s, o, es[0]);
      GoBut(After(s, es[0]), OwedAfter(s, o, es[0]), es[1..]);
    }
  }

  /** So when nothing is owed any more, the full invariant holds again. */
  lemma AllRepaired(s: State, es: seq<Event>)
    requires Inv(s) && CanGo(s, es) && Owing(s, NothingOwed, es) == NothingOwed
    ensures Inv(Go(s, es))
  {
    NothingOwedInv(s);
    GoBut(s, NothingOwed, es);
    NothingOwedInv(Go(s, es));
  }

  /** In every run from the start, with any registrations: a registered video sender carries what its
      decision says, unless a callback for that ID and quality is under way or owed, when it still carries
      some track. */
  lemma SendersCarryUnlessOwed(es: seq<Event>, i: nat, id: string)
    requires CanGo(Initial, es) && i < |Go(Initial, es).peers| && id in Go(Initial, es).peers[i].decisions
    ensures var s, o := Go(Initial, es), Owing(Initial, NothingOwed, es);
            var q, t := s.peers[i].decisions[id], Carried(s.peers[i], id);
            Fits(s, id, q, t) || (t != null && ((id, q) in s.startingVideo || (id, q) in o.video))
  {
    StartsRight();
    GoBut(Initial, NothingOwed, es);
    RightUnlessOwed(Go(Initial, es), Owing(Initial, NothingOwed, es), i, id);
  }

  lemma StartsRight()
    ensures InvBut(Initial, NothingOwed)
  {
    NothingOwedInv(Initial);
  }

  lemma RightUnlessOwed(s: State, o: Owed, i: nat, id: string)
    requires InvBut(s, o) && i < |s.peers| && id in s.peers[i].decisions
    ensures var q, t := s.peers[i].decisions[id], Carried(s.peers[i], id);
            Fits(s, id, q, t) || (t != null && ((id, q) in s.startingVideo || (id, q) in o.video))
  {
    var p := s.peers[i];
    ExcusedAt(s, o, (id, p.decisions[id]));
    assert PeerInv(p, Excused(s, o));
    assert VideoRight(Excused(s, o), id, p.decisions[id], Carried(p, id));
  }

  /** What does not speak of stored tracks holds in all such runs as it is: a finished attempt leaves every
      listed peer with the tracks that are not its own, */
  lemma SyncResultAnyway(es: seq<Event>)
    requires CanGo(Initial, es) && Go(Initial, es).sync == Visit(|Go(Initial, es).peers|)
    ensures AllInSync(Go(Initial, es))
  {
    StartsRight();
    GoBut(Initial, NothingOwed, es);
    InSyncAnyway(Go(Initial, es), Owing(Initial, NothingOwed, es));
  }

  lemma InSyncAnyway(s: State, o: Owed)
    requires InvBut(s, o) && s.sync == Visit(|s.peers|)
    ensures AllInSync(s)
  {
    var e := Excused(s, o);
    forall i | 0 <= i < |s.peers| ensures InSync(s.peers[i], s) {
      assert InSync(e.peers[i], e);
    }
  }

  /** each sender that carries a track carries a foreign one and is the one registered for its ID, */
  lemma NoDoublesAnyway(es: seq<Event>, i: nat, x: RTPSender)
    requires CanGo(Initial, es) && i < |Go(Initial, es).peers|
    requires x in Go(Initial, es).peers[i].senders && Go(Initial, es).peers[i].senders[x] != null
    ensures var p := Go(Initial, es).peers[i]; var id := p.senders[x].id;
            id !in OwnOf(p) && id in p.registered && p.registered[id] == x
  {
    StartsRight();
    GoBut(Initial, NothingOwed, es);
    var s, o := Go(Initial, es), Owing(Initial, NothingOwed, es);
    assert PeerInv(s.peers[i], Excused(s, o));
  }

  /** and a track that is to be added is never missing. */
  lemma NeverMissingAnyway(es: seq<Event>, id: string)
    requires CanGo(Initial, es) && Go(Initial, es).sync.Adding? && id in Go(Initial, es).sync.todo
    ensures NewTrack(Go(Initial, es), id) != null && NewTrack(Go(Initial, es), id).id == id
  {
    StartsRight();
    GoBut(Initial, NothingOwed, es);
    var e := Excused(Go(Initial, es), Owing(Initial, NothingOwed, es));
    assert id in ActiveIDs(e.peers[e.sync.i]) + e.sync.todo;
    TrackFound(e, id);
  }

  // ---- A completed callback repairs ----

  /** Nothing announces the track again, and no callback for it ends. */
  predicate LeavesAlone(e: Event, id: string, q: int) {
    match e
    case Join(_, _, _, video) => !Available(video, id, q)
    case Step(l) => l != UpdateQuality(id, q)
  }

  lemma StaysUpToDate(s: State, e: Event, id: string, q: int)
    requires Possible(s, e) && LeavesAlone(e, id, q) && UpToDate(s, id, q)
    ensures UpToDate(After(s, e), id, q)
  {
    if e.Join? {
      MergedAt(s.qualities, e.video, id, q);
    } else if !OnPeers(e.l) {
      TrackStaysUpToDate(s, e.l, id, q);
    } else {
      OnlyPeers(s, e.l);
    }
  }

  lemma TrackStaysUpToDate(s: State, l: Label, id: string, q: int)
    requires Enabled(s, l) && !l.Register? && !OnPeers(l) && l != UpdateQuality(id, q) && UpToDate(s, id, q)
    ensures UpToDate(Apply(s, l), id, q)
  {
  }

  lemma {:induction false} RemainsUpToDate(s: State, es: seq<Event>, id: string, q: int)
    requires CanGo(s, es) && (forall e | e in es :: LeavesAlone(e, id, q)) && UpToDate(s, id, q)
    ensures UpToDate(Go(s, es), id, q)
    decreases es
  {
    if es != [] {
      StaysUpToDate(s, es[0], id, q);
      RemainsUpToDate(After(s, es[0]), es[1..], id, q);
    }
  }

  predicate Receives(p: Peer, id: string, q: int) { id in p.decisions && p.decisions[id] == q }

  /** A callback stores its track, other things happen, and it updates the senders: then nothing is owed
      for that ID and quality, and every listed peer that has decided for it carries the stored track,
      whatever registrations came before. */
  lemma CallbackRepairs(s: State, o: Owed, l: Label, es: seq<Event>)
    requires InvBut(s, o) && Possible(s, Step(l)) && l.AddQuality? && CanGo(Apply(s, l), es)
    requires forall e | e in es :: LeavesAlone(e, l.t.id, l.q)
    requires Go(Apply(s, l), es).sync == Free
    ensures var before := Go(Apply(s, l), es); var end := UpdateQuality(l.t.id, l.q);
            && Possible(before, Step(end))
            && var s', o' := Apply(before, end), OwedAfter(before, Owing(Apply(s, l), o, es), Step(end));
            && InvBut(s', o') && (l.t.id, l.q) !in o'.video
            && forall i | 0 <= i < |s'.peers| && Receives(s'.peers[i], l.t.id, l.q) ::
                 Fits(s', l.t.id, l.q, Carried(s'.peers[i], l.t.id))
  {
    var s1, x := Apply(s, l), (l.t.id, l.q);
    EventBut(s, o, Step(l));
    GoBut(s1, o, es);
    RemainsUpToDate(s1, es, l.t.id, l.q);
    var before, owed := Go(s1, es), Owing(s1, o, es);
    var s' := Apply(before, UpdateQuality(l.t.id, l.q));
    var o' := OwedAfter(before, owed, Step(UpdateQuality(l.t.id, l.q)));
    EventBut(before, owed, Step(UpdateQuality(l.t.id, l.q)));
    ExcusedAt(s', o', x);
    forall i | 0 <= i < |s'.peers| && Receives(s'.peers[i], l.t.id, l.q)
      ensures Fits(s', l.t.id, l.q, Carried(s'.peers[i], l.t.id))
    {
      assert PeerInv(s'.peers[i], Excused(s', o'));
      assert VideoRight(Excused(s', o'), l.t.id, l.q, Carried(s'.peers[i], l.t.id));
    }
  }

  // ---- Likewise for audio ----

  predicate LeavesAudioAlone(e: Event, id: string) {
    match e
    case Join(_, _, audio, video) => audio.id != id && id !in video
    case Step(l) => l != UpdateAudio(id)
  }

  lemma AudioStaysUpToDate(s: State, e: Event, id: string)
    requires Possible(s, e) && LeavesAudioAlone(e, id) && AudioUpToDate(s, id) && IsAudio(id)
    requires forall x | x in s.startingVideo :: s.startingVideo[x].id == x.0 && !IsAudio(x.0)
    ensures AudioUpToDate(After(s, e), id)
  {
    if e.Join? {
      RegisteredAt(s, e.client, e.tiles, e.audio, e.video, id);
    } else if !OnPeers(e.l) {
      TrackKeepsAudio(s, e.l, id);
    } else {
      OnlyPeers(s, e.l);
    }
  }

  lemma TrackKeepsAudio(s: State, l: Label, id: string)
    requires Enabled(s, l) && !l.Register? && !OnPeers(l) && l != UpdateAudio(id) && AudioUpToDate(s, id) && IsAudio(id)
    requires forall x | x in s.startingVideo :: s.startingVideo[x].id == x.0 && !IsAudio(x.0)
    ensures AudioUpToDate(Apply(s, l), id)
  {
    if l.AddVideo? {
      assert (l.id, 0).0 == l.id;
    }
  }

  lemma {:induction false} AudioRemainsUpToDate(s: State, o: Owed, es: seq<Event>, id: string)
    requires InvBut(s, o) && CanGo(s, es) && (forall e | e in es :: LeavesAudioAlone(e, id))
    requires AudioUpToDate(s, id) && IsAudio(id)
    ensures AudioUpToDate(Go(s, es), id)
    decreases es
  {
    if es != [] {
      OwedAreStarting(s, o);
      AudioStaysUpToDate(s, es[0], id);
      EventBut(s, o, es[0]);
      AudioRemainsUpToDate(After(s, es[0]), OwedAfter(s, o, es[0]), es[1..], id);
    }
  }

  /** When an audio callback completes, every listed peer with a sender for it carries the stored track. */
  lemma AudioCallbackRepairs(s: State, o: Owed, l: Label, es: seq<Event>)
    requires InvBut(s, o) && Possible(s, Step(l)) && l.AddAudio? && CanGo(Apply(s, l), es)
    requires forall e | e in es :: LeavesAudioAlone(e, l.t.id)
    requires Go(Apply(s, l), es).sync == Free
    ensures var before := Go(Apply(s, l), es); var end := UpdateAudio(l.t.id);
            && Possible(before, Step(end))
            && var s', o' := Apply(before, end), OwedAfter(before, Owing(Apply(s, l), o, es), Step(end));
            && InvBut(s', o') && l.t.id !in o'.audio && l.t.id in s'.locals
            && forall i | 0 <= i < |s'.peers| && l.t.id in s'.peers[i].registered ::
                 Carried(s'.peers[i], l.t.id) == s'.locals[l.t.id]
  {
    var s1, id := Apply(s, l), l.t.id;
    IDsTell(l.client, 0);
    EventBut(s, o, Step(l));
    GoBut(s1, o, es);
    AudioRemainsUpToDate(s1, o, es, id);
    var before, owed := Go(s1, es), Owing(s1, o, es);
    var s', o' := Apply(before, UpdateAudio(id)), OwedAfter(before, owed, Step(UpdateAudio(id)));
    EventBut(before, owed, Step(UpdateAudio(id)));
    ExcusedAudioAt(s', o', id);
    forall i | 0 <= i < |s'.peers| && id in s'.peers[i].registered ensures Carried(s'.peers[i], id) == s'.locals[id] {
      assert PeerInv(s'.peers[i], Excused(s', o'));
      assert AudioRight(Excused(s', o'), id, Carried(s'.peers[i], id));
    }
  }
}
