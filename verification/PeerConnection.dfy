/** The state the SFU keeps for one connection, updated in place. */
module PeerConnections {
  import opened Text
  import opened TrackID
  import opened Registry
  import opened RegistryInvariant

  // ---- The loops of a visit, on values ----

  /** The IDs of the tracks that the senders `seen` carry. */
  function IDsOf(p: Peer, seen: set<RTPSender>): set<string> {
    set x | x in seen && x in p.senders && p.senders[x] != null :: p.senders[x].id
  }

  /** Those of them whose tracks are gone. */
  function GoneOf(p: Peer, locals: map<string, TrackLocal>, seen: set<RTPSender>): set<RTPSender> {
    set x | x in seen && x in p.senders && p.senders[x] != null && p.senders[x].id !in locals
  }

  lemma SeenIDs(p: Peer, seen: set<RTPSender>, x: RTPSender)
    requires x in p.senders
    ensures IDsOf(p, seen + {x}) == IDsOf(p, seen) + (if p.senders[x] == null then {} else {p.senders[x].id})
  {
    forall id | id in IDsOf(p, seen + {x})
      ensures id in IDsOf(p, seen) || (p.senders[x] != null && id == p.senders[x].id)
    {
      var y :| y in seen + {x} && y in p.senders && p.senders[y] != null && p.senders[y].id == id;
      assert y in seen || y == x;
    }
  }

  lemma SeenGone(p: Peer, locals: map<string, TrackLocal>, seen: set<RTPSender>, x: RTPSender)
    requires x in p.senders
    ensures GoneOf(p, locals, seen + {x}) ==
            GoneOf(p, locals, seen) + (if p.senders[x] != null && p.senders[x].id !in locals then {x} else {})
  {
  }

  lemma MinusOneMore(m: map<string, RTPSender>, ids: set<string>, id: string)
    ensures m - ids - {id} == m - (ids + {id})
  {
  }

  lemma SeenOneMore(p: Peer, locals: map<string, TrackLocal>, seen: set<RTPSender>, x: RTPSender)
    requires x in p.senders
    ensures var gone, gone' := GoneOf(p, locals, seen), GoneOf(p, locals, seen + {x});
            var t := p.senders[x];
            && IDsOf(p, seen + {x}) == (if t == null then IDsOf(p, seen) else IDsOf(p, seen) + {t.id})
            && if t != null && t.id !in locals then
                 && gone' == gone + {x}
                 && p.registered - IDsOf(p, gone') == p.registered - IDsOf(p, gone) - {t.id}
               else gone' == gone
  {
    SeenIDs(p, seen, x);
    SeenGone(p, locals, seen, x);
    SeenIDs(p, GoneOf(p, locals, seen), x);
    if p.senders[x] != null {
      MinusOneMore(p.registered, IDsOf(p, GoneOf(p, locals, seen)), p.senders[x].id);
    }
  }

  /** When all senders have been seen, the peer is clean. */
  lemma AllSeen(p: Peer, locals: map<string, TrackLocal>)
    ensures var gone := GoneOf(p, locals, p.senders.Keys);
            && Clean(p, locals).senders.Keys == p.senders.Keys - gone
            && Clean(p, locals).registered == p.registered - IDsOf(p, gone)
    ensures IDsOf(p, p.senders.Keys) == ActiveIDs(p)
  {
    var gone := GoneOf(p, locals, p.senders.Keys);
    forall id | id in ActiveIDs(p) - locals.Keys ensures id in IDsOf(p, gone) {
      var x :| x in p.senders && p.senders[x] != null && p.senders[x].id == id;
      assert x in gone;
    }
    assert IDsOf(p, gone) == ActiveIDs(p) - locals.Keys;
  }

  /** What the first loop leaves, for a peer whose senders are wired. */
  lemma CleanParts(p: Peer, locals: map<string, TrackLocal>)
    requires Wired(p) && VideoStays(p, locals)
    ensures var gone, p' := GoneOf(p, locals, p.senders.Keys), Clean(p, locals);
            && p'.senders.Keys == p.senders.Keys - gone
            && (forall x | x in p'.senders :: p'.senders[x] == p.senders[x])
            && p'.registered == p.registered - IDsOf(p, gone)
            && p'.registered.Values <= p'.senders.Keys
    ensures IDsOf(p, p.senders.Keys) == ActiveIDs(p)
  {
    AllSeen(p, locals);
    CleanWired(p, locals);
  }

  lemma SamePeer(p': Peer, p: Peer, locals: map<string, TrackLocal>)
    requires p' == p.(senders := p'.senders, registered := p'.registered)
    requires p'.senders == Clean(p, locals).senders && p'.registered == Clean(p, locals).registered
    ensures p' == Clean(p, locals)
  {
  }

  lemma OneMoreReceiver(receivers: seq<string>, r: string)
    requires BaseID(r).Some?
    ensures BaseIDs(receivers + [r]) == BaseIDs(receivers) + {BaseID(r).value}
  {
    assert r in receivers + [r];
    forall id | id in BaseIDs(receivers) ensures id in BaseIDs(receivers + [r]) {
      var x :| x in receivers && BaseID(x).Some? && BaseID(x).value == id;
      assert x in receivers + [r];
    }
  }

  class PeerConnection {
    const clientID: int
    const numberOfTiles: int
    var closed: bool
    var receivers: seq<string>
    var senders: set<RTPSender>
    var trackRTPSenders: map<string, RTPSender>
    var qualityDecisions: map<string, int>

    ghost function View(): Peer
      reads this, senders
    {
      Peer(clientID, numberOfTiles, closed, receivers, map x | x in senders ::
        x.track, trackRTPSenders, qualityDecisions)
    }

    /** The registered senders are senders of the connection. */
    ghost predicate Valid()
      reads this
    {
      trackRTPSenders.Values <= senders
    }

    constructor (clientID: int, numberOfTiles: int)
      ensures Valid() && View() == NewPeer(clientID, numberOfTiles) && senders == {} && this.clientID == clientID
    {
      this.clientID, this.numberOfTiles := clientID, numberOfTiles;
      closed, receivers, senders, trackRTPSenders, qualityDecisions := false, [], {}, map[], map[];
    }

    method Close()
      requires Valid()
      modifies this`closed
      ensures Valid() && View() == old(View()).(closed := true)
    {
      closed := true;
    }

    method StartReceiver(id: string)
      requires Valid()
      modifies this`receivers
      ensures Valid() && View() == old(View()).(receivers := old(receivers) + [id])
    {
      receivers := receivers + [id];
    }

    /** Pion's AddTrack makes a new sender. */
    method AddTrack(t: TrackLocal) returns (sender: RTPSender)
      requires Valid()
      modifies this`senders
      ensures Valid() && fresh(sender) && senders == old(senders) + {sender}
      ensures View() == old(View()).(senders := old(View()).senders[sender := t])
    {
      sender := new RTPSender(t);
      senders := senders + {sender};
      assert View().senders == old(View()).senders[sender := t];
    }

    /** addNewTrackForPeer, on the maps it reads under its locks. */
    method AddNewTrack(trackLocals: map<string, TrackLocal>, trackQualities: Tracks, trackID: string)
      returns (sender: RTPSender)
      requires Valid() && TrackFor(trackLocals, trackQualities, trackID) != null
      modifies this`senders, this`trackRTPSenders, this`qualityDecisions
      ensures Valid() && fresh(sender) && senders == old(senders) + {sender}
      ensures View() == AddSender(old(View()), trackID, sender, TrackFor(trackLocals, trackQualities, trackID))
    {
      var v := Split(trackID, '_');
      if v[0] == "audio" {
        var trackLocal := trackLocals[trackID];
        sender := AddTrack(trackLocal);
        trackRTPSenders := trackRTPSenders[trackID := sender];
      } else {
        var trackLocal := trackQualities[trackID][0];
        sender := AddTrack(trackLocal);
        trackRTPSenders := trackRTPSenders[trackID := sender];
        qualityDecisions := qualityDecisions[trackID := 0];
      }
    }

    /** Pion's RemoveTrack takes the sender off the connection. */
    method RemoveTrack(sender: RTPSender)
      modifies this`senders
      ensures senders == old(senders) - {sender}
    {
      senders := senders - {sender};
    }

    /** The first loop of a visit: senders of tracks that are gone are removed, and the IDs of all tracks
        that were being sent are collected. */
    method RemoveGone(trackLocals: map<string, TrackLocal>) returns (existingSenders: set<string>)
      requires Valid() && Wired(View()) && VideoStays(View(), trackLocals)
      modifies this`senders, this`trackRTPSenders
      ensures Valid() && View() == Clean(old(View()), trackLocals) && senders <= old(senders)
      ensures existingSenders == ActiveIDs(old(View()))
    {
      ghost var before := View();
      assert before.senders.Keys == senders;
      existingSenders := RemoveEach(trackLocals, senders, before);
      CleanParts(before, trackLocals);
      assert trackRTPSenders == Clean(before, trackLocals).registered;
      ghost var after := View();
      assert after.senders == Clean(before, trackLocals).senders;
      SamePeer(after, before, trackLocals);
    }

    method RemoveEach(trackLocals: map<string, TrackLocal>, all: set<RTPSender>, ghost before: Peer)
      returns (existingSenders: set<string>)
      requires all == senders && before == View()
      modifies this`senders, this`trackRTPSenders
      ensures existingSenders == IDsOf(before, all)
      ensures senders == all - GoneOf(before, trackLocals, all)
      ensures trackRTPSenders == before.registered - IDsOf(before, GoneOf(before, trackLocals, all))
    {
      existingSenders := {};
      var rest := all;
      ghost var seen: set<RTPSender> := {};
      while rest != {}
        invariant rest !! seen && rest + seen == all
        invariant senders == all - GoneOf(before, trackLocals, seen)
        invariant trackRTPSenders == before.registered - IDsOf(before, GoneOf(before, trackLocals, seen))
        invariant existingSenders == IDsOf(before, seen)
        decreases rest
      {
        var sender :| sender in rest;
        SeenOneMore(before, trackLocals, seen, sender);
        if sender.track != null {
          existingSenders := existingSenders + {sender.track.id};
          if sender.track.id !in trackLocals {
            trackRTPSenders := trackRTPSenders - {sender.track.id};
            RemoveTrack(sender);
          }
        }
        rest, seen := rest - {sender}, seen + {sender};
      }
      assert seen == all;
    }

    /** The second half of a visit: what the peer sends itself counts as existing. */
    method CollectOwn() returns (ids: set<string>)
      requires forall r | r in receivers :: BaseID(r).Some?
      ensures ids == ReceiverIDs(View()) + OwnOf(View())
    {
      ids := {};
      for k := 0 to |receivers|
        invariant ids == BaseIDs(receivers[..k])
      {
        var trackID := BaseID(receivers[k]).value;
        OneMoreReceiver(receivers[..k], receivers[k]);
        assert receivers[..k + 1] == receivers[..k] + [receivers[k]];
        ids := ids + {trackID};
      }
      assert receivers[..] == receivers;
      ids := ids + {AudioID(clientID)};
      var j := 0;
      while j < numberOfTiles
        invariant 0 <= j && (j <= numberOfTiles || j == 0)
        invariant ids == ReceiverIDs(View()) + Own(clientID, j)
      {
        OneMoreTile(clientID, j);
        ids := ids + {VideoID(clientID, j)};
        j := j + 1;
      }
    }

    /** The part of updateClientTrackState for one connection. */
    method UpdateTrack(t: TrackLocal)
      requires Valid()
      modifies senders
      ensures Valid() && View() == Replace(old(View()), t.id, t)
    {
      if t.id in trackRTPSenders {
        var rtpSender := trackRTPSenders[t.id];
        rtpSender.ReplaceTrack(t);
      }
      assert View().senders == Replace(old(View()), t.id, t).senders;
    }

    /** The part of updateClientTrackStateQuality for one connection. */
    method UpdateTrackQuality(t: TrackLocal, quality: int)
      requires Valid()
      modifies senders
      ensures Valid() && View() == ReplaceAt(old(View()), t.id, quality, t)
    {
      if t.id in trackRTPSenders {
        var rtpSender := trackRTPSenders[t.id];
        if t.id in qualityDecisions {
          var q := qualityDecisions[t.id];
          if q == quality {
            rtpSender.ReplaceTrack(t);
          }
        }
      }
      assert View().senders == ReplaceAt(old(View()), t.id, quality, t).senders;
    }

    /** The part of setTrackQuality after its locks are taken. */
    method SetTrackQuality(trackQualities: Tracks, trackID: string, wanted: int)
      requires Valid()
      modifies senders, this`qualityDecisions
      ensures Valid() && View() == Decide(old(View()), trackQualities, trackID, wanted)
    {
      var quality := wanted;
      if trackID in qualityDecisions {
        var oldQuality := qualityDecisions[trackID];
        if oldQuality != quality {
          if trackID in trackRTPSenders {
            var rtpSender := trackRTPSenders[trackID];
            if quality < 0 {
              rtpSender.ReplaceTrack(null);
            } else {
              if trackID in trackQualities && quality in trackQualities[trackID] {
                rtpSender.ReplaceTrack(trackQualities[trackID][quality]);
              } else {
                quality := oldQuality;
              }
            }
          }
          qualityDecisions := qualityDecisions[trackID := quality];
        }
      }
      assert View().senders == Decide(old(View()), trackQualities, trackID, wanted).senders;
    }
  }
}
