/** What registering a client does to the maps: one track after the other. */
module Registration {
  import opened TrackID
  import opened Registry

  /** A track that is announced, for an ID at a quality. */
  datatype Item = Item(id: string, q: int, t: TrackLocal)

  function StoreAll(qualities: Tracks, items: seq<Item>): Tracks
    decreases |items|
  {
    if items == [] then qualities
    else var last := items[|items| - 1]; Store(StoreAll(qualities, items[..|items| - 1]), last.id, last.q, last.t)
  }

  /** Only quality 0 goes to `trackLocals`. */
  function PutAll(locals: map<string, TrackLocal>, items: seq<Item>): map<string, TrackLocal>
    decreases |items|
  {
    if items == [] then locals
    else
      var last, before := items[|items| - 1], PutAll(locals, items[..|items| - 1]);
      if last.q == 0 then before[last.t.id := last.t] else before
  }

  function IDs(items: seq<Item>): set<string> { set x | x in items :: x.id }

  function Made(items: seq<Item>): set<TrackLocal> { set x | x in items :: x.t }

  /** Tracks under their own IDs, of quality 0 first. */
  ghost predicate Sound(items: seq<Item>)
    decreases |items|
  {
    items == [] ||
    var last, before := items[|items| - 1], items[..|items| - 1];
    Sound(before) && last.t.id == last.id && last.q >= 0 && (last.q > 0 ==> last.id in IDs(before))
  }

  lemma {:induction false} OneMore(qualities: Tracks, locals: map<string, TrackLocal>, items: seq<Item>, x: Item)
    ensures StoreAll(qualities, items + [x]) == Store(StoreAll(qualities, items), x.id, x.q, x.t)
    ensures PutAll(locals, items + [x]) ==
            if x.q == 0 then PutAll(locals, items)[x.t.id := x.t] else PutAll(locals, items)
    ensures IDs(items + [x]) == IDs(items) + {x.id}
    ensures Sound(items + [x]) <==> Sound(items) && x.t.id == x.id && x.q >= 0 && (x.q > 0 ==> x.id in IDs(items))
  {
    assert (items + [x])[..|items|] == items;
  }

  // ---- What they add up to ----

  ghost predicate Announced(video: Tracks) {
    && (forall id | id in video :: 0 in video[id])
    && (forall id, q | Available(video, id, q) :: q >= 0 && video[id][q].id == id)
  }

  lemma {:induction false} AnnouncedAll(items: seq<Item>)
    requires Sound(items)
    ensures Announced(StoreAll(map[], items)) && StoreAll(map[], items).Keys == IDs(items)
    decreases |items|
  {
    if items != [] {
      var last, before := items[|items| - 1], items[..|items| - 1];
      assert items == before + [last];
      OneMore(map[], map[], before, last);
      AnnouncedAll(before);
    }
  }

  /** The tracks stored are those of the items. */
  lemma {:induction false} TracksOf(items: seq<Item>, id: string, q: int)
    requires Available(StoreAll(map[], items), id, q)
    ensures StoreAll(map[], items)[id][q] in Made(items)
    decreases |items|
  {
    var last, before := items[|items| - 1], items[..|items| - 1];
    if id != last.id || q != last.q {
      TracksOf(before, id, q);
    } else {
      assert last in items && last.t == StoreAll(map[], items)[id][q];
    }
  }

  lemma {:induction false} AllMerged(qualities: Tracks, items: seq<Item>)
    ensures StoreAll(qualities, items) == Merge(qualities, StoreAll(map[], items))
    decreases |items|
  {
    if items != [] {
      var last, before := items[|items| - 1], items[..|items| - 1];
      AllMerged(qualities, before);
      StoreMerged(qualities, StoreAll(map[], before), last.id, last.q, last.t);
    }
  }

  lemma PutZeros(locals: map<string, TrackLocal>, zeros: map<string, TrackLocal>, id: string, t: TrackLocal)
    ensures (locals + zeros)[id := t] == locals + zeros[id := t]
  {
  }

  lemma {:induction false} AllZeros(locals: map<string, TrackLocal>, items: seq<Item>)
    requires Sound(items)
    ensures PutAll(locals, items) == locals + Zeros(StoreAll(map[], items))
    decreases |items|
  {
    if items != [] {
      var last, before := items[|items| - 1], items[..|items| - 1];
      AllZeros(locals, before);
      AnnouncedAll(before);
      StoreZeros(StoreAll(map[], before), last.id, last.q, last.t);
      PutZeros(locals, Zeros(StoreAll(map[], before)), last.id, last.t);
    }
  }

  lemma NewTile(client: int, tiles: nat)
    ensures VideoID(client, tiles) !in OwnVideo(client, tiles)
  {
    if VideoID(client, tiles) in OwnVideo(client, tiles) {
      var t: int :| 0 <= t < tiles && VideoID(client, tiles) == VideoID(client, t);
      VideoIDInjective(client, tiles, client, t);
    }
  }

  /** The IDs announced for the first tiles, each at some number of qualities. */
  function AnnouncedIDs(client: int, tiles: int, qualities: int): set<string> {
    if qualities > 0 then OwnVideo(client, tiles) else {}
  }

  lemma MoreIDs(client: int, tiles: nat, qualities: int)
    ensures VideoID(client, tiles) !in AnnouncedIDs(client, tiles, qualities)
    ensures AnnouncedIDs(client, tiles + 1, qualities) ==
            AnnouncedIDs(client, tiles, qualities) + (if qualities > 0 then {VideoID(client, tiles)} else {})
  {
    NewTile(client, tiles);
    OneMoreTile(client, tiles);
  }

  lemma StoreZeros(video: Tracks, id: string, q: int, t: TrackLocal)
    requires q != 0 ==> id in video && 0 in video[id]
    ensures Zeros(Store(video, id, q, t)) == if q == 0 then Zeros(video)[id := t] else Zeros(video)
  {
  }

  lemma StoreMerged(qualities: Tracks, video: Tracks, id: string, q: int, t: TrackLocal)
    ensures Merge(qualities, Store(video, id, q, t)) == Store(Merge(qualities, video), id, q, t)
  {
    StoreMergedAt(qualities, video, id, q, t);
    var a, b := Merge(qualities, Store(video, id, q, t)), Store(Merge(qualities, video), id, q, t);
    assert a.Keys == b.Keys;
    assert forall x | x in a && x != id :: a[x] == b[x];
  }

  lemma StoreMergedAt(qualities: Tracks, video: Tracks, id: string, q: int, t: TrackLocal)
    ensures Merge(qualities, Store(video, id, q, t))[id] == Store(Merge(qualities, video), id, q, t)[id]
  {
    if id in video && id in qualities {
      assert qualities[id] + video[id][q := t] == (qualities[id] + video[id])[q := t];
    } else if id in qualities {
      assert qualities[id] + map[q := t] == qualities[id][q := t];
    }
  }

  // ---- Which tracks are announced ----

  function Pairs(items: seq<Item>): set<(string, int)> { set x | x in items :: (x.id, x.q) }

  predicate DistinctTracks(items: seq<Item>) { forall a, b | 0 <= a < b < |items| :: items[a].t != items[b].t }

  function QualityPairs(id: string, qualities: int): set<(string, int)> { set q: int | 0 <= q < qualities :: (id, q) }

  function TilePairs(client: int, tiles: int, qualities: int): set<(string, int)> {
    set t: int, q: int | 0 <= t < tiles && 0 <= q < qualities :: (VideoID(client, t), q)
  }

  /** The ID names one of the first tiles of the client. */
  ghost predicate NamesTile(id: string, client: int, tiles: int) {
    exists t: int :: 0 <= t < tiles && id == VideoID(client, t)
  }

  /** Exactly the declared tiles have a track at exactly the announced qualities, each one of its own. */
  ghost predicate OneTrackEach(video: Tracks, client: int, tiles: int, qualities: int) {
    && (forall id, q :: Available(video, id, q) <==> 0 <= q < qualities && NamesTile(id, client, tiles))
    && (forall id, q, id', q' |
          Available(video, id, q) && Available(video, id', q') && video[id][q] == video[id'][q'] ::
          id == id' && q == q')
  }

  lemma OneMorePair(items: seq<Item>, x: Item)
    ensures Pairs(items + [x]) == Pairs(items) + {(x.id, x.q)}
    ensures DistinctTracks(items) && (forall y | y in items :: y.t != x.t) ==> DistinctTracks(items + [x])
  {
  }

  lemma MoreQualityPairs(id: string, qualities: nat)
    ensures QualityPairs(id, qualities + 1) == QualityPairs(id, qualities) + {(id, qualities)}
  {
  }

  lemma MorePairs(client: int, tiles: nat, qualities: int)
    ensures TilePairs(client, tiles + 1, qualities) ==
            TilePairs(client, tiles, qualities) + QualityPairs(VideoID(client, tiles), qualities)
  {
  }

  lemma {:induction false} StoredPairs(items: seq<Item>, id: string, q: int)
    ensures Available(StoreAll(map[], items), id, q) <==> (id, q) in Pairs(items)
    ensures Available(StoreAll(map[], items), id, q) ==>
              exists k ::
                0 <= k < |items| && items[k].id == id && items[k].q == q && items[k].t == StoreAll(map[], items)[id][q]
    decreases |items|
  {
    if items != [] {
      var last, before := items[|items| - 1], items[..|items| - 1];
      assert items == before + [last];
      OneMorePair(before, last);
      StoredPairs(before, id, q);
    }
  }

  lemma PairsSpelled(client: int, tiles: int, qualities: int, id: string, q: int)
    ensures (id, q) in TilePairs(client, tiles, qualities) <==> 0 <= q < qualities && NamesTile(id, client, tiles)
  {
  }

  lemma OwnTrack(items: seq<Item>, id: string, q: int, id': string, q': int)
    requires DistinctTracks(items) && Available(StoreAll(map[], items), id, q)
    requires Available(StoreAll(map[], items), id', q')
    requires StoreAll(map[], items)[id][q] == StoreAll(map[], items)[id'][q']
    ensures id == id' && q == q'
  {
    StoredPairs(items, id, q);
    StoredPairs(items, id', q');
  }

  lemma AllTracksEach(items: seq<Item>, client: int, tiles: int, qualities: int)
    requires Pairs(items) == TilePairs(client, tiles, qualities) && DistinctTracks(items)
    ensures OneTrackEach(StoreAll(map[], items), client, tiles, qualities)
  {
    var video := StoreAll(map[], items);
    forall id, q ensures Available(video, id, q) <==> 0 <= q < qualities && NamesTile(id, client, tiles) {
      StoredPairs(items, id, q);
      PairsSpelled(client, tiles, qualities, id, q);
    }
    forall id, q, id', q' | Available(video, id, q) && Available(video, id', q') && video[id][q] == video[id'][q']
      ensures id == id' && q == q'
    {
      OwnTrack(items, id, q, id', q');
    }
  }
}
