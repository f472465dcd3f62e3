/**
 The IDs of tracks: `audio_<client>`, `video_<client>_<tile>`, and for the tracks a client sends
 `video_<client>_<tile>_<quality>`.
 */
module TrackID {
  import opened Basics
  import opened Text

  function AudioID(client: int): string { "audio_" + Itoa(client) }

  function VideoID(client: int, tile: int): string { "video_" + Itoa(client) + "_" + Itoa(tile) }

  function SentVideoID(client: int, tile: int, quality: int): string { VideoID(client, tile) + "_" + Itoa(quality) }

  /** The test by which the SFU tells audio from video. */
  predicate IsAudio(id: string) { Split(id, '_')[0] == "audio" }

  /** The client a track ID names. */
  function ClientOf(id: string): int {
    var v := Split(id, '_');
    if |v| < 2 then 0 else match ParseInt(v[1]) case Some(n) => n case None => 0
  }

  /** The ID under which the SFU keeps a track that a client sends; None where the code panics. */
  function BaseID(id: string): Option<string> {
    var v := Split(id, '_');
    if v[0] != "video" then Some(id)
    else if |v| < 3 then None
    else match (Atoi(v[1]), Atoi(v[2]))
      case (Some(client), Some(tile)) => Some(VideoID(client, tile))
      case _ => None
  }

  /** What OnTrack reads from the ID of a video track that a client sends: the ID to keep it under, and
      its quality. None where the code panics. */
  function SentParts(id: string): Option<(string, int)> {
    var v := Split(id, '_');
    if |v| < 4 then None
    else match (Atoi(v[1]), Atoi(v[2]), Atoi(v[3]))
      case (Some(client), Some(tile), Some(quality)) => Some((VideoID(client, tile), quality))
      case _ => None
  }

  function BaseIDs(receivers: seq<string>): set<string> {
    set r | r in receivers && BaseID(r).Some? :: BaseID(r).value
  }

  lemma PartsOfAudio(client: int)
    ensures Split(AudioID(client), '_') == ["audio", Itoa(client)]
  {
    assert AudioID(client) == "audio" + ['_'] + Itoa(client);
    SplitFirst("audio", '_', Itoa(client));
    ItoaPlain(client, '_');
    SplitNone(Itoa(client), '_');
  }

  lemma PartsOfVideo(client: int, tile: int)
    ensures Split(VideoID(client, tile), '_') == ["video", Itoa(client), Itoa(tile)]
  {
    assert VideoID(client, tile) == "video" + ['_'] + (Itoa(client) + ['_'] + Itoa(tile));
    SplitFirst("video", '_', Itoa(client) + ['_'] + Itoa(tile));
    ItoaPlain(client, '_');
    SplitFirst(Itoa(client), '_', Itoa(tile));
    ItoaPlain(tile, '_');
    SplitNone(Itoa(tile), '_');
  }

  lemma PartsOfSentVideo(client: int, tile: int, quality: int)
    ensures Split(SentVideoID(client, tile, quality), '_') == ["video", Itoa(client), Itoa(tile), Itoa(quality)]
  {
    var c, t, q := Itoa(client), Itoa(tile), Itoa(quality);
    assert SentVideoID(client, tile, quality) == "video" + ['_'] + (c + ['_'] + (t + ['_'] + q));
    SplitFirst("video", '_', c + ['_'] + (t + ['_'] + q));
    ItoaPlain(client, '_');
    SplitFirst(c, '_', t + ['_'] + q);
    ItoaPlain(tile, '_');
    SplitFirst(t, '_', q);
    ItoaPlain(quality, '_');
    SplitNone(q, '_');
  }

  predicate InInt64(n: int) { -INT64_LIMIT <= n < INT64_LIMIT }

  /** What a client sends is kept under the ID of its tile, whatever the quality. */
  lemma BaseOfSent(client: int, tile: int, quality: int)
    requires InInt64(client) && InInt64(tile)
    ensures BaseID(SentVideoID(client, tile, quality)) == Some(VideoID(client, tile))
    ensures BaseID(AudioID(client)) == Some(AudioID(client))
  {
    PartsOfSentVideo(client, tile, quality);
    PartsOfAudio(client);
    ParseItoa(client);
    ParseItoa(tile);
  }

  lemma PartsOfSent(client: int, tile: int, quality: int)
    requires InInt64(client) && InInt64(tile) && InInt64(quality)
    ensures SentParts(SentVideoID(client, tile, quality)) == Some((VideoID(client, tile), quality))
  {
    PartsOfSentVideo(client, tile, quality);
    ParseItoa(client);
    ParseItoa(tile);
    ParseItoa(quality);
  }

  /** The IDs tell their client, and audio from video. */
  lemma IDsTell(client: int, tile: int)
    ensures IsAudio(AudioID(client)) && ClientOf(AudioID(client)) == client
    ensures !IsAudio(VideoID(client, tile)) && ClientOf(VideoID(client, tile)) == client
  {
    PartsOfAudio(client);
    PartsOfVideo(client, tile);
    ParseItoa(client);
  }

  /** Formatting is injective. */
  lemma VideoIDInjective(c1: int, t1: int, c2: int, t2: int)
    requires VideoID(c1, t1) == VideoID(c2, t2)
    ensures c1 == c2 && t1 == t2
  {
    PartsOfVideo(c1, t1);
    PartsOfVideo(c2, t2);
    ParseItoa(c1);
    ParseItoa(c2);
    ParseItoa(t1);
    ParseItoa(t2);
  }

  /** The IDs a client declares when it registers. */
  function OwnVideo(client: int, tiles: int): set<string> { set t: int | 0 <= t < tiles :: VideoID(client, t) }

  function Own(client: int, tiles: int): set<string> { {AudioID(client)} + OwnVideo(client, tiles) }

  lemma OwnTells(client: int, tiles: int)
    ensures forall id | id in Own(client, tiles) :: ClientOf(id) == client
    ensures forall id | id in OwnVideo(client, tiles) :: !IsAudio(id)
    ensures forall id | id in Own(client, tiles) && !IsAudio(id) :: id in OwnVideo(client, tiles)
  {
    forall id | id in Own(client, tiles)
      ensures ClientOf(id) == client
      ensures id in OwnVideo(client, tiles) ==> !IsAudio(id)
      ensures !IsAudio(id) ==> id in OwnVideo(client, tiles)
    {
      if id == AudioID(client) {
        IDsTell(client, 0);
      }
      if id in OwnVideo(client, tiles) {
        var t: int :| 0 <= t < tiles && id == VideoID(client, t);
        IDsTell(client, t);
      }
    }
  }

  lemma OneMoreTile(client: int, tiles: nat)
    ensures OwnVideo(client, tiles + 1) == OwnVideo(client, tiles) + {VideoID(client, tiles)}
    ensures Own(client, tiles + 1) == Own(client, tiles) + {VideoID(client, tiles)}
  {
    assert VideoID(client, tiles) in OwnVideo(client, tiles + 1);
    forall id | id in OwnVideo(client, tiles + 1) ensures id in OwnVideo(client, tiles) + {VideoID(client, tiles)} {
      var t: int :| 0 <= t < tiles + 1 && id == VideoID(client, t);
      assert t < tiles ==> VideoID(client, t) in OwnVideo(client, tiles);
    }
    forall id | id in OwnVideo(client, tiles) ensures id in OwnVideo(client, tiles + 1) {
      var t: int :| 0 <= t < tiles && id == VideoID(client, t);
      assert VideoID(client, t) in OwnVideo(client, tiles + 1);
    }
  }
}
