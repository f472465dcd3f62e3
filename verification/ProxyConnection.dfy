/**
 The proxy connection of peer/proxy_connection.go as an object on the heap: the frames under
 construction, the finished frames and the frames handed to consumers each own their byte buffer.
 Every method refines one event of the state machine in Mailbox.
 */
module ProxyConnection {
  import opened Basics
  import opened Wire
  import R = Reassembly
  import M = Mailbox

  datatype RemoteTile = RemoteTile(frameNr: uint32, currentLen: uint32, fileLen: uint32, fileData: array<byte>)

  ghost function PartialOf(t: RemoteTile): R.Partial
    reads t.fileData
  {
    R.Partial(t.currentLen, t.fileLen, t.fileData[..])
  }

  type Pending = map<R.FrameId, RemoteTile>
  type Full = map<Stream, RemoteTile>
  type Tiles = map<VideoKey, map<uint32, RemoteTile>>
  type AudioFrames = map<uint32, RemoteTile>

  /** Who holds a buffer: an unfinished frame, the slot of a stream, or the consumer that took it. */
  datatype Owner = Unfinished(id: R.FrameId) | Slot(stream: Stream) | Taken

  /** Every buffer that was ever made, with its holder and its contents. */
  type Ledger = map<array<byte>, Account>

  datatype Account = Account(owner: Owner, bytes: seq<byte>)

  ghost function Buffers<K>(m: map<K, RemoteTile>): set<array<byte>> { set k | k in m :: m[k].fileData }

  ghost function TakenBuffers(ledger: Ledger): set<array<byte>> { set a | a in ledger && ledger[a].owner == Taken }

  /** The ledger tells the truth about the heap. */
  ghost predicate Mirrors(ledger: Ledger)
    reads ledger.Keys
  {
    forall a | a in ledger :: a[..] == ledger[a].bytes
  }

  /** Every frame has a buffer of its own, and its contents are those the state has for it. */
  ghost predicate Accounted(pending: Pending, full: Full, ledger: Ledger, state: M.State) {
    && state.frames.incomplete.Keys == pending.Keys
    && (forall id | id in pending :: var t := pending[id]; var v := state.frames.incomplete[id];
          t.fileData in ledger && ledger[t.fileData] == Account(Unfinished(id), v.fileData)
          && t.currentLen == v.currentLen && t.fileLen == v.fileLen)
    && state.slots.Keys == full.Keys
    && (forall s | s in full ::
        full[s].fileData in ledger && ledger[full[s].fileData] == Account(Slot(s), state.slots[s]))
  }

  /** So no two frames, finished or not, share a buffer, and none shares one with a consumer. */
  lemma BuffersDistinct(pending: Pending, full: Full, ledger: Ledger, state: M.State)
    requires Accounted(pending, full, ledger, state)
    ensures forall a, b | a in pending && b in pending && a != b :: pending[a].fileData != pending[b].fileData
    ensures forall a, b | a in full && b in full && a != b :: full[a].fileData != full[b].fileData
    ensures Buffers(pending) !! Buffers(full)
    ensures TakenBuffers(ledger) !! Buffers(pending) + Buffers(full)
  {
    forall x | x in Buffers(pending) ensures x in ledger && ledger[x].owner.Unfinished? {}
    forall x | x in Buffers(full) ensures x in ledger && ledger[x].owner.Slot? {}
  }

  /** A buffer gets a new holder, or is new; its contents are `bytes`. */
  lemma LedgerEntry(ledger: Ledger, a: array<byte>, owner: Owner, bytes: seq<byte>)
    requires Mirrors(ledger - {a}) && a[..] == bytes && owner != Taken
    requires a in ledger ==> ledger[a].owner != Taken
    ensures Mirrors(ledger[a := Account(owner, bytes)])
    ensures TakenBuffers(ledger[a := Account(owner, bytes)]) == TakenBuffers(ledger)
  {
  }

  lemma LedgerTaken(ledger: Ledger, a: array<byte>, bytes: seq<byte>)
    requires Mirrors(ledger) && a in ledger && ledger[a].bytes == bytes && ledger[a].owner != Taken
    ensures Mirrors(ledger[a := Account(Taken, bytes)])
    ensures TakenBuffers(ledger[a := Account(Taken, bytes)]) == TakenBuffers(ledger) + {a}
    ensures a !in TakenBuffers(ledger) && a[..] == bytes
  {
  }

  lemma AccountKept(pending: Pending, full: Full, ledger: Ledger, state: M.State, p: Packet, value: RemoteTile)
    requires Accounted(pending, full, ledger, state) && M.Enabled(state, M.Arrive(p))
    requires value.fileData in ledger ==> ledger[value.fileData].owner == Unfinished(R.IdOf(p))
    requires var v := R.Updated(state.frames.incomplete, p);
      value.currentLen == v.currentLen && value.fileLen == v.fileLen && v.currentLen != v.fileLen
    ensures var id := R.IdOf(p);
      Accounted(pending[id := value], full,
        ledger[value.fileData := Account(Unfinished(id), R.Updated(state.frames.incomplete, p).fileData)],
        M.Apply(state, M.Arrive(p)))
  {
    M.ArriveParts(state, p);
  }

  lemma AccountPublished(pending: Pending, full: Full, ledger: Ledger, state: M.State, p: Packet, value: RemoteTile)
    requires Accounted(pending, full, ledger, state) && M.Enabled(state, M.Arrive(p))
    requires value.fileData in ledger ==> ledger[value.fileData].owner == Unfinished(R.IdOf(p))
    requires var v := R.Updated(state.frames.incomplete, p);
      value.currentLen == v.currentLen && value.fileLen == v.fileLen && v.currentLen == v.fileLen
    ensures Accounted(pending - {R.IdOf(p)}, full[p.stream := value],
        ledger[value.fileData := Account(Slot(p.stream), R.Updated(state.frames.incomplete, p).fileData)],
        M.Apply(state, M.Arrive(p)))
  {
    M.ArriveParts(state, p);
  }

  /** `value` is the updated entry of the frame `p` belongs to, which the books do not know yet. */
  ghost predicate Unbooked(pending: Pending, full: Full, ledger: Ledger, state: M.State, p: Packet, value: RemoteTile)
    reads ledger.Keys, value.fileData
  {
    && Accounted(pending, full, ledger, state) && M.Enabled(state, M.Arrive(p))
    && Mirrors(ledger - {value.fileData})
    && (value.fileData in ledger ==> ledger[value.fileData].owner == Unfinished(R.IdOf(p)))
    && PartialOf(value) == R.Updated(state.frames.incomplete, p)
  }

  lemma EntryKept(pending: Pending, full: Full, ledger: Ledger, state: M.State, p: Packet, value: RemoteTile)
    requires Unbooked(pending, full, ledger, state, p, value) && value.currentLen != value.fileLen
    ensures var id, state' := R.IdOf(p), M.Apply(state, M.Arrive(p));
            var account := Account(Unfinished(id), R.Updated(state.frames.incomplete, p).fileData);
            var ledger' := ledger[value.fileData := account];
            && Accounted(pending[id := value], full, ledger', state')
            && Mirrors(ledger') && TakenBuffers(ledger') == TakenBuffers(ledger)
            && state'.conds == state.conds && state'.consumers == state.consumers && state'.crashed == state.crashed
  {
    M.ArriveParts(state, p);
    AccountKept(pending, full, ledger, state, p, value);
    LedgerEntry(ledger, value.fileData, Unfinished(R.IdOf(p)), R.Updated(state.frames.incomplete, p).fileData);
  }

  lemma EntryPublished(pending: Pending, full: Full, ledger: Ledger, state: M.State, p: Packet, value: RemoteTile)
    requires Unbooked(pending, full, ledger, state, p, value) && value.currentLen == value.fileLen
    ensures var s, state' := p.stream, M.Apply(state, M.Arrive(p));
            var ledger' := ledger[value.fileData := Account(Slot(s), R.Updated(state.frames.incomplete, p).fileData)];
            && Accounted(pending - {R.IdOf(p)}, full[s := value], ledger', state')
            && Mirrors(ledger') && TakenBuffers(ledger') == TakenBuffers(ledger)
            && state'.conds == state.conds && state'.consumers == M.Broadcast(state.consumers, s)
            && state'.crashed == state.crashed
  {
    M.ArriveParts(state, p);
    AccountPublished(pending, full, ledger, state, p, value);
    LedgerEntry(ledger, value.fileData, Slot(p.stream), R.Updated(state.frames.incomplete, p).fileData);
  }

  lemma AccountTaken(pending: Pending, full: Full, ledger: Ledger, state: M.State, c: nat)
    requires Accounted(pending, full, ledger, state)
    requires c < |state.consumers| && state.consumers[c].stream in full
    ensures var s := state.consumers[c].stream; var a := full[s].fileData;
      && a in ledger && ledger[a].owner == Slot(s)
      && Accounted(pending, full - {s}, ledger[a := Account(Taken, state.slots[s])], M.Take(state, c))
  {
  }

  // ---- The maps and slices of the source hold exactly the frames of `pending` and `full` ----

  predicate HasTile(tiles: Tiles, key: VideoKey, nr: uint32) { key in tiles && nr in tiles[key] }

  ghost predicate TiedTiles(pending: Pending, tiles: Tiles) {
    forall key, nr ::
      && (R.FrameId(Tile(key), nr) in pending <==> HasTile(tiles, key, nr))
      && (HasTile(tiles, key, nr) ==> tiles[key][nr] == pending[R.FrameId(Tile(key), nr)])
  }

  ghost predicate TiedAudio(pending: Pending, audio: AudioFrames) {
    forall nr ::
      && (R.FrameId(Audio, nr) in pending <==> nr in audio)
      && (nr in audio ==> audio[nr] == pending[R.FrameId(Audio, nr)])
  }

  /** A slot is a slice of length one for a tile and of length at most one for the audio. */
  ghost predicate TiedComplete(full: Full, tiles: map<VideoKey, seq<RemoteTile>>, audio: seq<RemoteTile>) {
    && (forall key ::
          && (Tile(key) in full <==> key in tiles)
          && (key in tiles ==> tiles[key] == [full[Tile(key)]]))
    && audio == if Audio in full then [full[Audio]] else []
  }

  lemma TilePublished(full: Full, tiles: map<VideoKey, seq<RemoteTile>>, audio: seq<RemoteTile>, key: VideoKey,
                      value: RemoteTile)
    requires TiedComplete(full, tiles, audio)
    ensures TiedComplete(full[Tile(key) := value], tiles[key := [value]], audio)
  {
  }

  lemma TileTaken(full: Full, tiles: map<VideoKey, seq<RemoteTile>>, audio: seq<RemoteTile>, key: VideoKey)
    requires TiedComplete(full, tiles, audio)
    ensures TiedComplete(full - {Tile(key)}, tiles - {key}, audio)
  {
  }

  lemma AudioPublished(full: Full, tiles: map<VideoKey, seq<RemoteTile>>, audio: seq<RemoteTile>, value: RemoteTile)
    requires TiedComplete(full, tiles, audio)
    ensures TiedComplete(full[Audio := value], tiles, [value])
  {
  }

  lemma AudioTaken(full: Full, tiles: map<VideoKey, seq<RemoteTile>>, audio: seq<RemoteTile>)
    requires TiedComplete(full, tiles, audio)
    ensures TiedComplete(full - {Audio}, tiles, [])
  {
  }

  lemma TilesEmptyEntry(pending: Pending, tiles: Tiles, key: VideoKey)
    requires TiedTiles(pending, tiles) && key !in tiles
    ensures TiedTiles(pending, tiles[key := map[]])
  {
    forall k, n ensures HasTile(tiles[key := map[]], k, n) <==> HasTile(tiles, k, n) {}
  }

  function WithTile(tiles: Tiles, key: VideoKey, nr: uint32, value: RemoteTile): Tiles
    requires key in tiles
  {
    var ofKey: map<uint32, RemoteTile> := tiles[key];
    tiles[key := ofKey[nr := value]]
  }

  function WithoutTile(tiles: Tiles, key: VideoKey, nr: uint32): Tiles
    requires key in tiles
  {
    tiles[key := tiles[key] - {nr}]
  }

  lemma TilesKept(pending: Pending, tiles: Tiles, key: VideoKey, nr: uint32, value: RemoteTile)
    requires TiedTiles(pending, tiles) && key in tiles
    ensures TiedTiles(pending[R.FrameId(Tile(key), nr) := value], WithTile(tiles, key, nr, value))
  {
    var tiles' := WithTile(tiles, key, nr, value);
    forall k, n ensures HasTile(tiles', k, n) <==> HasTile(tiles, k, n) || (k == key && n == nr) {}
  }

  lemma TilesPublished(pending: Pending, tiles: Tiles, key: VideoKey, nr: uint32)
    requires TiedTiles(pending, tiles) && key in tiles
    ensures TiedTiles(pending - {R.FrameId(Tile(key), nr)}, WithoutTile(tiles, key, nr))
  {
    var tiles' := WithoutTile(tiles, key, nr);
    forall k, n ensures HasTile(tiles', k, n) <==> HasTile(tiles, k, n) && !(k == key && n == nr) {}
  }

  lemma TilesUnconcerned(pending: Pending, tiles: Tiles, nr: uint32, value: RemoteTile)
    requires TiedTiles(pending, tiles)
    ensures TiedTiles(pending[R.FrameId(Audio, nr) := value], tiles)
    ensures TiedTiles(pending - {R.FrameId(Audio, nr)}, tiles)
  {
  }

  lemma AudioChanged(pending: Pending, audio: AudioFrames, nr: uint32, value: RemoteTile)
    requires TiedAudio(pending, audio)
    ensures TiedAudio(pending[R.FrameId(Audio, nr) := value], audio[nr := value])
    ensures TiedAudio(pending - {R.FrameId(Audio, nr)}, audio - {nr})
  {
  }

  lemma AudioUnconcerned(pending: Pending, audio: AudioFrames, key: VideoKey, nr: uint32, value: RemoteTile)
    requires TiedAudio(pending, audio)
    ensures TiedAudio(pending[R.FrameId(Tile(key), nr) := value], audio)
    ensures TiedAudio(pending - {R.FrameId(Tile(key), nr)}, audio)
  {
  }

  /** Finds or makes the entry of the frame, copies the bytes and counts them. */
  method Fill(entry: Option<RemoteTile>, ghost v: R.Partial, h: FrameHeader, buffer: array<byte>, from: nat)
    returns (value: RemoteTile)
    requires from + h.seqLen <= buffer.Length && h.seqOffset + h.seqLen <= |v.fileData|
    requires match entry case None => v == R.Partial(0, h.frameLen, Zeros(h.frameLen))
                         case Some(e) => v == PartialOf(e) && e.fileData != buffer
    modifies if entry.Some? then {entry.value.fileData} else {}
    ensures PartialOf(value) == R.Extend(v, h.seqOffset, old(buffer[from..from + h.seqLen]))
    ensures if entry.Some? then value.fileData == entry.value.fileData else fresh(value.fileData)
  {
    match entry {
      case Some(e) => value := e;
      case None =>
        var fileData := new byte[h.frameLen](_ => 0);
        value := RemoteTile(h.frameNr, 0, h.frameLen, fileData);
    }
    assert value.fileData[..] == v.fileData;
    CopyInto(value.fileData, h.seqOffset, buffer[..], from, h.seqLen);
    assert buffer[..][from..from + h.seqLen] == buffer[from..from + h.seqLen];
    Copied(v.fileData, h.seqOffset, buffer[from..from + h.seqLen], value.fileData[..]);
    value := value.(currentLen := R.Add32(value.currentLen, h.seqLen));
  }

  lemma Copied(base: seq<byte>, at: nat, data: seq<byte>, after: seq<byte>)
    requires at + |data| <= |base| == |after|
    requires after[..at + |data|] == base[..at] + data && after[at + |data|..] == base[at + |data|..]
    ensures after == R.Overwrite(base, at, data)
  {
    forall i | 0 <= i < |base| ensures after[i] == R.Overwrite(base, at, data)[i] {
      if i < at + |data| {
        assert after[i] == after[..at + |data|][i];
      } else {
        assert after[i] == after[at + |data|..][i - at - |data|];
      }
    }
  }

  class ProxyConnection {
    var incompleteTiles: Tiles
    var completeTiles: map<VideoKey, seq<RemoteTile>>
    var incompleteAudioFrames: AudioFrames
    var completeAudioFrames: seq<RemoteTile>
    var conds: set<Stream>            // the streams with a condition variable
    var consumers: seq<M.Consumer>    // the goroutines inside NextTile and NextAudioFrame

    // the unfinished and the finished frames of all streams together, the buffers, and the state
    // of the machine that all these fields stand for
    ghost var pending: Pending
    ghost var full: Full
    ghost var ledger: Ledger
    ghost var state: M.State

    ghost predicate UnfinishedTied()
      reads this`pending, this`incompleteTiles, this`incompleteAudioFrames
    {
      TiedTiles(pending, incompleteTiles) && TiedAudio(pending, incompleteAudioFrames)
    }

    ghost predicate SlotsTied()
      reads this`full, this`completeTiles, this`completeAudioFrames
    {
      TiedComplete(full, completeTiles, completeAudioFrames)
    }

    ghost predicate Tied()
      reads this`pending, this`incompleteTiles, this`incompleteAudioFrames,
            this`full, this`completeTiles, this`completeAudioFrames, this`state, this`conds, this`consumers
    {
      UnfinishedTied() && SlotsTied() && InStep()
    }

    ghost predicate Valid()
      reads this, ledger.Keys
    {
      Tied() && Accounted(pending, full, ledger, state) && Mirrors(ledger)
    }

    constructor (streams: seq<Stream>)
      ensures Valid() && state == M.Start({}, streams) && TakenBuffers(ledger) == {}
    {
      incompleteTiles, completeTiles, incompleteAudioFrames, completeAudioFrames := map[], map[], map[], [];
      conds := {};
      consumers := seq(|streams|, i requires 0 <= i < |streams| => M.Consumer(streams[i], M.Running));
      pending, full, ledger := map[], map[], map[];
      state := M.Start({}, streams);
    }

    /** A stream of one of the tiles and qualities. */
    predicate Within(s: Stream, nTiles: nat, nQualities: nat) {
      s.Tile? && s.key.tileNr < nTiles && s.key.quality < nQualities
    }

    /** The condition variables `StartListening` makes before it starts to read. */
    method MakeConditions(nTiles: nat, nQualities: nat)
      requires Valid() && nTiles <= UINT32_LIMIT && nQualities <= UINT32_LIMIT
      modifies this`conds, this`state
      ensures Valid() && state == old(state).(conds := conds)
      ensures forall t: uint32, q: uint32 | t < nTiles && q < nQualities :: Tile(VideoKey(t, q)) in conds
      ensures Audio in conds && old(conds) <= conds
      ensures forall s | s in conds && s !in old(conds) && s != Audio :: Within(s, nTiles, nQualities)
    {
      var all := conds;
      for t := 0 to nTiles
        invariant conds <= all
        invariant forall s | s in all && s !in conds :: Within(s, nTiles, nQualities)
        invariant forall i: uint32, q: uint32 | i < t && q < nQualities :: Tile(VideoKey(i, q)) in all
      {
        for q := 0 to nQualities
          invariant conds <= all
          invariant forall s | s in all && s !in conds :: Within(s, nTiles, nQualities)
          invariant forall i: uint32, j: uint32 | i < t && j < nQualities :: Tile(VideoKey(i, j)) in all
          invariant forall j: uint32 | j < q :: Tile(VideoKey(t, j)) in all
        {
          all := all + {Tile(VideoKey(t, q))};
        }
      }
      conds := all + {Audio};
      state := state.(conds := conds);
    }

    ghost predicate Accepts(p: Packet, buffer: array<byte>, from: nat)
      reads this, ledger.Keys, buffer
    {
      && Valid() && buffer !in ledger && M.Enabled(state, M.Arrive(p))
      && from + p.header.seqLen <= buffer.Length && p.data == buffer[from..from + p.header.seqLen]
    }

    /** What the tile and the audio branch have in common: the entry is filled in its own buffer. */
    method FillEntry(entry: Option<RemoteTile>, ghost p: Packet, h: FrameHeader, buffer: array<byte>, from: nat)
      returns (value: RemoteTile)
      requires Accepts(p, buffer, from) && h == p.header
      requires entry == if R.IdOf(p) in pending then Some(pending[R.IdOf(p)]) else None
      modifies if entry.Some? then {entry.value.fileData} else {}
      ensures Unbooked(pending, full, ledger, state, p, value)
    {
      value := Fill(entry, R.Entry(state.frames.incomplete, p), h, buffer, from);
    }

    /** The state agrees with the fields that are not about frames. */
    ghost predicate InStep()
      reads this`state, this`conds, this`consumers
    {
      state.conds == conds && state.consumers == consumers && !state.crashed
    }

    ghost method Keep(p: Packet, value: RemoteTile)
      requires Unbooked(pending, full, ledger, state, p, value) && InStep() && value.currentLen != value.fileLen
      modifies this`pending, this`ledger, this`state
      ensures Accounted(pending, full, ledger, state) && Mirrors(ledger)
      ensures TakenBuffers(ledger) == old(TakenBuffers(ledger))
      ensures pending == old(pending)[R.IdOf(p) := value] && state == M.Apply(old(state), M.Arrive(p)) && InStep()
    {
      EntryKept(pending, full, ledger, state, p, value);
      pending := pending[R.IdOf(p) := value];
      var account := Account(Unfinished(R.IdOf(p)), R.Updated(state.frames.incomplete, p).fileData);
      ledger := ledger[value.fileData := account];
      state := M.Apply(state, M.Arrive(p));
    }

    /** The frame becomes the one in the slot of its stream, and the consumers waiting for it wake. */
    method Publish(ghost p: Packet, s: Stream, value: RemoteTile)
      requires Unbooked(pending, full, ledger, state, p, value) && InStep() && s == p.stream
      requires value.currentLen == value.fileLen
      modifies this`pending, this`full, this`ledger, this`state, this`consumers
      ensures Accounted(pending, full, ledger, state) && Mirrors(ledger)
      ensures TakenBuffers(ledger) == old(TakenBuffers(ledger))
      ensures pending == old(pending) - {R.IdOf(p)} && full == old(full)[s := value]
      ensures state == M.Apply(old(state), M.Arrive(p)) && InStep()
    {
      EntryPublished(pending, full, ledger, state, p, value);
      pending := pending - {R.IdOf(p)};
      full := full[s := value];
      ledger := ledger[value.fileData := Account(Slot(s), R.Updated(state.frames.incomplete, p).fileData)];
      state := M.Apply(state, M.Arrive(p));
      consumers := M.Broadcast(consumers, s);
    }

    method ReceiveTile(ghost p: Packet, key: VideoKey, h: FrameHeader, buffer: array<byte>)
      requires Accepts(p, buffer, TYPE_HEADER_SIZE + VIDEO_HEADER_SIZE) && p.stream == Tile(key) && h == p.header
      modifies this, Buffers(pending)
      ensures Valid() && state == M.Apply(old(state), M.Arrive(p)) && TakenBuffers(ledger) == old(TakenBuffers(ledger))
    {
      if key !in incompleteTiles {
        TilesEmptyEntry(pending, incompleteTiles, key);
        incompleteTiles := incompleteTiles[key := map[]];
      }
      assert HasTile(incompleteTiles, key, h.frameNr) <==> R.FrameId(Tile(key), h.frameNr) in pending;
      var entry := if h.frameNr in incompleteTiles[key] then Some(incompleteTiles[key][h.frameNr]) else None;
      var value := FillEntry(entry, p, h, buffer, TYPE_HEADER_SIZE + VIDEO_HEADER_SIZE);
      if value.currentLen == value.fileLen {
        PublishTile(p, key, h.frameNr, value);
      } else {
        KeepTile(p, key, h.frameNr, value);
      }
    }

    method KeepTile(ghost p: Packet, key: VideoKey, nr: uint32, value: RemoteTile)
      requires Unbooked(pending, full, ledger, state, p, value) && Tied() && value.currentLen != value.fileLen
      requires R.IdOf(p) == R.FrameId(Tile(key), nr) && key in incompleteTiles
      modifies this`incompleteTiles, this`pending, this`ledger, this`state
      ensures Valid() && state == M.Apply(old(state), M.Arrive(p)) && TakenBuffers(ledger) == old(TakenBuffers(ledger))
    {
      TilesKept(pending, incompleteTiles, key, nr, value);
      AudioUnconcerned(pending, incompleteAudioFrames, key, nr, value);
      incompleteTiles := WithTile(incompleteTiles, key, nr, value);
      Keep(p, value);
    }

    method PublishTile(ghost p: Packet, key: VideoKey, nr: uint32, value: RemoteTile)
      requires Unbooked(pending, full, ledger, state, p, value) && Tied() && value.currentLen == value.fileLen
      requires R.IdOf(p) == R.FrameId(Tile(key), nr) && key in incompleteTiles
      modifies this`incompleteTiles, this`completeTiles, this`consumers
      modifies this`pending, this`full, this`ledger, this`state
      ensures Valid() && state == M.Apply(old(state), M.Arrive(p)) && TakenBuffers(ledger) == old(TakenBuffers(ledger))
    {
      MoveTile(R.IdOf(p), key, nr, value);
      Publish(p, Tile(key), value);
    }

    method MoveTile(ghost id: R.FrameId, key: VideoKey, nr: uint32, value: RemoteTile)
      requires TiedTiles(pending, incompleteTiles) && TiedAudio(pending, incompleteAudioFrames)
      requires TiedComplete(full, completeTiles, completeAudioFrames)
      requires id == R.FrameId(Tile(key), nr) && key in incompleteTiles
      modifies this`incompleteTiles, this`completeTiles
      ensures TiedTiles(pending - {id}, incompleteTiles) && TiedAudio(pending - {id}, incompleteAudioFrames)
      ensures TiedComplete(full[id.stream := value], completeTiles, completeAudioFrames)
    {
      TilesPublished(pending, incompleteTiles, key, nr);
      AudioUnconcerned(pending, incompleteAudioFrames, key, nr, value);
      TilePublished(full, completeTiles, completeAudioFrames, key, value);
      completeTiles := completeTiles[key := [value]];
      incompleteTiles := WithoutTile(incompleteTiles, key, nr);
    }

    method ReceiveAudio(ghost p: Packet, h: FrameHeader, buffer: array<byte>)
      requires Accepts(p, buffer, TYPE_HEADER_SIZE + AUDIO_HEADER_SIZE) && p.stream == Audio && h == p.header
      modifies this, Buffers(pending)
      ensures Valid() && state == M.Apply(old(state), M.Arrive(p)) && TakenBuffers(ledger) == old(TakenBuffers(ledger))
    {
      var entry := if h.frameNr in incompleteAudioFrames then Some(incompleteAudioFrames[h.frameNr]) else None;
      var value := FillEntry(entry, p, h, buffer, TYPE_HEADER_SIZE + AUDIO_HEADER_SIZE);
      if value.currentLen == value.fileLen {
        PublishAudio(p, h.frameNr, value);
      } else {
        KeepAudio(p, h.frameNr, value);
      }
    }

    method KeepAudio(ghost p: Packet, nr: uint32, value: RemoteTile)
      requires Unbooked(pending, full, ledger, state, p, value) && Tied() && value.currentLen != value.fileLen
      requires R.IdOf(p) == R.FrameId(Audio, nr)
      modifies this`incompleteAudioFrames, this`pending, this`ledger, this`state
      ensures Valid() && state == M.Apply(old(state), M.Arrive(p)) && TakenBuffers(ledger) == old(TakenBuffers(ledger))
    {
      TilesUnconcerned(pending, incompleteTiles, nr, value);
      AudioChanged(pending, incompleteAudioFrames, nr, value);
      incompleteAudioFrames := incompleteAudioFrames[nr := value];
      Keep(p, value);
    }

    method PublishAudio(ghost p: Packet, nr: uint32, value: RemoteTile)
      requires Unbooked(pending, full, ledger, state, p, value) && Tied() && value.currentLen == value.fileLen
      requires R.IdOf(p) == R.FrameId(Audio, nr)
      modifies this`incompleteAudioFrames, this`completeAudioFrames, this`consumers
      modifies this`pending, this`full, this`ledger, this`state
      ensures Valid() && state == M.Apply(old(state), M.Arrive(p)) && TakenBuffers(ledger) == old(TakenBuffers(ledger))
    {
      MoveAudio(R.IdOf(p), nr, value);
      assert Unbooked(pending, full, ledger, state, p, value) && p.stream == Audio;
      Publish(p, Audio, value);
    }

    method MoveAudio(ghost id: R.FrameId, nr: uint32, value: RemoteTile)
      requires TiedTiles(pending, incompleteTiles) && TiedAudio(pending, incompleteAudioFrames)
      requires TiedComplete(full, completeTiles, completeAudioFrames) && id == R.FrameId(Audio, nr)
      modifies this`incompleteAudioFrames, this`completeAudioFrames
      ensures TiedTiles(pending - {id}, incompleteTiles) && TiedAudio(pending - {id}, incompleteAudioFrames)
      ensures TiedComplete(full[Audio := value], completeTiles, completeAudioFrames)
    {
      TilesUnconcerned(pending, incompleteTiles, nr, value);
      AudioChanged(pending, incompleteAudioFrames, nr, value);
      AudioPublished(full, completeTiles, completeAudioFrames, value);
      if |completeAudioFrames| == 0 {
        completeAudioFrames := completeAudioFrames + [value];
      } else {
        completeAudioFrames := completeAudioFrames[0 := value];
      }
      incompleteAudioFrames := incompleteAudioFrames - {nr};
    }

    /** One round of the listening loop, from the datagram in `buffer` on. No packet, not even a
        duplicate, changes a frame that is finished or has been handed out. */
    method ReceivePacket(buffer: array<byte>)
      requires Valid() && buffer.Length == 1500 && buffer !in ledger
      requires match Parse(buffer[..])
        case Fragment(p) => M.Enabled(state, M.Arrive(p))
        case Malformed => false
        case Other => true
      modifies this, Buffers(pending)
      ensures Valid() && TakenBuffers(ledger) == old(TakenBuffers(ledger))
      ensures state == match Parse(old(buffer[..]))
        case Fragment(p) => M.Apply(old(state), M.Arrive(p))
        case _ => old(state)
      ensures forall a | a in old(Buffers(full)) + old(TakenBuffers(ledger)) :: a[..] == old(a[..])
    {
      BuffersDistinct(pending, full, ledger, state);
      var b := buffer[..];
      var ptype := Read32(b, 0);
      ghost var parsed := Parse(b);
      if ptype == TILE_PACKET_TYPE {
        ReceiveTile(parsed.packet, VideoKey(Read32(b, 24), Read32(b, 28)), ParseHeader(b), buffer);
      } else if ptype == AUDIO_PACKET_TYPE {
        ReceiveAudio(parsed.packet, ParseHeader(b), buffer);
      }
    }

    /** One section of `NextTile` under the mutex: consumer `c` takes the frame, or parks. */
    method NextTile(c: nat, tile: uint32, quality: uint32) returns (data: Option<array<byte>>)
      requires Valid() && M.Enabled(state, M.Next(c)) && M.Safe(state, c)
      requires consumers[c].stream == Tile(VideoKey(tile, quality))
      modifies this`completeTiles, this`consumers, this`full, this`ledger, this`state
      ensures Valid() && state == M.Apply(old(state), M.Next(c))
      ensures data.None? <==> consumers[c].status == M.Parked
      ensures HandedOver(data)
      ensures var key, slots := VideoKey(tile, quality), old(completeTiles);
              if key in slots
              then |slots[key]| > 0 && data == Some(slots[key][0].fileData) && completeTiles == slots - {key}
              else data == None && completeTiles == slots
    {
      var key := VideoKey(tile, quality);
      if consumers[c].status == M.Running && !(key in completeTiles && |completeTiles[key]| > 0) {
        state := M.Apply(state, M.Next(c));
        consumers := consumers[c := M.Consumer(Tile(key), M.Parked)];
        return None;
      }
      var fileData := TakeTile(c, key);
      data := Some(fileData);
    }

    method TakeTile(c: nat, key: VideoKey) returns (fileData: array<byte>)
      requires Valid() && c < |consumers| && consumers[c].stream == Tile(key) && Tile(key) in full
      modifies this`completeTiles, this`consumers, this`full, this`ledger, this`state
      ensures Valid() && state == M.Take(old(state), c)
      ensures HandedOver(Some(fileData))
      ensures key in old(completeTiles) && |old(completeTiles)[key]| > 0
      ensures fileData == old(completeTiles)[key][0].fileData && completeTiles == old(completeTiles) - {key}
    {
      fileData := EmptyTileSlot(key);
      HandOut(c, Tile(key), fileData);
    }

    method EmptyTileSlot(key: VideoKey) returns (fileData: array<byte>)
      requires TiedComplete(full, completeTiles, completeAudioFrames) && Tile(key) in full
      modifies this`completeTiles
      ensures fileData == full[Tile(key)].fileData
      ensures key in old(completeTiles) && |old(completeTiles)[key]| > 0
      ensures fileData == old(completeTiles)[key][0].fileData && completeTiles == old(completeTiles) - {key}
      ensures TiedComplete(full - {Tile(key)}, completeTiles, completeAudioFrames)
    {
      fileData := completeTiles[key][0].fileData;
      TileTaken(full, completeTiles, completeAudioFrames, key);
      completeTiles := completeTiles - {key};
    }

    /** One section of `NextAudioFrame` under the mutex. */
    method NextAudioFrame(c: nat) returns (data: Option<array<byte>>)
      requires Valid() && M.Enabled(state, M.Next(c)) && M.Safe(state, c) && consumers[c].stream == Audio
      modifies this`completeAudioFrames, this`consumers, this`full, this`ledger, this`state
      ensures Valid() && state == M.Apply(old(state), M.Next(c))
      ensures data.None? <==> consumers[c].status == M.Parked
      ensures HandedOver(data)
      ensures data == if old(completeAudioFrames) == [] then None else Some(old(completeAudioFrames)[0].fileData)
      ensures completeAudioFrames == []
    {
      if consumers[c].status == M.Running && |completeAudioFrames| == 0 {
        state := M.Apply(state, M.Next(c));
        consumers := consumers[c := M.Consumer(Audio, M.Parked)];
        return None;
      }
      var fileData := TakeAudio(c);
      data := Some(fileData);
    }

    method TakeAudio(c: nat) returns (fileData: array<byte>)
      requires Valid() && c < |consumers| && consumers[c].stream == Audio && Audio in full
      modifies this`completeAudioFrames, this`consumers, this`full, this`ledger, this`state
      ensures Valid() && state == M.Take(old(state), c)
      ensures HandedOver(Some(fileData))
      ensures old(completeAudioFrames) != [] && fileData == old(completeAudioFrames)[0].fileData
      ensures completeAudioFrames == []
    {
      fileData := EmptyAudioSlot();
      HandOut(c, Audio, fileData);
    }

    method EmptyAudioSlot() returns (fileData: array<byte>)
      requires TiedComplete(full, completeTiles, completeAudioFrames) && Audio in full
      modifies this`completeAudioFrames
      ensures fileData == full[Audio].fileData && TiedComplete(full - {Audio}, completeTiles, completeAudioFrames)
      ensures old(completeAudioFrames) != [] && fileData == old(completeAudioFrames)[0].fileData
      ensures completeAudioFrames == []
    {
      fileData := completeAudioFrames[0].fileData;
      AudioTaken(full, completeTiles, completeAudioFrames);
      completeAudioFrames := completeAudioFrames[..0];
    }

    /** A buffer that is handed out holds the frame of the last delivery, and nobody had it before. */
    twostate predicate HandedOver(new data: Option<array<byte>>)
      reads this, if data.Some? then {data.value} else {}
    {
      match data
      case None => TakenBuffers(ledger) == old(TakenBuffers(ledger)) && state.delivered == old(state.delivered)
      case Some(a) =>
        && TakenBuffers(ledger) == old(TakenBuffers(ledger)) + {a} && a !in old(TakenBuffers(ledger))
        && |state.delivered| == |old(state.delivered)| + 1 && a[..] == state.delivered[|state.delivered| - 1].data
    }

    method HandOut(c: nat, s: Stream, fileData: array<byte>)
      requires Accounted(pending, full, ledger, state) && Mirrors(ledger) && InStep() && UnfinishedTied()
      requires c < |state.consumers| && state.consumers[c].stream == s && s in full && fileData == full[s].fileData
      modifies this`full, this`ledger, this`state, this`consumers
      ensures Accounted(pending, full, ledger, state) && Mirrors(ledger) && InStep() && UnfinishedTied()
      ensures full == old(full) - {s} && state == M.Take(old(state), c)
      ensures HandedOver(Some(fileData))
    {
      WriteOff(c, s, fileData);
      consumers := consumers[c := M.Consumer(s, M.Running)];
    }

    /** The buffer in the slot becomes one that is handed out. */
    ghost method WriteOff(c: nat, s: Stream, fileData: array<byte>)
      requires Accounted(pending, full, ledger, state) && Mirrors(ledger)
      requires c < |state.consumers| && state.consumers[c].stream == s && s in full && fileData == full[s].fileData
      modifies this`full, this`ledger, this`state
      ensures Accounted(pending, full, ledger, state) && Mirrors(ledger)
      ensures full == old(full) - {s} && state == M.Take(old(state), c)
      ensures TakenBuffers(ledger) == old(TakenBuffers(ledger)) + {fileData} && fileData !in old(TakenBuffers(ledger))
      ensures fileData[..] == old(state).slots[s]
    {
      AccountTaken(pending, full, ledger, state, c);
      LedgerTaken(ledger, fileData, state.slots[s]);
      ledger := ledger[fileData := Account(Taken, state.slots[s])];
      state := M.Take(state, c);
      full := full - {s};
    }
  }
}
