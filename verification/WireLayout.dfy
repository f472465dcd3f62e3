/**
 The layout of packets and datagrams byte by byte, as the programs on the other side read and write it.
 */
module WireLayout {
  import opened Wire

  /** A little-endian word of four bytes. */
  function Word(b: seq<byte>, at: nat): int
    requires at + 4 <= |b|
  {
    (b[at] as int) + 256 * (b[at + 1] as int) + 65536 * (b[at + 2] as int) + 16777216 * (b[at + 3] as int)
  }

  predicate WordAt(b: seq<byte>, at: nat, v: int) {
    && at + 4 <= |b| && b[at] == v % 256 && b[at + 1] == v / 256 % 256
    && b[at + 2] == v / 65536 % 256 && b[at + 3] == v / 16777216
  }

  lemma WordIsRead(b: seq<byte>, at: nat)
    requires at + 4 <= |b|
    ensures Read32(b, at) == Word(b, at)
  {
  }

  /** The type word comes first: 1 for a fragment of a tile, 2 for a fragment of audio. */
  lemma TypeWord(b: seq<byte>)
    requires |b| >= 4
    ensures Word(b, 0) == 1 <==> b[0] == 1 && b[1] == 0 && b[2] == 0 && b[3] == 0
    ensures Word(b, 0) == 2 <==> b[0] == 2 && b[1] == 0 && b[2] == 0 && b[3] == 0
  {
  }

  lemma HeaderIsRead(b: seq<byte>)
    requires |b| >= 24
    ensures ParseHeader(b) == FrameHeader(clientNr := Word(b, 4), frameNr := Word(b, 8), frameLen := Word(b, 12),
                                          seqOffset := Word(b, 16), seqLen := Word(b, 20))
  {
    WordIsRead(b, 4);
    WordIsRead(b, 8);
    WordIsRead(b, 12);
    WordIsRead(b, 16);
    WordIsRead(b, 20);
  }

  /** A datagram that begins with 1, 0, 0, 0: a fragment of a tile, with the tile's number at 24, the quality
      at 28 and the payload from 32 on. */
  lemma TileLayout(b: seq<byte>)
    requires |b| >= 32 && b[0] == 1 && b[1] == 0 && b[2] == 0 && b[3] == 0
    ensures Parse(b) ==
            if 32 + Word(b, 20) <= |b|
            then Fragment(Packet(Tile(VideoKey(tileNr := Word(b, 24), quality := Word(b, 28))),
                                 FrameHeader(clientNr := Word(b, 4), frameNr := Word(b, 8), frameLen := Word(b, 12),
                                             seqOffset := Word(b, 16), seqLen := Word(b, 20)),
                                 b[32..32 + Word(b, 20)]))
            else Malformed
  {
    TypeWord(b);
    WordIsRead(b, 0);
    HeaderIsRead(b);
    WordIsRead(b, 24);
    WordIsRead(b, 28);
  }

  /** One that begins with 2, 0, 0, 0: a fragment of audio, with the payload from 24 on. */
  lemma AudioLayout(b: seq<byte>)
    requires |b| >= 32 && b[0] == 2 && b[1] == 0 && b[2] == 0 && b[3] == 0
    ensures Parse(b) ==
            if 24 + Word(b, 20) <= |b|
            then Fragment(Packet(Audio,
                                 FrameHeader(clientNr := Word(b, 4), frameNr := Word(b, 8), frameLen := Word(b, 12),
                                             seqOffset := Word(b, 16), seqLen := Word(b, 20)),
                                 b[24..24 + Word(b, 20)]))
            else Malformed
  {
    TypeWord(b);
    WordIsRead(b, 0);
    HeaderIsRead(b);
  }

  /** Any other datagram is no fragment. */
  lemma OtherLayout(b: seq<byte>)
    requires |b| >= 32 && !(1 <= b[0] <= 2 && b[1] == 0 && b[2] == 0 && b[3] == 0)
    ensures Parse(b) == Other
  {
    TypeWord(b);
    WordIsRead(b, 0);
  }

  // ---- What is written ----

  lemma WordIsWritten(b: seq<byte>, at: nat, v: uint32)
    requires at + 4 <= |b| && b[at..at + 4] == LE32(v)
    ensures WordAt(b, at, v)
  {
    var w := b[at..at + 4];
    assert w[0] == b[at] && w[1] == b[at + 1] && w[2] == b[at + 2] && w[3] == b[at + 3];
    assert b[at] == LE32(v)[0] && b[at + 1] == LE32(v)[1] && b[at + 2] == LE32(v)[2] && b[at + 3] == LE32(v)[3];
  }

  lemma CommonLayout(h: FrameHeader, rest: seq<byte>)
    ensures var b := CommonBytes(h) + rest;
            && WordAt(b, 0, h.clientNr) && WordAt(b, 4, h.frameNr) && WordAt(b, 8, h.frameLen)
            && WordAt(b, 12, h.seqOffset) && WordAt(b, 16, h.seqLen)
  {
    var b := CommonBytes(h) + rest;
    assert b[0..4] == LE32(h.clientNr) && b[4..8] == LE32(h.frameNr) && b[8..12] == LE32(h.frameLen);
    assert b[12..16] == LE32(h.seqOffset) && b[16..20] == LE32(h.seqLen);
    WordIsWritten(b, 0, h.clientNr);
    WordIsWritten(b, 4, h.frameNr);
    WordIsWritten(b, 8, h.frameLen);
    WordIsWritten(b, 12, h.seqOffset);
    WordIsWritten(b, 16, h.seqLen);
  }

  /** A fragment as a payloader writes it: five words, for a tile two more, and the bytes of the frame. */
  lemma EncodeLayout(p: Packet)
    ensures var b := Encode(p);
            && WordAt(b, 0, p.header.clientNr) && WordAt(b, 4, p.header.frameNr) && WordAt(b, 8, p.header.frameLen)
            && WordAt(b, 12, p.header.seqOffset) && WordAt(b, 16, p.header.seqLen)
            && (p.stream.Audio? ==> |b| == 20 + |p.data| && b[20..] == p.data)
            && (p.stream.Tile? ==>
                  && WordAt(b, 20, p.stream.key.tileNr) && WordAt(b, 24, p.stream.key.quality)
                  && |b| == 28 + |p.data| && b[28..] == p.data)
  {
    var b := Encode(p);
    match p.stream {
      case Audio =>
        CommonLayout(p.header, p.data);
      case Tile(key) =>
        var rest := LE32(key.tileNr) + LE32(key.quality) + p.data;
        assert b == CommonBytes(p.header) + rest;
        CommonLayout(p.header, rest);
        assert b[20..24] == LE32(key.tileNr) && b[24..28] == LE32(key.quality);
        WordIsWritten(b, 20, key.tileNr);
        WordIsWritten(b, 24, key.quality);
    }
  }

  /** A datagram as it is sent: 1300 bytes, the type word, the bytes from the offset on as far as there are
      any and they fit, and zeros. */
  lemma DatagramLayout(b: seq<byte>, offset: nat, packetType: uint32)
    requires offset <= |b|
    ensures var d := ProxyBuffer(b, offset, packetType);
            && |d| == 1300 && WordAt(d, 0, packetType)
            && forall k | 4 <= k < 1300 :: d[k] == if offset + k - 4 < |b| then b[offset + k - 4] else 0
  {
    var d := ProxyBuffer(b, offset, packetType);
    assert d[0..4] == LE32(packetType);
    WordIsWritten(d, 0, packetType);
  }

  method SendTilePacket(b: seq<byte>, offset: nat) returns (buffProxy: array<byte>)
    requires offset <= |b|
    ensures fresh(buffProxy) && buffProxy.Length == 1300
    ensures buffProxy[0] == 1 && buffProxy[1] == 0 && buffProxy[2] == 0 && buffProxy[3] == 0
    ensures forall k | 4 <= k < 1300 :: buffProxy[k] == if offset + k - 4 < |b| then b[offset + k - 4] else 0
  {
    buffProxy := SendPacket(b, offset, TILE_PACKET_TYPE);
    DatagramLayout(b, offset, TILE_PACKET_TYPE);
  }

  method SendAudioPacket(b: seq<byte>, offset: nat) returns (buffProxy: array<byte>)
    requires offset <= |b|
    ensures fresh(buffProxy) && buffProxy.Length == 1300
    ensures buffProxy[0] == 2 && buffProxy[1] == 0 && buffProxy[2] == 0 && buffProxy[3] == 0
    ensures forall k | 4 <= k < 1300 :: buffProxy[k] == if offset + k - 4 < |b| then b[offset + k - 4] else 0
  {
    buffProxy := SendPacket(b, offset, AUDIO_PACKET_TYPE);
    DatagramLayout(b, offset, AUDIO_PACKET_TYPE);
  }
}
