/**
 The packet layout shared by the payloaders of peer/packet.go and the proxy of
 peer/proxy_connection.go: 32-bit little-endian header fields followed by a piece of a frame.
 */
module Wire {

  type byte = b: int | 0 <= b < 0x100

  const UINT32_LIMIT := 0x1_0000_0000

  type uint32 = v: int | 0 <= v < UINT32_LIMIT

  const TYPE_HEADER_SIZE := 4
  const WEBRTC_HEADER_SIZE := 20
  const WEBRTC_PAYLOAD_SIZE := 1172
  const VIDEO_HEADER_SIZE := 28
  const VIDEO_PAYLOAD_SIZE := WEBRTC_PAYLOAD_SIZE - VIDEO_HEADER_SIZE
  const AUDIO_HEADER_SIZE := 20
  const AUDIO_PAYLOAD_SIZE := WEBRTC_PAYLOAD_SIZE - AUDIO_HEADER_SIZE
  const BUFFER_LENGTH := 1220
  const BUFFER_PROXY_LENGTH := 1300
  const TILE_PACKET_TYPE: uint32 := 1
  const AUDIO_PACKET_TYPE: uint32 := 2

  datatype VideoKey = VideoKey(tileNr: uint32, quality: uint32)

  /** What a frame belongs to: one quality of one tile, or the audio of the client. */
  datatype Stream = Tile(key: VideoKey) | Audio

  datatype FrameHeader = FrameHeader(
    clientNr: uint32, frameNr: uint32, frameLen: uint32, seqOffset: uint32, seqLen: uint32)

  /** One fragment of a frame, once its bytes have been parsed. */
  datatype Packet = Packet(stream: Stream, header: FrameHeader, data: seq<byte>)

  /** `Malformed` is a fragment whose announced length runs past the buffer: slicing it panics.
      `Other` is any other type word; such a datagram does not touch the frames. */
  datatype Parsed = Fragment(packet: Packet) | Malformed | Other

  function Min(a: int, b: int): int { if a <= b then a else b }

  function Zeros(n: nat): seq<byte> { seq(n, _ => 0) }

  function HeaderSize(s: Stream): nat { if s.Audio? then AUDIO_HEADER_SIZE else VIDEO_HEADER_SIZE }

  function PayloadSize(s: Stream): nat { if s.Audio? then AUDIO_PAYLOAD_SIZE else VIDEO_PAYLOAD_SIZE }

  function PacketType(s: Stream): uint32 { if s.Audio? then AUDIO_PACKET_TYPE else TILE_PACKET_TYPE }

  // ---- 32-bit little-endian words ----

  function LE32(v: uint32): (bytes: seq<byte>)
    ensures |bytes| == 4
  {
    [v % 0x100, v / 0x100 % 0x100, v / 0x1_0000 % 0x100, v / 0x100_0000]
  }

  function Read32(b: seq<byte>, at: nat): uint32
    requires at + 4 <= |b|
  {
    (b[at] as int) + 0x100 * (b[at + 1] as int) + 0x1_0000 * (b[at + 2] as int) + 0x100_0000 * (b[at + 3] as int)
  }

  lemma Read32OfLE32(b: seq<byte>, at: nat, v: uint32)
    requires at + 4 <= |b| && b[at..at + 4] == LE32(v)
    ensures Read32(b, at) == v
  {
    forall i | 0 <= i < 4 ensures b[at + i] == LE32(v)[i] {
      assert b[at + i] == b[at..at + 4][i];
    }
    assert b[at] == LE32(v)[0] && b[at + 1] == LE32(v)[1] && b[at + 2] == LE32(v)[2] && b[at + 3] == LE32(v)[3];
    var q := v / 0x100;
    assert v == v % 0x100 + 0x100 * q;
    assert v / 0x1_0000 == q / 0x100 && v / 0x100_0000 == q / 0x100 / 0x100;
  }

  // ---- Fragments as bytes ----

  function CommonBytes(h: FrameHeader): (bytes: seq<byte>)
    ensures |bytes| == AUDIO_HEADER_SIZE
  {
    LE32(h.clientNr) + LE32(h.frameNr) + LE32(h.frameLen) + LE32(h.seqOffset) + LE32(h.seqLen)
  }

  function HeaderBytes(s: Stream, h: FrameHeader): (bytes: seq<byte>)
    ensures |bytes| == HeaderSize(s)
  {
    if s.Audio? then CommonBytes(h) else CommonBytes(h) + LE32(s.key.tileNr) + LE32(s.key.quality)
  }

  function Encode(p: Packet): seq<byte> { HeaderBytes(p.stream, p.header) + p.data }

  /** The datagram `sendPacket` puts together: a type word, the bytes of `b` from `offset` on as
      far as they fit, and zeros. */
  function ProxyBuffer(b: seq<byte>, offset: nat, packetType: uint32): (bytes: seq<byte>)
    requires offset <= |b|
    ensures |bytes| == BUFFER_PROXY_LENGTH
  {
    var n := Min(BUFFER_PROXY_LENGTH - TYPE_HEADER_SIZE, |b| - offset);
    LE32(packetType) + b[offset..offset + n] + Zeros(BUFFER_PROXY_LENGTH - TYPE_HEADER_SIZE - n)
  }

  /** What `StartListening` reads from a datagram. */
  function Parse(buffer: seq<byte>): (p: Parsed)
    requires TYPE_HEADER_SIZE + VIDEO_HEADER_SIZE <= |buffer|
  {
    var ptype := Read32(buffer, 0);
    if ptype == TILE_PACKET_TYPE then
      var h := ParseHeader(buffer);
      var key := VideoKey(Read32(buffer, 24), Read32(buffer, 28));
      ParseData(Tile(key), h, buffer)
    else if ptype == AUDIO_PACKET_TYPE then
      ParseData(Audio, ParseHeader(buffer), buffer)
    else Other
  }

  function ParseHeader(buffer: seq<byte>): FrameHeader
    requires TYPE_HEADER_SIZE + AUDIO_HEADER_SIZE <= |buffer|
  {
    FrameHeader(Read32(buffer, 4), Read32(buffer, 8), Read32(buffer, 12), Read32(buffer, 16), Read32(buffer, 20))
  }

  function ParseData(s: Stream, h: FrameHeader, buffer: seq<byte>): Parsed {
    var start := TYPE_HEADER_SIZE + HeaderSize(s);
    if start + h.seqLen <= |buffer| then Fragment(Packet(s, h, buffer[start..start + h.seqLen]))
    else Malformed
  }

  /** The type word and the words of the common header sit where the parser reads them. */
  lemma HeaderWords(buffer: seq<byte>, ptype: uint32, h: FrameHeader, rest: seq<byte>)
    requires buffer == LE32(ptype) + CommonBytes(h) + rest
    ensures Read32(buffer, 0) == ptype && ParseHeader(buffer) == h
  {
    assert buffer[0..4] == LE32(ptype);
    Read32OfLE32(buffer, 0, ptype);
    assert buffer[4..8] == LE32(h.clientNr);
    Read32OfLE32(buffer, 4, h.clientNr);
    assert buffer[8..12] == LE32(h.frameNr);
    Read32OfLE32(buffer, 8, h.frameNr);
    assert buffer[12..16] == LE32(h.frameLen);
    Read32OfLE32(buffer, 12, h.frameLen);
    assert buffer[16..20] == LE32(h.seqOffset);
    Read32OfLE32(buffer, 16, h.seqOffset);
    assert buffer[20..24] == LE32(h.seqLen);
    Read32OfLE32(buffer, 20, h.seqLen);
  }

  /** Whatever follows the fragment in the datagram, the parser recovers exactly the fragment. */
  lemma ParseEncode(p: Packet, rest: seq<byte>)
    requires |p.data| == p.header.seqLen
    requires TYPE_HEADER_SIZE + VIDEO_HEADER_SIZE <= |LE32(PacketType(p.stream)) + Encode(p) + rest|
    ensures Parse(LE32(PacketType(p.stream)) + Encode(p) + rest) == Fragment(p)
  {
    match p.stream {
      case Audio => ParseAudio(p, rest);
      case Tile(key) => ParseTile(p, key, rest);
    }
  }

  lemma ParseAudio(p: Packet, rest: seq<byte>)
    requires p.stream.Audio? && |p.data| == p.header.seqLen
    requires TYPE_HEADER_SIZE + VIDEO_HEADER_SIZE <= |LE32(AUDIO_PACKET_TYPE) + Encode(p) + rest|
    ensures Parse(LE32(AUDIO_PACKET_TYPE) + Encode(p) + rest) == Fragment(p)
  {
    var buffer := LE32(AUDIO_PACKET_TYPE) + Encode(p) + rest;
    assert buffer == LE32(AUDIO_PACKET_TYPE) + CommonBytes(p.header) + (p.data + rest);
    HeaderWords(buffer, AUDIO_PACKET_TYPE, p.header, p.data + rest);
    assert buffer[24..24 + p.header.seqLen] == p.data;
  }

  lemma ParseTile(p: Packet, key: VideoKey, rest: seq<byte>)
    requires p.stream == Tile(key) && |p.data| == p.header.seqLen
    requires TYPE_HEADER_SIZE + VIDEO_HEADER_SIZE <= |LE32(TILE_PACKET_TYPE) + Encode(p) + rest|
    ensures Parse(LE32(TILE_PACKET_TYPE) + Encode(p) + rest) == Fragment(p)
  {
    var buffer := LE32(TILE_PACKET_TYPE) + Encode(p) + rest;
    TileWords(buffer, p, key, rest);
    assert buffer[32..32 + p.header.seqLen] == p.data;
  }

  lemma TileWords(buffer: seq<byte>, p: Packet, key: VideoKey, rest: seq<byte>)
    requires p.stream == Tile(key) && buffer == LE32(TILE_PACKET_TYPE) + Encode(p) + rest
    ensures Read32(buffer, 0) == TILE_PACKET_TYPE && ParseHeader(buffer) == p.header
    ensures Read32(buffer, 24) == key.tileNr && Read32(buffer, 28) == key.quality
  {
    var words := LE32(TILE_PACKET_TYPE) + CommonBytes(p.header);
    var more := LE32(key.quality) + p.data + rest;
    assert buffer == words + (LE32(key.tileNr) + more);
    HeaderWords(buffer, TILE_PACKET_TYPE, p.header, LE32(key.tileNr) + more);
    assert buffer[24..28] == LE32(key.tileNr);
    Read32OfLE32(buffer, 24, key.tileNr);
    assert buffer[28..32] == LE32(key.quality);
    Read32OfLE32(buffer, 28, key.quality);
  }

  /** From payloader to parser: the fragment arrives behind an RTP header in a reused receive buffer,
      so stale bytes may follow it; `sendPacket` skips the RTP header, and the datagram lands at the
      front of a larger buffer. The parser recovers the fragment. */
  lemma WireRoundTrip(p: Packet, rtpHeader: seq<byte>, stale: seq<byte>, tail: seq<byte>)
    requires |p.data| == p.header.seqLen <= PayloadSize(p.stream)
    requires |rtpHeader| == 20 && |rtpHeader + Encode(p) + stale| == 1220
    ensures var b := rtpHeader + Encode(p) + stale;
            Parse(ProxyBuffer(b, WEBRTC_HEADER_SIZE, PacketType(p.stream)) + tail) == Fragment(p)
  {
    var b := rtpHeader + Encode(p) + stale;
    var t := PacketType(p.stream);
    var n := BUFFER_LENGTH - WEBRTC_HEADER_SIZE;
    assert b[WEBRTC_HEADER_SIZE..WEBRTC_HEADER_SIZE + n] == Encode(p) + stale;
    var rest := stale + Zeros(BUFFER_PROXY_LENGTH - TYPE_HEADER_SIZE - n) + tail;
    assert ProxyBuffer(b, WEBRTC_HEADER_SIZE, t) + tail == LE32(t) + Encode(p) + rest;
    ParseEncode(p, rest);
  }

  // ---- Writing into buffers ----

  /** Go's PutUint32. */
  method PutUint32(a: array<byte>, at: nat, v: uint32)
    requires at + 4 <= a.Length
    modifies a
    ensures a[..at + 4] == old(a[..at]) + LE32(v)
    ensures a[at + 4..] == old(a[at + 4..])
  {
    a[at], a[at + 1], a[at + 2], a[at + 3] := v % 0x100, v / 0x100 % 0x100, v / 0x1_0000 % 0x100, v / 0x100_0000;
  }

  /** Go's copy into a slice that starts at `at`, of `n` bytes of `src` from `from` on. */
  method CopyInto(a: array<byte>, at: nat, src: seq<byte>, from: nat, n: nat)
    requires at + n <= a.Length && from + n <= |src|
    modifies a
    ensures a[..at + n] == old(a[..at]) + src[from..from + n]
    ensures a[at + n..] == old(a[at + n..])
  {
    for i := 0 to n
      invariant a[..at + i] == old(a[..at]) + src[from..from + i]
      invariant a[at + i..] == old(a[at + i..])
    {
      a[at + i] := src[from + i];
      assert a[..at + i + 1] == a[..at + i] + [src[from + i]];
      assert src[from..from + i + 1] == src[from..from + i] + [src[from + i]];
      assert old(a[at + i..])[1..] == old(a[at + i + 1..]);
    }
  }

  /** `sendPacket` up to the write on the socket. */
  method SendPacket(b: seq<byte>, offset: nat, packetType: uint32) returns (buffProxy: array<byte>)
    requires offset <= |b|
    ensures fresh(buffProxy) && buffProxy[..] == ProxyBuffer(b, offset, packetType)
  {
    buffProxy := new byte[BUFFER_PROXY_LENGTH](_ => 0);
    PutUint32(buffProxy, 0, packetType);
    var n := Min(BUFFER_PROXY_LENGTH - TYPE_HEADER_SIZE, |b| - offset);
    var padding := BUFFER_PROXY_LENGTH - TYPE_HEADER_SIZE - n;
    assert buffProxy[TYPE_HEADER_SIZE + n..] == buffProxy[TYPE_HEADER_SIZE..][n..] == Zeros(padding);
    CopyInto(buffProxy, TYPE_HEADER_SIZE, b, offset, n);
    assert buffProxy[..] == buffProxy[..TYPE_HEADER_SIZE + n] + buffProxy[TYPE_HEADER_SIZE + n..];
  }
}
