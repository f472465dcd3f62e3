/** The text framing of websocket messages: client ID, message type and message, separated by '@'. */
module Signaling {
  import opened Basics
  import opened Text

  datatype WebsocketPacket = WebsocketPacket(clientID: nat, messageType: nat, message: string)

  function Frame(p: WebsocketPacket): string { Itoa(p.clientID) + "@" + Itoa(p.messageType) + "@" + p.message }

  /** The receiver's parse; None where it panics. */
  function Parse(s: string): Option<WebsocketPacket> {
    var v := Split(s, '@');
    if |v| < 3 then None else Some(WebsocketPacket(ParseUint(v[0]), ParseUint(v[1]), v[2]))
  }

  predicate InRange(p: WebsocketPacket) { p.clientID < UINT64_LIMIT && p.messageType < UINT64_LIMIT }

  lemma UintItoa(n: nat)
    requires n < UINT64_LIMIT
    ensures ParseUint(Itoa(n)) == n
  {
    ParseItoa(n);
  }

  lemma PartsOfFrame(p: WebsocketPacket)
    ensures Split(Frame(p), '@') == [Itoa(p.clientID), Itoa(p.messageType)] + Split(p.message, '@')
  {
    assert Frame(p) == Itoa(p.clientID) + ['@'] + (Itoa(p.messageType) + ['@'] + p.message);
    ItoaPlain(p.clientID, '@');
    ItoaPlain(p.messageType, '@');
    SplitFirst(Itoa(p.clientID), '@', Itoa(p.messageType) + ['@'] + p.message);
    SplitFirst(Itoa(p.messageType), '@', p.message);
  }

  /** What is sent is what is received, if and only if the message has no separator in it. */
  lemma FrameRoundTripIff(p: WebsocketPacket)
    requires InRange(p)
    ensures Parse(Frame(p)) == Some(p) <==> '@' !in p.message
  {
    PartsOfFrame(p);
    UintItoa(p.clientID);
    UintItoa(p.messageType);
    SplitJoin(p.message, '@');
    if '@' !in p.message {
      SplitNone(p.message, '@');
    }
  }

  /** Of any three texts without separators, framed, the first two are read as numbers, and the third as it
      is; fewer parts make the receiver panic, and more than three are ignored. */
  lemma ParseParts(parts: seq<string>)
    requires parts != [] && forall k | 0 <= k < |parts| :: '@' !in parts[k]
    ensures Parse(Join(parts, '@')) ==
            if |parts| < 3 then None else Some(WebsocketPacket(ParseUint(parts[0]), ParseUint(parts[1]), parts[2]))
  {
    JoinSplit(parts, '@');
  }
}
