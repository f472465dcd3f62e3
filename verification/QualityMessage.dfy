/** Quality decisions that a client sends as text: `c,q0,q1,...;c2,...`. */
module QualityMessage {
  import opened Text
  import opened Numbers
  import opened TrackID
  import opened Registry
  import opened RegistryInvariant

  datatype Decision = Decision(id: string, quality: int)

  function TileID(client: string, tile: nat): string { "video_" + client + "_" + Itoa(tile) }

  lemma NoneAfter(a: string, x: string)
    requires '_' !in x
    ensures forall i | |a| < i < |a + ['_'] + x| :: (a + ['_'] + x)[i] != '_'
  {
    forall i | |a| < i < |a + ['_'] + x| ensures (a + ['_'] + x)[i] != '_' {
      assert (a + ['_'] + x)[i] == x[i - |a| - 1];
    }
  }

  /** What precedes the last separator is determined. */
  lemma LastSeparator(a: string, x: string, b: string, y: string)
    requires '_' !in x && '_' !in y && a + ['_'] + x == b + ['_'] + y
    ensures a == b && x == y
  {
    var s := a + ['_'] + x;
    NoneAfter(a, x);
    NoneAfter(b, y);
    assert s[|a|] == '_' && s[|b|] == '_';
    assert s[..|a|] == a && s[..|b|] == b;
    assert s[|a| + 1..] == x && s[|b| + 1..] == y;
  }

  /** Whatever text stands for the client, the ID names a tile if and only if the text is that client's
      number as it is formatted, and the position is the tile's. */
  lemma NamesTileIff(text: string, n: nat, client: int, tile: nat)
    ensures TileID(text, n) == VideoID(client, tile) <==> text == Itoa(client) && n == tile
  {
    if TileID(text, n) == VideoID(client, tile) {
      ItoaPlain(n, '_');
      ItoaPlain(tile, '_');
      LastSeparator("video_" + text, Itoa(n), "video_" + Itoa(client), Itoa(tile));
      assert ("video_" + text)[6..] == text && ("video_" + Itoa(client))[6..] == Itoa(client);
      ParseItoa(n);
      ParseItoa(tile);
    }
  }

  /** The decisions of the first `n` fields of a row; a field that is no number gives none, but counts. */
  function RowDecisions(x: seq<string>, n: nat): seq<Decision>
    requires n < |x|
    decreases n
  {
    if n == 0 then []
    else
      var before := RowDecisions(x, n - 1);
      match Atoi(x[n])
      case Some(q) => before + [Decision(TileID(x[0], n - 1), q)]
      case None => before
  }

  function AllOfRow(w: string): seq<Decision> { RowDecisions(Split(w, ','), |Split(w, ',')| - 1) }

  /** The decisions of the first `n` rows. */
  function RowsDecisions(v: seq<string>, n: nat): seq<Decision>
    requires n <= |v|
    decreases n
  {
    if n == 0 then [] else RowsDecisions(v, n - 1) + AllOfRow(v[n - 1])
  }

  /** The decisions that a message makes, in the order in which they are applied. */
  function Decisions(message: string): seq<Decision> { RowsDecisions(Split(message, ';'), |Split(message, ';')|) }

  // ---- Applying decisions ----

  /** setTrackQuality for each decision in turn. */
  function DecideAll(p: Peer, qualities: Tracks, ds: seq<Decision>): Peer
    decreases |ds|
  {
    if ds == [] then p
    else Decide(DecideAll(p, qualities, ds[..|ds| - 1]), qualities, ds[|ds| - 1].id, ds[|ds| - 1].quality)
  }

  predicate Acceptable(p: Peer, qualities: Tracks, d: Decision) {
    d.quality < 0 || Available(qualities, d.id, d.quality) || d.id !in p.registered
  }

  /** `k` is the last acceptable decision for `id`. */
  ghost predicate LastFor(p: Peer, qualities: Tracks, ds: seq<Decision>, id: string, k: nat) {
    && k < |ds| && ds[k].id == id && Acceptable(p, qualities, ds[k])
    && forall j | k < j < |ds| && ds[j].id == id :: !Acceptable(p, qualities, ds[j])
  }

  ghost predicate NoneFor(p: Peer, qualities: Tracks, ds: seq<Decision>, id: string) {
    forall j | 0 <= j < |ds| && ds[j].id == id :: !Acceptable(p, qualities, ds[j])
  }

  lemma {:induction false} DecideAllKeeps(p: Peer, qualities: Tracks, ds: seq<Decision>)
    ensures DecideAll(p, qualities, ds).registered == p.registered
    ensures DecideAll(p, qualities, ds).decisions.Keys == p.decisions.Keys
    decreases |ds|
  {
    if ds != [] {
      DecideAllKeeps(p, qualities, ds[..|ds| - 1]);
    }
  }

  lemma DecideOne(p: Peer, qualities: Tracks, d: Decision, id: string)
    requires id in p.decisions
    ensures var p' := Decide(p, qualities, d.id, d.quality);
            && id in p'.decisions
            && p'.decisions[id] == if d.id == id && Acceptable(p, qualities, d) then d.quality else p.decisions[id]
  {
  }

  lemma LastBefore(p: Peer, qualities: Tracks, before: seq<Decision>, d: Decision, id: string)
    ensures forall k: nat | LastFor(p, qualities, before + [d], id, k) && k < |before| ::
        LastFor(p, qualities, before, id, k)
    ensures forall k: nat | LastFor(p, qualities, before + [d], id, k) && k < |before| ::
        d.id != id || !Acceptable(p, qualities, d)
    ensures NoneFor(p, qualities, before + [d], id) ==> NoneFor(p, qualities, before, id)
    ensures NoneFor(p, qualities, before + [d], id) ==> d.id != id || !Acceptable(p, qualities, d)
  {
    var ds := before + [d];
    assert ds[|before|] == d && forall j | 0 <= j < |before| :: ds[j] == before[j];
  }

  ghost predicate Wins(p: Peer, qualities: Tracks, ds: seq<Decision>, id: string) {
    var p' := DecideAll(p, qualities, ds);
    && id in p'.decisions
    && (forall k: nat | LastFor(p, qualities, ds, id, k) :: p'.decisions[id] == ds[k].quality)
    && (NoneFor(p, qualities, ds, id) ==> id in p.decisions && p'.decisions[id] == p.decisions[id])
  }

  lemma WinsMore(p: Peer, qualities: Tracks, before: seq<Decision>, d: Decision, id: string)
    requires Wins(p, qualities, before, id)
    ensures Wins(p, qualities, before + [d], id)
  {
    assert (before + [d])[..|before|] == before;
    DecideAllKeeps(p, qualities, before);
    DecideOne(DecideAll(p, qualities, before), qualities, d, id);
    LastBefore(p, qualities, before, d, id);
  }

  /** Last writer wins: each track the peer has ends at the last quality listed for it that is negative or
      available, and otherwise keeps its quality; other tracks get none. */
  lemma {:induction false} LastWriterWins(p: Peer, qualities: Tracks, ds: seq<Decision>, id: string)
    requires id in p.decisions
    ensures id in DecideAll(p, qualities, ds).decisions
    ensures forall k: nat | LastFor(p, qualities, ds, id, k) ::
        DecideAll(p, qualities, ds).decisions[id] == ds[k].quality
    ensures NoneFor(p, qualities, ds, id) ==> DecideAll(p, qualities, ds).decisions[id] == p.decisions[id]
  {
    AllWin(p, qualities, ds, id);
  }

  lemma NothingWins(p: Peer, qualities: Tracks, id: string)
    requires id in p.decisions
    ensures Wins(p, qualities, [], id)
  {
  }

  lemma {:induction false} AllWin(p: Peer, qualities: Tracks, ds: seq<Decision>, id: string)
    requires id in p.decisions
    ensures Wins(p, qualities, ds, id)
    decreases |ds|
  {
    if ds == [] {
      NothingWins(p, qualities, id);
    } else {
      var before, d := ds[..|ds| - 1], ds[|ds| - 1];
      assert ds == before + [d];
      AllWin(p, qualities, before, id);
      WinsMore(p, qualities, before, d, id);
    }
  }

  /** And what the senders carry still follows the decisions. */
  lemma {:induction false} DecideAllInv(p: Peer, s: State, ds: seq<Decision>)
    requires PeerInv(p, s) && Stored(s)
    ensures PeerInv(DecideAll(p, s.qualities, ds), s)
    decreases |ds|
  {
    if ds != [] {
      DecideAllInv(p, s, ds[..|ds| - 1]);
      DecideInv(DecideAll(p, s.qualities, ds[..|ds| - 1]), s, ds[|ds| - 1].id, ds[|ds| - 1].quality);
    }
  }

  // ---- What a message says ----

  /** What stands for the client, any text, and the fields for its tiles. */
  datatype Row = Row(client: string, fields: seq<string>)

  function RowOf(w: string): Row { Row(Split(w, ',')[0], Split(w, ',')[1..]) }

  function RowsOf(message: string): (rows: seq<Row>)
    ensures |rows| == |Split(message, ';')| && forall k | 0 <= k < |rows| :: rows[k] == RowOf(Split(message, ';')[k])
  {
    var v := Split(message, ';');
    seq(|v|, k requires 0 <= k < |v| => RowOf(v[k]))
  }

  /** The decisions meant: tile k of the client gets its field k, if that is a number. */
  function Meant(client: string, fields: seq<string>): seq<Decision>
    decreases |fields|
  {
    if fields == [] then []
    else
      var k := |fields| - 1;
      Meant(client, fields[..k]) +
      match Atoi(fields[k])
      case Some(q) => [Decision(TileID(client, k), q)]
      case None => []
  }

  function AllMeant(rows: seq<Row>): seq<Decision> {
    if rows == [] then [] else Meant(rows[0].client, rows[0].fields) + AllMeant(rows[1..])
  }

  lemma {:induction false} RowMeansPrefix(x: seq<string>, n: nat)
    requires n < |x|
    ensures RowDecisions(x, n) == Meant(x[0], x[1..][..n])
    decreases n
  {
    if n > 0 {
      RowMeansPrefix(x, n - 1);
      assert x[1..][..n][..n - 1] == x[1..][..n - 1] && x[1..][..n][n - 1] == x[n];
      var before := RowDecisions(x, n - 1);
      assert before + [] == before;
    }
  }

  lemma {:induction false} RowMeans(w: string)
    ensures AllOfRow(w) == Meant(RowOf(w).client, RowOf(w).fields)
  {
    var x := Split(w, ',');
    RowMeansPrefix(x, |x| - 1);
    assert x[1..][..|x| - 1] == x[1..];
  }

  lemma {:induction false} AllMeantMore(rows: seq<Row>, r: Row)
    ensures AllMeant(rows + [r]) == AllMeant(rows) + Meant(r.client, r.fields)
  {
    if rows == [] {
      assert [] + [r] == [r] && [r][1..] == [];
    } else {
      assert (rows + [r])[1..] == rows[1..] + [r];
      AllMeantMore(rows[1..], r);
    }
  }

  lemma PrefixMore(rows: seq<Row>, n: nat)
    requires 0 < n <= |rows|
    ensures rows[..n] == rows[..n - 1] + [rows[n - 1]]
  {
  }

  lemma {:induction false} RowsMean(message: string, n: nat)
    requires n <= |RowsOf(message)|
    ensures RowsDecisions(Split(message, ';'), n) == AllMeant(RowsOf(message)[..n])
    decreases n
  {
    if n > 0 {
      var rows := RowsOf(message);
      PrefixMore(rows, n);
      RowsMean(message, n - 1);
      AllMeantMore(rows[..n - 1], rows[n - 1]);
      RowMeans(Split(message, ';')[n - 1]);
    }
  }

  /** The SFU reads from any message exactly what its rows mean; a field that is no number leaves the
      tiles of the fields after it as they are. */
  lemma {:induction false} DecisionsOfRows(message: string)
    ensures Decisions(message) == AllMeant(RowsOf(message))
  {
    RowsMean(message, |RowsOf(message)|);
    assert RowsOf(message)[..|RowsOf(message)|] == RowsOf(message);
  }

  // ---- Writing messages ----

  predicate PlainText(s: string) { ',' !in s && ';' !in s }

  predicate Plain(r: Row) { PlainText(r.client) && forall k | 0 <= k < |r.fields| :: PlainText(r.fields[k]) }

  function RowText(r: Row): string { Join([r.client] + r.fields, ',') }

  function Texts(rows: seq<Row>): (t: seq<string>)
    ensures |t| == |rows| && forall k | 0 <= k < |rows| :: t[k] == RowText(rows[k])
  {
    seq(|rows|, k requires 0 <= k < |rows| => RowText(rows[k]))
  }

  lemma {:induction false} JoinPlain(parts: seq<string>, sep: char, c: char)
    requires |parts| >= 1 && sep != c && forall k | 0 <= k < |parts| :: c !in parts[k]
    ensures c !in Join(parts, sep)
  {
    if |parts| > 1 {
      JoinPlain(parts[1..], sep, c);
    }
  }

  lemma {:induction false} RowTextPlain(r: Row)
    requires Plain(r)
    ensures RowOf(RowText(r)) == r && ';' !in RowText(r)
  {
    JoinSplit([r.client] + r.fields, ',');
    JoinPlain([r.client] + r.fields, ',', ';');
  }

  /** Rows written into a message, whatever stands for the clients, are the rows that are read. */
  lemma {:induction false} RowsComeBack(rows: seq<Row>)
    requires rows != [] && forall r | r in rows :: Plain(r)
    ensures RowsOf(Join(Texts(rows), ';')) == rows
  {
    forall k | 0 <= k < |rows| ensures RowOf(Texts(rows)[k]) == rows[k] && ';' !in Texts(rows)[k] {
      assert rows[k] in rows;
      RowTextPlain(rows[k]);
    }
    JoinSplit(Texts(rows), ';');
  }

  lemma {:induction false} MessageMeans(rows: seq<Row>)
    requires rows != [] && forall r | r in rows :: Plain(r)
    ensures Decisions(Join(Texts(rows), ';')) == AllMeant(rows)
  {
    RowsComeBack(rows);
    DecisionsOfRows(Join(Texts(rows), ';'));
  }

  /** The format itself: rows end at semicolons, fields at commas, and the client comes first. */
  lemma TwoRows(c: string, f: string, g: string, d: string, h: string)
    requires PlainText(c) && PlainText(f) && PlainText(g) && PlainText(d) && PlainText(h)
    ensures RowsOf(c + "," + f + "," + g + ";" + d + "," + h) == [Row(c, [f, g]), Row(d, [h])]
  {
    var r1, r2 := Row(c, [f, g]), Row(d, [h]);
    JoinMore(f, [g], ',');
    JoinMore(c, [f, g], ',');
    assert [f] + [g] == [f, g];
    JoinMore(d, [h], ',');
    JoinMore(RowText(r1), [RowText(r2)], ';');
    assert Texts([r1, r2]) == [RowText(r1)] + [RowText(r2)];
    assert c + "," + f + "," + g + ";" + d + "," + h == RowText(r1) + ";" + RowText(r2);
    RowsComeBack([r1, r2]);
  }

  // ---- Tile by tile ----

  /** What a row makes of the decision `old` for tile `k` of a client. */
  function RowTile(p: Peer, qualities: Tracks, r: Row, client: int, k: nat, was: int): int {
    if r.client != Itoa(client) || k >= |r.fields| then was
    else match Atoi(r.fields[k])
      case Some(q) => if Acceptable(p, qualities, Decision(VideoID(client, k), q)) then q else was
      case None => was
  }

  function RowsTile(p: Peer, qualities: Tracks, rows: seq<Row>, client: int, k: nat, was: int): int {
    if rows == [] then was
    else RowsTile(p, qualities, rows[1..], client, k, RowTile(p, qualities, rows[0], client, k, was))
  }

  lemma {:induction false} DecideAllInTurn(p: Peer, qualities: Tracks, a: seq<Decision>, b: seq<Decision>)
    ensures DecideAll(p, qualities, a + b) == DecideAll(DecideAll(p, qualities, a), qualities, b)
    decreases |b|
  {
    if b == [] {
      assert a + b == a;
    } else {
      assert (a + b)[..|a + b| - 1] == a + b[..|b| - 1];
      DecideAllInTurn(p, qualities, a, b[..|b| - 1]);
    }
  }

  /** One field decides for tile `k` of the client if it is that tile's field of a row that names the client. */
  lemma DecideField(p: Peer, qualities: Tracks, text: string, n: nat, q: int, client: int, k: nat)
    requires VideoID(client, k) in p.decisions
    ensures var id, p' := VideoID(client, k), Decide(p, qualities, TileID(text, n), q);
            && id in p'.decisions
            && p'.decisions[id] == if text == Itoa(client) && n == k && Acceptable(p, qualities, Decision(id, q)) then q
                                   else p.decisions[id]
  {
    DecideOne(p, qualities, Decision(TileID(text, n), q), VideoID(client, k));
    NamesTileIff(text, n, client, k);
  }

  ghost predicate Settled(p: Peer, qualities: Tracks, r: Row, client: int, k: nat)
    requires VideoID(client, k) in p.decisions
  {
    var id, p' := VideoID(client, k), DecideAll(p, qualities, Meant(r.client, r.fields));
    && id in p'.decisions && p'.registered == p.registered
    && p'.decisions[id] == RowTile(p, qualities, r, client, k, p.decisions[id])
  }

  lemma MeantMore(client: string, fields: seq<string>, field: string)
    ensures Meant(client, fields + [field]) ==
            Meant(client, fields) +
            match Atoi(field)
            case Some(q) => [Decision(TileID(client, |fields|), q)]
            case None => []
  {
    assert (fields + [field])[..|fields|] == fields;
  }

  lemma LastField(p: Peer, qualities: Tracks, text: string, fields: seq<string>, field: string, client: int,
                  k: nat, was: int)
    ensures RowTile(p, qualities, Row(text, fields + [field]), client, k, was) ==
            if text == Itoa(client) && k == |fields|
            then match Atoi(field)
              case Some(q) => if Acceptable(p, qualities, Decision(VideoID(client, k), q)) then q else was
              case None => was
            else RowTile(p, qualities, Row(text, fields), client, k, was)
  {
  }

  lemma SettledMore(p: Peer, qualities: Tracks, text: string, fields: seq<string>, field: string, client: int, k: nat)
    requires VideoID(client, k) in p.decisions && Settled(p, qualities, Row(text, fields), client, k)
    ensures Settled(p, qualities, Row(text, fields + [field]), client, k)
  {
    MeantMore(text, fields, field);
    LastField(p, qualities, text, fields, field, client, k, p.decisions[VideoID(client, k)]);
    match Atoi(field)
    case None => assert Meant(text, fields) + [] == Meant(text, fields);
    case Some(q) => DecidedMore(p, qualities, text, Meant(text, fields), |fields|, q, client, k);
  }

  lemma DecidedMore(p: Peer, qualities: Tracks, text: string, before: seq<Decision>, n: nat, q: int, client: int,
                    k: nat)
    requires VideoID(client, k) in DecideAll(p, qualities, before).decisions
    requires DecideAll(p, qualities, before).registered == p.registered
    ensures var id, p1 := VideoID(client, k), DecideAll(p, qualities, before);
            var p2 := DecideAll(p, qualities, before + [Decision(TileID(text, n), q)]);
            && id in p2.decisions && p2.registered == p.registered
            && p2.decisions[id] == if text == Itoa(client) && n == k && Acceptable(p, qualities, Decision(id, q)) then q
                                   else p1.decisions[id]
  {
    var d := Decision(TileID(text, n), q);
    assert (before + [d])[..|before|] == before;
    DecideField(DecideAll(p, qualities, before), qualities, text, n, q, client, k);
  }

  lemma NothingSettles(p: Peer, qualities: Tracks, text: string, client: int, k: nat)
    requires VideoID(client, k) in p.decisions
    ensures Settled(p, qualities, Row(text, []), client, k)
  {
  }

  lemma {:induction false} AllFieldsSettle(p: Peer, qualities: Tracks, text: string, fields: seq<string>, client: int,
                                           k: nat)
    requires VideoID(client, k) in p.decisions
    ensures Settled(p, qualities, Row(text, fields), client, k)
    decreases |fields|
  {
    if fields == [] {
      NothingSettles(p, qualities, text, client, k);
    } else {
      var before, field := fields[..|fields| - 1], fields[|fields| - 1];
      assert fields == before + [field];
      AllFieldsSettle(p, qualities, text, before, client, k);
      SettledMore(p, qualities, text, before, field, client, k);
    }
  }

  lemma {:induction false} RowSettles(p: Peer, qualities: Tracks, r: Row, client: int, k: nat)
    requires VideoID(client, k) in p.decisions
    ensures var p' := DecideAll(p, qualities, Meant(r.client, r.fields));
            && VideoID(client, k) in p'.decisions && p'.registered == p.registered
            && p'.decisions[VideoID(client, k)] == RowTile(p, qualities, r, client, k, p.decisions[VideoID(client, k)])
  {
    AllFieldsSettle(p, qualities, r.client, r.fields, client, k);
  }

  lemma {:induction false} RowsSettle(p: Peer, qualities: Tracks, rows: seq<Row>, client: int, k: nat)
    requires VideoID(client, k) in p.decisions
    ensures var p' := DecideAll(p, qualities, AllMeant(rows));
            && VideoID(client, k) in p'.decisions
            && p'.decisions[VideoID(client, k)] ==
                 RowsTile(p, qualities, rows, client, k, p.decisions[VideoID(client, k)])
    decreases |rows|
  {
    if rows != [] {
      var first := Meant(rows[0].client, rows[0].fields);
      var p1 := DecideAll(p, qualities, first);
      RowSettles(p, qualities, rows[0], client, k);
      DecideAllInTurn(p, qualities, first, AllMeant(rows[1..]));
      RowsSettle(p1, qualities, rows[1..], client, k);
      SameTiles(p, p1, qualities, rows[1..], client, k, p1.decisions[VideoID(client, k)]);
    }
  }

  lemma {:induction false} SameTiles(p: Peer, p1: Peer, qualities: Tracks, rows: seq<Row>, client: int, k: nat, q: int)
    requires p1.registered == p.registered
    ensures RowsTile(p1, qualities, rows, client, k, q) == RowsTile(p, qualities, rows, client, k, q)
    decreases |rows|
  {
    if rows != [] {
      SameTiles(p, p1, qualities, rows[1..], client, k, RowTile(p, qualities, rows[0], client, k, q));
    }
  }

  /** From any text to the tiles: each tile that the peer has ends at the last quality listed for it, in
      its own field of a row that names its client, that is a number and negative or available; a tile
      that is not mentioned keeps its quality, whatever the other rows and fields are. */
  lemma MessageSettlesTiles(p: Peer, qualities: Tracks, message: string, client: int, k: nat)
    requires VideoID(client, k) in p.decisions
    ensures var p' := DecideAll(p, qualities, Decisions(message));
            && VideoID(client, k) in p'.decisions
            && p'.decisions[VideoID(client, k)] ==
                 RowsTile(p, qualities, RowsOf(message), client, k, p.decisions[VideoID(client, k)])
  {
    DecisionsOfRows(message);
    RowsSettle(p, qualities, RowsOf(message), client, k);
  }

  // ---- Fields that are no numbers ----

  /** The row says something for the tile, and it is a number that can be a quality. */
  ghost predicate Speaks(r: Row, client: int, k: nat) {
    && r.client == Itoa(client) && k < |r.fields| && IsNumber(r.fields[k])
    && -9223372036854775808 <= NumberOf(r.fields[k]) <= 9223372036854775807
  }

  lemma SilentRow(p: Peer, qualities: Tracks, r: Row, client: int, k: nat, was: int)
    requires !Speaks(r, client, k)
    ensures RowTile(p, qualities, r, client, k, was) == was
  {
    if k < |r.fields| {
      AtoiIff(r.fields[k]);
    }
  }

  lemma SpeakingRow(p: Peer, qualities: Tracks, r: Row, client: int, k: nat, was: int)
    requires Speaks(r, client, k)
    ensures RowTile(p, qualities, r, client, k, was) ==
            if Acceptable(p, qualities, Decision(VideoID(client, k), NumberOf(r.fields[k])))
            then NumberOf(r.fields[k]) else was
  {
    AtoiIff(r.fields[k]);
  }

  lemma {:induction false} SilentRows(p: Peer, qualities: Tracks, rows: seq<Row>, client: int, k: nat, was: int)
    requires forall r | r in rows :: !Speaks(r, client, k)
    ensures RowsTile(p, qualities, rows, client, k, was) == was
    decreases |rows|
  {
    if rows != [] {
      SilentRow(p, qualities, rows[0], client, k, was);
      SilentRows(p, qualities, rows[1..], client, k, was);
    }
  }

  /** A tile keeps its decision if no row of its client has a number in its field: whatever else is there,
      nothing, letters, a lone sign, or more than 64 bits, decides nothing. */
  lemma NoNumberKeepsDecision(p: Peer, qualities: Tracks, message: string, client: int, k: nat)
    requires VideoID(client, k) in p.decisions
    requires forall r | r in RowsOf(message) :: !Speaks(r, client, k)
    ensures var p' := DecideAll(p, qualities, Decisions(message));
            VideoID(client, k) in p'.decisions && p'.decisions[VideoID(client, k)] == p.decisions[VideoID(client, k)]
  {
    MessageSettlesTiles(p, qualities, message, client, k);
    SilentRows(p, qualities, RowsOf(message), client, k, p.decisions[VideoID(client, k)]);
  }

  lemma {:induction false} RowsInTurn(p: Peer, qualities: Tracks, a: seq<Row>, b: seq<Row>, client: int,
                                      k: nat, was: int)
    ensures RowsTile(p, qualities, a + b, client, k, was) ==
            RowsTile(p, qualities, b, client, k, RowsTile(p, qualities, a, client, k, was))
    decreases |a|
  {
    if a == [] {
      assert a + b == b;
    } else {
      assert (a + b)[1..] == a[1..] + b;
      RowsInTurn(p, qualities, a[1..], b, client, k, RowTile(p, qualities, a[0], client, k, was));
    }
  }

  lemma LastRowDecides(p: Peer, qualities: Tracks, rows: seq<Row>, client: int, k: nat, j: nat, was: int)
    requires j < |rows| && Speaks(rows[j], client, k) && forall i | j < i < |rows| :: !Speaks(rows[i], client, k)
    requires Acceptable(p, qualities, Decision(VideoID(client, k), NumberOf(rows[j].fields[k])))
    ensures RowsTile(p, qualities, rows, client, k, was) == NumberOf(rows[j].fields[k])
  {
    var before, after := rows[..j + 1], rows[j + 1..];
    assert rows == before + after;
    RowsInTurn(p, qualities, before, after, client, k, was);
    assert before == rows[..j] + [rows[j]];
    RowsInTurn(p, qualities, rows[..j], [rows[j]], client, k, was);
    SpeakingRow(p, qualities, rows[j], client, k, RowsTile(p, qualities, rows[..j], client, k, was));
    SilentRows(p, qualities, after, client, k, NumberOf(rows[j].fields[k]));
  }

  /** And it takes the number in the last row that has one, if that is negative or an available quality. */
  lemma LastNumberDecides(p: Peer, qualities: Tracks, message: string, client: int, k: nat, j: nat)
    requires VideoID(client, k) in p.decisions && j < |RowsOf(message)| && Speaks(RowsOf(message)[j], client, k)
    requires forall i | j < i < |RowsOf(message)| :: !Speaks(RowsOf(message)[i], client, k)
    requires var q := NumberOf(RowsOf(message)[j].fields[k]); q < 0 || Available(qualities, VideoID(client, k), q)
    ensures var p' := DecideAll(p, qualities, Decisions(message));
            && VideoID(client, k) in p'.decisions
            && p'.decisions[VideoID(client, k)] == NumberOf(RowsOf(message)[j].fields[k])
  {
    MessageSettlesTiles(p, qualities, message, client, k);
    LastRowDecides(p, qualities, RowsOf(message), client, k, j, p.decisions[VideoID(client, k)]);
  }
}
