/**
 The single-slot mailbox between `StartListening` and the consumers of `NextTile` and
 `NextAudioFrame` (peer/proxy_connection.go), as a state machine. Each event is one section run
 under the mutex of the stream. A consumer that finds its slot empty parks in the condition wait;
 when it is woken it takes the frame without looking at the slot again.
 */
module Mailbox {
  import opened Wire
  import R = Reassembly

  datatype Status = Running | Parked | Signalled

  datatype Consumer = Consumer(stream: Stream, status: Status)

  /** A frame handed to a consumer when `at` completions had been logged. */
  datatype Delivery = Delivery(stream: Stream, data: seq<byte>, at: nat)

  /** `conds` are the streams that have a condition variable; `crashed` is set when a consumer
      indexes an empty slot. */
  datatype State = State(
    conds: set<Stream>, frames: R.State, slots: map<Stream, seq<byte>>,
    consumers: seq<Consumer>, delivered: seq<Delivery>, crashed: bool)

  datatype Event = Arrive(p: Packet) | Next(c: nat)

  function Start(conds: set<Stream>, streams: seq<Stream>): State {
    var consumers := seq(|streams|, i requires 0 <= i < |streams| => Consumer(streams[i], Running));
    State(conds, R.Empty, map[], consumers, [], false)
  }

  predicate Enabled(s: State, e: Event) {
    !s.crashed &&
    match e
    case Arrive(p) => p.stream in s.conds && R.InRange(s.frames.incomplete, p)
    case Next(c) => c < |s.consumers| && s.consumers[c].stream in s.conds && s.consumers[c].status != Parked
  }

  /** Broadcast wakes every consumer parked on the stream. */
  function Broadcast(cs: seq<Consumer>, stream: Stream): seq<Consumer> {
    seq(|cs|, i requires 0 <= i < |cs| =>
      if cs[i] == Consumer(stream, Parked) then Consumer(stream, Signalled) else cs[i])
  }

  function Take(s: State, c: nat): State
    requires c < |s.consumers| && s.consumers[c].stream in s.slots
  {
    var stream := s.consumers[c].stream;
    s.(slots := s.slots - {stream},
       consumers := s.consumers[c := Consumer(stream, Running)],
       delivered := s.delivered + [Delivery(stream, s.slots[stream], |s.frames.log|)])
  }

  function Apply(s: State, e: Event): State
    requires Enabled(s, e)
  {
    match e
    case Arrive(p) =>
      var frames := R.Receive(s.frames, p);
      if R.Completes(s.frames.incomplete, p) then
        s.(frames := frames,
           slots := s.slots[p.stream := R.Updated(s.frames.incomplete, p).fileData],
           consumers := Broadcast(s.consumers, p.stream))
      else s.(frames := frames)
    case Next(c) =>
      var stream := s.consumers[c].stream;
      if stream in s.slots then Take(s, c)
      else if s.consumers[c].status == Running then s.(consumers := s.consumers[c := Consumer(stream, Parked)])
      else s.(crashed := true)
  }

  /** What an arriving packet changes, field by field. */
  lemma ArriveParts(s: State, p: Packet)
    requires Enabled(s, Arrive(p))
    ensures var s' := Apply(s, Arrive(p)); var value := R.Updated(s.frames.incomplete, p); var id := R.IdOf(p);
      && s'.conds == s.conds && s'.delivered == s.delivered && s'.crashed == s.crashed
      && if value.currentLen == value.fileLen then
           && s'.frames.incomplete == s.frames.incomplete - {id}
           && s'.slots == s.slots[p.stream := value.fileData]
           && s'.consumers == Broadcast(s.consumers, p.stream)
         else
           && s'.frames.incomplete == s.frames.incomplete[id := value]
           && s'.slots == s.slots && s'.consumers == s.consumers
  {
  }

  predicate CanRun(s: State, es: seq<Event>)
    decreases es, 0
  {
    es == [] || (CanRun(s, es[..|es| - 1]) && Enabled(Run(s, es[..|es| - 1]), es[|es| - 1]))
  }

  function Run(s: State, es: seq<Event>): State
    requires CanRun(s, es)
    decreases es, 1
  {
    if es == [] then s else Apply(Run(s, es[..|es| - 1]), es[|es| - 1])
  }

  /** Position of the last completion of the stream, or -1. */
  function Last(log: seq<R.Completion>, stream: Stream): (i: int)
    ensures -1 <= i < |log| && (i >= 0 ==> log[i].id.stream == stream)
  {
    if log == [] then -1
    else if log[|log| - 1].id.stream == stream then |log| - 1
    else Last(log[..|log| - 1], stream)
  }

  lemma {:induction false} LastIsLast(log: seq<R.Completion>, stream: Stream, k: nat)
    requires Last(log, stream) < k < |log|
    ensures log[k].id.stream != stream
  {
    if k < |log| - 1 {
      LastIsLast(log[..|log| - 1], stream, k);
    }
  }

  // ---- The invariant ----

  ghost predicate OneEach(cs: seq<Consumer>) {
    forall i, j | 0 <= i < j < |cs| :: cs[i].stream != cs[j].stream
  }

  /** No consumer is parked over a full slot, and none is woken over an empty one. */
  ghost predicate WaitersRight(s: State) {
    forall i | 0 <= i < |s.consumers| :: var c := s.consumers[i];
      && (c.status == Parked ==> c.stream !in s.slots)
      && (c.status == Signalled ==> c.stream in s.slots)
  }

  /** A full slot holds the last completion of its stream, which no consumer has had. */
  ghost predicate SlotsFresh(s: State) {
    forall stream | stream in s.slots ::
      var i := Last(s.frames.log, stream);
      && i >= 0
      && s.slots[stream] == s.frames.log[i].data
      && forall k | 0 <= k < |s.delivered| && s.delivered[k].stream == stream :: s.delivered[k].at <= i
  }

  /** The completion a delivery handed out: the last of its stream when it was taken. */
  function Source(log: seq<R.Completion>, d: Delivery): int
    requires d.at <= |log|
  {
    Last(log[..d.at], d.stream)
  }

  ghost predicate DeliveryRight(log: seq<R.Completion>, d: Delivery) {
    d.at <= |log| && Source(log, d) >= 0 && d.data == log[Source(log, d)].data
  }

  ghost predicate DeliveriesRight(s: State) {
    && (forall k | 0 <= k < |s.delivered| :: DeliveryRight(s.frames.log, s.delivered[k]))
    && (forall j, k | 0 <= j < k < |s.delivered| && s.delivered[j].stream == s.delivered[k].stream ::
          s.delivered[j].at <= Source(s.frames.log, s.delivered[k]))
  }

  ghost predicate Inv(s: State) {
    !s.crashed && OneEach(s.consumers) && WaitersRight(s) && SlotsFresh(s) && DeliveriesRight(s)
  }

  /** The next section of consumer `c` does not index an empty slot. */
  predicate Safe(s: State, c: nat)
    requires c < |s.consumers|
  {
    s.consumers[c].status == Signalled ==> s.consumers[c].stream in s.slots
  }

  lemma LogGrows(log: seq<R.Completion>, more: R.Completion, d: Delivery)
    requires d.at <= |log|
    ensures Source(log + [more], d) == Source(log, d)
  {
    assert (log + [more])[..d.at] == log[..d.at];
  }

  lemma LastSnoc(log: seq<R.Completion>, more: R.Completion, stream: Stream)
    ensures Last(log + [more], stream) == if more.id.stream == stream then |log| else Last(log, stream)
  {
    assert (log + [more])[..|log|] == log;
  }

  lemma ArriveDeliveries(s: State, p: Packet)
    requires Inv(s) && Enabled(s, Arrive(p)) && R.Completes(s.frames.incomplete, p)
    ensures DeliveriesRight(Apply(s, Arrive(p)))
  {
    var s', log := Apply(s, Arrive(p)), s.frames.log;
    var more := R.Completion(R.IdOf(p), R.Updated(s.frames.incomplete, p).fileData);
    assert s'.frames.log == log + [more];
    forall k | 0 <= k < |s.delivered|
      ensures Source(s'.frames.log, s.delivered[k]) == Source(log, s.delivered[k])
      ensures DeliveryRight(s'.frames.log, s.delivered[k])
    {
      assert DeliveryRight(log, s.delivered[k]);
      LogGrows(log, more, s.delivered[k]);
    }
  }

  lemma ArriveSlots(s: State, p: Packet)
    requires Inv(s) && Enabled(s, Arrive(p)) && R.Completes(s.frames.incomplete, p)
    ensures SlotsFresh(Apply(s, Arrive(p)))
  {
    var s', log := Apply(s, Arrive(p)), s.frames.log;
    var more := R.Completion(R.IdOf(p), R.Updated(s.frames.incomplete, p).fileData);
    assert s'.frames.log == log + [more];
    forall stream | stream in s'.slots
      ensures Last(s'.frames.log, stream) == if stream == p.stream then |log| else Last(log, stream)
    {
      LastSnoc(log, more, stream);
    }
    assert forall k | 0 <= k < |s.delivered| :: DeliveryRight(log, s.delivered[k]);
  }

  lemma ArriveInv(s: State, p: Packet)
    requires Inv(s) && Enabled(s, Arrive(p))
    ensures Inv(Apply(s, Arrive(p)))
  {
    if R.Completes(s.frames.incomplete, p) {
      ArriveDeliveries(s, p);
      ArriveSlots(s, p);
    }
  }

  lemma TakeInv(s: State, c: nat)
    requires Inv(s) && c < |s.consumers| && s.consumers[c].stream in s.slots
    ensures Inv(Take(s, c))
  {
    var s', log := Take(s, c), s.frames.log;
    assert log[..|log|] == log;
    var d := s'.delivered[|s.delivered|];
    assert DeliveryRight(log, d);
    forall k | 0 <= k < |s'.delivered| ensures DeliveryRight(log, s'.delivered[k]) {
      if k < |s.delivered| { assert s'.delivered[k] == s.delivered[k]; }
    }
    forall j, k | 0 <= j < k < |s'.delivered| && s'.delivered[j].stream == s'.delivered[k].stream
      ensures s'.delivered[j].at <= Source(log, s'.delivered[k])
    {
      assert s'.delivered[j] == s.delivered[j];
    }
    assert SlotsFresh(s');
  }

  lemma StepInv(s: State, e: Event)
    requires Inv(s) && Enabled(s, e)
    ensures Inv(Apply(s, e))
  {
    match e {
      case Arrive(p) => ArriveInv(s, p);
      case Next(c) =>
        if s.consumers[c].stream in s.slots { TakeInv(s, c); }
    }
  }

  lemma {:induction false} RunInv(s: State, es: seq<Event>)
    requires Inv(s) && CanRun(s, es)
    ensures Inv(Run(s, es))
    decreases es
  {
    if es != [] {
      RunInv(s, es[..|es| - 1]);
      StepInv(Run(s, es[..|es| - 1]), es[|es| - 1]);
    }
  }

  ghost predicate Distinct(streams: seq<Stream>) {
    forall i, j | 0 <= i < j < |streams| :: streams[i] != streams[j]
  }

  /** With one consumer per stream no run ever indexes an empty slot, no wakeup is lost, every frame
      handed out is the latest completion of its stream at that moment, and the frames of a stream
      are handed out in order of completion, none twice. */
  lemma MailboxSafe(conds: set<Stream>, streams: seq<Stream>, es: seq<Event>)
    requires Distinct(streams) && CanRun(Start(conds, streams), es)
    ensures var s := Run(Start(conds, streams), es);
      && !s.crashed && WaitersRight(s) && (forall c | 0 <= c < |s.consumers| :: Safe(s, c))
      && (forall k | 0 <= k < |s.delivered| :: DeliveryRight(s.frames.log, s.delivered[k]))
      && (forall j, k | 0 <= j < k < |s.delivered| && s.delivered[j].stream == s.delivered[k].stream ::
            Source(s.frames.log, s.delivered[j]) < Source(s.frames.log, s.delivered[k]))
  {
    RunInv(Start(conds, streams), es);
  }

  // ---- No frame is lost but to a later one ----

  /** What a consumer's section does: it hands out what is in the slot and empties it; over an empty slot a
      consumer that has not waited parks, and one that has crashes. Nothing else changes. */
  lemma NextEffects(s: State, c: nat)
    requires Enabled(s, Next(c))
    ensures var stream, s' := s.consumers[c].stream, Apply(s, Next(c));
      && s'.conds == s.conds && s'.frames == s.frames
      && |s'.consumers| == |s.consumers| && s'.consumers[c].stream == stream
      && (forall i | 0 <= i < |s.consumers| && i != c :: s'.consumers[i] == s.consumers[i])
      && if stream in s.slots then
           && s'.delivered == s.delivered + [Delivery(stream, s.slots[stream], |s.frames.log|)]
           && stream !in s'.slots && s'.slots == s.slots - {stream}
           && s'.consumers[c].status == Running && !s'.crashed
         else
           && s'.delivered == s.delivered && s'.slots == s.slots
           && (s.consumers[c].status == Running ==> s'.consumers[c].status == Parked && !s'.crashed)
           && (s.consumers[c].status != Running ==> s'.crashed)
  {
  }

  /** Completion `i` of the log has been handed out on its stream. */
  ghost predicate HandedOut(s: State, stream: Stream, i: int) {
    exists d :: d in s.delivered && d.stream == stream && d.at <= |s.frames.log| && Source(s.frames.log, d) == i
  }

  /** The last completion of the stream is in its slot or has been handed out. */
  ghost predicate LatestKept(s: State, stream: Stream) {
    var i := Last(s.frames.log, stream);
    i >= 0 ==> (stream in s.slots && s.slots[stream] == s.frames.log[i].data) || HandedOut(s, stream, i)
  }

  lemma StillHandedOut(s: State, s': State, stream: Stream, i: int)
    requires HandedOut(s, stream, i) && s'.delivered == s.delivered
    requires s'.frames.log == s.frames.log || exists more :: s'.frames.log == s.frames.log + [more]
    ensures HandedOut(s', stream, i)
  {
    var d :| d in s.delivered && d.stream == stream && d.at <= |s.frames.log| && Source(s.frames.log, d) == i;
    assert s'.frames.log[..d.at] == s.frames.log[..d.at];
  }

  lemma ArriveKeeps(s: State, p: Packet, stream: Stream)
    requires Enabled(s, Arrive(p)) && LatestKept(s, stream)
    ensures LatestKept(Apply(s, Arrive(p)), stream)
  {
    var s', log, i := Apply(s, Arrive(p)), s.frames.log, Last(s.frames.log, stream);
    if R.Completes(s.frames.incomplete, p) {
      var more := R.Completion(R.IdOf(p), R.Updated(s.frames.incomplete, p).fileData);
      assert s'.frames.log == log + [more];
      LastSnoc(log, more, stream);
    }
    if HandedOut(s, stream, i) {
      StillHandedOut(s, s', stream, i);
    }
  }

  lemma NextKeeps(s: State, c: nat, stream: Stream)
    requires Enabled(s, Next(c)) && LatestKept(s, stream)
    ensures LatestKept(Apply(s, Next(c)), stream)
  {
    var s', log, i := Apply(s, Next(c)), s.frames.log, Last(s.frames.log, stream);
    NextEffects(s, c);
    if HandedOut(s, stream, i) {
      var d :| d in s.delivered && d.stream == stream && d.at <= |log| && Source(log, d) == i;
      assert d in s'.delivered;
    } else if s.consumers[c].stream == stream && stream in s.slots {
      assert log[..|log|] == log;
      assert s'.delivered[|s.delivered|] == Delivery(stream, s.slots[stream], |log|);
    }
  }

  /** However many consumers there are: a completed frame that is not handed out is still in its slot or was
      followed by another frame of its stream. */
  lemma {:induction false} NoneLost(conds: set<Stream>, streams: seq<Stream>, es: seq<Event>, stream: Stream)
    requires CanRun(Start(conds, streams), es)
    ensures LatestKept(Run(Start(conds, streams), es), stream)
    decreases es
  {
    if es != [] {
      var before, e := es[..|es| - 1], es[|es| - 1];
      NoneLost(conds, streams, before, stream);
      match e {
        case Arrive(p) => ArriveKeeps(Run(Start(conds, streams), before), p, stream);
        case Next(c) => NextKeeps(Run(Start(conds, streams), before), c, stream);
      }
    }
  }

  // ---- Two consumers on one stream ----

  lemma RunSnoc(s: State, es: seq<Event>, e: Event)
    requires CanRun(s, es) && Enabled(Run(s, es), e)
    ensures CanRun(s, es + [e]) && Run(s, es + [e]) == Apply(Run(s, es), e)
  {
    assert (es + [e])[..|es|] == es;
  }

  /** Two consumers of one stream: both park, one frame wakes both, and the second finds nothing. */
  lemma SharedStreamCrashes(conds: set<Stream>, streams: seq<Stream>, i: nat, j: nat) returns (es: seq<Event>)
    requires i < j < |streams| && streams[i] == streams[j] && streams[i] in conds
    ensures CanRun(Start(conds, streams), es) && Run(Start(conds, streams), es).crashed
  {
    var stream := streams[i];
    var s := Start(conds, streams);
    es := [];
    RunSnoc(s, es, Next(i));
    es := es + [Next(i)];
    RunSnoc(s, es, Next(j));
    es := es + [Next(j)];
    var parked := Run(s, es);
    var p := Packet(stream, FrameHeader(0, 0, 1, 0, 1), [7]);
    assert R.Completes(parked.frames.incomplete, p);
    RunSnoc(s, es, Arrive(p));
    es := es + [Arrive(p)];
    RunSnoc(s, es, Next(i));
    es := es + [Next(i)];
    RunSnoc(s, es, Next(j));
    es := es + [Next(j)];
  }

  /** Un-rechecked waiting is safe exactly when no two consumers share a stream. */
  lemma SafeIffOneEach(conds: set<Stream>, streams: seq<Stream>)
    requires forall i | 0 <= i < |streams| :: streams[i] in conds
    ensures (forall es | CanRun(Start(conds, streams), es) ::
        !Run(Start(conds, streams), es).crashed) <==> Distinct(streams)
  {
    if Distinct(streams) {
      forall es | CanRun(Start(conds, streams), es) ensures !Run(Start(conds, streams), es).crashed {
        MailboxSafe(conds, streams, es);
      }
    } else {
      var i, j :| 0 <= i < j < |streams| && streams[i] == streams[j];
      var es := SharedStreamCrashes(conds, streams, i, j);
    }
  }

  // ---- The frames inside a run ----

  function Packets(es: seq<Event>): seq<Packet> {
    if es == [] then []
    else Packets(es[..|es| - 1]) + match es[|es| - 1] case Arrive(p) => [p] case Next(_) => []
  }

  /** Consumers do not influence what is reassembled. */
  lemma {:induction false} FramesOfRun(conds: set<Stream>, streams: seq<Stream>, es: seq<Event>)
    requires CanRun(Start(conds, streams), es)
    ensures R.CanReceiveAll(Packets(es))
    ensures Run(Start(conds, streams), es).frames == R.ReceiveAll(Packets(es))
    decreases es
  {
    if es != [] {
      var before, e := es[..|es| - 1], es[|es| - 1];
      FramesOfRun(conds, streams, before);
      if e.Arrive? {
        R.ReceiveSnoc(Packets(before), e.p);
      } else {
        assert Packets(es) == Packets(before);
      }
    }
  }

  /** Whatever the order of fragments and calls, every frame a consumer gets is one that was sent on
      its stream, byte for byte, and no consumer gets the same frame twice. */
  lemma DeliveredFramesWereSent(sent: R.Sent, conds: set<Stream>, streams: seq<Stream>, es: seq<Event>)
    requires Distinct(streams) && CanRun(Start(conds, streams), es)
    requires R.SentOk(sent) && R.Pieces(sent, Packets(es))
    ensures var s := Run(Start(conds, streams), es);
      && (forall k | 0 <= k < |s.delivered| :: var d := s.delivered[k];
            && d.at <= |s.frames.log|
            && 0 <= Source(s.frames.log, d) < |s.frames.log|
            && var id := s.frames.log[Source(s.frames.log, d)].id;
            id in sent && id.stream == d.stream && d.data == sent[id])
      && (forall j, k | 0 <= j < k < |s.delivered| && s.delivered[j].stream == s.delivered[k].stream ::
            s.frames.log[Source(s.frames.log, s.delivered[j])].id
              != s.frames.log[Source(s.frames.log, s.delivered[k])].id)
  {
    var s := Run(Start(conds, streams), es);
    MailboxSafe(conds, streams, es);
    FramesOfRun(conds, streams, es);
    R.ReassemblyExact(sent, Packets(es));
    assert R.LogExact(sent, Packets(es), s.frames.log);
    forall k | 0 <= k < |s.delivered|
      ensures DeliveryRight(s.frames.log, s.delivered[k])
      ensures var id := s.frames.log[Source(s.frames.log, s.delivered[k])].id;
        id in sent && id.stream == s.delivered[k].stream && s.delivered[k].data == sent[id]
    {
    }
  }
}
