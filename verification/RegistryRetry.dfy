/** The retry chain of signalPeerConnections: how many attempts it takes, and what it does to the list. */
module RegistryRetry {
  import opened Basics
  import opened Registry

  function ClosedCount(ps: seq<Peer>): nat {
    if ps == [] then 0 else (if ps[0].closed then 1 else 0) + ClosedCount(ps[1..])
  }

  /** The clients of the peers that are not closed, in list order. */
  function Open(ps: seq<Peer>): seq<int> {
    if ps == [] then [] else (if ps[0].closed then [] else [ps[0].clientID]) + Open(ps[1..])
  }

  lemma {:induction false} Removed(ps: seq<Peer>, i: nat)
    requires i < |ps| && ps[i].closed
    ensures ClosedCount(ps[..i] + ps[i + 1..]) == ClosedCount(ps) - 1
    ensures Open(ps[..i] + ps[i + 1..]) == Open(ps)
    decreases i
  {
    var rest := ps[..i] + ps[i + 1..];
    if i == 0 {
      assert rest == ps[1..];
    } else {
      assert rest[0] == ps[0];
      assert rest[1..] == ps[1..][..i - 1] + ps[1..][i..];
      Removed(ps[1..], i - 1);
    }
  }

  /** Steps that touch neither the list nor who is closed do not matter here. */
  lemma {:induction false} SameRoster(a: seq<Peer>, b: seq<Peer>)
    requires |a| == |b| && forall i | 0 <= i < |a| :: a[i].closed == b[i].closed && a[i].clientID == b[i].clientID
    ensures ClosedCount(a) == ClosedCount(b) && Open(a) == Open(b)
  {
    if a != [] {
      SameRoster(a[1..], b[1..]);
    }
  }

  // ---- Attempts ----

  /** The attempt asks for a retry because the offer failed. */
  predicate Failure(l: Label) { l.SyncOffer? && !l.ok }

  /** The attempt has gone over the whole list. */
  predicate Success(s: State, l: Label) { l.SyncVisit? && s.sync.Visit? && s.sync.i >= |s.peers| }

  datatype Tally = Tally(begun: nat, retries: nat, failures: nat, successes: nat)

  /** How the attempts of a run ended. */
  ghost function TallyOf(s: State, ls: seq<Label>): Tally
    requires CanRun(s, ls)
    decreases ls
  {
    if ls == [] then Tally(0, 0, 0, 0)
    else
      var n := TallyOf(Apply(s, ls[0]), ls[1..]);
      Tally(n.begun + Bit(ls[0].SyncBegin?), n.retries + Bit(Drops(s, ls[0])),
            n.failures + Bit(Failure(ls[0])), n.successes + Bit(Success(s, ls[0])))
  }

  /** Nobody registers and nobody closes. */
  predicate Settled(l: Label) { !l.Register? && !l.Close? }

  lemma RosterStep(s: State, l: Label)
    requires Enabled(s, l) && Settled(l)
    ensures var s' := Apply(s, l);
            ClosedCount(s'.peers) + Bit(Drops(s, l)) == ClosedCount(s.peers) && Open(s'.peers) == Open(s.peers)
  {
    if Drops(s, l) {
      Removed(s.peers, s.sync.i);
    } else {
      SameRoster(s.peers, Apply(s, l).peers);
    }
  }

  /** An attempt is under way from its begin to its end. */
  lemma AttemptStep(s: State, l: Label)
    requires Enabled(s, l)
    ensures Bit(l.SyncBegin?) + Bit(s.sync != Free) ==
            Bit(Drops(s, l)) + Bit(Failure(l)) + Bit(Success(s, l)) + Bit(Apply(s, l).sync != Free)
  {
  }

  /** Over any run of any interleaving in which nobody registers or closes: each retry over a closed
      peer has dropped exactly one closed peer, and the others keep their order. Every attempt
      that began has ended as a retry, a failure or a success, or is the one under way. */
  lemma {:induction false} AttemptsAccounted(s: State, ls: seq<Label>)
    requires CanRun(s, ls) && forall l | l in ls :: Settled(l)
    ensures var s', n := Run(s, ls), TallyOf(s, ls);
            && ClosedCount(s'.peers) + n.retries == ClosedCount(s.peers)
            && Open(s'.peers) == Open(s.peers)
            && n.begun + Bit(s.sync != Free) == n.retries + n.failures + n.successes + Bit(s'.sync != Free)
    decreases ls
  {
    if ls != [] {
      RosterStep(s, ls[0]);
      AttemptStep(s, ls[0]);
      AttemptsAccounted(Apply(s, ls[0]), ls[1..]);
    }
  }

  /** With k closed peers, no offer failing and no further closings, one of the first k + 1 attempts to
      end is a success. */
  lemma RetryChainEnds(s: State, ls: seq<Label>)
    requires CanRun(s, ls) && s.sync == Free && forall l | l in ls :: Settled(l) && !Failure(l)
    requires Run(s, ls).sync == Free && TallyOf(s, ls).begun > ClosedCount(s.peers)
    ensures TallyOf(s, ls).successes > 0
  {
    AttemptsAccounted(s, ls);
    NoFailures(s, ls);
  }

  lemma {:induction false} NoFailures(s: State, ls: seq<Label>)
    requires CanRun(s, ls) && forall l | l in ls :: !Failure(l)
    ensures TallyOf(s, ls).failures == 0
    decreases ls
  {
    if ls != [] {
      NoFailures(Apply(s, ls[0]), ls[1..]);
    }
  }
}
