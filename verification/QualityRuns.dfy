/** Quality decisions in runs: the locks are released after each, so other steps can come in between. */
module QualityRuns {
  import opened Registry
  import opened RegistryRuns

  /** The step decides for the track of the peer at position `i`, and the decision is adopted. */
  predicate Decides(s: State, l: Label, i: nat, id: string)
    requires i < |s.peers|
  {
    && l.SetQuality? && l.p == i && l.id == id
    && (l.q < 0 || Available(s.qualities, id, l.q) || id !in s.peers[i].registered)
  }

  /** So does step `k` of the run, in the state it finds. */
  ghost predicate DecidesAt(s: State, ls: seq<Label>, k: nat, i: nat, id: string)
    requires CanRun(s, ls) && k < |ls|
    decreases ls
  {
    if k == 0 then i < |s.peers| && Decides(s, ls[0], i, id) else DecidesAt(Apply(s, ls[0]), ls[1..], k - 1, i, id)
  }

  lemma OneStep(s: State, l: Label, i: nat, id: string)
    requires Enabled(s, l) && !OfSync(l) && i < |s.peers| && id in s.peers[i].decisions
    ensures var s' := Apply(s, l);
            && i < |s'.peers| && id in s'.peers[i].decisions
            && s'.peers[i].decisions[id] == if Decides(s, l, i, id) then l.q else s.peers[i].decisions[id]
  {
  }

  ghost predicate LastDecides(s: State, ls: seq<Label>, k: nat, i: nat, id: string)
    requires CanRun(s, ls)
  {
    k < |ls| && DecidesAt(s, ls, k, i, id) && forall j: nat | k < j < |ls| :: !DecidesAt(s, ls, j, i, id)
  }

  ghost predicate NoneDecides(s: State, ls: seq<Label>, i: nat, id: string)
    requires CanRun(s, ls)
  {
    forall j: nat | j < |ls| :: !DecidesAt(s, ls, j, i, id)
  }

  /** Between two synchronizations, whatever else happens in between and whoever else decides: the decision
      for a track is the last one that was adopted for it, each judged by the qualities that were available
      at its time, or the one it had. */
  lemma {:induction false} LastAdoptedWins(s: State, ls: seq<Label>, i: nat, id: string)
    requires CanRun(s, ls) && (forall l | l in ls :: !OfSync(l)) && i < |s.peers| && id in s.peers[i].decisions
    ensures i < |Run(s, ls).peers| && id in Run(s, ls).peers[i].decisions
    ensures forall k: nat | LastDecides(s, ls, k, i, id) ::
        ls[k].SetQuality? && Run(s, ls).peers[i].decisions[id] == ls[k].q
    ensures NoneDecides(s, ls, i, id) ==> Run(s, ls).peers[i].decisions[id] == s.peers[i].decisions[id]
    decreases ls
  {
    if ls != [] {
      var s', rest := Apply(s, ls[0]), ls[1..];
      OneStep(s, ls[0], i, id);
      LastAdoptedWins(s', rest, i, id);
      forall k: nat | LastDecides(s, ls, k, i, id)
        ensures ls[k].SetQuality? && Run(s', rest).peers[i].decisions[id] == ls[k].q
      {
        LastInRest(s, ls, k, i, id);
      }
      if NoneDecides(s, ls, i, id) {
        assert !DecidesAt(s, ls, 0, i, id);
        NoneInRest(s, ls, i, id);
      }
    }
  }

  lemma NoneInRest(s: State, ls: seq<Label>, i: nat, id: string)
    requires CanRun(s, ls) && ls != [] && forall j: nat | 0 < j < |ls| :: !DecidesAt(s, ls, j, i, id)
    ensures NoneDecides(Apply(s, ls[0]), ls[1..], i, id)
  {
    forall j: nat | j < |ls| - 1 ensures !DecidesAt(Apply(s, ls[0]), ls[1..], j, i, id) {
      assert !DecidesAt(s, ls, j + 1, i, id);
    }
  }

  lemma LastInRest(s: State, ls: seq<Label>, k: nat, i: nat, id: string)
    requires CanRun(s, ls) && LastDecides(s, ls, k, i, id) && i < |s.peers|
    ensures if k == 0 then Decides(s, ls[0], i, id) && NoneDecides(Apply(s, ls[0]), ls[1..], i, id)
            else LastDecides(Apply(s, ls[0]), ls[1..], k - 1, i, id)
  {
    if k == 0 {
      NoneInRest(s, ls, i, id);
    } else {
      forall j: nat | k - 1 < j < |ls| - 1 ensures !DecidesAt(Apply(s, ls[0]), ls[1..], j, i, id) {
        assert !DecidesAt(s, ls, j + 1, i, id);
      }
    }
  }
}
