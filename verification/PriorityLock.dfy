/**
 The priority lock of peer/priority_lock.go: three mutexes and a wait group shared by any number
 of threads. A thread works through a script of lock/unlock pairs, each of low or high priority;
 one step of a thread is one call on a mutex or on the wait group.
 */
module PriorityLock {
  import opened Basics

  datatype Kind = Low | High

  /** How far a thread has got through its current lock/unlock pair. */
  datatype PC =
    | Idle
    | LowQueued   // holds lowPriorityMutex, about to wait for the wait group
    | LowPassed   // the wait has returned
    | LowNext     // holds nextToAccess as well
    | LowData     // holds dataMutex as well
    | LowIn       // Lock has returned: nextToAccess is released
    | LowOut      // Unlock has released dataMutex, not yet lowPriorityMutex
    | HighAdded   // counted in the wait group
    | HighNext    // holds nextToAccess
    | HighData    // holds dataMutex as well
    | HighIn      // HighPriorityLock has returned
    | HighOut     // HighPriorityUnlock has released dataMutex, not yet called Done

  /** `script` lists the pairs a thread has still to start. */
  datatype Thread = Thread(pc: PC, script: seq<Kind>)

  /** A Go mutex does not record its owner, so each is a single bit. */
  datatype State = State(
    dataMutex: bool, nextToAccess: bool, lowPriorityMutex: bool,
    highPriorityWaiting: int, threads: seq<Thread>)

  predicate HoldsData(pc: PC) { pc in {LowData, LowIn, HighData, HighIn} }

  predicate HoldsNext(pc: PC) { pc in {LowNext, LowData, HighNext, HighData} }

  predicate HoldsLow(pc: PC) { pc in {LowQueued, LowPassed, LowNext, LowData, LowIn, LowOut} }

  /** Between Add and Done. */
  predicate Counted(pc: PC) { pc in {HighAdded, HighNext, HighData, HighIn, HighOut} }

  /** A low-priority thread that got past the wait but not yet into the critical section. */
  predicate PastWait(pc: PC) { pc == LowPassed || pc == LowNext }

  predicate Finished(th: Thread) { th.pc == Idle && th.script == [] }

  predicate AllFinished(s: State) {
    forall t :: 0 <= t < |s.threads| ==> Finished(s.threads[t])
  }

  /** Whether the next call of thread `t` returns without blocking. */
  predicate Enabled(s: State, t: nat) {
    t < |s.threads| &&
    match s.threads[t].pc
    case Idle =>
      s.threads[t].script != [] && (s.threads[t].script[0] == Low ==> !s.lowPriorityMutex)
    case LowQueued => s.highPriorityWaiting == 0
    case LowPassed | HighAdded => !s.nextToAccess
    case LowNext | HighNext => !s.dataMutex
    case _ => true
  }

  /** The thread after its next call. */
  function Advance(th: Thread): Thread
    requires !Finished(th)
  {
    match th.pc
    case Idle => Thread(if th.script[0] == Low then LowQueued else HighAdded, th.script[1..])
    case LowQueued => th.(pc := LowPassed)
    case LowPassed => th.(pc := LowNext)
    case LowNext => th.(pc := LowData)
    case LowData => th.(pc := LowIn)
    case LowIn => th.(pc := LowOut)
    case LowOut => th.(pc := Idle)
    case HighAdded => th.(pc := HighNext)
    case HighNext => th.(pc := HighData)
    case HighData => th.(pc := HighIn)
    case HighIn => th.(pc := HighOut)
    case HighOut => th.(pc := Idle)
  }

  /** What the next call of thread `t` does to the four fields of the lock. */
  function Step(s: State, t: nat): State
    requires Enabled(s, t)
  {
    var th := s.threads[t];
    var s' := s.(threads := s.threads[t := Advance(th)]);
    match th.pc
    case Idle =>
      if th.script[0] == Low then s'.(lowPriorityMutex := true)
      else s'.(highPriorityWaiting := s.highPriorityWaiting + 1)
    case LowQueued => s'
    case LowPassed | HighAdded => s'.(nextToAccess := true)
    case LowNext | HighNext => s'.(dataMutex := true)
    case LowData | HighData => s'.(nextToAccess := false)
    case LowIn | HighIn => s'.(dataMutex := false)
    case LowOut => s'.(lowPriorityMutex := false)
    case HighOut => s'.(highPriorityWaiting := s.highPriorityWaiting - 1)
  }

  /** A freshly made lock and threads that have not started their scripts. */
  function Initial(scripts: seq<seq<Kind>>): State {
    State(false, false, false, 0, seq(|scripts|, i requires 0 <= i < |scripts| => Thread(Idle, scripts[i])))
  }

  // ---- Runs: a schedule names the thread that makes each step ----

  predicate CanRun(s: State, schedule: seq<nat>)
    decreases schedule
  {
    schedule == [] ||
    (Enabled(s, schedule[0]) && CanRun(Step(s, schedule[0]), schedule[1..]))
  }

  function Run(s: State, schedule: seq<nat>): State
    requires CanRun(s, schedule)
    decreases schedule
  {
    if schedule == [] then s else Run(Step(s, schedule[0]), schedule[1..])
  }

  /** Whether the next step of thread `t` locks dataMutex for a request of the given kind. */
  predicate Enters(s: State, t: nat, k: Kind)
    requires t < |s.threads|
  {
    s.threads[t].pc == if k == Low then LowNext else HighNext
  }

  /** How many times a run enters the critical section with the given priority. */
  function Entries(s: State, schedule: seq<nat>, k: Kind): nat
    requires CanRun(s, schedule)
    decreases schedule
  {
    if schedule == [] then 0
    else (if Enters(s, schedule[0], k) then 1 else 0) + Entries(Step(s, schedule[0]), schedule[1..], k)
  }

  /** Thread `h` has executed Add and does not reach its Done anywhere in the run. */
  predicate CountedThroughout(s: State, schedule: seq<nat>, h: nat)
    requires CanRun(s, schedule)
    decreases schedule
  {
    h < |s.threads| && Counted(s.threads[h].pc) &&
    (schedule != [] ==> CountedThroughout(Step(s, schedule[0]), schedule[1..], h))
  }

  // ---- Counting threads ----

  function Count(ts: seq<Thread>, f: PC -> bool): nat {
    if ts == [] then 0 else (if f(ts[0].pc) then 1 else 0) + Count(ts[1..], f)
  }

  lemma {:induction false} CountUpdate(ts: seq<Thread>, i: nat, th: Thread, f: PC -> bool)
    requires i < |ts|
    ensures Count(ts[i := th], f)
         == Count(ts, f) - (if f(ts[i].pc) then 1 else 0) + (if f(th.pc) then 1 else 0)
  {
    if i > 0 {
      assert ts[i := th][1..] == ts[1..][i - 1 := th];
      CountUpdate(ts[1..], i - 1, th, f);
    } else {
      assert ts[i := th][1..] == ts[1..];
    }
  }

  lemma {:induction false} CountWitness(ts: seq<Thread>, f: PC -> bool) returns (i: nat)
    requires Count(ts, f) > 0
    ensures i < |ts| && f(ts[i].pc)
  {
    if f(ts[0].pc) {
      i := 0;
    } else {
      i := CountWitness(ts[1..], f);
      i := i + 1;
    }
  }

  lemma {:induction false} CountMember(ts: seq<Thread>, i: nat, f: PC -> bool)
    requires i < |ts| && f(ts[i].pc)
    ensures Count(ts, f) >= 1
  {
    if i > 0 {
      CountMember(ts[1..], i - 1, f);
    }
  }

  lemma {:induction false} CountTwo(ts: seq<Thread>, i: nat, j: nat, f: PC -> bool)
    requires i < j < |ts| && f(ts[i].pc) && f(ts[j].pc)
    ensures Count(ts, f) >= 2
  {
    if i > 0 {
      CountTwo(ts[1..], i - 1, j - 1, f);
    } else {
      CountMember(ts[1..], j - 1, f);
    }
  }

  lemma {:induction false} CountMonotone(ts: seq<Thread>, f: PC -> bool, g: PC -> bool)
    requires forall pc :: f(pc) ==> g(pc)
    ensures Count(ts, f) <= Count(ts, g)
  {
    if ts != [] {
      CountMonotone(ts[1..], f, g);
    }
  }

  lemma {:induction false} CountNone(ts: seq<Thread>, f: PC -> bool)
    requires forall i :: 0 <= i < |ts| ==> !f(ts[i].pc)
    ensures Count(ts, f) == 0
  {
    if ts != [] {
      CountNone(ts[1..], f);
    }
  }

  // ---- The invariant ----

  ghost predicate Inv(s: State) {
    && Count(s.threads, HoldsData) == Bit(s.dataMutex)
    && Count(s.threads, HoldsNext) == Bit(s.nextToAccess)
    && Count(s.threads, HoldsLow) == Bit(s.lowPriorityMutex)
    && Count(s.threads, Counted) == s.highPriorityWaiting
  }

  lemma InitialInv(scripts: seq<seq<Kind>>)
    ensures Inv(Initial(scripts))
  {
    var ts := Initial(scripts).threads;
    CountNone(ts, HoldsData);
    CountNone(ts, HoldsNext);
    CountNone(ts, HoldsLow);
    CountNone(ts, Counted);
  }

  lemma StepCount(s: State, t: nat, f: PC -> bool)
    requires Enabled(s, t)
    ensures var th := s.threads[t];
      Count(Step(s, t).threads, f)
        == Count(s.threads, f) - (if f(th.pc) then 1 else 0) + (if f(Advance(th).pc) then 1 else 0)
  {
    CountUpdate(s.threads, t, Advance(s.threads[t]), f);
  }

  lemma StepMutexes(s: State, t: nat)
    requires Inv(s) && Enabled(s, t)
    ensures Count(Step(s, t).threads, HoldsData) == Bit(Step(s, t).dataMutex)
    ensures Count(Step(s, t).threads, HoldsNext) == Bit(Step(s, t).nextToAccess)
  {
    StepCount(s, t, HoldsData);
    StepCount(s, t, HoldsNext);
  }

  lemma StepInv(s: State, t: nat)
    requires Inv(s) && Enabled(s, t)
    ensures Inv(Step(s, t))
  {
    StepMutexes(s, t);
    StepCount(s, t, HoldsLow);
    StepCount(s, t, Counted);
  }

  lemma {:induction false} RunInv(s: State, schedule: seq<nat>)
    requires Inv(s) && CanRun(s, schedule)
    ensures Inv(Run(s, schedule))
    decreases schedule
  {
    if schedule != [] {
      StepInv(s, schedule[0]);
      RunInv(Step(s, schedule[0]), schedule[1..]);
    }
  }

  /** In every reachable state at most one thread holds dataMutex, at most one nextToAccess, at most one
      low-priority thread is past lowPriorityMutex, and the wait group counts the threads between Add and
      Done. */
  lemma Safety(scripts: seq<seq<Kind>>, schedule: seq<nat>)
    requires CanRun(Initial(scripts), schedule)
    ensures var s := Run(Initial(scripts), schedule);
      && (forall i, j | 0 <= i < j < |s.threads| :: !(HoldsData(s.threads[i].pc) && HoldsData(s.threads[j].pc)))
      && (forall i, j | 0 <= i < j < |s.threads| :: !(HoldsNext(s.threads[i].pc) && HoldsNext(s.threads[j].pc)))
      && (forall i, j | 0 <= i < j < |s.threads| :: !(HoldsLow(s.threads[i].pc) && HoldsLow(s.threads[j].pc)))
      && s.highPriorityWaiting == Count(s.threads, Counted) >= 0
  {
    InitialInv(scripts);
    RunInv(Initial(scripts), schedule);
    var s := Run(Initial(scripts), schedule);
    forall i, j | 0 <= i < j < |s.threads| && HoldsData(s.threads[i].pc)
      ensures !HoldsData(s.threads[j].pc)
    {
      if HoldsData(s.threads[j].pc) { CountTwo(s.threads, i, j, HoldsData); }
    }
    forall i, j | 0 <= i < j < |s.threads| && HoldsNext(s.threads[i].pc)
      ensures !HoldsNext(s.threads[j].pc)
    {
      if HoldsNext(s.threads[j].pc) { CountTwo(s.threads, i, j, HoldsNext); }
    }
    forall i, j | 0 <= i < j < |s.threads| && HoldsLow(s.threads[i].pc)
      ensures !HoldsLow(s.threads[j].pc)
    {
      if HoldsLow(s.threads[j].pc) { CountTwo(s.threads, i, j, HoldsLow); }
    }
  }

  // ---- Bounded overtaking ----

  /** While some high-priority thread is counted nobody passes the wait, so every low-priority
      entry uses up one of the threads that had passed it before. */
  lemma {:induction false} EntriesSpendPastWait(s: State, schedule: seq<nat>, h: nat)
    requires Inv(s) && CanRun(s, schedule) && CountedThroughout(s, schedule, h)
    ensures Entries(s, schedule, Low) + Count(Run(s, schedule).threads, PastWait) == Count(s.threads, PastWait)
    decreases schedule
  {
    if schedule != [] {
      var t := schedule[0];
      CountMember(s.threads, h, Counted);
      CountUpdate(s.threads, t, Advance(s.threads[t]), PastWait);
      StepInv(s, t);
      EntriesSpendPastWait(Step(s, t), schedule[1..], h);
    }
  }

  lemma {:induction false} CanRunAppend(s: State, a: seq<nat>, b: seq<nat>)
    requires CanRun(s, a) && CanRun(Run(s, a), b)
    ensures CanRun(s, a + b) && Run(s, a + b) == Run(Run(s, a), b)
    decreases a
  {
    if a == [] {
      assert a + b == b;
    } else {
      assert (a + b)[1..] == a[1..] + b;
      CanRunAppend(Step(s, a[0]), a[1..], b);
    }
  }

  /** In every run, between the Add of a high-priority thread and its Done at most one low-priority
      request enters the critical section, and none does unless it had passed the wait before the Add. */
  lemma BoundedOvertaking(scripts: seq<seq<Kind>>, before: seq<nat>, h: nat, during: seq<nat>)
    requires CanRun(Initial(scripts), before)
    requires var s := Run(Initial(scripts), before);
      && Enabled(s, h) && s.threads[h].pc == Idle && s.threads[h].script[0] == High
      && CanRun(Step(s, h), during) && CountedThroughout(Step(s, h), during, h)
    ensures var s := Run(Initial(scripts), before);
      && Entries(Step(s, h), during, Low) <= Count(s.threads, PastWait) <= 1
  {
    InitialInv(scripts);
    RunInv(Initial(scripts), before);
    var s := Run(Initial(scripts), before);
    StepInv(s, h);
    EntriesSpendPastWait(Step(s, h), during, h);
    CountUpdate(s.threads, h, Advance(s.threads[h]), PastWait);
    CountMonotone(s.threads, PastWait, HoldsLow);
  }

  /** The bound is reached: a low-priority thread that passed the wait first gets in before the
      high-priority thread that added itself afterwards. */
  lemma OvertakingReached()
    ensures var start := Initial([[Low], [High]]);
      && CanRun(start, [0, 0]) && Enabled(Run(start, [0, 0]), 1)
      && var s := Step(Run(start, [0, 0]), 1);
      && CanRun(s, [0, 0]) && CountedThroughout(s, [0, 0], 1) && Entries(s, [0, 0], Low) == 1
  {
    var start := Initial([[Low], [High]]);
    var a := Step(start, 0);
    assert [0, 0][1..] == [0];
    assert CanRun(a, [0]);
    var b := Step(a, 0);
    assert Run(start, [0, 0]) == Run(a, [0]) == b;
    var c := Step(b, 1);
    var d := Step(c, 0);
    assert CanRun(d, [0]) && Enters(d, 0, Low) && !Enters(c, 0, Low);
    assert CountedThroughout(Step(d, 0), [], 1) && CountedThroughout(d, [0], 1);
    assert Entries(d, [0], Low) == 1;
  }

  // ---- Progress ----

  /** Whenever a request is pending, some thread can make a step. */
  lemma SomeThreadCanStep(s: State) returns (t: nat)
    requires Inv(s) && !AllFinished(s)
    ensures Enabled(s, t)
  {
    if s.dataMutex {
      t := CountWitness(s.threads, HoldsData);
    } else if s.nextToAccess {
      t := CountWitness(s.threads, HoldsNext);
    } else if s.highPriorityWaiting > 0 {
      t := CountWitness(s.threads, Counted);
    } else if s.lowPriorityMutex {
      t := CountWitness(s.threads, HoldsLow);
    } else {
      t :| t < |s.threads| && !Finished(s.threads[t]);
      if HoldsLow(s.threads[t].pc) { CountMember(s.threads, t, HoldsLow); }
      if Counted(s.threads[t].pc) { CountMember(s.threads, t, Counted); }
    }
  }

  /** Calls a thread still has to make: seven for a low-priority pair, six for a high-priority one. */
  function Work(th: Thread): nat {
    ScriptWork(th.script) +
    match th.pc
    case Idle => 0
    case LowQueued => 6
    case LowPassed => 5
    case LowNext | HighAdded => if th.pc == LowNext then 4 else 5
    case LowData => 3
    case LowIn => 2
    case LowOut => 1
    case HighNext => 4
    case HighData => 3
    case HighIn => 2
    case HighOut => 1
  }

  function ScriptWork(script: seq<Kind>): nat {
    if script == [] then 0 else (if script[0] == Low then 7 else 6) + ScriptWork(script[1..])
  }

  function Total(ts: seq<Thread>, f: Thread -> nat): nat {
    if ts == [] then 0 else f(ts[0]) + Total(ts[1..], f)
  }

  lemma {:induction false} TotalUpdate(ts: seq<Thread>, i: nat, th: Thread, f: Thread -> nat)
    requires i < |ts|
    ensures Total(ts[i := th], f) == Total(ts, f) - f(ts[i]) + f(th)
  {
    if i > 0 {
      assert ts[i := th][1..] == ts[1..][i - 1 := th];
      TotalUpdate(ts[1..], i - 1, th, f);
    } else {
      assert ts[i := th][1..] == ts[1..];
    }
  }

  lemma {:induction false} TotalZero(ts: seq<Thread>, f: Thread -> nat)
    requires forall i :: 0 <= i < |ts| ==> f(ts[i]) == 0
    ensures Total(ts, f) == 0
  {
    if ts != [] { TotalZero(ts[1..], f); }
  }

  /** Requests of a kind in a script. */
  function Requests(script: seq<Kind>, k: Kind): nat {
    if script == [] then 0 else (if script[0] == k then 1 else 0) + Requests(script[1..], k)
  }

  /** Requests of a kind a thread has still to bring into the critical section. */
  function Unserved(th: Thread, k: Kind): nat {
    Requests(th.script, k) +
    if (if k == Low then th.pc in {LowQueued, LowPassed, LowNext} else th.pc in {HighAdded, HighNext})
    then 1 else 0
  }

  function UnservedOf(k: Kind): Thread -> nat { th => Unserved(th, k) }

  function RequestsOf(k: Kind): Thread -> nat { (th: Thread) => Requests(th.script, k) }

  lemma AdvanceWork(th: Thread)
    requires !Finished(th)
    ensures Work(Advance(th)) == Work(th) - 1
  {
  }

  lemma AdvanceUnserved(s: State, t: nat, k: Kind)
    requires Enabled(s, t)
    ensures Unserved(s.threads[t], k) == Unserved(Advance(s.threads[t]), k) + if Enters(s, t, k) then 1 else 0
  {
  }

  /** Every step uses up one unit of work and every entry serves exactly one request. */
  lemma {:induction false} RunAccounts(s: State, schedule: seq<nat>, k: Kind)
    requires CanRun(s, schedule)
    ensures Total(Run(s, schedule).threads, Work) + |schedule| == Total(s.threads, Work)
    ensures Total(Run(s, schedule).threads, UnservedOf(k)) + Entries(s, schedule, k)
         == Total(s.threads, UnservedOf(k))
    decreases schedule
  {
    if schedule != [] {
      var t := schedule[0];
      var th := Advance(s.threads[t]);
      assert !Finished(s.threads[t]);
      AdvanceWork(s.threads[t]);
      AdvanceUnserved(s, t, k);
      TotalUpdate(s.threads, t, th, Work);
      TotalUpdate(s.threads, t, th, UnservedOf(k));
      RunAccounts(Step(s, t), schedule[1..], k);
    }
  }

  /** Every run of a finite batch is finite, and one that cannot be continued has served every
      request exactly once and left the lock as it was made. */
  lemma EveryRunServesAll(scripts: seq<seq<Kind>>, schedule: seq<nat>, k: Kind)
    requires CanRun(Initial(scripts), schedule)
    ensures |schedule| <= Total(Initial(scripts).threads, Work)
    ensures var s := Run(Initial(scripts), schedule);
      (forall t: nat :: !Enabled(s, t)) ==>
        && |schedule| == Total(Initial(scripts).threads, Work)
        && Entries(Initial(scripts), schedule, k) == Total(Initial(scripts).threads, RequestsOf(k))
        && AllFinished(s)
        && !s.dataMutex && !s.nextToAccess && !s.lowPriorityMutex && s.highPriorityWaiting == 0
  {
    var start := Initial(scripts);
    var s := Run(start, schedule);
    RunAccounts(start, schedule, k);
    if forall t: nat :: !Enabled(s, t) {
      InitialInv(scripts);
      RunInv(start, schedule);
      if !AllFinished(s) {
        var t := SomeThreadCanStep(s);
        assert false;
      }
      TotalZero(s.threads, Work);
      TotalZero(s.threads, UnservedOf(k));
      TotalSame(start.threads, UnservedOf(k), RequestsOf(k));
      CountNone(s.threads, HoldsData);
      CountNone(s.threads, HoldsNext);
      CountNone(s.threads, HoldsLow);
      CountNone(s.threads, Counted);
    }
  }

  lemma {:induction false} TotalSame(ts: seq<Thread>, f: Thread -> nat, g: Thread -> nat)
    requires forall i :: 0 <= i < |ts| ==> f(ts[i]) == g(ts[i])
    ensures Total(ts, f) == Total(ts, g)
  {
    if ts != [] { TotalSame(ts[1..], f, g); }
  }

  // ---- The lock as an object ----

  /** The lock and the threads that use it. Each method makes one call of the body of the function
      it is named after, for thread `t`; `ran` is false when that call blocks. */
  class PriorityPreferenceLock {
    var dataMutex: bool
    var nextToAccess: bool
    var lowPriorityMutex: bool
    var highPriorityWaiting: int
    var threads: seq<Thread>

    ghost function View(): State
      reads this
    {
      State(dataMutex, nextToAccess, lowPriorityMutex, highPriorityWaiting, threads)
    }

    /** Thread `t` has made one call and is at `pc`; the other threads are where they were. */
    twostate predicate Called(new t: nat, new pc: PC)
      reads this
    {
      && t < |threads| == |old(threads)| && threads[t].pc == pc
      && forall i | 0 <= i < |threads| && i != t :: threads[i] == old(threads)[i]
    }

    constructor (scripts: seq<seq<Kind>>)
      ensures View() == Initial(scripts)
    {
      dataMutex, nextToAccess, lowPriorityMutex, highPriorityWaiting := false, false, false, 0;
      threads := seq(|scripts|, i requires 0 <= i < |scripts| => Thread(Idle, scripts[i]));
    }

    method Lock(t: nat) returns (ran: bool)
      requires t < |threads|
      requires threads[t].pc in {LowQueued, LowPassed, LowNext, LowData}
            || (threads[t].pc == Idle && threads[t].script != [] && threads[t].script[0] == Low)
      modifies this
      ensures ran == Enabled(old(View()), t)
      ensures View() == if ran then Step(old(View()), t) else old(View())
      ensures match old(threads[t].pc)
              case Idle => ran == !old(lowPriorityMutex) && (ran ==> Called(t, LowQueued)) && lowPriorityMutex
              case LowQueued => ran == (old(highPriorityWaiting) == 0) && (ran ==> Called(t, LowPassed))
              case LowPassed => ran == !old(nextToAccess) && (ran ==> Called(t, LowNext)) && nextToAccess
              case LowNext => ran == !old(dataMutex) && (ran ==> Called(t, LowData)) && dataMutex
              case _ => ran && Called(t, LowIn) && !nextToAccess
    {
      match threads[t].pc {
        case Idle =>
          if lowPriorityMutex { return false; }
          lowPriorityMutex := true;
        case LowQueued =>
          if highPriorityWaiting != 0 { return false; }
        case LowPassed =>
          if nextToAccess { return false; }
          nextToAccess := true;
        case LowNext =>
          if dataMutex { return false; }
          dataMutex := true;
        case LowData =>
          nextToAccess := false;
      }
      threads := threads[t := Advance(threads[t])];
      ran := true;
    }

    method Unlock(t: nat) returns (ran: bool)
      requires t < |threads| && threads[t].pc in {LowIn, LowOut}
      modifies this
      ensures ran && Enabled(old(View()), t) && View() == Step(old(View()), t)
      ensures if old(threads[t].pc) == LowIn then Called(t, LowOut) && !dataMutex
              else Called(t, Idle) && !lowPriorityMutex
    {
      match threads[t].pc {
        case LowIn => dataMutex := false;
        case LowOut => lowPriorityMutex := false;
      }
      threads := threads[t := Advance(threads[t])];
      ran := true;
    }

    method HighPriorityLock(t: nat) returns (ran: bool)
      requires t < |threads|
      requires threads[t].pc in {HighAdded, HighNext, HighData}
            || (threads[t].pc == Idle && threads[t].script != [] && threads[t].script[0] == High)
      modifies this
      ensures ran == Enabled(old(View()), t)
      ensures View() == if ran then Step(old(View()), t) else old(View())
      ensures match old(threads[t].pc)
              case Idle => ran && Called(t, HighAdded) && highPriorityWaiting == old(highPriorityWaiting) + 1
              case HighAdded => ran == !old(nextToAccess) && (ran ==> Called(t, HighNext)) && nextToAccess
              case HighNext => ran == !old(dataMutex) && (ran ==> Called(t, HighData)) && dataMutex
              case _ => ran && Called(t, HighIn) && !nextToAccess
    {
      match threads[t].pc {
        case Idle =>
          highPriorityWaiting := highPriorityWaiting + 1;
        case HighAdded =>
          if nextToAccess { return false; }
          nextToAccess := true;
        case HighNext =>
          if dataMutex { return false; }
          dataMutex := true;
        case HighData =>
          nextToAccess := false;
      }
      threads := threads[t := Advance(threads[t])];
      ran := true;
    }

    method HighPriorityUnlock(t: nat) returns (ran: bool)
      requires t < |threads| && threads[t].pc in {HighIn, HighOut}
      modifies this
      ensures ran && Enabled(old(View()), t) && View() == Step(old(View()), t)
      ensures if old(threads[t].pc) == HighIn then Called(t, HighOut) && !dataMutex
              else Called(t, Idle) && highPriorityWaiting == old(highPriorityWaiting) - 1
    {
      match threads[t].pc {
        case HighIn => dataMutex := false;
        case HighOut => highPriorityWaiting := highPriorityWaiting - 1;
      }
      threads := threads[t := Advance(threads[t])];
      ran := true;
    }
  }
}
