/** Shutdown of the worker supervisor in infinite runs: under fair scheduling a cancelled supervisor always closes
    done, whatever its goroutines choose. */
module SupervisorLiveness {
  import opened Foundation
  import opened Runs
  import opened WorkerSupervision

  type Behaviour = nat -> State

  ghost predicate IsBehaviour(n: nat, f: Behaviour) { IsInfiniteRun(f, Init(n), Steps) }

  // ---------------------------------------------------------------- fairness

  ghost predicate StarterEnabled(s: State) { Shape(s) && exists o :: DoStarter(s, o).Some? }

  ghost predicate WorkerEnabled(s: State, k: nat) { k < |s.entries| && DoWorker(s, k).Some? }

  ghost predicate BeatEnabled(s: State, k: nat) { k < |s.entries| && exists choice :: DoBeat(s, k, choice).Some? }

  ghost predicate CloserEnabled(s: State) { DoCloser(s).Some? }

  ghost predicate WorkerMoves(s: State, t: State, k: nat) {
    k < |s.entries| && k < |t.entries| && t.entries[k].worker != s.entries[k].worker
  }

  ghost predicate BeatMoves(s: State, t: State, k: nat) {
    k < |s.entries| && k < |t.entries| && t.entries[k].beat != s.entries[k].beat
  }

  /** A heartbeat that waits for its ticker while the context is done: both branches of its select are open. */
  ghost predicate MayLeave(s: State, k: nat) { k < |s.entries| && s.cancelled && s.entries[k].beat == Waiting }

  ghost predicate Leaves(s: State, t: State, k: nat) {
    MayLeave(s, k) && k < |t.entries| && t.entries[k].beat == LeavingBeat
  }

  ghost predicate StarterServed(f: Behaviour, j: nat) { StarterEnabled(f(j)) ==> f(j + 1).starter != f(j).starter }

  ghost predicate WorkerServed(f: Behaviour, k: nat, j: nat) {
    WorkerEnabled(f(j), k) ==> WorkerMoves(f(j), f(j + 1), k)
  }

  ghost predicate BeatServed(f: Behaviour, k: nat, j: nat) { BeatEnabled(f(j), k) ==> BeatMoves(f(j), f(j + 1), k) }

  ghost predicate CloserServed(f: Behaviour, j: nat) { CloserEnabled(f(j)) ==> f(j + 1).closer != f(j).closer }

  ghost predicate StarterServedAfter(f: Behaviour, i: nat) { exists j: nat :: j >= i && StarterServed(f, j) }

  ghost predicate WorkerServedAfter(f: Behaviour, k: nat, i: nat) { exists j: nat :: j >= i && WorkerServed(f, k, j) }

  ghost predicate BeatServedAfter(f: Behaviour, k: nat, i: nat) { exists j: nat :: j >= i && BeatServed(f, k, j) }

  ghost predicate CloserServedAfter(f: Behaviour, i: nat) { exists j: nat :: j >= i && CloserServed(f, j) }

  ghost predicate MayLeaveAfter(f: Behaviour, k: nat, i: nat) { exists j: nat :: j >= i && MayLeave(f(j), k) }

  ghost predicate LeavesAt(f: Behaviour, k: nat, j: nat) { Leaves(f(j), f(j + 1), k) }

  ghost predicate LeavesAfter(f: Behaviour, k: nat, i: nat) { exists j: nat :: j >= i && LeavesAt(f, k, j) }

  /** Once the context is cancelled no goroutine is passed over for ever: each one is, again and again, either
      unable to move or moved. Of a running worker this asks that its code returns. */
  ghost predicate WeaklyFair(n: nat, f: Behaviour, from: nat) {
    && (forall i: nat {:trigger StarterServedAfter(f, i)} :: i >= from ==> StarterServedAfter(f, i))
    && (forall i: nat, k: nat {:trigger WorkerServedAfter(f, k, i)} ::
      i >= from && k < n ==> WorkerServedAfter(f, k, i))
    && (forall i: nat, k: nat {:trigger BeatServedAfter(f, k, i)} :: i >= from && k < n ==> BeatServedAfter(f, k, i))
    && (forall i: nat {:trigger CloserServedAfter(f, i)} :: i >= from ==> CloserServedAfter(f, i))
  }

  ghost predicate OftenMayLeave(f: Behaviour, k: nat, from: nat) {
    forall i: nat {:trigger MayLeaveAfter(f, k, i)} :: i >= from ==> MayLeaveAfter(f, k, i)
  }

  /** The select of a heartbeat does not prefer the ticker for ever. */
  ghost predicate SelectsFairly(n: nat, f: Behaviour, from: nat) {
    forall k: nat, i: nat {:trigger LeavesAfter(f, k, i)} ::
      k < n && i >= from && OftenMayLeave(f, k, from) ==> LeavesAfter(f, k, i)
  }

  // ---------------------------------------------------------------- what one step does once Start was called

  /** How many steps Start can still take. */
  function StartLeft(s: State): nat
    requires Shape(s)
  {
    var n := |s.entries|;
    match s.starter
    case NotCalled => 0
    case Allocating => 20 * (n + 1)
    case AtEntry(k) => 20 * (n - k) + 15
    case Spawning(k) => 20 * (n - k) + 14
    case AwaitingReady(k) => 20 * (n - k) + 13
    case Marking(k) => 20 * (n - k) + 12
    case AskingReporter(k) => 20 * (n - k) + 11
    case ReadingHealth(k) => 20 * (n - k) + 10
    case Reporting(k, _) => 20 * (n - k) + 9
    case SpawningBeat(k) => 20 * (n - k) + 8
    case FailingEntry(k) => 20 * (n - k) + 7
    case LaunchingCloser(_, _) => 2
    case Draining => 1
    case Returned(_) => 0
  }

  /** StartLeft for every state, reachable or not. */
  ghost function StartMeasure(s: State): nat { if Shape(s) then StartLeft(s) else 0 }

  lemma OwnStepProgress(s: State, o: Outcome, t: State)
    requires Shape(s) && Shape(t) && s.starter != NotCalled && DoStarter(s, o) == Some(t)
    ensures StartLeft(t) < StartLeft(s) && t.starter != NotCalled && t.cancelled == s.cancelled
  {
  }

  lemma OthersLeaveStart(s: State, a: Action, t: State)
    requires Shape(s) && s.starter != NotCalled && !a.StarterStep? && Do(s, a) == Some(t)
    ensures t.starter == s.starter && (s.cancelled ==> t.cancelled)
  {
  }

  lemma StarterProgress(s: State, a: Action, t: State)
    requires Inv(s) && s.starter != NotCalled && Do(s, a) == Some(t)
    ensures StartMeasure(t) <= StartMeasure(s) && (t.starter != s.starter ==> StartMeasure(t) < StartMeasure(s))
    ensures t.starter != NotCalled && (s.cancelled ==> t.cancelled)
    ensures s.starter.Returned? ==> t.starter == s.starter
  {
    StepKeepsInv(s, a, t);
    StepKeepsSize(s, a, t);
    if a.StarterStep? { OwnStepProgress(s, a.outcome, t); } else { OthersLeaveStart(s, a, t); }
  }

  lemma StarterCanMove(s: State)
    requires Inv(s) && s.cancelled && s.starter != NotCalled && !s.starter.Returned?
    ensures StarterEnabled(s)
  {
    assert DoStarter(s, if s.starter.AwaitingReady? then ContextDone else Proceed).Some?;
  }

  /** Start has returned after the context was cancelled. */
  ghost predicate Settled(n: nat, s: State) {
    Inv(s) && |s.entries| == n && s.cancelled && s.starter.Returned?
  }

  /** How far a heartbeat that has left its loop is from its exit; 5 inside the loop. */
  function ExitDistance(b: Beat): nat {
    match b
    case Unspawned => 0
    case Gone => 0
    case LeavingBeat => 1
    case BlockedBeat => 2
    case SendingBeat => 3
    case FailingBeat => 4
    case _ => 5
  }

  /** How far a heartbeat inside its loop is from its select. */
  function LoopDistance(b: Beat): nat {
    match b
    case Observing => 2
    case BeatReporting(_) => 1
    case _ => 0
  }

  ghost predicate EntryProgress(e: Entry, e': Entry) {
    && WorkerDistance(e'.worker) <= WorkerDistance(e.worker)
    && (e'.worker != e.worker ==> WorkerDistance(e'.worker) < WorkerDistance(e.worker))
    && ExitDistance(e'.beat) <= ExitDistance(e.beat)
    && (e'.beat != e.beat && ExitDistance(e.beat) < 5 ==> ExitDistance(e'.beat) < ExitDistance(e.beat))
    && (e'.beat != e.beat && LoopDistance(e.beat) > 0 ==> LoopDistance(e'.beat) < LoopDistance(e.beat))
  }

  lemma WorkerProgress(s: State, i: nat, t: State, k: nat)
    requires i < |s.entries| && DoWorker(s, i) == Some(t) && k < |s.entries|
    ensures |t.entries| == |s.entries| && EntryProgress(s.entries[k], t.entries[k])
  {
  }

  lemma BeatProgress(s: State, i: nat, choice: bool, t: State, k: nat)
    requires i < |s.entries| && DoBeat(s, i, choice) == Some(t) && k < |s.entries|
    ensures |t.entries| == |s.entries| && EntryProgress(s.entries[k], t.entries[k])
  {
  }

  lemma OneProgress(n: nat, s: State, a: Action, t: State, k: nat)
    requires Settled(n, s) && Do(s, a) == Some(t) && k < n
    ensures |t.entries| == n && EntryProgress(s.entries[k], t.entries[k])
  {
    match a
    case WorkerStep(i) => WorkerProgress(s, i, t, k);
    case BeatStep(i, choice) => BeatProgress(s, i, choice, t, k);
    case _ =>
  }

  lemma StartLeavesCloser(s: State, o: Outcome, t: State)
    requires Shape(s) && ClosingOk(s) && DoStarter(s, o) == Some(t) && s.closer != NoCloser
    ensures t.closer == s.closer
  {
  }

  lemma CloserProgress(s: State, a: Action, t: State)
    requires Inv(s) && Do(s, a) == Some(t) && s.closer != NoCloser
    ensures t.closer != NoCloser && CloserDistance(t.closer) <= CloserDistance(s.closer)
    ensures t.closer != s.closer ==> CloserDistance(t.closer) < CloserDistance(s.closer)
  {
    match a
    case StarterStep(o) => StartLeavesCloser(s, o, t);
    case CloserStep =>
    case _ => assert t.closer == s.closer;
  }

  // ---------------------------------------------------------------- along a behaviour

  lemma {:induction false} InvAlong(n: nat, f: Behaviour, i: nat)
    requires IsBehaviour(n, f)
    ensures Inv(f(i)) && |f(i).entries| == n
  {
    var inv := (s: State) => Inv(s) && |s.entries| == n;
    InitInv(n);
    forall s, t | inv(s) && Steps(s, t)
      ensures inv(t)
    {
      var a :| Do(s, a) == Some(t);
      StepKeepsInv(s, a, t);
      StepKeepsSize(s, a, t);
    }
    InvariantForever(f, Init(n), Steps, inv, i);
  }

  /** The action taken at time i. */
  ghost function ActionAt(n: nat, f: Behaviour, i: nat): (a: Action)
    requires IsBehaviour(n, f)
    ensures Shape(f(i)) && Do(f(i), a) == Some(f(i + 1))
  {
    assert StepsFrom(f, Steps, i);
    var a :| Do(f(i), a) == Some(f(i + 1));
    a
  }

  ghost predicate Called(s: State) { s.cancelled && s.starter != NotCalled }

  lemma {:induction false} CalledNext(n: nat, f: Behaviour, m: nat)
    requires IsBehaviour(n, f) && Called(f(m))
    ensures Called(f(m + 1)) && (f(m).starter.Returned? ==> f(m + 1).starter.Returned?)
    ensures StartMeasure(f(m + 1)) <= StartMeasure(f(m))
    ensures f(m + 1).starter != f(m).starter ==> DropsAt(f, StartMeasure, m)
  {
    InvAlong(n, f, m);
    StarterProgress(f(m), ActionAt(n, f, m), f(m + 1));
  }

  lemma {:induction false} CalledStays(n: nat, f: Behaviour, i: nat, j: nat)
    requires IsBehaviour(n, f) && i <= j && Called(f(i))
    ensures Called(f(j)) && (f(i).starter.Returned? ==> f(j).starter.Returned?)
    decreases j
  {
    if i < j {
      CalledStays(n, f, i, j - 1);
      CalledNext(n, f, j - 1);
    }
  }

  lemma {:induction false} SettledStays(n: nat, f: Behaviour, i: nat, j: nat)
    requires IsBehaviour(n, f) && i <= j && Called(f(i)) && f(i).starter.Returned?
    ensures Settled(n, f(j)) && Called(f(j))
  {
    CalledStays(n, f, i, j);
    InvAlong(n, f, j);
  }

  lemma {:induction false} StarterDrops(n: nat, f: Behaviour, i: nat, m: nat)
    requires IsBehaviour(n, f) && WeaklyFair(n, f, i) && Called(f(i)) && m >= i
    requires StartMeasure(f(m)) > 0
    ensures DropsAfter(f, StartMeasure, m)
  {
    assert StarterServedAfter(f, m);
    var j: nat :| j >= m && StarterServed(f, j);
    CalledStays(n, f, i, j);
    InvAlong(n, f, j);
    if f(j).starter.Returned? {
      DropBetween(f, StartMeasure, m, j);
    } else {
      StarterCanMove(f(j));
      CalledNext(n, f, j);
    }
  }

  /** Start returns. */
  lemma {:induction false} StartReturns(n: nat, f: Behaviour, i: nat) returns (j: nat)
    requires IsBehaviour(n, f) && WeaklyFair(n, f, i) && Called(f(i))
    ensures j >= i && f(j).starter.Returned?
  {
    forall m: nat | m >= i
      ensures !GrowsAt(f, StartMeasure, m)
    {
      CalledStays(n, f, i, m);
      CalledNext(n, f, m);
    }
    forall m: nat | m >= i && StartMeasure(f(m)) > 0
      ensures DropsAfter(f, StartMeasure, m)
    {
      StarterDrops(n, f, i, m);
    }
    j := ReachesZero(f, StartMeasure, i);
    CalledStays(n, f, i, j);
    InvAlong(n, f, j);
    StartIsOver(f(j));
  }

  lemma StartIsOver(s: State)
    requires Shape(s) && s.starter != NotCalled && StartMeasure(s) == 0
    ensures s.starter.Returned?
  {
  }

  // ---------------------------------------------------------------- workers and heartbeats leave

  ghost function WorkerMeasure(k: nat): State -> nat {
    (s: State) => if k < |s.entries| then WorkerDistance(s.entries[k].worker) else 0
  }

  ghost function ExitMeasure(k: nat): State -> nat {
    (s: State) => if k < |s.entries| then ExitDistance(s.entries[k].beat) else 0
  }

  ghost function LoopMeasure(k: nat): State -> nat {
    (s: State) => if k < |s.entries| then LoopDistance(s.entries[k].beat) else 0
  }

  lemma {:induction false} ProgressAt(n: nat, f: Behaviour, i: nat, m: nat, k: nat)
    requires IsBehaviour(n, f) && Settled(n, f(i)) && m >= i && k < n
    ensures Settled(n, f(m)) && Settled(n, f(m + 1)) && EntryProgress(f(m).entries[k], f(m + 1).entries[k])
  {
    SettledStays(n, f, i, m);
    SettledStays(n, f, i, m + 1);
    OneProgress(n, f(m), ActionAt(n, f, m), f(m + 1), k);
  }

  lemma {:induction false} MeasuresSink(n: nat, f: Behaviour, i: nat, k: nat)
    requires IsBehaviour(n, f) && Settled(n, f(i)) && k < n
    ensures NeverGrows(f, WorkerMeasure(k), i) && NeverGrows(f, ExitMeasure(k), i)
  {
    forall m: nat | m >= i
      ensures !GrowsAt(f, WorkerMeasure(k), m) && !GrowsAt(f, ExitMeasure(k), m)
    {
      ProgressAt(n, f, i, m, k);
    }
  }

  lemma LiveCanMove(n: nat, s: State, k: nat)
    requires Settled(n, s) && k < n
    ensures WorkerMeasure(k)(s) > 0 ==> WorkerEnabled(s, k)
    ensures ExitMeasure(k)(s) > 0 ==> BeatEnabled(s, k)
  {
    if s.entries[k].worker.Live() { WorkerShutdownStep(s, k); }
    if s.entries[k].beat.Live() { BeatShutdownStep(s, k); }
  }

  lemma {:induction false} WorkerDrops(n: nat, f: Behaviour, i: nat, m: nat, k: nat)
    requires IsBehaviour(n, f) && WeaklyFair(n, f, i) && Settled(n, f(i)) && k < n && m >= i
    requires WorkerMeasure(k)(f(m)) > 0
    ensures DropsAfter(f, WorkerMeasure(k), m)
  {
    assert WorkerServedAfter(f, k, m);
    var j: nat :| j >= m && WorkerServed(f, k, j);
    ProgressAt(n, f, i, j, k);
    if WorkerMeasure(k)(f(j)) > 0 {
      LiveCanMove(n, f(j), k);
      assert DropsAt(f, WorkerMeasure(k), j);
    } else {
      DropBetween(f, WorkerMeasure(k), m, j);
    }
  }

  /** A live worker exits. */
  lemma {:induction false} WorkerExits(n: nat, f: Behaviour, i: nat, k: nat) returns (j: nat)
    requires IsBehaviour(n, f) && WeaklyFair(n, f, i) && Settled(n, f(i)) && k < n
    ensures j >= i && WorkerMeasure(k)(f(j)) == 0
  {
    MeasuresSink(n, f, i, k);
    forall m: nat | m >= i && WorkerMeasure(k)(f(m)) > 0
      ensures DropsAfter(f, WorkerMeasure(k), m)
    {
      WorkerDrops(n, f, i, m, k);
    }
    j := ReachesZero(f, WorkerMeasure(k), i);
  }

  ghost predicate InLoop(s: State, k: nat) { ExitMeasure(k)(s) == 5 }

  ghost predicate Looping(f: Behaviour, k: nat, i: nat) {
    forall j: nat {:trigger InLoop(f(j), k)} :: j >= i ==> InLoop(f(j), k)
  }

  /** A heartbeat leaves its loop. */
  lemma {:induction false} BeatLeavesLoop(n: nat, f: Behaviour, i: nat, k: nat) returns (j: nat)
    requires IsBehaviour(n, f) && WeaklyFair(n, f, i) && SelectsFairly(n, f, i) && Settled(n, f(i)) && k < n
    ensures j >= i && ExitMeasure(k)(f(j)) < 5
  {
    if Looping(f, k, i) {
      forall m: nat | m >= i
        ensures MayLeaveAfter(f, k, m)
      {
        SelectIsReached(n, f, i, m, k);
      }
      assert LeavesAfter(f, k, i);
      var m: nat :| m >= i && LeavesAt(f, k, m);
      j := m + 1;
    } else {
      j :| j >= i && !InLoop(f(j), k);
      ExitAtMostFive(f(j), k);
    }
  }

  lemma ExitAtMostFive(s: State, k: nat)
    ensures ExitMeasure(k)(s) <= 5
  {
  }

  /** Inside the loop and away from its select a heartbeat only comes nearer to it. */
  lemma {:induction false} LoopSinks(n: nat, f: Behaviour, i: nat, j: nat, k: nat)
    requires IsBehaviour(n, f) && Settled(n, f(i)) && k < n && j >= i && InLoop(f(j), k) && InLoop(f(j + 1), k)
    requires !MayLeave(f(j), k) && !MayLeave(f(j + 1), k)
    ensures LoopMeasure(k)(f(j)) > 0 && !GrowsAt(f, LoopMeasure(k), j)
    ensures BeatServed(f, k, j) ==> DropsAt(f, LoopMeasure(k), j)
  {
    ProgressAt(n, f, i, j, k);
    LiveCanMove(n, f(j), k);
  }

  lemma {:induction false} NoSelect(n: nat, f: Behaviour, i: nat, m: nat, j: nat, k: nat)
    requires IsBehaviour(n, f) && Settled(n, f(i)) && k < n && i <= m <= j && Looping(f, k, i)
    requires !MayLeaveAfter(f, k, m)
    ensures LoopMeasure(k)(f(j)) > 0 && !GrowsAt(f, LoopMeasure(k), j)
    ensures BeatServed(f, k, j) ==> DropsAt(f, LoopMeasure(k), j)
  {
    assert InLoop(f(j), k) && InLoop(f(j + 1), k) && !MayLeave(f(j), k) && !MayLeave(f(j + 1), k);
    LoopSinks(n, f, i, j, k);
  }

  /** A heartbeat that stays in its loop comes back to its select. */
  lemma {:induction false} SelectIsReached(n: nat, f: Behaviour, i: nat, m: nat, k: nat)
    requires IsBehaviour(n, f) && WeaklyFair(n, f, i) && Settled(n, f(i)) && k < n && m >= i && Looping(f, k, i)
    ensures MayLeaveAfter(f, k, m)
  {
    if !MayLeaveAfter(f, k, m) {
      forall j: nat | j >= m
        ensures !GrowsAt(f, LoopMeasure(k), j)
      {
        NoSelect(n, f, i, m, j, k);
      }
      forall j: nat | j >= m
        ensures DropsAfter(f, LoopMeasure(k), j)
      {
        assert BeatServedAfter(f, k, j);
        var d: nat :| d >= j && BeatServed(f, k, d);
        NoSelect(n, f, i, m, d, k);
      }
      var end := ReachesZero(f, LoopMeasure(k), m);
      NoSelect(n, f, i, m, end, k);
      assert false;
    }
  }

  lemma {:induction false} BeatDrops(n: nat, f: Behaviour, i: nat, m: nat, k: nat)
    requires IsBehaviour(n, f) && WeaklyFair(n, f, i) && Settled(n, f(i)) && k < n && m >= i
    requires 0 < ExitMeasure(k)(f(m)) < 5
    ensures DropsAfter(f, ExitMeasure(k), m)
  {
    assert BeatServedAfter(f, k, m);
    var j: nat :| j >= m && BeatServed(f, k, j);
    MeasuresSink(n, f, i, k);
    OnlySinks(f, ExitMeasure(k), i, m, j);
    ProgressAt(n, f, i, j, k);
    if ExitMeasure(k)(f(j)) > 0 {
      LiveCanMove(n, f(j), k);
      assert DropsAt(f, ExitMeasure(k), j);
    } else {
      DropBetween(f, ExitMeasure(k), m, j);
    }
  }

  /** A live heartbeat exits. */
  lemma {:induction false} BeatExits(n: nat, f: Behaviour, i: nat, k: nat) returns (j: nat)
    requires IsBehaviour(n, f) && WeaklyFair(n, f, i) && SelectsFairly(n, f, i) && Settled(n, f(i)) && k < n
    ensures j >= i && ExitMeasure(k)(f(j)) == 0
  {
    var out := BeatLeavesLoop(n, f, i, k);
    SettledStays(n, f, i, out);
    LaterFair(n, f, i, out);
    MeasuresSink(n, f, out, k);
    forall m: nat | m >= out && ExitMeasure(k)(f(m)) > 0
      ensures DropsAfter(f, ExitMeasure(k), m)
    {
      OnlySinks(f, ExitMeasure(k), out, out, m);
      BeatDrops(n, f, out, m, k);
    }
    j := ReachesZero(f, ExitMeasure(k), out);
  }

  ghost predicate QuietUpTo(s: State, m: nat) {
    m <= |s.entries| && forall k :: 0 <= k < m ==> !s.entries[k].worker.Live() && !s.entries[k].beat.Live()
  }

  lemma {:induction false} QuietStays(n: nat, f: Behaviour, i: nat, j: nat, m: nat)
    requires IsBehaviour(n, f) && Settled(n, f(i)) && i <= j && m <= n && QuietUpTo(f(i), m)
    ensures QuietUpTo(f(j), m)
  {
    SettledStays(n, f, i, j);
    forall k: nat | k < m
      ensures !f(j).entries[k].worker.Live() && !f(j).entries[k].beat.Live()
    {
      MeasuresSink(n, f, i, k);
      OnlySinks(f, WorkerMeasure(k), i, i, j);
      OnlySinks(f, ExitMeasure(k), i, i, j);
    }
  }

  ghost predicate QuietAt(s: State, k: nat) {
    k < |s.entries| && !s.entries[k].worker.Live() && !s.entries[k].beat.Live()
  }

  lemma MeasuresTell(n: nat, s: State, k: nat)
    requires |s.entries| == n && k < n && WorkerMeasure(k)(s) == 0 && ExitMeasure(k)(s) == 0
    ensures QuietAt(s, k)
  {
  }

  /** Both goroutines of an entry exit. */
  lemma {:induction false} EntryExits(n: nat, f: Behaviour, i: nat, k: nat) returns (j: nat)
    requires IsBehaviour(n, f) && WeaklyFair(n, f, i) && SelectsFairly(n, f, i) && Settled(n, f(i)) && k < n
    ensures j >= i && Settled(n, f(j)) && QuietAt(f(j), k)
  {
    var worker := WorkerExits(n, f, i, k);
    SettledStays(n, f, i, worker);
    LaterFair(n, f, i, worker);
    j := BeatExits(n, f, worker, k);
    SettledStays(n, f, i, j);
    MeasuresSink(n, f, worker, k);
    OnlySinks(f, WorkerMeasure(k), worker, worker, j);
    MeasuresTell(n, f(j), k);
  }

  /** All goroutines of the first m entries exit. */
  lemma {:induction false} AllExit(n: nat, f: Behaviour, i: nat, m: nat) returns (j: nat)
    requires IsBehaviour(n, f) && WeaklyFair(n, f, i) && SelectsFairly(n, f, i) && Settled(n, f(i)) && m <= n
    ensures j >= i && Settled(n, f(j)) && QuietUpTo(f(j), m)
    decreases m
  {
    if m == 0 {
      j := i;
    } else {
      var before := AllExit(n, f, i, m - 1);
      LaterFair(n, f, i, before);
      j := EntryExits(n, f, before, m - 1);
      QuietStays(n, f, before, j, m - 1);
    }
  }

  // ---------------------------------------------------------------- done is closed

  ghost function CloserMeasure(s: State): nat { CloserDistance(s.closer) }

  lemma QuietGroups(n: nat, s: State)
    requires Settled(n, s) && QuietUpTo(s, n)
    ensures s.workerGroup == 0 && s.beatGroup == 0
  {
    if s.workerGroup > 0 || s.beatGroup > 0 {
      var k := SomeoneLives(s.entries);
      assert false;
    }
  }

  lemma {:induction false} CloserStays(n: nat, f: Behaviour, i: nat, m: nat)
    requires IsBehaviour(n, f) && f(i).closer != NoCloser && i <= m
    ensures f(m).closer != NoCloser
    decreases m
  {
    if i < m {
      CloserStays(n, f, i, m - 1);
      InvAlong(n, f, m - 1);
      CloserProgress(f(m - 1), ActionAt(n, f, m - 1), f(m));
    }
  }

  lemma CloserCanMove(s: State)
    requires Inv(s) && s.closer != NoCloser && s.closer != Finished && s.workerGroup == 0 && s.beatGroup == 0
    ensures CloserEnabled(s)
  {
  }

  lemma {:induction false} CloserDrops(n: nat, f: Behaviour, i: nat, m: nat)
    requires IsBehaviour(n, f) && WeaklyFair(n, f, i) && Settled(n, f(i)) && QuietUpTo(f(i), n)
    requires f(i).closer != NoCloser
    requires m >= i && CloserMeasure(f(m)) > 0
    ensures DropsAfter(f, CloserMeasure, m)
  {
    assert CloserServedAfter(f, m);
    var d: nat :| d >= m && CloserServed(f, d);
    CloserStays(n, f, i, d);
    SettledStays(n, f, i, d);
    if CloserMeasure(f(d)) == 0 {
      DropBetween(f, CloserMeasure, m, d);
    } else {
      QuietStays(n, f, i, d, n);
      QuietGroups(n, f(d));
      CloserCanMove(f(d));
      CloserProgress(f(d), ActionAt(n, f, d), f(d + 1));
      assert DropsAt(f, CloserMeasure, d);
    }
  }

  lemma {:induction false} CloserFinishes(n: nat, f: Behaviour, i: nat) returns (j: nat)
    requires IsBehaviour(n, f) && WeaklyFair(n, f, i) && Settled(n, f(i)) && QuietUpTo(f(i), n)
    requires f(i).closer != NoCloser
    ensures j >= i && f(j).closer == Finished
  {
    forall m: nat | m >= i
      ensures !GrowsAt(f, CloserMeasure, m)
    {
      CloserStays(n, f, i, m);
      InvAlong(n, f, m);
      CloserProgress(f(m), ActionAt(n, f, m), f(m + 1));
    }
    forall m: nat | m >= i && CloserMeasure(f(m)) > 0
      ensures DropsAfter(f, CloserMeasure, m)
    {
      CloserDrops(n, f, i, m);
    }
    j := ReachesZero(f, CloserMeasure, i);
  }

  /** Fairness from one time on is fairness from any later time on. */
  lemma {:induction false} LaterFair(n: nat, f: Behaviour, i: nat, j: nat)
    requires WeaklyFair(n, f, i) && SelectsFairly(n, f, i) && i <= j
    ensures WeaklyFair(n, f, j) && SelectsFairly(n, f, j)
  {
    forall k: nat | k < n && OftenMayLeave(f, k, j)
      ensures OftenMayLeave(f, k, i)
    {
      forall m: nat | m >= i
        ensures MayLeaveAfter(f, k, m)
      {
        assert MayLeaveAfter(f, k, if m >= j then m else j);
      }
    }
  }

  /** In every infinite run in which Start has been called and the context is cancelled, fair scheduling closes
      done, exactly once, with every goroutine gone: no choice of the goroutines can keep the supervisor up. */
  lemma {:induction false} FairRunsShutDown(n: nat, f: Behaviour, i: nat) returns (j: nat)
    requires IsBehaviour(n, f) && f(i).cancelled && f(i).starter != NotCalled
    requires WeaklyFair(n, f, i) && SelectsFairly(n, f, i)
    ensures j >= i && f(j).done == Closed && f(j).closes == 1
    ensures f(j).starter.Returned? && QuietUpTo(f(j), n)
  {
    var returned := StartReturns(n, f, i);
    CalledStays(n, f, i, returned);
    SettledStays(n, f, returned, returned);
    LaterFair(n, f, i, returned);
    var quiet := AllExit(n, f, returned, n);
    LaterFair(n, f, i, quiet);
    if f(quiet).closer == NoCloser {
      j := quiet;
    } else {
      j := CloserFinishes(n, f, quiet);
      SettledStays(n, f, quiet, j);
      QuietStays(n, f, quiet, j, n);
    }
  }

  // ---------------------------------------------------------------- fair runs exist

  /** Nothing is left to do. */
  ghost predicate AtRest(n: nat, s: State) {
    && Inv(s) && s.cancelled && s.starter.Returned? && QuietUpTo(s, n) && |s.entries| == n
    && (s.closer == NoCloser || s.closer == Finished)
  }

  lemma RestIsDisabled(n: nat, s: State, k: nat)
    requires AtRest(n, s)
    ensures !StarterEnabled(s) && !CloserEnabled(s)
    ensures k < n ==> !WorkerEnabled(s, k) && !BeatEnabled(s, k) && !MayLeave(s, k)
  {
    if k < n { assert !s.entries[k].worker.Live() && !s.entries[k].beat.Live(); }
  }

  ghost function Held(trace: seq<State>): Behaviour
    requires trace != []
  {
    (i: nat) => if i < |trace| then trace[i] else trace[|trace| - 1]
  }

  /** A finite run to a state of rest, held there for ever, is a behaviour that is fair from any time of it on. */
  lemma {:induction false} RestIsFair(n: nat, trace: seq<State>, from: nat)
    requires IsRun(trace, Init(n), Steps) && AtRest(n, trace[|trace| - 1]) && from < |trace|
    ensures IsBehaviour(n, Held(trace)) && WeaklyFair(n, Held(trace), from) && SelectsFairly(n, Held(trace), from)
  {
    var f, end := Held(trace), |trace| - 1;
    var last := trace[end];
    forall i: nat
      ensures StepsFrom(f, Steps, i)
    {
      if i < end { assert StepAt(trace, i, Steps); } else { assert Do(last, Cancel) == Some(last); }
    }
    forall i: nat
      ensures StarterServedAfter(f, i) && CloserServedAfter(f, i)
    {
      RestIsDisabled(n, last, 0);
      assert StarterServed(f, end + i) && CloserServed(f, end + i);
    }
    forall i: nat, k: nat | k < n
      ensures WorkerServedAfter(f, k, i) && BeatServedAfter(f, k, i)
    {
      RestIsDisabled(n, last, k);
      assert WorkerServed(f, k, end + i) && BeatServed(f, k, end + i);
    }
    forall k: nat | k < n
      ensures !OftenMayLeave(f, k, from)
    {
      RestIsDisabled(n, last, k);
      assert !MayLeaveAfter(f, k, end);
    }
  }

  /** So the hypotheses of the shutdown theorem can be met for every number of workers, by a run that is cancelled
      while Start has everything still to do. */
  lemma {:induction false} FairRunsExist(n: nat) returns (f: Behaviour, i: nat)
    ensures IsBehaviour(n, f) && f(i).cancelled && WeaklyFair(n, f, i) && SelectsFairly(n, f, i)
    ensures f(i).starter == Allocating && f(i).done == Open
  {
    var first := Init(n);
    var called := Do(first, StartCall).value;
    var cancelled := Do(called, Cancel).value;
    assert Steps(first, called) && Steps(called, cancelled);
    RunExtended([first], first, Steps, called);
    RunExtended([first] + [called], first, Steps, cancelled);
    var start := [first] + [called] + [cancelled];
    var rest := EveryRunCanShutDown(n, start);
    var whole := RunToRest(n, start + rest);
    RestIsFair(n, whole, 2);
    f, i := Held(whole), 2;
    assert whole[2] == start[2];
  }

  lemma {:induction false} RunToRest(n: nat, trace: seq<State>) returns (whole: seq<State>)
    requires IsRun(trace, Init(n), Steps) && trace[|trace| - 1].done == Closed
    ensures IsRun(whole, Init(n), Steps) && trace <= whole && AtRest(n, whole[|whole| - 1])
  {
    var last := trace[|trace| - 1];
    ClosedAtLast(n, trace);
    whole := trace;
    if last.starter.Draining? {
      var settled := StartSettles(n, last);
      RunExtended(whole, Init(n), Steps, settled);
      whole := whole + [settled];
    }
    var c := CancelledAgain(n, whole[|whole| - 1]);
    RunExtended(whole, Init(n), Steps, c);
    whole := whole + [c];
  }

  /** done is closed and every goroutine of an entry is gone. */
  ghost predicate ClosedDown(n: nat, s: State) {
    && Inv(s) && |s.entries| == n && QuietUpTo(s, n)
    && (s.starter.Draining? || s.starter.Returned?) && (s.closer == NoCloser || s.closer == Finished)
  }

  lemma {:induction false} ClosedAtLast(n: nat, trace: seq<State>)
    requires IsRun(trace, Init(n), Steps) && trace[|trace| - 1].done == Closed
    ensures ClosedDown(n, trace[|trace| - 1])
  {
    var last := trace[|trace| - 1];
    RunKeepsInv(n, trace, |trace| - 1);
    forall k: nat | k < n
      ensures !last.entries[k].worker.Live() && !last.entries[k].beat.Live()
    {
      ClosedMeansQuiet(n, trace, |trace| - 1, k);
    }
    if n == 0 { assert last.entries == []; } else { ClosedMeansQuiet(n, trace, |trace| - 1, 0); }
  }

  lemma StartSettles(n: nat, s: State) returns (t: State)
    requires ClosedDown(n, s) && s.starter.Draining?
    ensures Steps(s, t) && ClosedDown(n, t) && t.starter.Returned?
  {
    t := DoStarter(s, Proceed).value;
    assert Do(s, StarterStep(Proceed)) == Some(t);
    StepKeepsInv(s, StarterStep(Proceed), t);
    StepKeepsSize(s, StarterStep(Proceed), t);
  }

  lemma CancelledAgain(n: nat, s: State) returns (t: State)
    requires ClosedDown(n, s) && s.starter.Returned?
    ensures Steps(s, t) && AtRest(n, t)
  {
    t := s.(cancelled := true);
    assert Do(s, Cancel) == Some(t);
    StepKeepsInv(s, Cancel, t);
  }
}
