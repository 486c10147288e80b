/** The event dispatcher: many producers, one bounded queue that drops when full, and one consumer that hands
    every observation to every observer. A panic unwinds to the nearest deferred recover; one that meets none inside
    the dispatcher goes on to whoever called it. */
module EventDispatch {
  import opened Foundation
  import opened Runs

  const DEFAULT_CAPACITY := 1024
  const MAXIMUM_CAPACITY := 65536

  /** Either a tournament event or a lag measurement; both carry the time they were enqueued. */
  datatype Observation = Event(payload: Bytes, enqueuedAt: Time) | Lag(kind: Bytes, lag: int, enqueuedAt: Time)

  /** All observers take events; some also take lag measurements, and some can watch the queue. */
  datatype Observer = Observer(takesLag: bool, watchesQueue: bool) {
    predicate Takes(o: Observation) { o.Event? || takesLag }
  }

  /** The goroutine inside Run. frames counts the deferred recovers that the dispatcher has on its stack; next is the
      observer with which the loop goes on. */
  datatype Consumer =
    | Absent
    | Starting                                                // won the started flag
    | Selecting
    | Measuring(current: Observation)                         // about to read the clock
    | Dispatching(current: Observation, next: nat)            // loop head
    | Calling(current: Observation, next: nat, frames: nat)   // inside the code of an observer
    | Unwinding(current: Observation, next: nat, frames: nat) // a panic on its way up
    | Stopped                                                 // Run has returned
    | Failed(lost: Observation)                               // a panic has left Run
  {
    predicate Over() { Stopped? || Failed? }

    /** Nothing inside Run can stop this panic any more. */
    predicate Doomed() { Failed? || (Unwinding? && frames == 0) }

    predicate Busy() { Measuring? || Dispatching? || Calling? || (Unwinding? && frames > 0) }

    /** The observers before this one have been called with the current observation. */
    function Reached(): nat
      requires Busy()
    {
      if Measuring? then 0 else next
    }
  }

  /** A producer inside the queue observer, or unwinding from it. */
  datatype DropCall = InCall(frames: nat) | DropPanic(frames: nat)

  /** The producers that found the queue full: not yet counted, counted, and reporting to the queue observer;
      escaped counts the panics that went on to a caller. */
  datatype Drops = Drops(pending: nat, counted: nat, calls: seq<DropCall>, notified: nat, escaped: nat)

  datatype Config = Config(observers: seq<Observer>, watched: bool, capacity: nat)

  datatype State = State(
    config: Config,
    queue: seq<Observation>,
    consumer: Consumer,
    cancelled: bool,
    drops: Drops,
    offered: nat,                     // valid observations handed to enqueue
    accepted: seq<Observation>,
    dispatched: seq<Observation>,
    logs: seq<seq<Observation>>,      // per observer, the observations it was called with
    lags: seq<int>,                   // the queue lags reported
    running: bool)                    // what Ready answers

  function Init(c: Config): State {
    State(c, [], Absent, false, Drops(0, 0, [], 0, 0), 0, [], [], seq(|c.observers|, _ => []), [], false)
  }

  datatype Action =
    | Offer(o: Observation, valid: bool)
    | CountDrop
    | DropStep(k: nat, panics: bool)   // producer k inside the queue observer
    | RunCall
    | Step(panics: bool, now: int)     // the consumer; panics tells how the foreign code it is in ends
    | StopStep                         // the consumer sees the cancelled context
    | Cancel

  /** One atomic step; None when it is not enabled. Rejected observations and repeated calls of Run do nothing. */
  function Do(s: State, a: Action): Option<State> {
    match a
    case Offer(o, valid) =>
      if !valid then Some(s)
      else if |s.queue| < s.config.capacity then
        Some(s.(queue := s.queue + [o], accepted := s.accepted + [o], offered := s.offered + 1))
      else Some(s.(drops := s.drops.(pending := s.drops.pending + 1), offered := s.offered + 1))
    case CountDrop => DoCountDrop(s)
    case DropStep(k, panics) => if k < |s.drops.calls| then Some(DoDrop(s, k, panics)) else None
    case RunCall => Some(if s.consumer.Absent? then s.(consumer := Starting) else s)
    case Step(panics, now) => DoConsumer(s, panics, now)
    case StopStep =>
      if s.consumer.Selecting? && s.cancelled then Some(s.(consumer := Stopped, running := false)) else None
    case Cancel => Some(s.(cancelled := true))
  }

  /** Counts the drop and, where the queue is watched, enters the queue observer below a deferred recover. */
  function DoCountDrop(s: State): Option<State> {
    var d := s.drops;
    if d.pending == 0 then None
    else if s.config.watched then
      Some(s.(drops := d.(pending := d.pending - 1, counted := d.counted + 1, calls := d.calls + [InCall(1)],
                          notified := d.notified + 1)))
    else Some(s.(drops := d.(pending := d.pending - 1, counted := d.counted + 1)))
  }

  function Without<T>(s: seq<T>, k: nat): seq<T>
    requires k < |s|
  {
    s[..k] + s[k + 1..]
  }

  function DoDrop(s: State, k: nat, panics: bool): State
    requires k < |s.drops.calls|
  {
    var calls := s.drops.calls;
    match calls[k]
    case InCall(frames) =>
      s.(drops := s.drops.(calls := if panics then calls[k := DropPanic(frames)] else Without(calls, k)))
    case DropPanic(frames) =>
      var escaped := s.drops.escaped + (if frames == 0 then 1 else 0);
      s.(drops := s.drops.(calls := Without(calls, k), escaped := escaped))
  }

  function Record(log: seq<Observation>, observer: Observer, o: Observation): seq<Observation> {
    if observer.Takes(o) then log + [o] else log
  }

  function DoConsumer(s: State, panics: bool, now: int): Option<State> {
    match s.consumer
    case Absent => None
    case Starting => Some(s.(consumer := Selecting, running := true))
    case Selecting => if s.queue == [] then None else Some(s.(queue := s.queue[1..], consumer := Measuring(s.queue[0])))
    case Measuring(o) => Some(Measure(s, o, panics, now))
    case Dispatching(o, next) => Some(Loop(s, o, next))
    case Calling(o, next, frames) =>
      Some(s.(consumer := if panics then Unwinding(o, next, frames) else Dispatching(o, next)))
    case Unwinding(o, next, frames) =>
      if frames == 0 then Some(s.(consumer := Failed(o), running := false))
      else Some(s.(consumer := Dispatching(o, next)))
    case Stopped => None
    case Failed(_) => None
  }

  /** Reads the clock, which no deferred recover inside Run guards, and reports a queue lag that is not negative. */
  function Measure(s: State, o: Observation, panics: bool, now: int): State {
    var lag := now - o.enqueuedAt.instant;
    if panics then s.(consumer := Unwinding(o, 0, 0))
    else if s.config.watched && lag >= 0 then s.(consumer := Calling(o, 0, 1), lags := s.lags + [lag])
    else s.(consumer := Dispatching(o, 0))
  }

  /** The head of the observer loop: the next observer that takes the observation is called below a deferred
      recover of its own. */
  function Loop(s: State, o: Observation, next: nat): State {
    if next >= |s.config.observers| || next >= |s.logs| then s.(dispatched := s.dispatched + [o], consumer := Selecting)
    else if !s.config.observers[next].Takes(o) then s.(consumer := Dispatching(o, next + 1))
    else s.(logs := s.logs[next := s.logs[next] + [o]], consumer := Calling(o, next + 1, 1))
  }

  /** What an observer has to have seen once the observations in os were dispatched to it. */
  function Expected(observer: Observer, os: seq<Observation>): seq<Observation> {
    if os == [] then [] else Record(Expected(observer, os[..|os| - 1]), observer, os[|os| - 1])
  }

  function InFlight(c: Consumer): seq<Observation> {
    if c.Busy() then [c.current] else []
  }

  /** The observation that a panic of the clock tears away: it is neither dispatched nor counted as dropped. */
  function Lost(c: Consumer): seq<Observation> {
    match c
    case Failed(o) => [o]
    case Unwinding(o, _, frames) => if frames == 0 then [o] else []
    case _ => []
  }

  /** The observations that observer j has been offered so far. */
  function SeenBy(c: Consumer, dispatched: seq<Observation>, j: nat): seq<Observation> {
    if c.Busy() && j < c.Reached() then dispatched + [c.current] else dispatched
  }

  // ---------------------------------------------------------------- the invariant

  ghost predicate Conserved(capacity: nat, queue: seq<Observation>, c: Consumer, accepted: seq<Observation>,
                            dispatched: seq<Observation>) {
    && |queue| <= capacity
    && accepted == dispatched + InFlight(c) + Lost(c) + queue
    && (c.Absent? || c.Starting? ==> dispatched == [])
  }

  ghost predicate Logged(observers: seq<Observer>, c: Consumer, dispatched: seq<Observation>,
                         logs: seq<seq<Observation>>) {
    && |logs| == |observers|
    && (c.Busy() ==> c.Reached() <= |observers|)
    && forall j :: 0 <= j < |logs| ==> logs[j] == Expected(observers[j], SeenBy(c, dispatched, j))
  }

  ghost predicate Measured(c: Consumer, dispatched: seq<Observation>, lags: seq<int>) {
    |lags| <= |dispatched| + |InFlight(c)| && (c.Measuring? ==> |lags| <= |dispatched|)
  }

  /** Every call into an observer has one deferred recover above it; only the clock is read without any. */
  ghost predicate Guarded(c: Consumer, running: bool) {
    && (c.Calling? ==> c.frames == 1)
    && (c.Unwinding? ==> c.frames <= 1)
    && (running <==> c.Selecting? || c.Busy() || c.Unwinding?)
  }

  ghost predicate DropsOk(watched: bool, d: Drops) {
    && d.notified == (if watched then d.counted else 0)
    && |d.calls| <= d.notified && d.escaped == 0
    && forall k :: 0 <= k < |d.calls| ==> d.calls[k].frames == 1
  }

  ghost predicate Inv(s: State) {
    && Conserved(s.config.capacity, s.queue, s.consumer, s.accepted, s.dispatched)
    && s.offered == |s.accepted| + s.drops.pending + s.drops.counted
    && Logged(s.config.observers, s.consumer, s.dispatched, s.logs)
    && Measured(s.consumer, s.dispatched, s.lags)
    && Guarded(s.consumer, s.running)
    && DropsOk(s.config.watched, s.drops)
  }

  ghost predicate Steps(s: State, t: State) {
    exists a :: Do(s, a) == Some(t)
  }

  lemma TakingNext(s: State)
    requires Inv(s) && s.consumer.Selecting? && s.queue != []
    ensures Inv(s.(queue := s.queue[1..], consumer := Measuring(s.queue[0])))
  {
    assert s.queue == [s.queue[0]] + s.queue[1..];
  }

  /** One more observer has been called, or passed over. */
  lemma LoggedNext(observers: seq<Observer>, o: Observation, next: nat, dispatched: seq<Observation>,
                   logs: seq<seq<Observation>>, c: Consumer)
    requires Logged(observers, Dispatching(o, next), dispatched, logs) && next < |observers|
    requires c == Dispatching(o, next + 1) || c == Calling(o, next + 1, 1)
    ensures Logged(observers, c, dispatched, logs[next := Record(logs[next], observers[next], o)])
  {
    var os := dispatched + [o];
    assert os[..|os| - 1] == dispatched;
  }

  lemma LoopKeepsInv(s: State)
    requires Inv(s) && s.consumer.Dispatching?
    ensures Inv(Loop(s, s.consumer.current, s.consumer.next))
  {
    var t, next := Loop(s, s.consumer.current, s.consumer.next), s.consumer.next;
    if next < |s.config.observers| {
      LoggedNext(s.config.observers, s.consumer.current, next, s.dispatched, s.logs, t.consumer);
      assert t.logs == s.logs[next := Record(s.logs[next], s.config.observers[next], s.consumer.current)];
    }
  }

  lemma CallKeepsInv(s: State, panics: bool, now: int, t: State)
    requires Inv(s) && (s.consumer.Calling? || s.consumer.Unwinding?) && DoConsumer(s, panics, now) == Some(t)
    ensures Inv(t)
  {
  }

  lemma MeasureKeepsInv(s: State, panics: bool, now: int)
    requires Inv(s) && s.consumer.Measuring?
    ensures Inv(Measure(s, s.consumer.current, panics, now))
  {
  }

  lemma ConsumerKeepsInv(s: State, panics: bool, now: int, t: State)
    requires Inv(s) && DoConsumer(s, panics, now) == Some(t)
    ensures Inv(t)
  {
    match s.consumer
    case Selecting => TakingNext(s);
    case Measuring(_) => MeasureKeepsInv(s, panics, now);
    case Dispatching(_, _) => LoopKeepsInv(s);
    case Calling(_, _, _) => CallKeepsInv(s, panics, now, t);
    case Unwinding(_, _, _) => CallKeepsInv(s, panics, now, t);
    case Starting =>
  }

  lemma OfferKeepsInv(s: State, o: Observation, valid: bool, t: State)
    requires Inv(s) && Do(s, Offer(o, valid)) == Some(t)
    ensures Inv(t)
  {
    var before := s.dispatched + InFlight(s.consumer) + Lost(s.consumer);
    assert before + (s.queue + [o]) == before + s.queue + [o];
  }

  lemma WithoutElements(calls: seq<DropCall>, k: nat)
    requires k < |calls| && forall j :: 0 <= j < |calls| ==> calls[j].frames == 1
    ensures |Without(calls, k)| == |calls| - 1 && forall j :: 0 <= j < |calls| - 1 ==> Without(calls, k)[j].frames == 1
  {
    forall j | 0 <= j < |calls| - 1
      ensures Without(calls, k)[j].frames == 1
    {
      assert Without(calls, k)[j] == calls[if j < k then j else j + 1];
    }
  }

  lemma DropKeepsInv(s: State, a: Action, t: State)
    requires Inv(s) && (a.CountDrop? || a.DropStep?) && Do(s, a) == Some(t)
    ensures Inv(t)
  {
    if a.DropStep? { WithoutElements(s.drops.calls, a.k); }
    assert DropsOk(t.config.watched, t.drops);
  }

  lemma OtherKeepsInv(s: State, a: Action, t: State)
    requires Inv(s) && (a.RunCall? || a.StopStep? || a.Cancel?) && Do(s, a) == Some(t)
    ensures Inv(t)
  {
  }

  lemma StepKeepsInv(s: State, a: Action, t: State)
    requires Inv(s) && Do(s, a) == Some(t)
    ensures Inv(t)
  {
    match a
    case Step(panics, now) => ConsumerKeepsInv(s, panics, now, t);
    case Offer(o, valid) => OfferKeepsInv(s, o, valid, t);
    case CountDrop => DropKeepsInv(s, a, t);
    case DropStep(_, _) => DropKeepsInv(s, a, t);
    case _ => OtherKeepsInv(s, a, t);
  }

  lemma {:induction false} RunKeepsInv(c: Config, trace: seq<State>, i: nat)
    requires IsRun(trace, Init(c), Steps) && i < |trace|
    ensures Inv(trace[i]) && trace[i].config == c
  {
    forall s, t | Inv(s) && Steps(s, t)
      ensures Inv(t)
    {
      var a :| Do(s, a) == Some(t);
      StepKeepsInv(s, a, t);
    }
    Invariant(trace, Init(c), Steps, Inv, i);
    ConfigIsFixed(c, trace, i);
  }

  lemma StepKeepsConfig(s: State, a: Action, t: State)
    requires Do(s, a) == Some(t)
    ensures t.config == s.config
  {
  }

  lemma {:induction false} ConfigIsFixed(c: Config, trace: seq<State>, i: nat)
    requires IsRun(trace, Init(c), Steps) && i < |trace|
    ensures trace[i].config == c
  {
    var fixed := (s: State) => s.config == c;
    forall s, t | fixed(s) && Steps(s, t)
      ensures fixed(t)
    {
      var a :| Do(s, a) == Some(t);
      StepKeepsConfig(s, a, t);
    }
    Invariant(trace, Init(c), Steps, fixed, i);
  }

  /** An observer sees every observation it takes as often as it was dispatched, and no other. */
  lemma {:induction false} ExpectedCounts(observer: Observer, os: seq<Observation>, o: Observation)
    ensures multiset(Expected(observer, os))[o] == if observer.Takes(o) then multiset(os)[o] else 0
  {
    if os != [] {
      ExpectedCounts(observer, os[..|os| - 1], o);
      assert os == os[..|os| - 1] + [os[|os| - 1]];
    }
  }

  /** In every interleaving, whichever calls panic: the queue is bounded, observations are dispatched in the order
      they were accepted, each observer was called exactly once, in that order, with every dispatched observation it
      takes, and every observation offered is dispatched, in flight, queued, counted as dropped, or the one lost. */
  lemma {:induction false} NothingLostNothingRepeated(c: Config, trace: seq<State>, i: nat, j: nat)
    requires IsRun(trace, Init(c), Steps) && i < |trace| && j < |c.observers|
    ensures var s := trace[i];
      && s.offered == Accounted(s) + |Lost(s.consumer)| && |Lost(s.consumer)| <= 1
      && |s.queue| <= c.capacity
      && s.accepted == s.dispatched + InFlight(s.consumer) + Lost(s.consumer) + s.queue
      && s.drops.notified == (if c.watched then s.drops.counted else 0)
      && |s.logs| == |c.observers|
      && ( || s.logs[j] == Expected(c.observers[j], s.dispatched)
           || s.logs[j] == Expected(c.observers[j], s.dispatched + InFlight(s.consumer)))
      && (!s.consumer.Busy() ==> s.logs[j] == Expected(c.observers[j], s.dispatched))
      && |s.lags| <= |s.dispatched| + |InFlight(s.consumer)|
  {
    RunKeepsInv(c, trace, i);
  }

  /** While nothing is being dispatched, every observer has been called with each event as often as it was dispatched,
      and with each lag measurement as often if it takes lags, and never otherwise. */
  lemma {:induction false} EveryObserverIsCalled(c: Config, trace: seq<State>, i: nat, j: nat, o: Observation)
    requires IsRun(trace, Init(c), Steps) && i < |trace| && j < |c.observers| && !trace[i].consumer.Busy()
    ensures |trace[i].logs| == |c.observers|
    ensures o.Event? ==> multiset(trace[i].logs[j])[o] == multiset(trace[i].dispatched)[o]
    ensures o.Lag? ==>
      multiset(trace[i].logs[j])[o] == if c.observers[j].takesLag then multiset(trace[i].dispatched)[o] else 0
  {
    NothingLostNothingRepeated(c, trace, i, j);
    ExpectedCounts(c.observers[j], trace[i].dispatched, o);
  }

  /** The observations that are dispatched, in flight, queued, or with a producer that counts them as dropped. */
  function Accounted(s: State): nat {
    |s.dispatched| + |InFlight(s.consumer)| + |s.queue| + s.drops.pending + s.drops.counted
  }

  ghost predicate Grows(s: State, t: State) {
    && s.accepted <= t.accepted && s.dispatched <= t.dispatched
    && (s.consumer != Absent ==> t.consumer != Absent)
    && (s.consumer.Doomed() ==> t.consumer.Doomed() && Lost(t.consumer) == Lost(s.consumer))
    && (s.consumer.Over() ==>
          t.consumer == s.consumer && t.dispatched == s.dispatched && t.logs == s.logs && s.queue <= t.queue)
  }

  lemma StepGrows(s: State, a: Action, t: State)
    requires Do(s, a) == Some(t)
    ensures Grows(s, t)
  {
    if a.Step? { ConsumerGrows(s, a.panics, a.now, t); }
  }

  lemma ConsumerGrows(s: State, panics: bool, now: int, t: State)
    requires DoConsumer(s, panics, now) == Some(t)
    ensures Grows(s, t)
  {
    assert !s.consumer.Over() && !s.consumer.Absent? && !t.consumer.Absent?;
    assert t.accepted == s.accepted;
    assert t.dispatched == s.dispatched || t.dispatched == s.dispatched + [s.consumer.current];
  }

  /** Accepting and dispatching only append, the flag that admits a consumer is won once, what a panic has torn away
      does not come back, and neither does a consumer that has returned or failed: the producers go on, and what
      they get into the queue stays undelivered behind what was left there. */
  lemma {:induction false} HistoryOnlyGrows(c: Config, trace: seq<State>, i: nat, k: nat)
    requires IsRun(trace, Init(c), Steps) && i <= k < |trace|
    ensures trace[i].accepted <= trace[k].accepted && trace[i].dispatched <= trace[k].dispatched <= trace[k].accepted
    ensures trace[i].consumer != Absent ==> trace[k].consumer != Absent
    ensures Lost(trace[i].consumer) <= Lost(trace[k].consumer)
    ensures trace[i].consumer.Over() ==>
      && trace[k].consumer == trace[i].consumer && !trace[k].running
      && trace[k].dispatched == trace[i].dispatched && trace[k].logs == trace[i].logs
      && trace[i].queue <= trace[k].queue
  {
    forall s, t | Inv(s) && Steps(s, t)
      ensures Inv(t) && Grows(s, t)
    {
      var a :| Do(s, a) == Some(t);
      StepKeepsInv(s, a, t);
      StepGrows(s, a, t);
    }
    Monotone(trace, Init(c), Steps, Inv, Grows, i, k);
    RunKeepsInv(c, trace, k);
  }

  /** A cancellation is for good, and only after it Run returns. */
  lemma {:induction false} CancelledForGood(c: Config, trace: seq<State>, i: nat, k: nat)
    requires IsRun(trace, Init(c), Steps) && i <= k < |trace|
    ensures trace[i].cancelled ==> trace[k].cancelled
    ensures trace[i].consumer.Stopped? ==> trace[i].cancelled
    decreases k
  {
    if i < k {
      CancelledForGood(c, trace, i, k - 1);
      assert StepAt(trace, k - 1, Steps);
      var a :| Do(trace[k - 1], a) == Some(trace[k]);
      CancelStep(trace[k - 1], a, trace[k]);
    } else if i > 0 {
      CancelledForGood(c, trace, i - 1, i - 1);
      assert StepAt(trace, i - 1, Steps);
      var a :| Do(trace[i - 1], a) == Some(trace[i]);
      CancelStep(trace[i - 1], a, trace[i]);
    }
  }

  /** Only cancelling cancels, and a consumer stops only when it selects after it. */
  lemma CancelStep(s: State, a: Action, t: State)
    requires Do(s, a) == Some(t)
    ensures t.cancelled <==> s.cancelled || a == Cancel
    ensures t.consumer.Stopped? && !s.consumer.Stopped? ==> s.cancelled && s.consumer.Selecting?
  {
  }

  /** What a producer does: an observation goes to the end of the queue while there is room; otherwise it is a drop,
      which is counted once, and reported where the queue is watched. */
  lemma ProducerExactly(s: State, o: Observation)
    ensures |s.queue| < s.config.capacity ==>
      Do(s, Offer(o, true)) == Some(s.(queue := s.queue + [o], accepted := s.accepted + [o], offered := s.offered + 1))
    ensures |s.queue| >= s.config.capacity ==>
      Do(s, Offer(o, true)) == Some(s.(drops := s.drops.(pending := s.drops.pending + 1), offered := s.offered + 1))
    ensures Do(s, CountDrop).Some? <==> s.drops.pending > 0
    ensures s.drops.pending > 0 ==>
      var d, e := s.drops, Do(s, CountDrop).value.drops;
      && Do(s, CountDrop).value == s.(drops := e)
      && e.pending == d.pending - 1 && e.counted == d.counted + 1 && e.escaped == d.escaped
      && e.notified == (if s.config.watched then d.notified + 1 else d.notified)
      && e.calls == (if s.config.watched then d.calls + [InCall(1)] else d.calls)
    ensures |s.queue| < s.config.capacity ==>
      Offered(s, o) == s.(queue := s.queue + [o], accepted := s.accepted + [o], offered := s.offered + 1)
    ensures |s.queue| >= s.config.capacity ==>
      && Offered(s, o) == s.(drops := Offered(s, o).drops, offered := s.offered + 1)
      && Offered(s, o).drops.counted == s.drops.counted + 1 && Offered(s, o).drops.pending == s.drops.pending
  {
  }

  // ---------------------------------------------------------------- panics

  /** The clock that the consumer reads panics. */
  ghost predicate ClockPanics(s: State, t: State) {
    s.consumer.Measuring? && exists now :: Do(s, Step(true, now)) == Some(t)
  }

  ghost predicate ClockPanicsAt(trace: seq<State>, k: nat) {
    k + 1 < |trace| && ClockPanics(trace[k], trace[k + 1])
  }

  lemma StepToDoom(s: State, a: Action, t: State)
    requires Inv(s) && Do(s, a) == Some(t)
    ensures t.consumer.Doomed() <==> s.consumer.Doomed() || ClockPanics(s, t)
  {
    StepGrows(s, a, t);
    if t.consumer.Doomed() && !s.consumer.Doomed() {
      assert a.Step? && a.panics && s.consumer.Measuring?;
    }
  }

  lemma {:induction false} DoomedExactly(c: Config, trace: seq<State>, i: nat)
    requires IsRun(trace, Init(c), Steps) && i < |trace|
    ensures trace[i].consumer.Doomed() <==> exists k: nat :: k < i && ClockPanicsAt(trace, k)
  {
    if i > 0 {
      DoomedExactly(c, trace, i - 1);
      RunKeepsInv(c, trace, i - 1);
      assert StepAt(trace, i - 1, Steps);
      var a :| Do(trace[i - 1], a) == Some(trace[i]);
      StepToDoom(trace[i - 1], a, trace[i]);
      assert ClockPanicsAt(trace, i - 1) <==> ClockPanics(trace[i - 1], trace[i]);
    }
  }

  /** No panic of an observer or of the queue observer ever leaves the dispatcher. A panic of the clock in the
      consumer does: Run ends by it, and the observation it was about to dispatch is the only one that is ever lost
      without being counted. It is lost exactly in the runs in which that clock has panicked. */
  lemma {:induction false} OnlyTheClockLoses(c: Config, trace: seq<State>, i: nat)
    requires IsRun(trace, Init(c), Steps) && i < |trace|
    ensures trace[i].offered == Accounted(trace[i]) <==> forall k: nat :: k < i ==> !ClockPanicsAt(trace, k)
    ensures trace[i].consumer.Failed? ==> exists k: nat :: k < i && ClockPanicsAt(trace, k)
    ensures trace[i].drops.escaped == 0
  {
    RunKeepsInv(c, trace, i);
    DoomedExactly(c, trace, i);
    assert trace[i].consumer.Doomed() <==> Lost(trace[i].consumer) != [];
  }

  /** The consumer after one step, or where it is if it has to wait. */
  function Next(s: State, panics: bool, now: int): State {
    match Do(s, Step(panics, now)) case Some(t) => t case None => s
  }

  /** The state in which every panicking call of an observer is still in progress. */
  function Calm(s: State): State {
    s.(consumer := CalmConsumer(s.consumer), drops := s.drops.(calls := CalmCalls(s.drops.calls)))
  }

  function CalmConsumer(c: Consumer): Consumer {
    if c.Unwinding? && c.frames > 0 then Calling(c.current, c.next, c.frames) else c
  }

  function CalmCalls(calls: seq<DropCall>): seq<DropCall> {
    seq(|calls|, k requires 0 <= k < |calls| => InCall(calls[k].frames))
  }

  /** A step in which no observer and no queue observer panics. */
  ghost predicate CalmSteps(s: State, t: State) {
    exists a {:trigger Do(s, a)} :: ObserversReturn(s, a) && Do(s, a) == Some(t)
  }

  predicate ObserversReturn(s: State, a: Action) {
    && (a.Step? && a.panics ==> s.consumer.Measuring?)
    && (a.DropStep? ==> !a.panics)
  }

  /** A panicking call of an observer takes another way than a returning one, through the unwinding of its goroutine:
      the panic itself is a step that shows nowhere else, and the recover is the return that the call never made. */
  lemma PanicsAreIsolated(s: State, panics: bool, now: int)
    requires Inv(s) && (s.consumer.Calling? || s.consumer.Unwinding?) && !s.consumer.Doomed()
    ensures var t := Next(s, panics, now);
      if s.consumer.Calling? && panics then t != s && Calm(t) == Calm(s) else Calm(t) == Next(Calm(s), false, now)
  {
  }

  lemma CalmConsumerStep(s: State, panics: bool, now: int, t: State)
    requires Inv(s) && DoConsumer(s, panics, now) == Some(t)
    ensures Calm(t) == Calm(s) || CalmSteps(Calm(s), Calm(t))
  {
    var p := panics && s.consumer.Measuring?;
    if (s.consumer.Calling? || s.consumer.Unwinding?) && !s.consumer.Doomed() {
      PanicsAreIsolated(s, panics, now);
    }
    assert Calm(t) != Calm(s) ==> Do(Calm(s), Step(p, now)) == Some(Calm(t));
  }

  lemma CalmDrop(s: State, k: nat, panics: bool, t: State)
    requires Inv(s) && Do(s, DropStep(k, panics)) == Some(t)
    ensures Calm(t) == Calm(s) || CalmSteps(Calm(s), Calm(t))
  {
    var calls := s.drops.calls;
    if calls[k].InCall? && panics {
      assert CalmCalls(t.drops.calls) == CalmCalls(calls);
    } else {
      assert Without(CalmCalls(calls), k) == CalmCalls(Without(calls, k));
      assert Do(Calm(s), DropStep(k, false)) == Some(Calm(t));
    }
  }

  lemma CalmStep(s: State, a: Action, t: State)
    requires Inv(s) && Do(s, a) == Some(t)
    ensures Calm(t) == Calm(s) || CalmSteps(Calm(s), Calm(t))
  {
    match a
    case Step(panics, now) => CalmConsumerStep(s, panics, now, t);
    case DropStep(k, panics) => CalmDrop(s, k, panics, t);
    case CountDrop =>
      assert CalmCalls(s.drops.calls + [InCall(1)]) == CalmCalls(s.drops.calls) + [InCall(1)];
      assert Do(Calm(s), a) == Some(Calm(t));
    case _ => assert Do(Calm(s), a) == Some(Calm(t));
  }

  /** For every run there is one in which no observer ever panics and which ends with the same queue, history,
      drops, records of every observer and lags, the consumer at the same place: nobody else can tell. */
  lemma {:induction false} PanicsLeaveNoTrace(c: Config, trace: seq<State>) returns (calm: seq<State>)
    requires IsRun(trace, Init(c), Steps)
    ensures IsRun(calm, Init(c), CalmSteps)
    ensures var s, t := trace[|trace| - 1], calm[|calm| - 1];
      && t == s.(consumer := t.consumer, drops := s.drops.(calls := t.drops.calls))
      && t.consumer == CalmConsumer(s.consumer) && t.drops.calls == CalmCalls(s.drops.calls)
  {
    var n := |trace| - 1;
    if n == 0 {
      calm := [Calm(trace[0])];
      assert CalmCalls([]) == [];
    } else {
      RunPrefix(trace, Init(c), Steps, n);
      calm := PanicsLeaveNoTrace(c, trace[..n]);
      RunKeepsInv(c, trace, n - 1);
      assert StepAt(trace, n - 1, Steps);
      var a :| Do(trace[n - 1], a) == Some(trace[n]);
      CalmStep(trace[n - 1], a, trace[n]);
      assert calm[|calm| - 1] == Calm(trace[n - 1]);
      if Calm(trace[n]) != Calm(trace[n - 1]) {
        RunExtended(calm, Init(c), CalmSteps, Calm(trace[n]));
        calm := calm + [Calm(trace[n])];
      }
    }
  }

  /** The capacity in force for a configured one; zero selects the default, anything out of range is refused. */
  function EffectiveCapacity(configured: int): (r: Option<nat>)
    ensures r.Some? ==> 1 <= r.value <= 65536 && (configured != 0 ==> r.value == configured)
    ensures r.None? <==> configured < 0 || configured > 65536
    ensures configured == 0 ==> r == Some(1024)
  {
    var capacity := if configured == 0 then DEFAULT_CAPACITY else configured;
    if capacity < 1 || capacity > MAXIMUM_CAPACITY then None else Some(capacity)
  }

  // ---------------------------------------------------------------- the dispatcher object

  /** The state after enqueue: the observation is in the queue, or the drop is counted and reported. */
  function Offered(s: State, o: Observation): State {
    match Do(s, Offer(o, true))
    case None => s
    case Some(t) =>
      if t.drops.pending == s.drops.pending then t
      else match Do(t, CountDrop) case None => t case Some(u) => u
  }

  /** The consumer back at a loop head: a call has returned, or has panicked and been recovered. */
  function CallEnded(s: State, panics: bool): State {
    if !s.consumer.Calling? then s
    else
      var t := Next(s, panics, 0);
      if t.consumer.Unwinding? then Next(t, false, 0) else t
  }

  /** The state after the first n rounds of the observer loop, with panics telling how each call ends. */
  function Rounds(s: State, panics: seq<bool>, n: nat): State
    requires n <= |panics|
  {
    if n == 0 then s else CallEnded(Next(Rounds(s, panics, n - 1), false, 0), panics[n - 1])
  }

  /** One round offers the observation to one observer and ends at the loop head, whether its call panics or not. */
  lemma OneRound(t: State, o: Observation, n: nat, panics: bool)
    requires t.consumer == Dispatching(o, n) && n < |t.config.observers| == |t.logs|
    ensures CallEnded(Next(t, false, 0), panics)
            == t.(consumer := Dispatching(o, n + 1), logs := t.logs[n := Record(t.logs[n], t.config.observers[n], o)])
  {
    assert t.logs[n := t.logs[n]] == t.logs;
  }

  /** The logs once each of the first n observers has been offered the observation. */
  function Recorded(observers: seq<Observer>, logs: seq<seq<Observation>>, o: Observation,
                    n: nat): seq<seq<Observation>>
    requires |observers| == |logs|
  {
    seq(|logs|, j requires 0 <= j < |logs| => if j < n then Record(logs[j], observers[j], o) else logs[j])
  }

  /** The state at the loop head once each of the first n observers has been offered the observation. */
  function OfferedTo(s: State, o: Observation, n: nat): State
    requires |s.config.observers| == |s.logs|
  {
    s.(consumer := Dispatching(o, n), logs := Recorded(s.config.observers, s.logs, o, n))
  }

  lemma NextRound(s: State, o: Observation, panics: bool, n: nat)
    requires n < |s.config.observers| == |s.logs|
    ensures CallEnded(Next(OfferedTo(s, o, n), false, 0), panics) == OfferedTo(s, o, n + 1)
  {
    OneRound(OfferedTo(s, o, n), o, n, panics);
    RecordedNext(s.config.observers, s.logs, o, n);
  }

  lemma RoundsNext(s: State, panics: seq<bool>, n: nat)
    requires n < |panics|
    ensures Rounds(s, panics, n + 1) == CallEnded(Next(Rounds(s, panics, n), false, 0), panics[n])
  {
  }

  lemma RoundsGoOn(s: State, o: Observation, panics: seq<bool>, n: nat)
    requires n < |s.config.observers| == |s.logs| == |panics| && Rounds(s, panics, n) == OfferedTo(s, o, n)
    ensures Rounds(s, panics, n + 1) == OfferedTo(s, o, n + 1)
  {
    RoundsNext(s, panics, n);
    NextRound(s, o, panics[n], n);
  }

  lemma NoRounds(s: State, o: Observation)
    requires s.consumer == Dispatching(o, 0) && |s.config.observers| == |s.logs|
    ensures OfferedTo(s, o, 0) == s
  {
    assert Recorded(s.config.observers, s.logs, o, 0) == s.logs;
  }

  /** The first n rounds reach exactly the first n observers, whichever of their calls panic. */
  lemma {:induction false} RoundsRecord(s: State, o: Observation, panics: seq<bool>, n: nat)
    requires s.consumer == Dispatching(o, 0) && n <= |s.config.observers| == |s.logs| == |panics|
    ensures Rounds(s, panics, n) == OfferedTo(s, o, n)
  {
    if n == 0 {
      NoRounds(s, o);
    } else {
      RoundsRecord(s, o, panics, n - 1);
      RoundsGoOn(s, o, panics, n - 1);
    }
  }

  lemma RecordedNext(observers: seq<Observer>, logs: seq<seq<Observation>>, o: Observation, n: nat)
    requires n < |observers| == |logs|
    ensures Recorded(observers, logs, o, n + 1)
      == Recorded(observers, logs, o, n)[n := Record(logs[n], observers[n], o)]
    ensures Recorded(observers, logs, o, n)[n] == logs[n]
  {
  }

  /** The lags after a dispatch at this time. */
  function Lagged(watched: bool, lags: seq<int>, o: Observation, now: int): seq<int> {
    if watched && now - o.enqueuedAt.instant >= 0 then lags + [now - o.enqueuedAt.instant] else lags
  }

  /** A whole dispatch, from reading the clock to the end of the loop. */
  lemma {:induction false} DispatchRecords(s: State, o: Observation, now: int, lagPanics: bool, panics: seq<bool>)
    requires s.consumer == Measuring(o) && |s.config.observers| == |s.logs| == |panics|
    ensures Rounds(CallEnded(Next(s, false, now), lagPanics), panics, |panics|)
            == s.(consumer := Dispatching(o, |panics|), lags := Lagged(s.config.watched, s.lags, o, now),
                  logs := Recorded(s.config.observers, s.logs, o, |panics|))
  {
    MeasureEnds(s, o, now, lagPanics);
    RoundsRecord(CallEnded(Next(s, false, now), lagPanics), o, panics, |panics|);
  }

  lemma MeasureEnds(s: State, o: Observation, now: int, lagPanics: bool)
    requires s.consumer == Measuring(o)
    ensures CallEnded(Next(s, false, now), lagPanics)
            == s.(consumer := Dispatching(o, 0), lags := Lagged(s.config.watched, s.lags, o, now))
  {
  }

  /** The observers that are there, in their order. */
  function Present(given: seq<Option<Observer>>): seq<Observer> {
    if given == [] then []
    else Present(given[..|given| - 1]) + (if given[|given| - 1].Some? then [given[|given| - 1].value] else [])
  }

  /** These are the places of the observers that are there: ascending, and none left out. */
  ghost predicate ArePlaces(places: seq<nat>, given: seq<Option<Observer>>, kept: seq<Observer>) {
    && |places| == |kept|
    && (forall i :: 0 <= i < |places| ==> places[i] < |given| && given[places[i]] == Some(kept[i]))
    && (forall i, j :: 0 <= i < j < |places| ==> places[i] < places[j])
    && (forall p :: 0 <= p < |given| && given[p].Some? ==> p in places)
  }

  lemma OneMorePlace(places: seq<nat>, given: seq<Option<Observer>>, kept: seq<Observer>, next: Option<Observer>)
    requires ArePlaces(places, given, kept)
    ensures next.None? ==> ArePlaces(places, given + [next], kept)
    ensures next.Some? ==> ArePlaces(places + [|given|], given + [next], kept + [next.value])
  {
  }

  lemma {:induction false} PresentPlaces(given: seq<Option<Observer>>) returns (places: seq<nat>)
    ensures ArePlaces(places, given, Present(given))
  {
    if given == [] {
      places := [];
    } else {
      var n := |given| - 1;
      var before := PresentPlaces(given[..n]);
      OneMorePlace(before, given[..n], Present(given[..n]), given[n]);
      assert given[..n] + [given[n]] == given;
      places := if given[n].Some? then before + [n] else before;
    }
  }

  /** Who watches the queue. */
  datatype Watcher = Nobody | Configured | Kept(index: nat)

  /** Without a configured one it is the first kept observer that can. */
  ghost predicate IsWatcher(w: Watcher, configured: bool, kept: seq<Observer>) {
    match w
    case Configured => configured
    case Kept(i) => !configured && i < |kept| && kept[i].watchesQueue
      && forall j :: 0 <= j < i ==> !kept[j].watchesQueue
    case Nobody => !configured && forall j :: 0 <= j < |kept| ==> !kept[j].watchesQueue
  }

  /** How a call ends in Go. */
  datatype Ending = Returned | Panicked

  class TournamentEventDispatcher {
    const observers: seq<Observer>
    const watcher: Watcher
    const capacity: nat
    var queue: seq<Observation>
    var started: bool
    var dropped: nat
    var notified: nat
    var logs: seq<seq<Observation>>
    var lags: seq<int>

    ghost predicate Valid()
      reads this
    {
      |queue| <= capacity && |logs| == |observers|
    }

    function Settings(): Config { Config(observers, watcher != Nobody, capacity) }

    /** The fields are those of the protocol state s. */
    ghost predicate Records(s: State)
      reads this
    {
      && s.config == Settings()
      && s.queue == queue && s.drops.counted == dropped && s.drops.notified == notified
      && s.logs == logs && s.lags == lags
      && (started <==> !s.consumer.Absent?)
    }

    constructor (observers: seq<Observer>, watcher: Watcher, capacity: nat)
      ensures this.observers == observers && this.watcher == watcher && this.capacity == capacity
      ensures Valid() && Records(Init(Settings()))
    {
      this.observers, this.watcher, this.capacity := observers, watcher, capacity;
      queue, started, dropped, notified := [], false, 0, 0;
      logs, lags := seq(|observers|, _ => []), [];
    }

    /** A nil observer is skipped; without any observer, or with a bad capacity, there is no dispatcher. */
    static method New(configured: int, hasQueueObserver: bool, given: seq<Option<Observer>>)
      returns (r: Option<TournamentEventDispatcher>)
      ensures r.Some? <==> EffectiveCapacity(configured).Some? && Present(given) != []
      ensures r.Some? ==> fresh(r.value) && r.value.Valid() && r.value.Records(Init(r.value.Settings()))
      ensures r.Some? ==> Some(r.value.capacity) == EffectiveCapacity(configured) && r.value.observers == Present(given)
      ensures r.Some? ==> IsWatcher(r.value.watcher, hasQueueObserver, Present(given))
    {
      var capacity := EffectiveCapacity(configured);
      if capacity.None? {
        return None;
      }
      var filtered: seq<Observer> := [];
      var watcher := if hasQueueObserver then Configured else Nobody;
      for i := 0 to |given|
        invariant filtered == Present(given[..i])
        invariant IsWatcher(watcher, hasQueueObserver, filtered)
      {
        assert given[..i + 1][..i] == given[..i];
        if given[i].None? {
          continue;
        }
        filtered := filtered + [given[i].value];
        if watcher.Nobody? && given[i].value.watchesQueue {
          watcher := Kept(|filtered| - 1);
        }
      }
      assert given[..|given|] == given;
      if |filtered| == 0 {
        return None;
      }
      var dispatcher := new TournamentEventDispatcher(filtered, watcher, capacity.value);
      return Some(dispatcher);
    }

    /** The compare-and-swap at the head of Run. */
    method Begin() returns (won: bool)
      modifies `started
      ensures won == !old(started) && started
      ensures forall s :: old(Records(s)) ==> Do(s, RunCall).Some? && Records(Do(s, RunCall).value)
    {
      won := !started;
      started := true;
    }

    /** The call of the queue observer itself. */
    method NotifyDrop(panics: bool) returns (ending: Ending)
      modifies `notified
      ensures notified == old(notified) + 1 && ending == if panics then Panicked else Returned
    {
      notified := notified + 1;
      ending := if panics then Panicked else Returned;
    }

    method ObserveDropSafely(panics: bool) returns (ending: Ending)
      modifies `notified
      ensures notified == old(notified) + (if watcher.Nobody? then 0 else 1) && ending == Returned
    {
      if watcher.Nobody? {
        return Returned;
      }
      ending := NotifyDrop(panics);
      if ending.Panicked? {
        ending := Returned;
      }
    }

    method Enqueue(o: Observation, panics: bool) returns (ending: Ending)
      requires Valid()
      modifies `queue, `dropped, `notified
      ensures Valid() && ending == Returned
      ensures |old(queue)| < capacity ==> queue == old(queue) + [o] && dropped == old(dropped)
      ensures |old(queue)| == capacity ==> queue == old(queue) && dropped == old(dropped) + 1
      ensures forall s :: old(Records(s)) ==> Records(Offered(s, o))
    {
      if |queue| < capacity {
        queue := queue + [o];
        ending := Returned;
      } else {
        dropped := dropped + 1;
        ending := ObserveDropSafely(panics);
      }
    }

    method ReportLag(lag: int, panics: bool) returns (ending: Ending)
      modifies `lags
      ensures lags == old(lags) + [lag] && ending == if panics then Panicked else Returned
    {
      lags := lags + [lag];
      ending := if panics then Panicked else Returned;
    }

    method ObserveQueueLagSafely(lag: int, panics: bool) returns (ending: Ending)
      modifies `lags
      ensures lags == (if watcher.Nobody? then old(lags) else old(lags) + [lag]) && ending == Returned
    {
      if watcher.Nobody? {
        return Returned;
      }
      ending := ReportLag(lag, panics);
      if ending.Panicked? {
        ending := Returned;
      }
    }

    /** The call of observer k itself. */
    method Observe(k: nat, o: Observation, panics: bool) returns (ending: Ending)
      requires k < |logs|
      modifies `logs
      ensures logs == old(logs)[k := old(logs)[k] + [o]] && ending == if panics then Panicked else Returned
    {
      logs := logs[k := logs[k] + [o]];
      ending := if panics then Panicked else Returned;
    }

    method ObserveSafely(k: nat, o: Observation, panics: bool) returns (ending: Ending)
      requires k < |logs|
      modifies `logs
      ensures logs == old(logs)[k := old(logs)[k] + [o]] && ending == Returned
    {
      ending := Observe(k, o, panics);
      if ending.Panicked? {
        ending := Returned;
      }
    }

    /** Reports the lag and calls every observer. A panicking clock ends the dispatch before it has begun; a
        panicking call would end it too, were it not recovered below the loop. */
    method Dispatch(o: Observation, now: Option<int>, lagPanics: bool, panics: seq<bool>) returns (ending: Ending)
      requires Valid() && |panics| == |observers|
      modifies `logs, `lags
      ensures Valid()
      ensures ending == Panicked <==> now.None?
      ensures now.None? ==> logs == old(logs) && lags == old(lags)
      ensures now.Some? ==> logs == Recorded(observers, old(logs), o, |observers|)
      ensures now.Some? ==> forall j :: 0 <= j < |observers| ==>
        logs[j] == old(logs)[j] + (if o.Event? || observers[j].takesLag then [o] else [])
      ensures now.Some? ==> lags == Lagged(!watcher.Nobody?, old(lags), o, now.value)
      ensures forall s :: old(Records(s)) && s.consumer == Measuring(o) && now.Some? ==>
                            Records(Rounds(CallEnded(Next(s, false, now.value), lagPanics), panics, |observers|))
    {
      if now.None? {
        return Panicked;
      }
      var lag := now.value - o.enqueuedAt.instant;
      if lag >= 0 {
        ending := ObserveQueueLagSafely(lag, lagPanics);
        if ending.Panicked? {
          return;
        }
      }
      for k := 0 to |observers|
        invariant |logs| == |observers| && logs == Recorded(observers, old(logs), o, k)
        invariant lags == Lagged(!watcher.Nobody?, old(lags), o, now.value)
      {
        RecordedNext(observers, old(logs), o, k);
        if observers[k].Takes(o) {
          ending := ObserveSafely(k, o, panics[k]);
          if ending.Panicked? {
            return;
          }
        }
      }
      ending := Returned;
      forall s | old(Records(s)) && s.consumer == Measuring(o)
        ensures Records(Rounds(CallEnded(Next(s, false, now.value), lagPanics), panics, |observers|))
      {
        DispatchRecords(s, o, now.value, lagPanics, panics);
      }
    }
  }
}
