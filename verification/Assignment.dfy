/** Task assignments with hidden reserves, delivered against a task history that many assignments share. */
module Assignments {
  import opened Foundation
  import opened Ordering
  import opened Runs

  const MAX_RESERVES := 2

  /** A task version frozen for an assignment; wellFormed stands for the checks on its content. */
  datatype Snapshot = Snapshot(id: Id, taskId: Id, version: int, wellFormed: bool) {
    predicate Valid() { id != 0 && taskId != 0 && version >= 1 && wellFormed }
  }

  /** The name-based identity hash (section 4.3 of RFC 4122) is any function of its two arguments. */
  type NameHash = (Id, Id) -> Id

  function InstanceId(hash: NameHash, assignment: Id, participant: Id): Id {
    if assignment == 0 || participant == 0 then 0 else hash(assignment, participant)
  }

  datatype Receipt = Receipt(
    id: Id, assignment: Id, attempt: Id, participant: Id, instance: Id, snapshot: Id, task: Id, at: Time)
  {
    predicate Valid(hash: NameHash) {
      && id != 0 && assignment != 0 && attempt != 0 && participant != 0 && instance != 0 && snapshot != 0 && task != 0
      && instance == InstanceId(hash, assignment, participant)
      && at.IsServerTime()
    }
  }

  predicate SameDelivery(r: Receipt, s: Receipt) { r.participant == s.participant && r.task == s.task }

  predicate Received(rs: seq<Receipt>, participant: Id, task: Id) {
    exists i :: 0 <= i < |rs| && rs[i].participant == participant && rs[i].task == task
  }

  /** No participant receives a task twice. */
  ghost predicate OncePerParticipant(rs: seq<Receipt>) {
    forall i, j {:trigger SameDelivery(rs[i], rs[j])} :: 0 <= i < j < |rs| ==> !SameDelivery(rs[i], rs[j])
  }

  ghost predicate HistoryOk(rs: seq<Receipt>, hash: NameHash) {
    && (forall i :: 0 <= i < |rs| ==> rs[i].Valid(hash))
    && OncePerParticipant(rs)
  }

  datatype Assignment = Assignment(
    id: Id, attempt: Id, first: Id, second: Id, snapshots: seq<Snapshot>, active: int, receipts: seq<Receipt>)
  {
    predicate HasParticipant(participant: Id) { first == participant || second == participant }

    predicate HasSnapshot(snapshot: Id, task: Id) {
      exists k :: 0 <= k < |snapshots| && snapshots[k].id == snapshot && snapshots[k].taskId == task
    }

    predicate ReceiptOk(r: Receipt, hash: NameHash) {
      && r.Valid(hash) && r.assignment == id && r.attempt == attempt
      && HasParticipant(r.participant) && HasSnapshot(r.snapshot, r.task)
    }

    ghost predicate SnapshotsOk() { 1 <= |snapshots| <= MAX_RESERVES + 1 && ChainOk(snapshots) }

    ghost predicate ReceiptsOk(hash: NameHash) {
      && (forall i :: 0 <= i < |receipts| ==> ReceiptOk(receipts[i], hash))
      && OncePerParticipant(receipts)
    }

    ghost predicate Valid(hash: NameHash) {
      && id != 0 && attempt != 0 && first != 0 && second != 0 && first != second
      && 0 <= active < |snapshots|
      && SnapshotsOk() && ReceiptsOk(hash)
    }

    function UndisclosedReserves(): int { |snapshots| - active - 1 }

    /** A receipt delivers a snapshot that has already been disclosed. */
    predicate Disclosed(r: Receipt) {
      exists k :: 0 <= k <= active && k < |snapshots| && snapshots[k].id == r.snapshot && snapshots[k].taskId == r.task
    }
  }

  ghost predicate ChainOk(ss: seq<Snapshot>) {
    && (forall k :: 0 <= k < |ss| ==> ss[k].Valid())
    && (forall j, k {:trigger Clash(ss[j], ss[k])} :: 0 <= j < k < |ss| ==> !Clash(ss[j], ss[k]))
  }

  predicate Clash(s: Snapshot, t: Snapshot) { s.taskId == t.taskId || s.id == t.id }

  datatype AssignmentError =
    | InvalidSnapshot | InvalidAssignment | ForeignParticipant | RepeatReceipt | ReservesExhausted

  // ---------------------------------------------------------------- the first fault that a validation meets

  predicate Clashes(ss: seq<Snapshot>, s: Snapshot) { exists i :: 0 <= i < |ss| && Clash(ss[i], s) }

  ghost function ChainFault(ss: seq<Snapshot>): (fault: Option<AssignmentError>)
    ensures fault.None? <==> ChainOk(ss)
  {
    if ss == [] then None
    else
      var init, last := ss[..|ss| - 1], ss[|ss| - 1];
      ChainOkGrows(init, last);
      assert ss == init + [last];
      if ChainFault(init).Some? then ChainFault(init)
      else if !last.Valid() then Some(InvalidSnapshot)
      else if Clashes(init, last) then Some(InvalidAssignment)
      else None
  }

  lemma ChainOkGrows(init: seq<Snapshot>, last: Snapshot)
    ensures ChainOk(init + [last]) <==> ChainOk(init) && last.Valid() && !Clashes(init, last)
  {
    var ss := init + [last];
    if ChainOk(ss) {
      forall j, k | 0 <= j < k < |init| ensures !Clash(init[j], init[k]) { assert !Clash(ss[j], ss[k]); }
      forall k | 0 <= k < |init| ensures init[k].Valid() { assert ss[k].Valid(); }
      assert ss[|init|].Valid();
      forall j | 0 <= j < |init| ensures !Clash(init[j], last) { assert !Clash(ss[j], ss[|init|]); }
    }
    if ChainOk(init) && last.Valid() && !Clashes(init, last) {
      forall j, k | 0 <= j < k < |ss|
        ensures !Clash(ss[j], ss[k])
      {
        if k < |init| { assert !Clash(init[j], init[k]); }
      }
    }
  }

  ghost predicate AllOk(rs: seq<Receipt>, ok: Receipt -> bool) {
    (forall i :: 0 <= i < |rs| ==> ok(rs[i])) && OncePerParticipant(rs)
  }

  /** The first receipt that is not proper, or that repeats an earlier one. */
  ghost function ReceiptsFault(rs: seq<Receipt>, ok: Receipt -> bool): (fault: Option<AssignmentError>)
    ensures fault.None? <==> AllOk(rs, ok)
  {
    if rs == [] then None
    else
      var init, last := rs[..|rs| - 1], rs[|rs| - 1];
      AllOkGrows(init, last, ok);
      assert rs == init + [last];
      if ReceiptsFault(init, ok).Some? then ReceiptsFault(init, ok)
      else if !ok(last) then Some(InvalidAssignment)
      else if Received(init, last.participant, last.task) then Some(RepeatReceipt)
      else None
  }

  lemma AllOkGrows(init: seq<Receipt>, last: Receipt, ok: Receipt -> bool)
    ensures AllOk(init + [last], ok) <==> AllOk(init, ok) && ok(last) && !Received(init, last.participant, last.task)
  {
    var rs := init + [last];
    if AllOk(rs, ok) {
      forall i, j | 0 <= i < j < |init| ensures !SameDelivery(init[i], init[j]) { assert !SameDelivery(rs[i], rs[j]); }
      forall i | 0 <= i < |init| ensures ok(init[i]) { assert ok(rs[i]); }
      assert ok(rs[|init|]);
      forall i | 0 <= i < |init| ensures !SameDelivery(init[i], last) { assert !SameDelivery(rs[i], rs[|init|]); }
    }
    if AllOk(init, ok) && ok(last) && !Received(init, last.participant, last.task) { AppendOnce(init, last); }
  }

  lemma {:induction false} FaultStays(rs: seq<Receipt>, n: nat, ok: Receipt -> bool)
    requires n <= |rs| && ReceiptsFault(rs[..n], ok).Some?
    ensures ReceiptsFault(rs, ok) == ReceiptsFault(rs[..n], ok)
    decreases |rs|
  {
    if n == |rs| {
      assert rs[..n] == rs;
    } else {
      var init := rs[..|rs| - 1];
      assert init[..n] == rs[..n];
      FaultStays(init, n, ok);
    }
  }

  lemma {:induction false} ChainFaultStays(ss: seq<Snapshot>, n: nat)
    requires n <= |ss| && ChainFault(ss[..n]).Some?
    ensures ChainFault(ss) == ChainFault(ss[..n])
    decreases |ss|
  {
    if n == |ss| {
      assert ss[..n] == ss;
    } else {
      var init := ss[..|ss| - 1];
      assert init[..n] == ss[..n];
      ChainFaultStays(init, n);
    }
  }

  function ProperReceipt(hash: NameHash): Receipt -> bool { (r: Receipt) => r.Valid(hash) }

  function OwnReceipt(a: Assignment, hash: NameHash): Receipt -> bool { (r: Receipt) => a.ReceiptOk(r, hash) }

  ghost function HistoryFault(rs: seq<Receipt>, hash: NameHash): (fault: Option<AssignmentError>)
    ensures fault.None? <==> HistoryOk(rs, hash)
  {
    ReceiptsFault(rs, ProperReceipt(hash))
  }

  ghost function SnapshotsFault(ss: seq<Snapshot>): (fault: Option<AssignmentError>)
    ensures fault.None? <==> 1 <= |ss| <= MAX_RESERVES + 1 && ChainOk(ss)
  {
    if !(1 <= |ss| <= MAX_RESERVES + 1) then Some(InvalidAssignment) else ChainFault(ss)
  }

  /** Identity, participants and active index first, then the snapshots, then the receipts. */
  ghost function AssignmentFault(a: Assignment, hash: NameHash): (fault: Option<AssignmentError>)
    ensures fault.None? <==> a.Valid(hash)
  {
    if a.id == 0 || a.attempt == 0 || a.first == 0 || a.second == 0 || a.first == a.second then Some(InvalidAssignment)
    else if !(0 <= a.active < |a.snapshots|) then Some(InvalidAssignment)
    else if SnapshotsFault(a.snapshots).Some? then SnapshotsFault(a.snapshots)
    else ReceiptsFault(a.receipts, OwnReceipt(a, hash))
  }

  // ---------------------------------------------------------------- what the two operations do

  function Promoted(a: Assignment): Result<Assignment, AssignmentError> {
    if a.active + 1 >= |a.snapshots| then Err(ReservesExhausted) else Ok(a.(active := a.active + 1))
  }

  function ReceiptFor(a: Assignment, hash: NameHash, receiptId: Id, participant: Id, at: Time): Receipt
    requires 0 <= a.active < |a.snapshots|
  {
    var s := a.snapshots[a.active];
    Receipt(receiptId, a.id, a.attempt, participant, InstanceId(hash, a.id, participant), s.id, s.taskId, at.ToUtc())
  }

  /** The receipt that a delivery adds to the assignment and to the history. */
  ghost function Delivered(a: Assignment, history: seq<Receipt>, hash: NameHash, receiptId: Id, participant: Id,
                           at: Time)
    : Result<Receipt, AssignmentError>
  {
    if !a.Valid(hash) then Err(AssignmentFault(a, hash).value)
    else if !HistoryOk(history, hash) then Err(HistoryFault(history, hash).value)
    else if !a.HasParticipant(participant) then Err(ForeignParticipant)
    else
      var r := ReceiptFor(a, hash, receiptId, participant, at);
      if Received(history, participant, r.task) || Received(a.receipts, participant, r.task) then Err(RepeatReceipt)
      else if !r.Valid(hash) then Err(InvalidAssignment)
      else Ok(r)
  }

  // ---------------------------------------------------------------- many assignments, one history

  datatype System = System(assignments: seq<Assignment>, history: seq<Receipt>)

  ghost predicate Delivers(s: System, hash: NameHash, i: nat, receiptId: Id, participant: Id, at: Time, t: System) {
    && i < |s.assignments|
    && var d := Delivered(s.assignments[i], s.history, hash, receiptId, participant, at);
       && d.Ok?
       && t == System(s.assignments[i := s.assignments[i].(receipts := s.assignments[i].receipts + [d.value])],
                      s.history + [d.value])
  }

  ghost predicate Promotes(s: System, i: nat, t: System) {
    && i < |s.assignments|
    && var p := Promoted(s.assignments[i]);
       p.Ok? && t == s.(assignments := s.assignments[i := p.value])
  }

  ghost predicate Steps(s: System, hash: NameHash, t: System) {
    || (exists i, receiptId, participant, at :: Delivers(s, hash, i, receiptId, participant, at, t))
    || (exists i :: Promotes(s, i, t))
  }

  function AllReceipts(assignments: seq<Assignment>): multiset<Receipt> {
    if assignments == [] then multiset{} else multiset(assignments[0].receipts) + AllReceipts(assignments[1..])
  }

  /** What the assignments and the history keep from where they began. */
  ghost predicate AssignmentKept(a: Assignment, begun: Assignment, hash: NameHash) {
    && a.Valid(hash)
    && a == begun.(active := a.active, receipts := a.receipts)
    && begun.active <= a.active
    && a.active + a.UndisclosedReserves() == begun.active + begun.UndisclosedReserves()
    && forall i :: 0 <= i < |a.receipts| ==> a.Disclosed(a.receipts[i])
  }

  ghost predicate SystemOk(s: System, begun: System, hash: NameHash) {
    && |s.assignments| == |begun.assignments|
    && (forall i {:trigger s.assignments[i]} ::
      0 <= i < |s.assignments| ==> AssignmentKept(s.assignments[i], begun.assignments[i], hash))
    && HistoryOk(s.history, hash)
    && multiset(s.history) == multiset(begun.history) + AllReceipts(s.assignments)
  }

  ghost predicate Fresh(s: System, hash: NameHash) {
    && HistoryOk(s.history, hash)
    && forall i {:trigger s.assignments[i]} ::
      0 <= i < |s.assignments| ==> s.assignments[i].Valid(hash) && s.assignments[i].receipts == []
  }

  lemma AppendOnce(rs: seq<Receipt>, r: Receipt)
    requires OncePerParticipant(rs) && !Received(rs, r.participant, r.task)
    ensures OncePerParticipant(rs + [r])
  {
    forall i, j | 0 <= i < j < |rs + [r]|
      ensures !SameDelivery((rs + [r])[i], (rs + [r])[j])
    {
      if j < |rs| { assert !SameDelivery(rs[i], rs[j]); }
    }
  }

  lemma DeliveryKeepsAssignment(a: Assignment, begun: Assignment, history: seq<Receipt>, hash: NameHash, receiptId: Id,
                                participant: Id, at: Time)
    requires AssignmentKept(a, begun, hash) && Delivered(a, history, hash, receiptId, participant, at).Ok?
    ensures var r := Delivered(a, history, hash, receiptId, participant, at).value;
            AssignmentKept(a.(receipts := a.receipts + [r]), begun, hash) && HistoryOk(history + [r], hash)
  {
    var r := Delivered(a, history, hash, receiptId, participant, at).value;
    var b := a.(receipts := a.receipts + [r]);
    AppendOnce(a.receipts, r);
    AppendOnce(history, r);
    assert a.snapshots[a.active].id == r.snapshot;
    forall i | 0 <= i < |b.receipts|
      ensures b.ReceiptOk(b.receipts[i], hash) && b.Disclosed(b.receipts[i])
    {
      if i < |a.receipts| { assert a.ReceiptOk(a.receipts[i], hash) && a.Disclosed(a.receipts[i]); }
    }
  }

  lemma PromotionKeepsAssignment(a: Assignment, begun: Assignment, hash: NameHash)
    requires AssignmentKept(a, begun, hash) && Promoted(a).Ok?
    ensures AssignmentKept(Promoted(a).value, begun, hash)
  {
    var b := Promoted(a).value;
    forall i | 0 <= i < |b.receipts|
      ensures b.ReceiptOk(b.receipts[i], hash) && b.Disclosed(b.receipts[i])
    {
      assert a.ReceiptOk(a.receipts[i], hash) && a.Disclosed(a.receipts[i]);
    }
  }

  lemma {:induction false} ReceiptsUpdate(assignments: seq<Assignment>, i: nat, a: Assignment, r: Receipt)
    requires i < |assignments|
    ensures AllReceipts(assignments[i := a])[r] + multiset(assignments[i].receipts)[r]
      == AllReceipts(assignments)[r] + multiset(a.receipts)[r]
  {
    if i > 0 {
      assert assignments[i := a][1..] == assignments[1..][i - 1 := a];
      ReceiptsUpdate(assignments[1..], i - 1, a, r);
    } else {
      assert assignments[i := a][1..] == assignments[1..];
    }
  }

  /** A delivery adds its receipt to the assignments' receipts; a promotion adds nothing. */
  lemma ReceiptsAfter(assignments: seq<Assignment>, i: nat, a: Assignment, added: multiset<Receipt>)
    requires i < |assignments| && multiset(a.receipts) == multiset(assignments[i].receipts) + added
    ensures AllReceipts(assignments[i := a]) == AllReceipts(assignments) + added
  {
    forall r
      ensures AllReceipts(assignments[i := a])[r] == (AllReceipts(assignments) + added)[r]
    {
      ReceiptsUpdate(assignments, i, a, r);
    }
  }

  lemma UpdateKeepsAssignments(s: System, begun: System, hash: NameHash, i: nat, b: Assignment)
    requires SystemOk(s, begun, hash) && i < |s.assignments| && AssignmentKept(b, begun.assignments[i], hash)
    ensures forall j {:trigger s.assignments[i := b][j]} ::
      0 <= j < |s.assignments| ==> AssignmentKept(s.assignments[i := b][j], begun.assignments[j], hash)
  {
    forall j | 0 <= j < |s.assignments|
      ensures AssignmentKept(s.assignments[i := b][j], begun.assignments[j], hash)
    {
      if j != i { assert s.assignments[i := b][j] == s.assignments[j]; }
    }
  }

  lemma DeliveryKeepsSystem(s: System, begun: System, hash: NameHash, i: nat, receiptId: Id, participant: Id, at: Time,
                            t: System)
    requires SystemOk(s, begun, hash) && Delivers(s, hash, i, receiptId, participant, at, t)
    ensures SystemOk(t, begun, hash)
  {
    var a := s.assignments[i];
    var r := Delivered(a, s.history, hash, receiptId, participant, at).value;
    var b := a.(receipts := a.receipts + [r]);
    assert AssignmentKept(a, begun.assignments[i], hash);
    DeliveryKeepsAssignment(a, begun.assignments[i], s.history, hash, receiptId, participant, at);
    UpdateKeepsAssignments(s, begun, hash, i, b);
    ReceiptsAfter(s.assignments, i, b, multiset{r});
  }

  lemma PromotionKeepsSystem(s: System, begun: System, hash: NameHash, i: nat, t: System)
    requires SystemOk(s, begun, hash) && Promotes(s, i, t)
    ensures SystemOk(t, begun, hash)
  {
    var a := s.assignments[i];
    assert AssignmentKept(a, begun.assignments[i], hash);
    PromotionKeepsAssignment(a, begun.assignments[i], hash);
    UpdateKeepsAssignments(s, begun, hash, i, Promoted(a).value);
    ReceiptsAfter(s.assignments, i, Promoted(a).value, multiset{});
  }

  lemma {:induction false} NoReceiptsYet(assignments: seq<Assignment>)
    requires forall i {:trigger assignments[i]} :: 0 <= i < |assignments| ==> assignments[i].receipts == []
    ensures AllReceipts(assignments) == multiset{}
  {
    if assignments != [] {
      assert assignments[0].receipts == [];
      forall i | 0 <= i < |assignments[1..]|
        ensures assignments[1..][i].receipts == []
      {
        assert assignments[i + 1].receipts == [];
      }
      NoReceiptsYet(assignments[1..]);
    }
  }

  /** For every interleaving of deliveries and promotions over assignments that share one history: all
      assignments and the history stay valid, receipts refer to disclosed snapshots only, the number of
      disclosed plus undisclosed reserves is constant, and the history holds exactly what was delivered. */
  lemma {:induction false} InterleavingsAreSafe(begun: System, hash: NameHash, trace: seq<System>, k: nat)
    requires Fresh(begun, hash)
    requires IsRun(trace, begun, (s: System, t: System) => Steps(s, hash, t)) && k < |trace|
    ensures SystemOk(trace[k], begun, hash)
  {
    var step := (s: System, t: System) => Steps(s, hash, t);
    var inv := (s: System) => SystemOk(s, begun, hash);
    NoReceiptsYet(begun.assignments);
    forall s, t | inv(s) && step(s, t)
      ensures inv(t)
    {
      if i, receiptId, participant, at :| Delivers(s, hash, i, receiptId, participant, at, t) {
        DeliveryKeepsSystem(s, begun, hash, i, receiptId, participant, at, t);
      } else {
        var i :| Promotes(s, i, t);
        PromotionKeepsSystem(s, begun, hash, i, t);
      }
    }
    Invariant(trace, begun, step, inv, k);
  }

  lemma {:induction false} OneOf(assignments: seq<Assignment>, i: nat, r: Receipt)
    requires i < |assignments| && r in assignments[i].receipts
    ensures AllReceipts(assignments)[r] >= 1
  {
    assert r in multiset(assignments[i].receipts);
    if i > 0 { OneOf(assignments[1..], i - 1, r); }
  }

  lemma {:induction false} TwoOf(assignments: seq<Assignment>, i: nat, j: nat, r: Receipt)
    requires i < j < |assignments| && r in assignments[i].receipts && r in assignments[j].receipts
    ensures AllReceipts(assignments)[r] >= 2
  {
    if i == 0 {
      assert r in multiset(assignments[0].receipts);
      OneOf(assignments[1..], j - 1, r);
    } else {
      TwoOf(assignments[1..], i - 1, j - 1, r);
    }
  }

  lemma DistinctHistory(rs: seq<Receipt>)
    requires OncePerParticipant(rs)
    ensures forall r :: r in rs ==> multiset(rs)[r] == 1
    ensures forall r, s :: r in rs && s in rs && SameDelivery(r, s) ==> r == s
  {
    forall i, j | 0 <= i < j < |rs| ensures rs[i] != rs[j] { assert !SameDelivery(rs[i], rs[j]); }
    DistinctIsMultiplicityOne(rs);
    forall r, s | r in rs && s in rs && SameDelivery(r, s)
      ensures r == s
    {
      var i :| 0 <= i < |rs| && rs[i] == r;
      var j :| 0 <= j < |rs| && rs[j] == s;
      assert SameDelivery(rs[i], rs[j]) && SameDelivery(rs[j], rs[i]);
    }
  }

  /** Across all assignments of a reachable system no participant holds two receipts for one task, not even in
      different assignments. */
  lemma NoTaskTwice(s: System, begun: System, hash: NameHash, i: nat, j: nat, r: Receipt, q: Receipt)
    requires SystemOk(s, begun, hash) && i < |s.assignments| && j < |s.assignments|
    requires r in s.assignments[i].receipts && q in s.assignments[j].receipts && SameDelivery(r, q)
    ensures r == q && i == j
    ensures r in s.history && !Received(begun.history, r.participant, r.task)
  {
    DistinctHistory(s.history);
    OneOf(s.assignments, i, r);
    OneOf(s.assignments, j, q);
    assert r in multiset(s.history) && q in multiset(s.history);
    assert r == q;
    if i < j { TwoOf(s.assignments, i, j, r); }
    if j < i { TwoOf(s.assignments, j, i, r); }
    if Received(begun.history, r.participant, r.task) {
      var k :| 0 <= k < |begun.history| && begun.history[k].participant == r.participant
        && begun.history[k].task == r.task;
      var old0 := begun.history[k];
      assert old0 in multiset(begun.history) && old0 in multiset(s.history) && SameDelivery(old0, r);
    }
  }

  /** What a delivery has to meet in a reachable system: the assignment's own receipts need no look, since the
      history holds them. */
  predicate Deliverable(a: Assignment, history: seq<Receipt>, hash: NameHash, receiptId: Id, participant: Id,
                        at: Time)
  {
    && 0 <= a.active < |a.snapshots|
    && a.HasParticipant(participant)
    && !Received(history, participant, a.snapshots[a.active].taskId)
    && receiptId != 0 && hash(a.id, participant) != 0 && !at.IsZero()
  }

  /** In every reachable system a delivery succeeds exactly for a participant of the assignment who never
      received the disclosed task anywhere, given proper identities and a time, and it delivers the snapshot
      disclosed last. */
  lemma {:induction false} DeliverableExactly(s: System, begun: System, hash: NameHash, i: nat, receiptId: Id,
                                              participant: Id, at: Time)
    requires SystemOk(s, begun, hash) && i < |s.assignments|
    ensures var a := s.assignments[i]; var d := Delivered(a, s.history, hash, receiptId, participant, at);
      && (d.Ok? <==> Deliverable(a, s.history, hash, receiptId, participant, at))
      && (d.Ok? ==>
           d.value.snapshot == a.snapshots[a.active].id && d.value.participant == participant
           && d.value.assignment == a.id)
  {
    var a := s.assignments[i];
    assert AssignmentKept(a, begun.assignments[i], hash);
    var task := a.snapshots[a.active].taskId;
    assert a.snapshots[a.active].Valid();
    if Received(a.receipts, participant, task) {
      var k :| 0 <= k < |a.receipts| && a.receipts[k].participant == participant && a.receipts[k].task == task;
      OneOf(s.assignments, i, a.receipts[k]);
      assert a.receipts[k] in multiset(s.history);
      assert Received(s.history, participant, task);
    }
  }

  // ---------------------------------------------------------------- the objects

  /** The loop of both validations: a set of participant and task pairs detects repeats. */
  method ValidateReceipts(rs: seq<Receipt>, ok: Receipt -> bool) returns (fault: Option<AssignmentError>)
    ensures fault == ReceiptsFault(rs, ok)
  {
    var seen: set<(Id, Id)> := {};
    for i := 0 to |rs|
      invariant ReceiptsFault(rs[..i], ok).None?
      invariant seen == set k | 0 <= k < i :: (rs[k].participant, rs[k].task)
    {
      assert rs[..i + 1][..i] == rs[..i];
      if !ok(rs[i]) {
        FaultStays(rs, i + 1, ok);
        return Some(InvalidAssignment);
      }
      if (rs[i].participant, rs[i].task) in seen {
        var k :| 0 <= k < i && (rs[k].participant, rs[k].task) == (rs[i].participant, rs[i].task);
        assert rs[..i][k] == rs[k] && Received(rs[..i], rs[i].participant, rs[i].task);
        FaultStays(rs, i + 1, ok);
        return Some(RepeatReceipt);
      }
      assert !Received(rs[..i], rs[i].participant, rs[i].task);
      seen := seen + {(rs[i].participant, rs[i].task)};
    }
    assert rs[..|rs|] == rs;
    fault := None;
  }

  method ValidateHistory(rs: seq<Receipt>, hash: NameHash) returns (fault: Option<AssignmentError>)
    ensures fault == HistoryFault(rs, hash)
    ensures fault.None? <==> HistoryOk(rs, hash)
  {
    fault := ValidateReceipts(rs, ProperReceipt(hash));
  }

  method ValidateSnapshots(ss: seq<Snapshot>) returns (fault: Option<AssignmentError>)
    ensures fault == SnapshotsFault(ss)
    ensures fault.None? <==> 1 <= |ss| <= MAX_RESERVES + 1 && ChainOk(ss)
  {
    if |ss| < 1 || |ss| > MAX_RESERVES + 1 {
      return Some(InvalidAssignment);
    }
    var seenTasks: set<Id> := {};
    var seenSnapshots: set<Id> := {};
    for i := 0 to |ss|
      invariant ChainFault(ss[..i]).None?
      invariant seenTasks == set k | 0 <= k < i :: ss[k].taskId
      invariant seenSnapshots == set k | 0 <= k < i :: ss[k].id
    {
      assert ss[..i + 1][..i] == ss[..i];
      if !ss[i].Valid() {
        ChainFaultStays(ss, i + 1);
        return Some(InvalidSnapshot);
      }
      if ss[i].taskId in seenTasks || ss[i].id in seenSnapshots {
        var k :| 0 <= k < i && Clash(ss[k], ss[i]);
        assert ss[..i][k] == ss[k] && Clashes(ss[..i], ss[i]);
        ChainFaultStays(ss, i + 1);
        return Some(InvalidAssignment);
      }
      assert !Clashes(ss[..i], ss[i]);
      seenTasks, seenSnapshots := seenTasks + {ss[i].taskId}, seenSnapshots + {ss[i].id};
    }
    assert ss[..|ss|] == ss;
    fault := None;
  }

  method ValidateAssignment(a: Assignment, hash: NameHash) returns (fault: Option<AssignmentError>)
    ensures fault == AssignmentFault(a, hash)
    ensures fault.None? <==> a.Valid(hash)
  {
    if a.id == 0 || a.attempt == 0 || a.first == 0 || a.second == 0 || a.first == a.second {
      return Some(InvalidAssignment);
    }
    if a.active < 0 || a.active >= |a.snapshots| {
      return Some(InvalidAssignment);
    }
    fault := ValidateSnapshots(a.snapshots);
    if fault.Some? {
      return;
    }
    fault := ValidateReceipts(a.receipts, OwnReceipt(a, hash));
  }

  method HasReceipt(rs: seq<Receipt>, participant: Id, task: Id) returns (found: bool)
    ensures found <==> Received(rs, participant, task)
  {
    for i := 0 to |rs|
      invariant forall k :: 0 <= k < i ==> !(rs[k].participant == participant && rs[k].task == task)
    {
      if rs[i].participant == participant && rs[i].task == task {
        return true;
      }
    }
    found := false;
  }

  class TaskHistory {
    var receipts: seq<Receipt>

    constructor (receipts: seq<Receipt>)
      ensures this.receipts == receipts
    {
      this.receipts := receipts;
    }
  }

  class TaskAssignment {
    const id: Id
    const attempt: Id
    const first: Id
    const second: Id
    const snapshots: seq<Snapshot>
    var active: int
    var receipts: seq<Receipt>

    function Value(): Assignment
      reads this
    {
      Assignment(id, attempt, first, second, snapshots, active, receipts)
    }

    constructor (a: Assignment)
      ensures Value() == a
    {
      id, attempt, first, second, snapshots := a.id, a.attempt, a.first, a.second, a.snapshots;
      active, receipts := a.active, a.receipts;
    }

    /** A primary task and the configured number of reserves, none of them disclosed. */
    static method New(id: Id, attempt: Id, first: Id, second: Id, primary: Snapshot, reserves: seq<Snapshot>,
                      reserveCount: int, hash: NameHash)
      returns (r: Result<TaskAssignment, AssignmentError>)
      ensures
        var a := Assignment(id, attempt, first, second, [primary] + reserves, 0, []);
        var counted := 0 <= reserveCount <= MAX_RESERVES && |reserves| == reserveCount;
        && (r.Ok? <==> counted && a.Valid(hash))
        && (r.Ok? ==> fresh(r.value) && r.value.Value() == a && a.UndisclosedReserves() == reserveCount)
        && (r.Err? ==> Some(r.error) == if counted then AssignmentFault(a, hash) else Some(InvalidAssignment))
    {
      if reserveCount < 0 || reserveCount > MAX_RESERVES || |reserves| != reserveCount {
        return Err(InvalidAssignment);
      }
      var snapshots := [primary];
      for i := 0 to |reserves|
        invariant snapshots == [primary] + reserves[..i]
      {
        snapshots := snapshots + [reserves[i]];
      }
      assert reserves[..|reserves|] == reserves;
      var a := Assignment(id, attempt, first, second, snapshots, 0, []);
      var fault := ValidateAssignment(a, hash);
      if fault.Some? {
        return Err(fault.value);
      }
      var assignment := new TaskAssignment(a);
      return Ok(assignment);
    }

    method PromoteNextReserve() returns (r: Result<Snapshot, AssignmentError>)
      requires active >= -1
      modifies `active
      ensures match Promoted(old(Value()))
              case Ok(a) => Value() == a && r == Ok(snapshots[active])
              case Err(e) => r == Err(e) && active == old(active)
    {
      if active + 1 >= |snapshots| {
        return Err(ReservesExhausted);
      }
      active := active + 1;
      r := Ok(snapshots[active]);
    }

    /** Appends one receipt to this assignment and to the shared history, or changes neither. */
    method DeliverTo(receiptId: Id, participant: Id, at: Time, history: TaskHistory, hash: NameHash)
      returns (r: Result<Receipt, AssignmentError>)
      modifies `receipts, history`receipts
      ensures r == Delivered(old(Value()), old(history.receipts), hash, receiptId, participant, at)
      ensures r.Ok? ==> receipts == old(receipts) + [r.value] && history.receipts == old(history.receipts) + [r.value]
      ensures r.Err? ==> receipts == old(receipts) && history.receipts == old(history.receipts)
    {
      var fault := ValidateAssignment(Value(), hash);
      if fault.Some? {
        return Err(fault.value);
      }
      fault := ValidateHistory(history.receipts, hash);
      if fault.Some? {
        return Err(fault.value);
      }
      if !Value().HasParticipant(participant) {
        return Err(ForeignParticipant);
      }
      var snapshot := snapshots[active];
      var inHistory := HasReceipt(history.receipts, participant, snapshot.taskId);
      var inAssignment := HasReceipt(receipts, participant, snapshot.taskId);
      if inHistory || inAssignment {
        return Err(RepeatReceipt);
      }
      var receipt := Receipt(receiptId, id, attempt, participant, InstanceId(hash, id, participant), snapshot.id,
                             snapshot.taskId, at.ToUtc());
      if !receipt.Valid(hash) {
        return Err(InvalidAssignment);
      }
      receipts := receipts + [receipt];
      history.receipts := history.receipts + [receipt];
      r := Ok(receipt);
    }
  }
}
