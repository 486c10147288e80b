/** Assignments told by their fields alone: what is valid, where a validation stops, and what each operation answers. */
module AssignmentAnswers {
  import opened Foundation
  import opened Assignments

  /** A snapshot is valid exactly when its identities are present, its version counts from one and its content is. */
  lemma SnapshotValidExactly(s: Snapshot)
    ensures s.Valid() <==> s.id > 0 && s.taskId > 0 && s.version > 0 && s.wellFormed
  {
  }

  /** A receipt is valid exactly when its identities are present, its instance is derived from assignment and
      participant, and its time is a server time. */
  lemma ReceiptValidExactly(r: Receipt, hash: NameHash)
    ensures r.Valid(hash) <==>
      && 0 !in {r.id, r.assignment, r.attempt, r.participant, r.instance, r.snapshot, r.task}
      && r.instance == hash(r.assignment, r.participant) && r.at.utc && r.at.instant != 0
  {
  }

  /** The receipt belongs to the assignment, to one of its two participants and to one of its snapshots. */
  ghost predicate Belongs(a: Assignment, r: Receipt) {
    && r.assignment == a.id && r.attempt == a.attempt && r.participant in {a.first, a.second}
    && exists s :: s in a.snapshots && s.id == r.snapshot && s.taskId == r.task
  }

  lemma BelongsExactly(a: Assignment, r: Receipt, hash: NameHash)
    ensures a.ReceiptOk(r, hash) <==> r.Valid(hash) && Belongs(a, r)
  {
    if s :| s in a.snapshots && s.id == r.snapshot && s.taskId == r.task {
      var k :| 0 <= k < |a.snapshots| && a.snapshots[k] == s;
      assert a.snapshots[k].id == r.snapshot && a.snapshots[k].taskId == r.task;
    }
  }

  ghost predicate NoRepeats(rs: seq<Receipt>) {
    forall i, j :: 0 <= i < j < |rs| ==> rs[i].participant != rs[j].participant || rs[i].task != rs[j].task
  }

  lemma RepeatsExactly(rs: seq<Receipt>)
    ensures OncePerParticipant(rs) <==> NoRepeats(rs)
  {
    forall i, j | 0 <= i < j < |rs|
      ensures SameDelivery(rs[i], rs[j]) <==> rs[i].participant == rs[j].participant && rs[i].task == rs[j].task
    {
    }
  }

  ghost predicate SnapshotsDiffer(ss: seq<Snapshot>) {
    forall i, j :: 0 <= i < j < |ss| ==> ss[i].id != ss[j].id && ss[i].taskId != ss[j].taskId
  }

  lemma ClashesExactly(ss: seq<Snapshot>)
    ensures ChainOk(ss) <==> (forall s :: s in ss ==> s.Valid()) && SnapshotsDiffer(ss)
  {
    forall i, j | 0 <= i < j < |ss|
      ensures Clash(ss[i], ss[j]) <==> ss[i].id == ss[j].id || ss[i].taskId == ss[j].taskId
    {
    }
    assert forall k :: 0 <= k < |ss| ==> ss[k] in ss;
  }

  /** An assignment is valid exactly when it has an identity, an attempt and two different participants, discloses one
      of its one to three valid snapshots of different tasks, and holds valid receipts of its own, none twice. */
  lemma {:induction false} AssignmentValidExactly(a: Assignment, hash: NameHash)
    ensures a.Valid(hash) <==>
      && 0 !in {a.id, a.attempt, a.first, a.second} && a.first != a.second
      && 0 <= a.active < |a.snapshots| <= 3
      && (forall s :: s in a.snapshots ==> s.Valid()) && SnapshotsDiffer(a.snapshots)
      && (forall r :: r in a.receipts ==> r.Valid(hash) && Belongs(a, r)) && NoRepeats(a.receipts)
  {
    ClashesExactly(a.snapshots);
    RepeatsExactly(a.receipts);
    forall r: Receipt
      ensures a.ReceiptOk(r, hash) <==> r.Valid(hash) && Belongs(a, r)
    {
      BelongsExactly(a, r, hash);
    }
    assert forall k :: 0 <= k < |a.receipts| ==> a.receipts[k] in a.receipts;
  }

  /** A validation of snapshots stops at the first that is invalid itself or repeats an earlier one, and tells which. */
  lemma {:induction false} SnapshotFaultAt(ss: seq<Snapshot>, k: nat)
    requires k < |ss| && ChainOk(ss[..k]) && !ChainOk(ss[..k + 1])
    ensures ChainFault(ss) == Some(if ss[k].Valid() then InvalidAssignment else InvalidSnapshot)
  {
    assert ss[..k + 1][..k] == ss[..k];
    ChainFaultStays(ss, k + 1);
  }

  /** The same of receipts: the first that is not proper, or that repeats an earlier delivery. */
  lemma {:induction false} ReceiptFaultAt(rs: seq<Receipt>, k: nat, ok: Receipt -> bool)
    requires k < |rs| && AllOk(rs[..k], ok) && !AllOk(rs[..k + 1], ok)
    ensures ReceiptsFault(rs, ok) == Some(if ok(rs[k]) then RepeatReceipt else InvalidAssignment)
  {
    assert rs[..k + 1][..k] == rs[..k];
    FaultStays(rs, k + 1, ok);
  }

  /** The checks of an assignment in their order. */
  lemma {:induction false} AssignmentFaultTells(a: Assignment, hash: NameHash)
    ensures AssignmentFault(a, hash)
      == if 0 in {a.id, a.attempt, a.first, a.second} || a.first == a.second || !(0 <= a.active < |a.snapshots| <= 3)
         then Some(InvalidAssignment)
         else if ChainOk(a.snapshots) then ReceiptsFault(a.receipts, OwnReceipt(a, hash))
         else ChainFault(a.snapshots)
  {
  }

  /** A delivery on a valid assignment and history: who may receive, what counts as a repeat, and the receipt made. */
  lemma {:induction false} DeliversExactly(a: Assignment, history: seq<Receipt>, hash: NameHash, receiptId: Id,
                                           participant: Id, at: Time)
    requires a.Valid(hash) && HistoryOk(history, hash)
    ensures var task, r := a.snapshots[a.active].taskId, Delivered(a, history, hash, receiptId, participant, at);
      var has := exists past :: past in history + a.receipts && past.participant == participant && past.task == task;
      if participant !in {a.first, a.second} then r == Err(ForeignParticipant)
      else if has then r == Err(RepeatReceipt)
      else if receiptId == 0 || hash(a.id, participant) == 0 || at.instant == 0 then r == Err(InvalidAssignment)
      else r == Ok(Receipt(receiptId, a.id, a.attempt, participant, hash(a.id, participant), a.snapshots[a.active].id,
                           task, Time(at.instant, true)))
  {
    var task := a.snapshots[a.active].taskId;
    ReceivedExactly(history, participant, task);
    ReceivedExactly(a.receipts, participant, task);
    AssignmentValidExactly(a, hash);
    assert a.snapshots[a.active] in a.snapshots;
    SnapshotValidExactly(a.snapshots[a.active]);
    assert forall past :: past in history + a.receipts <==> past in history || past in a.receipts;
  }

  lemma ReceivedExactly(rs: seq<Receipt>, participant: Id, task: Id)
    ensures Received(rs, participant, task) <==> exists r :: r in rs && r.participant == participant && r.task == task
  {
    if r :| r in rs && r.participant == participant && r.task == task {
      var i :| 0 <= i < |rs| && rs[i] == r;
      assert rs[i].participant == participant && rs[i].task == task;
    }
  }

  /** A promotion discloses the next snapshot, while there is one. */
  lemma PromotesExactly(a: Assignment, hash: NameHash)
    requires a.Valid(hash)
    ensures a.UndisclosedReserves() == |a.snapshots[a.active + 1..]|
    ensures Promoted(a)
      == if a.active == |a.snapshots| - 1 then Err(ReservesExhausted) else Ok(a.(active := a.active + 1))
  {
  }
}
