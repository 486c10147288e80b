/** Golden groups: tied members, and the chain of attempts that separates them. */
module GoldenGroups {
  import opened Foundation
  import opened Numbering

  datatype AttemptState = Planned | WaitingReady | Active | Completed | Voided | Cancelled | UnknownState {
    predicate IsTerminal() { Completed? || Voided? || Cancelled? }
    predicate IsUnstarted() { Planned? || WaitingReady? }
  }

  datatype Member = Member(participant: Id, excluded: bool)

  predicate ValidTime(at: Option<Time>) { at.Some? && at.value.IsServerTime() }

  predicate ValidInterval(start: Option<Time>, finish: Option<Time>) {
    ValidTime(start) && ValidTime(finish) && !finish.value.Before(start.value)
  }

  datatype Attempt = Attempt(
    id: Id, group: Id, groupRevision: Id, no: int, previous: Option<Id>, state: AttemptState,
    participants: seq<Id>, retainedAt: Option<Time>, startedAt: Option<Time>, finishedAt: Option<Time>)
  {
    predicate IdentityOk() { id != 0 && group != 0 && groupRevision != 0 && no >= 1 }

    predicate PredecessorOk() {
      && (no == 1 ==> previous.None?)
      && (no > 1 ==> previous.Some? && previous.value != 0 && previous.value != id)
    }

    predicate StateOk() {
      match state
      case Planned | WaitingReady => startedAt.None? && finishedAt.None?
      case Active => ValidTime(startedAt) && finishedAt.None?
      case Completed | Voided => ValidInterval(startedAt, finishedAt)
      case Cancelled => ValidTime(finishedAt) && (startedAt.Some? ==> ValidInterval(startedAt, finishedAt))
      case UnknownState => false
    }

    predicate RetentionOk() {
      retainedAt.Some? ==>
        && retainedAt.value.IsServerTime()
        && (startedAt.Some? ==> !retainedAt.value.After(startedAt.value))
        && (finishedAt.Some? ==> !retainedAt.value.After(finishedAt.value))
    }

    ghost predicate Valid() {
      IdentityOk() && PredecessorOk() && ParticipantsOk(participants) && StateOk() && RetentionOk()
    }

    predicate HasExecution() { startedAt.Some? || state.Active? || state.Completed? || state.Voided? }

    /** An attempt that may still be marked as retained. */
    predicate IsOpen() { startedAt.None? && state.IsUnstarted() }
  }

  ghost predicate ParticipantsOk(ids: seq<Id>) { |ids| >= 2 && 0 !in ids && Distinct(ids) }

  predicate Within(ids: seq<Id>, others: seq<Id>) { forall p :: p in ids ==> p in others }

  datatype Group = Group(
    id: Id, tournament: Id, revision: Id, source: Id, from: int, to: int,
    established: bool, members: seq<Member>, attempts: seq<Attempt>)

  function Participants(members: seq<Member>): seq<Id> {
    seq(|members|, i requires 0 <= i < |members| => members[i].participant)
  }

  ghost predicate HasExecution(attempts: seq<Attempt>) {
    exists i :: 0 <= i < |attempts| && attempts[i].HasExecution()
  }

  ghost predicate GroupOk(g: Group) {
    && g.id != 0 && g.tournament != 0 && g.revision != 0 && g.source != 0 && g.revision != g.source
    && 1 <= g.from <= g.to && g.to - g.from + 1 == |g.members|
    && ParticipantsOk(Participants(g.members))
    && (HasExecution(g.attempts) ==> g.established)
  }

  /** The checks that concern one attempt of a group. */
  ghost predicate Placed(g: Group, i: nat)
    requires i < |g.attempts|
  {
    var a := g.attempts[i];
    a.Valid() && a.group == g.id && a.groupRevision == g.revision && a.no == i + 1
      && Within(a.participants, Participants(g.members))
  }

  /** The checks that concern one attempt and the one before it. */
  ghost predicate Linked(attempts: seq<Attempt>, i: nat)
    requires i < |attempts|
  {
    i > 0 ==>
      && attempts[i].previous == Some(attempts[i - 1].id)
      && attempts[i - 1].state.IsTerminal()
      && Within(attempts[i].participants, attempts[i - 1].participants)
  }

  function AttemptIds(attempts: seq<Attempt>): seq<Id> {
    seq(|attempts|, i requires 0 <= i < |attempts| => attempts[i].id)
  }

  ghost predicate AttemptsOk(g: Group) {
    && (forall i {:trigger Placed(g, i)} :: 0 <= i < |g.attempts| ==> Placed(g, i))
    && (forall i {:trigger Linked(g.attempts, i)} :: 0 <= i < |g.attempts| ==> Linked(g.attempts, i))
    && Distinct(AttemptIds(g.attempts))
  }

  datatype GoldenError = InvalidGroup | InvalidAttempt | ParticipantNotFound | AttemptNotFound | AttemptAlreadyStarted

  ghost function Failure(g: Group): Option<GoldenError> {
    if !GroupOk(g) then Some(InvalidGroup) else if !AttemptsOk(g) then Some(InvalidAttempt) else None
  }

  // ---------------------------------------------------------------- what an accepted group guarantees

  lemma {:induction false} LaterAttemptsShrink(g: Group, i: nat, j: nat)
    requires AttemptsOk(g) && i <= j < |g.attempts|
    ensures Within(g.attempts[j].participants, g.attempts[i].participants)
    ensures |g.attempts[j].participants| <= |g.attempts[i].participants| <= |g.members|
    decreases j
  {
    assert Placed(g, i) && Placed(g, j);
    ParticipantSpan(g, i);
    if i < j {
      assert Linked(g.attempts, j);
      LaterAttemptsShrink(g, i, j - 1);
      NoMoreThan(g.attempts[j].participants, g.attempts[i].participants);
    }
  }

  lemma ParticipantSpan(g: Group, i: nat)
    requires AttemptsOk(g) && i < |g.attempts|
    ensures |g.attempts[i].participants| <= |g.members|
  {
    assert Placed(g, i);
    NoMoreThan(g.attempts[i].participants, Participants(g.members));
  }

  lemma NoMoreThan(ids: seq<Id>, others: seq<Id>)
    requires Distinct(ids) && Within(ids, others)
    ensures |ids| <= |others|
  {
    DistinctFits(ids, Elements(others));
    ElementsSize(others);
  }

  /** Every attempt but the last is over, so only the last may be running, waiting or still retainable. */
  lemma OnlyLastIsOpen(g: Group, i: nat)
    requires AttemptsOk(g) && i < |g.attempts| - 1
    ensures g.attempts[i].state.IsTerminal() && !g.attempts[i].IsOpen()
  {
    assert Linked(g.attempts, i + 1);
  }

  /** The adjacent checks of the loop amount to a statement about all pairs of attempts. */
  lemma ChainHoldsGlobally(g: Group)
    requires forall i {:trigger Placed(g, i)} :: 0 <= i < |g.attempts| ==> Placed(g, i)
    requires Distinct(AttemptIds(g.attempts))
    ensures AttemptsOk(g)
      <==> forall i, j {:trigger Precedes(g.attempts, i, j)} :: 0 <= i < j < |g.attempts| ==> Precedes(g.attempts, i, j)
  {
    var attempts := g.attempts;
    if AttemptsOk(g) {
      forall i, j | 0 <= i < j < |attempts|
        ensures Precedes(attempts, i, j)
      {
        LaterAttemptsShrink(g, i, j);
        assert Linked(attempts, j) && Linked(attempts, i + 1);
        if j > i + 1 { assert AttemptIds(attempts)[i] != AttemptIds(attempts)[j - 1]; }
      }
    }
    if forall i, j {:trigger Precedes(attempts, i, j)} :: 0 <= i < j < |attempts| ==> Precedes(attempts, i, j) {
      forall i | 0 <= i < |attempts|
        ensures Linked(attempts, i)
      {
        if i > 0 { assert Precedes(attempts, i - 1, i); }
      }
    }
  }

  /** An earlier attempt is over, held every participant of the later one, and is named as predecessor by its direct
      successor alone. */
  ghost predicate Precedes(attempts: seq<Attempt>, i: nat, j: nat)
    requires i < j < |attempts|
  {
    && attempts[i].state.IsTerminal()
    && Within(attempts[j].participants, attempts[i].participants)
    && (attempts[j].previous == Some(attempts[i].id) <==> j == i + 1)
  }

  // ---------------------------------------------------------------- the three changes

  datatype Call = Establish | Exclude(participant: Id) | Retain(attempt: Id, at: Time)

  /** The group after a call and whether the call reports a change. */
  datatype Change = Change(group: Group, changed: bool)

  function Excluding(members: seq<Member>, p: Id): seq<Member> {
    seq(|members|, i requires 0 <= i < |members| =>
      if members[i].participant == p then members[i].(excluded := true) else members[i])
  }

  function Retaining(attempts: seq<Attempt>, id: Id, at: Time): seq<Attempt> {
    seq(|attempts|, i requires 0 <= i < |attempts| =>
      if attempts[i].id == id then attempts[i].(retainedAt := Some(at)) else attempts[i])
  }

  ghost function Apply(g: Group, c: Call): Result<Change, GoldenError> {
    if Failure(g).Some? then Err(Failure(g).value)
    else match c
      case Establish => Ok(Change(g.(established := true), !g.established))
      case Exclude(p) =>
        if p !in Participants(g.members) then Err(ParticipantNotFound)
        else Ok(Change(g.(members := Excluding(g.members, p)), Member(p, false) in g.members))
      case Retain(id, at) =>
        if id !in AttemptIds(g.attempts) then Err(AttemptNotFound)
        else if forall a :: a in g.attempts && a.id == id ==> !a.IsOpen() then Err(AttemptAlreadyStarted)
        else if forall a :: a in g.attempts && a.id == id ==> a.retainedAt.Some? then Ok(Change(g, false))
        else if !at.IsServerTime() then Err(InvalidAttempt)
        else Ok(Change(g.(attempts := Retaining(g.attempts, id, at)), true))
  }

  lemma DistinctMember(g: Group, i: nat, j: nat)
    requires GroupOk(g) && i < |g.members| && j < |g.members| && g.members[i].participant == g.members[j].participant
    ensures i == j
  {
    SamePlaceInDistinct(Participants(g.members), i, j);
  }

  lemma DistinctAttempt(g: Group, i: nat, j: nat)
    requires AttemptsOk(g) && i < |g.attempts| && j < |g.attempts| && g.attempts[i].id == g.attempts[j].id
    ensures i == j
  {
    SamePlaceInDistinct(AttemptIds(g.attempts), i, j);
  }

  /** What a group keeps from an earlier state: its identity, its members and attempts in their places, every
      exclusion, the established participation, and every attempt except that the last may have become retained. */
  ghost predicate Grown(g: Group, h: Group) {
    && h == g.(established := h.established, members := h.members, attempts := h.attempts)
    && (g.established ==> h.established)
    && Participants(h.members) == Participants(g.members) && |h.members| == |g.members|
    && (forall i :: 0 <= i < |g.members| && g.members[i].excluded ==> h.members[i].excluded)
    && |h.attempts| == |g.attempts|
    && (forall i :: 0 <= i < |g.attempts| - 1 ==> h.attempts[i] == g.attempts[i])
    && (g.attempts != [] ==> LastGrown(g.attempts[|g.attempts| - 1], h.attempts[|g.attempts| - 1]))
  }

  ghost predicate LastGrown(a: Attempt, b: Attempt) {
    && b == a.(retainedAt := b.retainedAt)
    && (b != a ==> a.IsOpen() && a.retainedAt.None? && b.retainedAt.Some?)
  }

  lemma SameMembersStillValid(g: Group, members: seq<Member>)
    requires Failure(g).None? && Participants(members) == Participants(g.members) && |members| == |g.members|
    ensures Failure(g.(members := members)).None?
  {
    var h := g.(members := members);
    forall i | 0 <= i < |h.attempts|
      ensures Placed(h, i) && Linked(h.attempts, i)
    {
      assert Placed(g, i) && Linked(g.attempts, i);
    }
  }

  lemma EstablishedStillValid(g: Group)
    requires Failure(g).None?
    ensures Failure(g.(established := true)).None?
  {
    var h := g.(established := true);
    forall i | 0 <= i < |h.attempts|
      ensures Placed(h, i) && Linked(h.attempts, i)
    {
      assert Placed(g, i) && Linked(g.attempts, i);
    }
  }

  /** Retention touches the last attempt only, since every other one is over. */
  lemma RetainingTouchesLast(g: Group, id: Id, at: Time, k: nat)
    requires AttemptsOk(g) && k < |g.attempts| && g.attempts[k].id == id && g.attempts[k].IsOpen()
    ensures k == |g.attempts| - 1
    ensures Retaining(g.attempts, id, at) == g.attempts[k := g.attempts[k].(retainedAt := Some(at))]
  {
    if k < |g.attempts| - 1 { OnlyLastIsOpen(g, k); }
    forall i | 0 <= i < |g.attempts| && g.attempts[i].id == id ensures i == k { DistinctAttempt(g, i, k); }
  }

  lemma RetainedStillValid(g: Group, at: Time, k: nat)
    requires Failure(g).None? && k < |g.attempts| && k == |g.attempts| - 1 && g.attempts[k].IsOpen()
    requires at.IsServerTime()
    ensures Failure(g.(attempts := g.attempts[k := g.attempts[k].(retainedAt := Some(at))])).None?
  {
    var h := g.(attempts := g.attempts[k := g.attempts[k].(retainedAt := Some(at))]);
    assert AttemptIds(h.attempts) == AttemptIds(g.attempts);
    forall i | 0 <= i < |h.attempts|
      ensures Placed(h, i) && Linked(h.attempts, i) && h.attempts[i].HasExecution() == g.attempts[i].HasExecution()
    {
      assert Placed(g, i) && Linked(g.attempts, i);
    }
  }

  lemma CallKeepsGroup(g: Group, c: Call)
    requires Apply(g, c).Ok?
    ensures Failure(Apply(g, c).value.group).None? && Grown(g, Apply(g, c).value.group)
    ensures !Apply(g, c).value.changed ==> Apply(g, c).value.group == g
  {
    match c
    case Establish => EstablishedStillValid(g);
    case Exclude(p) =>
      assert Participants(Excluding(g.members, p)) == Participants(g.members);
      SameMembersStillValid(g, Excluding(g.members, p));
      if Member(p, false) !in g.members { NothingToExclude(g.members, p); }
    case Retain(id, at) =>
      if Apply(g, c).value.changed {
        var k := OpenAttempt(g, id);
        RetainingTouchesLast(g, id, at, k);
        RetainedStillValid(g, at, k);
      }
  }

  lemma NothingToExclude(members: seq<Member>, p: Id)
    requires Member(p, false) !in members
    ensures Excluding(members, p) == members
  {
    forall i | 0 <= i < |members| ensures Excluding(members, p)[i] == members[i] {
      if members[i].participant == p && !members[i].excluded { assert members[i] == Member(p, false); }
    }
  }

  /** The place of the one open, unretained attempt with this identity. */
  ghost function OpenAttempt(g: Group, id: Id): (k: nat)
    requires exists a :: a in g.attempts && a.id == id && a.IsOpen()
    ensures k < |g.attempts| && g.attempts[k].id == id && g.attempts[k].IsOpen()
  {
    var a :| a in g.attempts && a.id == id && a.IsOpen();
    var k :| 0 <= k < |g.attempts| && g.attempts[k] == a;
    k
  }

  // ---------------------------------------------------------------- runs of calls

  function Unexcluded(members: seq<Member>): nat {
    if members == [] then 0 else Unexcluded(members[1..]) + if members[0].excluded then 0 else 1
  }

  /** The number of changes a group can still undergo. */
  function Remaining(g: Group): nat {
    (if g.established then 0 else 1) + Unexcluded(g.members) + (if LastRetainable(g.attempts) then 1 else 0)
  }

  predicate LastRetainable(attempts: seq<Attempt>) {
    attempts != [] && attempts[|attempts| - 1].IsOpen() && attempts[|attempts| - 1].retainedAt.None?
  }

  /** The participants still in play, in member order. */
  function InPlay(members: seq<Member>): seq<Id> {
    if members == [] then []
    else (if members[0].excluded then [] else [members[0].participant]) + InPlay(members[1..])
  }

  lemma {:induction false} InPlayGrows(members: seq<Member>, m: Member)
    ensures InPlay(members + [m]) == InPlay(members) + if m.excluded then [] else [m.participant]
  {
    if members != [] {
      assert (members + [m])[1..] == members[1..] + [m];
      InPlayGrows(members[1..], m);
    }
  }

  /** Excluding a participant takes exactly that one out of play. */
  lemma {:induction false} ExclusionRemovesOne(members: seq<Member>, p: Id, q: Id)
    ensures q in InPlay(members) <==> Member(q, false) in members
    ensures q in InPlay(Excluding(members, p)) <==> q in InPlay(members) && q != p
    ensures |InPlay(members)| == Unexcluded(members)
  {
    if members != [] {
      assert Excluding(members, p)[1..] == Excluding(members[1..], p);
      ExclusionRemovesOne(members[1..], p, q);
    }
  }

  lemma {:induction false} ExcludingOne(members: seq<Member>, k: nat)
    requires k < |members| && !members[k].excluded
    ensures Unexcluded(members[k := members[k].(excluded := true)]) + 1 == Unexcluded(members)
  {
    if k > 0 {
      assert members[k := members[k].(excluded := true)][1..] == members[1..][k - 1 := members[k].(excluded := true)];
      ExcludingOne(members[1..], k - 1);
    } else {
      assert members[0 := members[0].(excluded := true)][1..] == members[1..];
    }
  }

  lemma ExclusionSpendsOne(g: Group, p: Id)
    requires GroupOk(g) && Member(p, false) in g.members
    ensures Unexcluded(Excluding(g.members, p)) + 1 == Unexcluded(g.members)
  {
    var k :| 0 <= k < |g.members| && g.members[k] == Member(p, false);
    forall i | 0 <= i < |g.members| && g.members[i].participant == p ensures i == k { DistinctMember(g, i, k); }
    assert Excluding(g.members, p) == g.members[k := g.members[k].(excluded := true)];
    ExcludingOne(g.members, k);
  }

  /** A call that reports a change uses up exactly one of the changes left; repeating it reports none. */
  lemma ChangesAreSpent(g: Group, c: Call)
    requires Apply(g, c).Ok? && Apply(g, c).value.changed
    ensures Remaining(Apply(g, c).value.group) + 1 == Remaining(g)
    ensures Apply(Apply(g, c).value.group, c) == Ok(Change(Apply(g, c).value.group, false))
  {
    CallKeepsGroup(g, c);
    match c
    case Establish =>
    case Exclude(p) => ExclusionSpendsOne(g, p); ExcludingTwice(g.members, p);
    case Retain(id, at) =>
      var k := OpenAttempt(g, id);
      RetainingTouchesLast(g, id, at, k);
      RetainingIsSeen(g, id, at, k);
  }

  lemma ExcludingTwice(members: seq<Member>, p: Id)
    ensures Participants(Excluding(members, p)) == Participants(members)
    ensures Excluding(Excluding(members, p), p) == Excluding(members, p)
    ensures Member(p, false) !in Excluding(members, p)
  {
  }

  lemma RetainingIsSeen(g: Group, id: Id, at: Time, k: nat)
    requires AttemptsOk(g) && k < |g.attempts| && k == |g.attempts| - 1
    requires g.attempts[k].id == id && g.attempts[k].IsOpen()
    requires Apply(g, Retain(id, at)).Ok? && Apply(g, Retain(id, at)).value.changed
    ensures var h := g.(attempts := g.attempts[k := g.attempts[k].(retainedAt := Some(at))]);
            && AttemptIds(h.attempts) == AttemptIds(g.attempts)
            && (forall a :: a in h.attempts && a.id == id ==> a.IsOpen() && a.retainedAt.Some?)
            && h.attempts[k] in h.attempts && h.attempts[k].id == id
            && LastRetainable(g.attempts) && !LastRetainable(h.attempts)
  {
    var h := g.(attempts := g.attempts[k := g.attempts[k].(retainedAt := Some(at))]);
    assert AttemptIds(h.attempts) == AttemptIds(g.attempts);
    forall a | a in h.attempts && a.id == id
      ensures a == h.attempts[k]
    {
      var i :| 0 <= i < |h.attempts| && h.attempts[i] == a;
      DistinctAttempt(g, i, k);
    }
    forall a | a in g.attempts && a.id == id
      ensures a == g.attempts[k]
    {
      var i :| 0 <= i < |g.attempts| && g.attempts[i] == a;
      DistinctAttempt(g, i, k);
    }
  }

  /** The group after a sequence of calls, failing ones included, and the number of changes they reported. */
  ghost function RunCalls(g: Group, calls: seq<Call>): (Group, nat)
    decreases |calls|
  {
    if calls == [] then (g, 0)
    else
      var r := Apply(g, calls[0]);
      if r.Err? then RunCalls(g, calls[1..])
      else
        var (h, n) := RunCalls(r.value.group, calls[1..]);
        (h, n + if r.value.changed then 1 else 0)
  }

  lemma GrownTwice(g: Group, h: Group, k: Group)
    requires Grown(g, h) && Grown(h, k)
    ensures Grown(g, k)
  {
    assert Participants(k.members) == Participants(g.members);
  }

  /** Every run of calls keeps the group valid and every exclusion in force, and reports at most one change for the
      participation, one for each member and one for the last attempt. */
  lemma {:induction false} RunsAreBounded(g: Group, calls: seq<Call>)
    requires Failure(g).None?
    ensures Failure(RunCalls(g, calls).0).None? && Grown(g, RunCalls(g, calls).0)
    ensures RunCalls(g, calls).1 + Remaining(RunCalls(g, calls).0) == Remaining(g) <= |g.members| + 2
    decreases |calls|
  {
    UnexcludedAtMost(g.members);
    if calls != [] {
      var r := Apply(g, calls[0]);
      if r.Err? {
        RunsAreBounded(g, calls[1..]);
      } else {
        CallKeepsGroup(g, calls[0]);
        if r.value.changed { ChangesAreSpent(g, calls[0]); }
        RunsAreBounded(r.value.group, calls[1..]);
        GrownTwice(g, r.value.group, RunCalls(g, calls).0);
      }
    }
  }

  lemma {:induction false} UnexcludedAtMost(members: seq<Member>)
    ensures Unexcluded(members) <= |members|
  {
    if members != [] { UnexcludedAtMost(members[1..]); }
  }

  // ---------------------------------------------------------------- the object

  method ParticipantsAreValid(ids: seq<Id>) returns (ok: bool)
    ensures ok <==> ParticipantsOk(ids)
  {
    if |ids| < 2 {
      return false;
    }
    var seen: set<Id> := {};
    for i := 0 to |ids|
      invariant seen == set k | 0 <= k < i :: ids[k]
      invariant 0 !in ids[..i] && Distinct(ids[..i])
    {
      if ids[i] == 0 || ids[i] in seen {
        return false;
      }
      assert ids[..i + 1] == ids[..i] + [ids[i]];
      seen := seen + {ids[i]};
    }
    assert ids[..|ids|] == ids;
    ok := true;
  }

  method ParticipantsAreSubset(current: seq<Id>, previous: seq<Id>) returns (ok: bool)
    ensures ok <==> Within(current, previous)
  {
    var ids: set<Id> := {};
    for i := 0 to |previous|
      invariant ids == set k | 0 <= k < i :: previous[k]
    {
      ids := ids + {previous[i]};
    }
    for i := 0 to |current|
      invariant forall k :: 0 <= k < i ==> current[k] in previous
    {
      if current[i] !in ids {
        assert current[i] in current;
        return false;
      }
    }
    ok := true;
  }

  method ValidateAttempt(a: Attempt) returns (ok: bool)
    ensures ok <==> a.Valid()
  {
    if !a.IdentityOk() || a.state.UnknownState? {
      return false;
    }
    ok := ParticipantsAreValid(a.participants);
    ok := ok && a.PredecessorOk() && a.StateOk() && a.RetentionOk();
  }

  method ValidateAttempts(g: Group) returns (ok: bool)
    ensures ok <==> AttemptsOk(g)
  {
    var seen: set<Id> := {};
    var memberIds := Participants(g.members);
    ghost var ids := AttemptIds(g.attempts);
    for i := 0 to |g.attempts|
      invariant forall k {:trigger Placed(g, k)} :: 0 <= k < i ==> Placed(g, k)
      invariant forall k {:trigger Linked(g.attempts, k)} :: 0 <= k < i ==> Linked(g.attempts, k)
      invariant seen == set k | 0 <= k < i :: g.attempts[k].id
      invariant Distinct(ids[..i])
    {
      var a := g.attempts[i];
      var valid := ValidateAttempt(a);
      if !valid || a.group != g.id || a.groupRevision != g.revision || a.no != i + 1 {
        assert !Placed(g, i);
        return false;
      }
      if a.id in seen {
        var k :| 0 <= k < i && g.attempts[k].id == a.id;
        assert ids[k] == ids[i];
        return false;
      }
      var known := ParticipantsAreSubset(a.participants, memberIds);
      if !known {
        assert !Placed(g, i);
        return false;
      }
      if i > 0 {
        if a.previous != Some(g.attempts[i - 1].id) || !g.attempts[i - 1].state.IsTerminal() {
          assert !Linked(g.attempts, i);
          return false;
        }
        var subset := ParticipantsAreSubset(a.participants, g.attempts[i - 1].participants);
        if !subset {
          assert !Linked(g.attempts, i);
          return false;
        }
      }
      assert ids[..i + 1] == ids[..i] + [a.id];
      seen := seen + {a.id};
    }
    assert ids[..|g.attempts|] == ids;
    ok := true;
  }

  method HasExecutionEvidence(attempts: seq<Attempt>) returns (found: bool)
    ensures found <==> HasExecution(attempts)
  {
    for i := 0 to |attempts|
      invariant forall k :: 0 <= k < i ==> !attempts[k].HasExecution()
    {
      if attempts[i].HasExecution() {
        return true;
      }
    }
    found := false;
  }

  method Validate(g: Group) returns (failure: Option<GoldenError>)
    ensures failure == Failure(g)
  {
    if g.id == 0 || g.tournament == 0 || g.revision == 0 || g.source == 0 || g.revision == g.source {
      return Some(InvalidGroup);
    }
    if g.from < 1 || g.to < g.from || g.to - g.from + 1 != |g.members| {
      return Some(InvalidGroup);
    }
    var ok := ParticipantsAreValid(Participants(g.members));
    if !ok {
      return Some(InvalidGroup);
    }
    var executed := HasExecutionEvidence(g.attempts);
    if !g.established && executed {
      return Some(InvalidGroup);
    }
    ok := ValidateAttempts(g);
    failure := if ok then None else Some(InvalidAttempt);
  }

  class GoldenGroup {
    var state: Group

    constructor (state: Group)
      ensures this.state == state
    {
      this.state := state;
    }

    static method New(state: Group) returns (r: Result<GoldenGroup, GoldenError>)
      ensures r.Ok? <==> Failure(state).None?
      ensures r.Ok? ==> fresh(r.value) && r.value.state == state
      ensures r.Err? ==> Failure(state) == Some(r.error)
    {
      var failure := Validate(state);
      if failure.Some? {
        return Err(failure.value);
      }
      var group := new GoldenGroup(state);
      r := Ok(group);
    }

    method ActiveParticipants() returns (ids: seq<Id>)
      ensures ids == InPlay(state.members)
    {
      ids := [];
      for i := 0 to |state.members|
        invariant ids == InPlay(state.members[..i])
      {
        assert state.members[..i + 1] == state.members[..i] + [state.members[i]];
        InPlayGrows(state.members[..i], state.members[i]);
        if !state.members[i].excluded {
          ids := ids + [state.members[i].participant];
        }
      }
      assert state.members[..|state.members|] == state.members;
    }

    method EstablishParticipation() returns (r: Result<bool, GoldenError>)
      modifies this
      ensures match Apply(old(state), Establish)
              case Ok(c) => state == c.group && r == Ok(c.changed)
              case Err(e) => state == old(state) && r == Err(e)
    {
      var failure := Validate(state);
      if failure.Some? {
        return Err(failure.value);
      }
      if state.established {
        return Ok(false);
      }
      state := state.(established := true);
      r := Ok(true);
    }

    method ExcludeParticipant(p: Id) returns (r: Result<bool, GoldenError>)
      modifies this
      ensures match Apply(old(state), Exclude(p))
              case Ok(c) => state == c.group && r == Ok(c.changed)
              case Err(e) => state == old(state) && r == Err(e)
    {
      var failure := Validate(state);
      if failure.Some? {
        return Err(failure.value);
      }
      for i := 0 to |state.members|
        invariant state == old(state)
        invariant forall k :: 0 <= k < i ==> state.members[k].participant != p
      {
        if state.members[i].participant == p {
          assert Participants(state.members)[i] == p;
          forall k | 0 <= k < |state.members| && state.members[k].participant == p
            ensures k == i
          {
            DistinctMember(state, k, i);
          }
          if state.members[i].excluded {
            NothingToExclude(state.members, p);
            return Ok(false);
          }
          assert state.members[i] == Member(p, false);
          assert Excluding(state.members, p) == state.members[i := state.members[i].(excluded := true)];
          state := state.(members := state.members[i := state.members[i].(excluded := true)]);
          return Ok(true);
        }
      }
      r := Err(ParticipantNotFound);
    }

    method RetainAttemptBeforeStart(id: Id, at: Time) returns (r: Result<bool, GoldenError>)
      modifies this
      ensures match Apply(old(state), Retain(id, at))
              case Ok(c) => state == c.group && r == Ok(c.changed)
              case Err(e) => state == old(state) && r == Err(e)
    {
      var failure := Validate(state);
      if failure.Some? {
        return Err(failure.value);
      }
      for i := 0 to |state.attempts|
        invariant state == old(state)
        invariant forall k :: 0 <= k < i ==> state.attempts[k].id != id
      {
        var a := state.attempts[i];
        if a.id == id {
          assert AttemptIds(state.attempts)[i] == id;
          forall k | 0 <= k < |state.attempts| && state.attempts[k].id == id
            ensures k == i
          {
            DistinctAttempt(state, k, i);
          }
          if a.startedAt.Some? || !a.state.IsUnstarted() {
            return Err(AttemptAlreadyStarted);
          }
          assert a in state.attempts && a.IsOpen();
          if a.retainedAt.Some? {
            return Ok(false);
          }
          if at.IsZero() || !at.utc {
            return Err(InvalidAttempt);
          }
          RetainingTouchesLast(state, id, at, i);
          state := state.(attempts := state.attempts[i := a.(retainedAt := Some(at))]);
          return Ok(true);
        }
      }
      r := Err(AttemptNotFound);
    }
  }
}
