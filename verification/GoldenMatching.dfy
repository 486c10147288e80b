/** The exact plan of a Golden stage: every group gets a primary task and its reserves, all different, by augmenting
    paths in a bipartite graph of demands and candidates. */
module GoldenMatching {
  import Assignments
  import opened Foundation
  import opened Numbering

  datatype Health = Health(present: bool, enabled: bool, healthy: bool, locked: bool, exposed: bool)

  /** A delivery that counts as history; the version of the task plays no part. */
  datatype ReceiptRef = ReceiptRef(participant: Id, task: Id)

  datatype Candidate = Candidate(ref: VersionRef, health: Health)

  /** groups lists the active participants of each group. */
  datatype Authority = Authority(
    groups: seq<seq<Id>>, candidates: seq<Candidate>, reserved: seq<VersionRef>, history: seq<ReceiptRef>)

  /** The candidate is usable, not reserved elsewhere, and new to every active participant of the group. */
  predicate Eligible(a: Authority, g: nat, c: nat) {
    && g < |a.groups| && c < |a.candidates|
    && var candidate := a.candidates[c];
       && candidate.health == Health(true, true, true, true, false)
       && candidate.ref !in a.reserved
       && forall p :: p in a.groups[g] ==> ReceiptRef(p, candidate.ref.taskId) !in a.history
  }

  method EligibleForGroup(a: Authority, g: nat, c: nat) returns (ok: bool)
    requires g < |a.groups| && c < |a.candidates|
    ensures ok == Eligible(a, g, c)
    ensures ok <==>
      var candidate := a.candidates[c];
      && candidate.health.present && candidate.health.enabled && candidate.health.healthy && candidate.health.locked
      && !candidate.health.exposed && candidate.ref !in a.reserved
      && forall r :: r in a.history && r.participant in a.groups[g] ==> r.task != candidate.ref.taskId
  {
    var candidate := a.candidates[c];
    var health := candidate.health;
    if !health.present || !health.enabled || !health.healthy || !health.locked || health.exposed {
      return false;
    }
    for i := 0 to |a.reserved|
      invariant candidate.ref !in a.reserved[..i]
    {
      if a.reserved[i] == candidate.ref {
        return false;
      }
    }
    var participants: set<Id> := {};
    for i := 0 to |a.groups[g]|
      invariant forall p :: p in participants <==> p in a.groups[g][..i]
    {
      participants := participants + {a.groups[g][i]};
    }
    assert a.groups[g][..|a.groups[g]|] == a.groups[g];
    for i := 0 to |a.history|
      invariant forall p :: p in a.groups[g] ==> ReceiptRef(p, candidate.ref.taskId) !in a.history[..i]
    {
      if a.history[i].task == candidate.ref.taskId && a.history[i].participant in participants {
        assert a.history[i] == ReceiptRef(a.history[i].participant, candidate.ref.taskId);
        return false;
      }
    }
    assert a.history[..|a.history|] == a.history;
    ok := true;
  }

  // ---------------------------------------------------------------- demands and plans

  /** Demand d belongs to group d / chain. */
  predicate Fits(a: Authority, chain: nat, d: nat, c: nat) {
    chain > 0 && Eligible(a, d / chain, c)
  }

  /** Each of the first demands has a candidate that fits it, and no candidate serves two. */
  ghost predicate IsPlanFor(a: Authority, chain: nat, demands: nat, plan: seq<nat>) {
    && |plan| == demands
    && Distinct(plan)
    && forall d :: 0 <= d < |plan| ==> Fits(a, chain, d, plan[d])
  }

  ghost predicate IsPlan(a: Authority, chain: nat, plan: seq<nat>) { IsPlanFor(a, chain, |a.groups| * chain, plan) }

  /** The two arrays describe one matching; stale is a candidate whose entry may be out of date, or -1. */
  ghost predicate Consistent(a: Authority, chain: nat, ofDemand: seq<int>, ofCandidate: seq<int>, stale: int) {
    && |ofDemand| == |a.groups| * chain && |ofCandidate| == |a.candidates|
    && (forall d :: 0 <= d < |ofDemand| ==> DemandOk(a, chain, ofDemand, ofCandidate, d))
    && (forall c :: 0 <= c < |ofCandidate| ==> CandidateOk(ofDemand, ofCandidate, c, stale))
  }

  ghost predicate DemandOk(a: Authority, chain: nat, ofDemand: seq<int>, ofCandidate: seq<int>, d: nat)
    requires d < |ofDemand|
  {
    ofDemand[d] != -1 ==>
      0 <= ofDemand[d] < |ofCandidate| && Fits(a, chain, d, ofDemand[d]) && ofCandidate[ofDemand[d]] == d
  }

  ghost predicate CandidateOk(ofDemand: seq<int>, ofCandidate: seq<int>, c: nat, stale: int)
    requires c < |ofCandidate|
  {
    ofCandidate[c] != -1 ==> 0 <= ofCandidate[c] < |ofDemand| && (c != stale ==> ofDemand[ofCandidate[c]] == c)
  }

  /** Every candidate that fits the demand has been seen. */
  ghost predicate Covered(a: Authority, chain: nat, d: int, seen: seq<bool>) {
    forall c :: 0 <= c < |seen| && d >= 0 && Fits(a, chain, d, c) ==> seen[c]
  }

  /** The same of the first n candidates. */
  ghost predicate CoveredUpTo(a: Authority, chain: nat, d: nat, seen: seq<bool>, n: nat) {
    n <= |seen| && forall c :: 0 <= c < n && Fits(a, chain, d, c) ==> seen[c]
  }

  lemma CoveredNext(a: Authority, chain: nat, d: nat, before: seq<bool>, after: seq<bool>, n: nat)
    requires CoveredUpTo(a, chain, d, before, n) && SeenMore(before, after) && n < |after|
    requires after[n] || !Fits(a, chain, d, n)
    ensures CoveredUpTo(a, chain, d, after, n + 1)
  {
  }

  ghost predicate SeenMore(before: seq<bool>, after: seq<bool>) {
    |before| == |after| && forall c :: 0 <= c < |before| && before[c] ==> after[c]
  }

  /** The search newly saw only candidates that are taken, by demands whose other candidates have been seen. */
  ghost predicate Saturated(a: Authority, chain: nat, ofCandidate: seq<int>, before: seq<bool>, after: seq<bool>)
    requires |before| == |after| == |ofCandidate|
  {
    forall c ::
      0 <= c < |after| && after[c] && !before[c] ==> ofCandidate[c] != -1 && Covered(a, chain, ofCandidate[c], after)
  }

  ghost function Unseen(seen: seq<bool>): set<int> { set c | 0 <= c < |seen| && !seen[c] }

  lemma CoveredStays(a: Authority, chain: nat, d: int, before: seq<bool>, after: seq<bool>)
    requires Covered(a, chain, d, before) && SeenMore(before, after)
    ensures Covered(a, chain, d, after)
  {
  }

  /** Seeing one candidate and then what a failed search from its demand saw keeps the search saturated. */
  lemma SaturatedNext(a: Authority, chain: nat, ofCandidate: seq<int>, start: seq<bool>, before: seq<bool>,
                      after: seq<bool>, c: nat)
    requires |start| == |before| == |after| == |ofCandidate| && c < |before| && !before[c]
    requires SeenMore(start, before) && SeenMore(before[c := true], after)
    requires Saturated(a, chain, ofCandidate, start, before)
    requires Saturated(a, chain, ofCandidate, before[c := true], after)
    requires ofCandidate[c] != -1 && Covered(a, chain, ofCandidate[c], after)
    ensures Saturated(a, chain, ofCandidate, start, after) && SeenMore(start, after)
  {
    assert SeenMore(before, after);
    forall x | 0 <= x < |after| && after[x] && !start[x]
      ensures ofCandidate[x] != -1 && Covered(a, chain, ofCandidate[x], after)
    {
      if before[x] { CoveredStays(a, chain, ofCandidate[x], before, after); }
    }
  }

  // ---------------------------------------------------------------- no augmenting path, no plan

  ghost function SeenSet(seen: seq<bool>): set<int> { set c | 0 <= c < |seen| && seen[c] }

  ghost function At(s: seq<int>): int -> int { (x: int) => if 0 <= x < |s| then s[x] else x }

  lemma {:induction false} TakerIsServed(a: Authority, chain: nat, ofDemand: seq<int>, ofCandidate: seq<int>, c: int)
    requires Consistent(a, chain, ofDemand, ofCandidate, -1) && 0 <= c < |ofCandidate| && ofCandidate[c] != -1
    ensures 0 <= ofCandidate[c] < |ofDemand| && ofDemand[ofCandidate[c]] == c
  {
    assert CandidateOk(ofDemand, ofCandidate, c, -1);
  }

  ghost function Takers(ofCandidate: seq<int>, seen: seq<bool>): set<int> { Image(SeenSet(seen), At(ofCandidate)) }

  /** The seen candidates and their demands are equally many, and the searching demand is none of them. */
  lemma {:induction false} TakersCount(a: Authority, chain: nat, ofDemand: seq<int>, ofCandidate: seq<int>,
                                       seen: seq<bool>, d: nat)
    requires Consistent(a, chain, ofDemand, ofCandidate, -1) && d < |ofDemand| && ofDemand[d] == -1
    requires |seen| == |ofCandidate| && forall c :: 0 <= c < |seen| && seen[c] ==> ofCandidate[c] != -1
    ensures |Takers(ofCandidate, seen) + {d}| == |SeenSet(seen)| + 1
  {
    forall x, y | x in SeenSet(seen) && y in SeenSet(seen) && At(ofCandidate)(x) == At(ofCandidate)(y)
      ensures x == y
    {
      TakerIsServed(a, chain, ofDemand, ofCandidate, x);
      TakerIsServed(a, chain, ofDemand, ofCandidate, y);
    }
    ImageSize(SeenSet(seen), At(ofCandidate));
    forall x | x in SeenSet(seen)
      ensures At(ofCandidate)(x) != d
    {
      TakerIsServed(a, chain, ofDemand, ofCandidate, x);
    }
    assert d !in Takers(ofCandidate, seen);
  }

  /** A demand from which the search saw only taken candidates: it and the demands of those candidates are one more
      than the candidates that fit any of them. */
  lemma {:induction false} NoPlan(a: Authority, chain: nat, ofDemand: seq<int>, ofCandidate: seq<int>, none: seq<bool>,
                                  seen: seq<bool>, d: nat, plan: seq<nat>)
    requires Consistent(a, chain, ofDemand, ofCandidate, -1) && d < |ofDemand| && ofDemand[d] == -1
    requires |none| == |ofCandidate| && (forall c :: 0 <= c < |none| ==> !none[c])
    requires Failed(a, chain, ofCandidate, none, seen, d)
    ensures !IsPlan(a, chain, plan)
  {
    if IsPlan(a, chain, plan) {
      TakersCount(a, chain, ofDemand, ofCandidate, seen, d);
      var demands := Takers(ofCandidate, seen) + {d};
      forall t | t in demands
        ensures 0 <= t < |plan| && plan[t] in SeenSet(seen)
      {
        PlannedIsSeen(a, chain, ofDemand, ofCandidate, none, seen, d, plan, t);
      }
      PlanIsInjective(plan, demands);
      SubsetSize(Image(demands, At(plan)), SeenSet(seen));
      assert false;
    }
  }

  /** Whoever holds a seen candidate can only be planned on a seen one. */
  lemma {:induction false} TakerStaysSeen(a: Authority, chain: nat, ofDemand: seq<int>, ofCandidate: seq<int>,
                                          none: seq<bool>, seen: seq<bool>, plan: seq<nat>, t: int)
    requires Consistent(a, chain, ofDemand, ofCandidate, -1) && IsPlanFor(a, chain, |plan|, plan)
    requires |none| == |ofCandidate| == |seen| && (forall c :: 0 <= c < |none| ==> !none[c])
    requires SeenMore(none, seen) && Saturated(a, chain, ofCandidate, none, seen)
    requires t in Takers(ofCandidate, seen) && forall d :: |plan| <= d < |ofDemand| ==> ofDemand[d] == -1
    ensures 0 <= t < |plan| && plan[t] in SeenSet(seen)
  {
    var x :| x in SeenSet(seen) && At(ofCandidate)(x) == t;
    TakerIsServed(a, chain, ofDemand, ofCandidate, x);
    assert Covered(a, chain, t, seen) && Fits(a, chain, t, plan[t]);
  }

  /** The candidate that a search chose, the demand having none before: what it saw ahead of it was hopeless. */
  ghost predicate Foremost(a: Authority, chain: nat, ofCandidate: seq<int>, start: seq<bool>, ahead: seq<bool>, d: nat,
                           c: int)
  {
    && |start| == |ahead| == |ofCandidate| && SeenMore(start, ahead) && Saturated(a, chain, ofCandidate, start, ahead)
    && 0 <= c && CoveredUpTo(a, chain, d, ahead, c)
  }

  /** The demand just served holds the least candidate that it holds in any plan for the demands up to it: with a
      smaller one, it and the holders of what was seen ahead would be one more than their candidates. */
  lemma {:induction false} LeastCandidate(a: Authority, chain: nat, ofDemand: seq<int>, ofCandidate: seq<int>,
                                          none: seq<bool>, ahead: seq<bool>, d: nat, c: int, plan: seq<nat>)
    requires Consistent(a, chain, ofDemand, ofCandidate, -1) && d < |ofDemand|
    requires forall e :: d <= e < |ofDemand| ==> ofDemand[e] == -1
    requires |none| == |ofCandidate| && (forall x :: 0 <= x < |none| ==> !none[x])
    requires Foremost(a, chain, ofCandidate, none, ahead, d, c) && IsPlanFor(a, chain, d + 1, plan)
    ensures c <= plan[d]
  {
    if plan[d] < c {
      TakersCount(a, chain, ofDemand, ofCandidate, ahead, d);
      var demands := Takers(ofCandidate, ahead) + {d};
      forall t | t in demands
        ensures 0 <= t < |plan| && plan[t] in SeenSet(ahead)
      {
        if t == d {
          assert Fits(a, chain, d, plan[d]);
        } else {
          TakerStaysSeen(a, chain, ofDemand, ofCandidate, none, ahead, plan, t);
        }
      }
      PlanIsInjective(plan, demands);
      SubsetSize(Image(demands, At(plan)), SeenSet(ahead));
      assert false;
    }
  }

  lemma {:induction false} PlannedIsSeen(a: Authority, chain: nat, ofDemand: seq<int>, ofCandidate: seq<int>,
                                         none: seq<bool>, seen: seq<bool>, d: nat, plan: seq<nat>, t: int)
    requires Consistent(a, chain, ofDemand, ofCandidate, -1) && d < |ofDemand|
    requires |none| == |ofCandidate| && (forall c :: 0 <= c < |none| ==> !none[c])
    requires Failed(a, chain, ofCandidate, none, seen, d) && IsPlan(a, chain, plan)
    requires t in Takers(ofCandidate, seen) + {d}
    ensures 0 <= t < |plan| && plan[t] in SeenSet(seen)
  {
    if t != d {
      TakerStaysSeen(a, chain, ofDemand, ofCandidate, none, seen, plan, t);
    }
    assert Covered(a, chain, t, seen) && Fits(a, chain, t, plan[t]);
  }

  lemma {:induction false} PlanIsInjective(plan: seq<nat>, demands: set<int>)
    requires Distinct(plan) && forall t :: t in demands ==> 0 <= t < |plan|
    ensures |Image(demands, At(plan))| == |demands|
  {
    forall x, y | x in demands && y in demands && At(plan)(x) == At(plan)(y)
      ensures x == y
    {
      SamePlaceInDistinct(plan, x, y);
    }
    ImageSize(demands, At(plan));
  }

  // ---------------------------------------------------------------- one augmentation

  ghost predicate HeldIsSeen(ofDemand: seq<int>, seen: seq<bool>, d: nat) {
    d < |ofDemand| && (ofDemand[d] != -1 ==> 0 <= ofDemand[d] < |seen| && seen[ofDemand[d]])
  }

  /** What a successful search leaves: the demand has a candidate of its own that had not been seen, every demand
      that was served still is, and the seen candidates serve whom they served. Only the candidate that the demand
      held before may be recorded wrongly. */
  ghost predicate Found(a: Authority, chain: nat, ofDemand0: seq<int>, ofCandidate0: seq<int>, seen0: seq<bool>,
                        ofDemand: seq<int>, ofCandidate: seq<int>, d: nat)
  {
    && d < |ofDemand0| == |ofDemand| && |ofCandidate| == |ofCandidate0| == |seen0|
    && Consistent(a, chain, ofDemand, ofCandidate, ofDemand0[d])
    && 0 <= ofDemand[d] < |seen0| && !seen0[ofDemand[d]]
    && (forall e :: 0 <= e < |ofDemand| && e != d ==> (ofDemand[e] == -1 <==> ofDemand0[e] == -1))
    && (forall c :: 0 <= c < |ofCandidate| && seen0[c] ==> ofCandidate[c] == ofCandidate0[c])
  }

  /** What a failed search has seen. */
  ghost predicate Failed(a: Authority, chain: nat, ofCandidate: seq<int>, seen0: seq<bool>, seen: seq<bool>, d: int) {
    |seen0| == |seen| == |ofCandidate| && SeenMore(seen0, seen) && Covered(a, chain, d, seen)
      && Saturated(a, chain, ofCandidate, seen0, seen)
  }

  /** Handing candidate c to a demand, once no other demand holds it. */
  lemma {:induction false} HandOver(a: Authority, chain: nat, ofDemand: seq<int>, ofCandidate: seq<int>, d: nat, c: nat)
    requires d < |ofDemand| && c < |ofCandidate| && Fits(a, chain, d, c) && c != ofDemand[d]
    requires Consistent(a, chain, ofDemand, ofCandidate, c)
    requires forall e :: 0 <= e < |ofDemand| && e != d ==> ofDemand[e] != c
    ensures Consistent(a, chain, ofDemand[d := c], ofCandidate[c := d], ofDemand[d])
  {
    var ofDemand', ofCandidate' := ofDemand[d := c], ofCandidate[c := d];
    forall e | 0 <= e < |ofDemand'|
      ensures DemandOk(a, chain, ofDemand', ofCandidate', e)
    {
      assert DemandOk(a, chain, ofDemand, ofCandidate, e);
    }
    forall x | 0 <= x < |ofCandidate'|
      ensures CandidateOk(ofDemand', ofCandidate', x, ofDemand[d])
    {
      assert CandidateOk(ofDemand, ofCandidate, x, c);
    }
  }

  /** A free candidate. */
  lemma {:induction false} TakesFree(a: Authority, chain: nat, ofDemand: seq<int>, ofCandidate: seq<int>,
                                     seen: seq<bool>, d: nat, c: nat)
    requires Consistent(a, chain, ofDemand, ofCandidate, -1) && |seen| == |ofCandidate| && HeldIsSeen(ofDemand, seen, d)
    requires c < |ofCandidate| && !seen[c] && Fits(a, chain, d, c) && ofCandidate[c] == -1
    ensures Found(a, chain, ofDemand, ofCandidate, seen, ofDemand[d := c], ofCandidate[c := d], d)
  {
    forall e | 0 <= e < |ofDemand| && e != d
      ensures ofDemand[e] != c
    {
      assert DemandOk(a, chain, ofDemand, ofCandidate, e);
    }
    forall x | 0 <= x < |ofCandidate|
      ensures CandidateOk(ofDemand, ofCandidate, x, c)
    {
      assert CandidateOk(ofDemand, ofCandidate, x, -1);
    }
    HandOver(a, chain, ofDemand, ofCandidate, d, c);
  }

  /** A candidate whose demand the search has moved elsewhere. */
  lemma {:induction false} TakesOver(a: Authority, chain: nat, ofDemand0: seq<int>, ofCandidate0: seq<int>,
                                     seen0: seq<bool>, seen: seq<bool>, ofDemand: seq<int>, ofCandidate: seq<int>,
                                     d: nat, c: nat)
    requires Consistent(a, chain, ofDemand0, ofCandidate0, -1) && HeldIsSeen(ofDemand0, seen0, d)
    requires |seen0| == |seen| == |ofCandidate0| && SeenMore(seen0, seen)
    requires c < |ofCandidate0| && !seen[c] && Fits(a, chain, d, c)
    requires 0 <= ofCandidate0[c] < |ofDemand0| && ofDemand0[ofCandidate0[c]] == c && ofCandidate0[c] != d
    requires Found(a, chain, ofDemand0, ofCandidate0, seen[c := true], ofDemand, ofCandidate, ofCandidate0[c])
    ensures Found(a, chain, ofDemand0, ofCandidate0, seen0, ofDemand[d := c], ofCandidate[c := d], d)
  {
    var previous := ofCandidate0[c];
    assert ofCandidate[c] == previous && ofDemand[previous] != c;
    forall e | 0 <= e < |ofDemand| && e != d
      ensures ofDemand[e] != c
    {
      assert DemandOk(a, chain, ofDemand, ofCandidate, e);
    }
    assert DemandOk(a, chain, ofDemand, ofCandidate, d);
    HandOver(a, chain, ofDemand, ofCandidate, d, c);
    HeldStays(a, chain, ofDemand0, ofCandidate0, seen0, seen, ofDemand, ofCandidate, d, c);
  }

  /** The search does not touch what the outer demand holds. */
  lemma {:induction false} HeldStays(a: Authority, chain: nat, ofDemand0: seq<int>, ofCandidate0: seq<int>,
                                     seen0: seq<bool>, seen: seq<bool>, ofDemand: seq<int>, ofCandidate: seq<int>,
                                     d: nat, c: nat)
    requires Consistent(a, chain, ofDemand0, ofCandidate0, -1) && HeldIsSeen(ofDemand0, seen0, d)
    requires |seen0| == |seen| == |ofCandidate0| && SeenMore(seen0, seen) && c < |ofCandidate0|
    requires 0 <= ofCandidate0[c] < |ofDemand0| && ofCandidate0[c] != d
    requires Found(a, chain, ofDemand0, ofCandidate0, seen[c := true], ofDemand, ofCandidate, ofCandidate0[c])
    requires ofDemand0[ofCandidate0[c]] == c
    ensures ofDemand[d] == ofDemand0[d]
  {
    assert DemandOk(a, chain, ofDemand0, ofCandidate0, d) && DemandOk(a, chain, ofDemand, ofCandidate, d);
    if ofDemand0[d] != -1 {
      var held := ofDemand0[d];
      assert ofCandidate[held] == d;
      assert CandidateOk(ofDemand, ofCandidate, held, c);
    }
  }

  class GoldenMatcher {
    const authority: Authority
    const chain: nat
    var assignedCandidate: seq<int>
    var assignedDemand: seq<int>
    var seen: seq<bool>

    constructor (authority: Authority, chain: nat)
      ensures this.authority == authority && this.chain == chain
      ensures Consistent(authority, chain, assignedCandidate, assignedDemand, -1)
      ensures forall d :: 0 <= d < |assignedCandidate| ==> assignedCandidate[d] == -1
      ensures seen == seq(|authority.candidates|, _ => false)
    {
      this.authority, this.chain := authority, chain;
      assignedCandidate := seq(|authority.groups| * chain, _ => -1);
      assignedDemand := seq(|authority.candidates|, _ => -1);
      seen := seq(|authority.candidates|, _ => false);
    }

    ghost predicate Valid()
      reads this
    {
      Consistent(authority, chain, assignedCandidate, assignedDemand, -1) && |seen| == |assignedDemand| && chain > 0
    }

    /** Looks for an augmenting path from a demand, trying the candidates from the first on. The caller repairs the
        candidate that the demand gives up. */
    method {:induction false} Assign(demand: nat) returns (ok: bool, ghost ahead: seq<bool>)
      requires Valid() && HeldIsSeen(assignedCandidate, seen, demand)
      modifies `assignedCandidate, `assignedDemand, `seen
      ensures |seen| == |old(seen)|
      ensures ok ==>
        Found(authority, chain, old(assignedCandidate), old(assignedDemand), old(seen), assignedCandidate,
              assignedDemand, demand)
      ensures ok ==>
        Foremost(authority, chain, old(assignedDemand), old(seen), ahead, demand, assignedCandidate[demand])
      ensures !ok ==> assignedCandidate == old(assignedCandidate) && assignedDemand == old(assignedDemand)
      ensures !ok ==> Failed(authority, chain, assignedDemand, old(seen), seen, demand)
      decreases Unseen(seen)
    {
      var group := demand / chain;
      GroupInRange(|authority.groups|, chain, demand);
      for candidate := 0 to |authority.candidates|
        invariant assignedCandidate == old(assignedCandidate) && assignedDemand == old(assignedDemand)
        invariant |seen| == |old(seen)|
        invariant SeenMore(old(seen), seen) && Saturated(authority, chain, assignedDemand, old(seen), seen)
        invariant CoveredUpTo(authority, chain, demand, seen, candidate)
      {
        ghost var before := seen;
        ahead := seen;
        if seen[candidate] {
          CoveredNext(authority, chain, demand, before, seen, candidate);
          continue;
        }
        var eligible := EligibleForGroup(authority, group, candidate);
        if !eligible {
          CoveredNext(authority, chain, demand, before, seen, candidate);
          continue;
        }
        seen := seen[candidate := true];
        var previousDemand := assignedDemand[candidate];
        if previousDemand == -1 {
          TakesFree(authority, chain, assignedCandidate, assignedDemand, old(seen), demand, candidate);
          assignedDemand := assignedDemand[candidate := demand];
          assignedCandidate := assignedCandidate[demand := candidate];
          return true, ahead;
        }
        assert CandidateOk(assignedCandidate, assignedDemand, candidate, -1);
        FewerUnseen(old(seen), before, candidate);
        var moved, _ := Assign(previousDemand);
        if moved {
          TakesOver(authority, chain, old(assignedCandidate), old(assignedDemand), old(seen), before,
                    assignedCandidate, assignedDemand, demand, candidate);
          assignedDemand := assignedDemand[candidate := demand];
          assignedCandidate := assignedCandidate[demand := candidate];
          return true, ahead;
        }
        SaturatedNext(authority, chain, assignedDemand, old(seen), before, seen, candidate);
        CoveredNext(authority, chain, demand, before, seen, candidate);
      }
      ok, ahead := false, seen;
    }
  }

  lemma FewerUnseen(start: seq<bool>, before: seq<bool>, c: nat)
    requires SeenMore(start, before) && c < |before| && !before[c]
    ensures Unseen(before[c := true]) < Unseen(start)
  {
    assert c in Unseen(start) && c !in Unseen(before[c := true]);
  }

  lemma GroupInRange(groups: nat, chain: nat, d: nat)
    requires chain > 0 && d < groups * chain
    ensures d / chain < groups
  {
    var q := d / chain;
    assert d == q * chain + d % chain;
    if q >= groups { MulMonotone(groups, q, chain); }
  }

  datatype PlanError = Insufficient

  /** The first n demands are served and the others are not. */
  ghost predicate Served(ofDemand: seq<int>, n: nat) {
    n <= |ofDemand| && forall d :: 0 <= d < |ofDemand| ==> (ofDemand[d] == -1 <==> d >= n)
  }

  /** No plan for the first n demands gives the last of them a candidate smaller than c. */
  ghost predicate ServedLeast(a: Authority, chain: nat, n: nat, c: int)
    requires n > 0
  {
    forall p {:trigger IsPlanFor(a, chain, n, p)} :: IsPlanFor(a, chain, n, p) ==> c <= p[n - 1]
  }

  lemma LastPlace(plan: seq<nat>, chain: nat, r: seq<seq<nat>>)
    requires chain > 0 && |r| > 0 && |plan| == |r| * chain && Cut(plan, chain, r)
    ensures |plan| > 0 && r[|r| - 1][chain - 1] == plan[|plan| - 1]
  {
    var g := |r| - 1;
    assert PlacedAt(plan, chain, g, chain - 1, r[g][chain - 1]);
    DemandPlace(chain, g, chain - 1, |r|);
    assert g * chain + chain == |r| * chain;
  }

  ghost predicate Plannable(a: Authority, chain: nat) { exists plan :: IsPlan(a, chain, plan) }

  /** A plan of all groups exists exactly when one is returned, and no plan gives the last demand a smaller
      candidate. */
  method ExactMatching(a: Authority, reserveCount: int) returns (r: Result<seq<seq<nat>>, PlanError>)
    ensures r.Ok? <==> 0 <= reserveCount <= Assignments.MAX_RESERVES && Plannable(a, reserveCount + 1)
    ensures r.Ok? ==> |r.value| == |a.groups|
    ensures r.Ok? ==> forall g :: 0 <= g < |r.value| ==> |r.value[g]| == reserveCount + 1
    ensures r.Ok? ==> forall g, i :: 0 <= g < |r.value| && 0 <= i < reserveCount + 1 ==> Eligible(a, g, r.value[g][i])
    ensures r.Ok? ==>
      forall g, i, h, j ::
        0 <= g < |r.value| && 0 <= h < |r.value| && 0 <= i < reserveCount + 1 && 0 <= j < reserveCount + 1 ==>
        r.value[g][i] == r.value[h][j] ==> g == h && i == j
    ensures r.Ok? && |a.groups| > 0 ==> forall p {:trigger IsPlan(a, reserveCount + 1, p)} ::
      IsPlan(a, reserveCount + 1, p) ==> |p| > 0 && r.value[|a.groups| - 1][reserveCount] <= p[|p| - 1]
  {
    if reserveCount < 0 || reserveCount > Assignments.MAX_RESERVES {
      return Err(Insufficient);
    }
    var chain := reserveCount + 1;
    var matcher := new GoldenMatcher(a, chain);
    var demandCount := |a.groups| * chain;
    for demand := 0 to demandCount
      invariant matcher.authority == a && matcher.chain == chain && fresh(matcher)
      invariant matcher.Valid() && Served(matcher.assignedCandidate, demand)
      invariant demand > 0 ==> ServedLeast(a, chain, demand, matcher.assignedCandidate[demand - 1])
    {
      matcher.seen := seq(|a.candidates|, _ => false);
      ghost var none, ofDemand, ofCandidate := matcher.seen, matcher.assignedCandidate, matcher.assignedDemand;
      var ok, ahead := matcher.Assign(demand);
      if !ok {
        forall plan ensures !IsPlan(a, chain, plan) {
          NoPlan(a, chain, matcher.assignedCandidate, matcher.assignedDemand, none, matcher.seen, demand, plan);
        }
        return Err(Insufficient);
      }
      forall p | IsPlanFor(a, chain, demand + 1, p)
        ensures matcher.assignedCandidate[demand] <= p[demand]
      {
        LeastCandidate(a, chain, ofDemand, ofCandidate, none, ahead, demand, matcher.assignedCandidate[demand], p);
      }
    }
    var plan := AsPlan(a, chain, matcher.assignedCandidate, matcher.assignedDemand);
    var groups := Split(plan, chain, |a.groups|);
    forall g, i | 0 <= g < |groups| && 0 <= i < chain
      ensures Eligible(a, g, groups[g][i])
    {
      CutServes(a, plan, chain, groups, g, i);
    }
    forall g, i, h, j | 0 <= g < |groups| && 0 <= h < |groups| && 0 <= i < chain && 0 <= j < chain
      && groups[g][i] == groups[h][j]
      ensures g == h && i == j
    {
      CutDiffers(a, plan, chain, groups, g, i, h, j);
    }
    if |a.groups| > 0 { LastPlace(plan, chain, groups); }
    r := Ok(groups);
  }

  method AsPlan(a: Authority, chain: nat, ofDemand: seq<int>, ghost ofCandidate: seq<int>) returns (plan: seq<nat>)
    requires Consistent(a, chain, ofDemand, ofCandidate, -1) && Served(ofDemand, |ofDemand|)
    ensures IsPlan(a, chain, plan) && plan == ofDemand
  {
    forall d | 0 <= d < |ofDemand|
      ensures 0 <= ofDemand[d] && Fits(a, chain, d, ofDemand[d]) && ofCandidate[ofDemand[d]] == d
    {
      assert DemandOk(a, chain, ofDemand, ofCandidate, d);
    }
    plan := seq(|ofDemand|, d requires 0 <= d < |ofDemand| => ofDemand[d]);
  }

  lemma DemandPlace(chain: nat, g: nat, i: nat, groups: nat)
    requires i < chain && g < groups
    ensures (g * chain + i) / chain == g
    ensures g * chain + i < groups * chain && g * chain + chain <= groups * chain
  {
    var d := g * chain + i;
    Quotient(d / chain, g, chain, i, d % chain);
    MulMonotone(g + 1, groups, chain);
  }

  /** The groups' chains, one after the other, are the plan. */
  ghost predicate Cut(plan: seq<nat>, chain: nat, r: seq<seq<nat>>) {
    && (forall g :: 0 <= g < |r| ==> |r[g]| == chain)
    && forall g, i {:trigger r[g][i]} :: 0 <= g < |r| && 0 <= i < chain ==> PlacedAt(plan, chain, g, i, r[g][i])
  }

  /** Cuts the plan into one chain per group. */
  method {:induction false} Split(plan: seq<nat>, chain: nat, groups: nat) returns (r: seq<seq<nat>>)
    requires chain > 0 && |plan| == groups * chain
    ensures |r| == groups && Cut(plan, chain, r)
  {
    r := [];
    for g := 0 to groups
      invariant |r| == g && Cut(plan, chain, r)
    {
      DemandPlace(chain, g, 0, groups);
      r := r + [plan[g * chain..g * chain + chain]];
    }
  }

  lemma {:induction false} CutServes(a: Authority, plan: seq<nat>, chain: nat, r: seq<seq<nat>>, g: nat, i: nat)
    requires IsPlan(a, chain, plan) && |r| == |a.groups| && Cut(plan, chain, r) && g < |r| && i < chain
    ensures Eligible(a, g, r[g][i])
  {
    assert PlacedAt(plan, chain, g, i, r[g][i]);
    DemandPlace(chain, g, i, |a.groups|);
    assert Fits(a, chain, g * chain + i, plan[g * chain + i]);
  }

  lemma {:induction false} CutDiffers(a: Authority, plan: seq<nat>, chain: nat, r: seq<seq<nat>>, g: nat, i: nat,
                                      h: nat, j: nat)
    requires IsPlan(a, chain, plan) && |r| == |a.groups| && Cut(plan, chain, r)
    requires g < |r| && i < chain && h < |r| && j < chain && r[g][i] == r[h][j]
    ensures g == h && i == j
  {
    assert PlacedAt(plan, chain, g, i, r[g][i]) && PlacedAt(plan, chain, h, j, r[h][j]);
    SamePlaceInDistinct(plan, g * chain + i, h * chain + j);
    DemandPlace(chain, g, i, |a.groups|);
    DemandPlace(chain, h, j, |a.groups|);
  }

  ghost predicate PlacedAt(plan: seq<nat>, chain: nat, g: nat, i: nat, c: nat) {
    g * chain + i < |plan| && plan[g * chain + i] == c
  }
}
