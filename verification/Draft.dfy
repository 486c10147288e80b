/** Category drafts: two participants ban and pick from a pool by a fixed plan. */
module Drafts {
  import opened Foundation
  import opened Numbering
  import opened Runs
  import opened Series

  datatype ActionType = Ban | Pick | UnknownAction

  datatype Rule = Rule(offset: int, action: ActionType)

  datatype Action = Action(turn: int, actor: Id, action: ActionType, category: Category, at: Time, deadline: Time)

  datatype DraftState = Active | Completed | UnknownState

  datatype DraftError = InvalidDraft | DraftCompleted | StaleTurn | IllegalAction | CategoryUsed | DeadlinePassed

  /** The turn plan of a format. */
  function Rules(format: SeriesFormat): seq<Rule> {
    match format
    case BO1 => [Rule(0, Ban), Rule(1, Ban)]
    case BO3 => [Rule(0, Ban), Rule(1, Ban), Rule(0, Pick), Rule(1, Pick)]
    case UnknownFormat(_) => []
  }

  function PoolSize(format: SeriesFormat): nat {
    match format
    case BO1 => 3
    case BO3 => 5
    case UnknownFormat(_) => 0
  }

  /** A pool that a draft of this format may be opened with. */
  ghost predicate LegalPool(format: SeriesFormat, pool: seq<Category>) {
    && format.Valid() && |pool| == PoolSize(format) && Distinct(pool)
    && forall i :: 0 <= i < |pool| ==> pool[i].Valid()
  }

  function Categories(actions: seq<Action>): seq<Category> {
    seq(|actions|, i requires 0 <= i < |actions| => actions[i].category)
  }

  /** The categories of the actions of one type, in order. */
  function Of(actions: seq<Action>, kind: ActionType): seq<Category> {
    if actions == [] then []
    else
      var last := actions[|actions| - 1];
      Of(actions[..|actions| - 1], kind) + (if last.action == kind then [last.category] else [])
  }

  function Unused(pool: seq<Category>, used: seq<Category>): seq<Category> {
    if pool == [] then []
    else
      var last := pool[|pool| - 1];
      Unused(pool[..|pool| - 1], used) + (if last in used then [] else [last])
  }

  /** The picks in order, then what is left of the pool. */
  function Selection(pool: seq<Category>, actions: seq<Action>): seq<Category> {
    Of(actions, Pick) + Unused(pool, Categories(actions))
  }

  datatype Draft = Draft(
    id: Id, seriesId: Id, format: SeriesFormat, first: Id, second: Id, pool: seq<Category>,
    state: DraftState, turn: int, turnDeadline: Time, actions: seq<Action>, selected: seq<Category>)
  {
    function Actor(offset: int): Id { if offset == 0 then first else second }

    predicate ActionOk(i: nat)
      requires i < |actions| <= |Rules(format)|
    {
      var a, rule := actions[i], Rules(format)[i];
      && a.turn == i + 1 && a.actor == Actor(rule.offset) && a.action == rule.action
      && a.category in pool && a.category.Valid()
      && !a.at.IsZero() && !a.deadline.IsZero() && !a.at.After(a.deadline)
    }

    ghost predicate ActionsOk() {
      && |actions| <= |Rules(format)|
      && (forall i :: 0 <= i < |actions| ==> ActionOk(i))
      && Distinct(Categories(actions))
    }

    ghost predicate Valid() {
      && id != 0 && seriesId != 0 && first != 0 && second != 0 && first != second
      && LegalPool(format, pool)
      && !state.UnknownState?
      && ActionsOk()
      && (if state.Active?
          then turn == |actions| + 1 && turn <= |Rules(format)| && !turnDeadline.IsZero() && selected == []
          else turn == |actions| == |Rules(format)| && turnDeadline.IsZero() && selected == Selection(pool, actions))
    }
  }

  datatype Request = Request(turn: int, actor: Id, action: ActionType, category: Category, at: Time, nextDeadline: Time)

  predicate IsLast(d: Draft) { d.turn == |Rules(d.format)| }

  /** The checks on a request for a valid active draft, in the order in which they are made. */
  function Refusal(d: Draft, r: Request): Option<DraftError>
    requires 1 <= d.turn <= |Rules(d.format)|
  {
    var rule := Rules(d.format)[d.turn - 1];
    if r.turn != d.turn then Some(StaleTurn)
    else if r.actor != d.Actor(rule.offset) || r.action != rule.action then Some(IllegalAction)
    else if r.at.After(d.turnDeadline) then Some(DeadlinePassed)
    else if !r.category.Valid() || r.category !in d.pool then Some(IllegalAction)
    else if r.category in Categories(d.actions) then Some(CategoryUsed)
    else if !IsLast(d) && (r.nextDeadline.IsZero() || !r.nextDeadline.After(r.at)) then Some(InvalidDraft)
    else if IsLast(d) && !r.nextDeadline.IsZero() then Some(InvalidDraft)
    else None
  }

  ghost function Applied(d: Draft, r: Request): Result<Draft, DraftError> {
    if !d.Valid() then Err(InvalidDraft)
    else if d.state.Completed? then Err(DraftCompleted)
    else
      match Refusal(d, r)
      case Some(e) => Err(e)
      case None =>
        var actions := d.actions + [Action(d.turn, r.actor, r.action, r.category, r.at, d.turnDeadline)];
        if IsLast(d)
        then Ok(d.(actions := actions, state := Completed, turnDeadline := ZERO_TIME,
          selected := Selection(d.pool, actions)))
        else Ok(d.(actions := actions, turn := d.turn + 1, turnDeadline := r.nextDeadline))
  }

  // ---------------------------------------------------------------- one action

  /** An accepted action leaves a valid draft exactly when it carries a time: the request check lets the zero
      time through, the validation of recorded actions does not. */
  lemma ActionKeepsDraftValid(d: Draft, r: Request)
    requires Applied(d, r).Ok?
    ensures Applied(d, r).value.Valid() <==> !r.at.IsZero()
    ensures Applied(d, r).value.actions
      == d.actions + [Action(d.turn, r.actor, r.action, r.category, r.at, d.turnDeadline)]
    ensures Applied(d, r).value.format == d.format && Applied(d, r).value.pool == d.pool
  {
    var e := Applied(d, r).value;
    assert Categories(e.actions) == Categories(d.actions) + [r.category];
    forall i | 0 <= i < |d.actions| ensures e.ActionOk(i) { assert d.ActionOk(i); }
    if e.Valid() { assert e.ActionOk(|d.actions|); }
  }

  /** A valid active draft with the zero time accepted for a first action. */
  lemma ZeroTimeBreaksDraft()
    ensures exists d: Draft, r: Request :: Applied(d, r).Ok? && !Applied(d, r).value.Valid()
  {
    var d := Draft(1, 2, BO1, 3, 4, [Crypto, Reverse, Web], Active, 1, Time(5, true), [], []);
    var r := Request(1, 3, Ban, Web, ZERO_TIME, Time(9, true));
    assert d.Valid() && d.pool[2] == Web && Applied(d, r).Ok?;
    ActionKeepsDraftValid(d, r);
  }

  /** A valid active draft is never stuck: for every timely request time and every proper next deadline some
      category of the pool is accepted. */
  lemma SomeCategoryIsLegal(d: Draft, at: Time, nextDeadline: Time) returns (c: Category)
    requires d.Valid() && d.state.Active? && !at.After(d.turnDeadline)
    requires if IsLast(d) then nextDeadline.IsZero() else !nextDeadline.IsZero() && nextDeadline.After(at)
    ensures var rule := Rules(d.format)[d.turn - 1];
            Applied(d, Request(d.turn, d.Actor(rule.offset), rule.action, c, at, nextDeadline)).Ok?
  {
    var used := Categories(d.actions);
    if forall p :: p in d.pool ==> p in used {
      ElementsSize(used);
      DistinctFits(d.pool, Elements(used));
      assert false;
    }
    c :| c in d.pool && c !in used;
    var i :| 0 <= i < |d.pool| && d.pool[i] == c;
  }

  /** At a given time a valid active draft accepts some action exactly when the turn deadline has not passed. */
  lemma AcceptsExactlyInTime(d: Draft, at: Time)
    requires d.Valid() && d.state.Active?
    ensures (exists r: Request :: r.at == at && Applied(d, r).Ok?) <==> !at.After(d.turnDeadline)
  {
    if !at.After(d.turnDeadline) {
      var next := if IsLast(d) then ZERO_TIME else Time(if at.instant >= 0 then at.instant + 1 else 1, true);
      var c := SomeCategoryIsLegal(d, at, next);
      var rule := Rules(d.format)[d.turn - 1];
      assert Applied(d, Request(d.turn, d.Actor(rule.offset), rule.action, c, at, next)).Ok?;
    }
  }

  // ---------------------------------------------------------------- whole drafts

  ghost predicate Steps(d: Draft, e: Draft) {
    exists r: Request :: !r.at.IsZero() && Applied(d, r) == Ok(e)
  }

  lemma StepCounts(d: Draft, e: Draft)
    requires d.Valid() && Steps(d, e)
    ensures e.Valid() && e.format == d.format && e.pool == d.pool
    ensures |e.actions| == |d.actions| + 1 && d.actions < e.actions
  {
    var r: Request :| !r.at.IsZero() && Applied(d, r) == Ok(e);
    ActionKeepsDraftValid(d, r);
  }

  /** In every run each action appends one record; the draft is complete exactly when the plan is used up, so a
      full run takes exactly as many actions as the plan has turns and no run is longer. */
  lemma {:induction false} RunCountsActions(start: Draft, trace: seq<Draft>, k: nat)
    requires start.Valid() && start.actions == []
    requires IsRun(trace, start, Steps) && k < |trace|
    ensures trace[k].Valid() && trace[k].format == start.format && trace[k].pool == start.pool
    ensures |trace[k].actions| == k <= |Rules(start.format)|
    ensures trace[k].state == Completed <==> k == |Rules(start.format)|
  {
    if k > 0 {
      RunCountsActions(start, trace, k - 1);
      assert StepAt(trace, k - 1, Steps);
      StepCounts(trace[k - 1], trace[k]);
    }
  }

  lemma {:induction false} UnusedElements(pool: seq<Category>, used: seq<Category>)
    ensures forall c :: c in Unused(pool, used) <==> c in pool && c !in used
    ensures Distinct(pool) ==> Distinct(Unused(pool, used))
  {
    if pool != [] {
      var init, last := pool[..|pool| - 1], pool[|pool| - 1];
      UnusedElements(init, used);
      assert pool == init + [last];
    }
  }

  /** How many categories stay unused: all of the pool but the used ones. */
  lemma UnusedSize(pool: seq<Category>, used: seq<Category>)
    requires Distinct(pool) && Distinct(used) && forall c :: c in used ==> c in pool
    ensures |Unused(pool, used)| == |pool| - |used|
  {
    UnusedElements(pool, used);
    ElementsSize(pool);
    ElementsSize(used);
    ElementsSize(Unused(pool, used));
    assert Elements(pool) == Elements(used) + Elements(Unused(pool, used));
  }

  predicate Makes(actions: seq<Action>, i: int, kind: ActionType, c: Category) {
    0 <= i < |actions| && actions[i].action == kind && actions[i].category == c
  }

  lemma {:induction false} OfElements(actions: seq<Action>, kind: ActionType)
    ensures forall c :: c in Of(actions, kind) <==> (exists i :: Makes(actions, i, kind, c))
    ensures Distinct(Categories(actions)) ==> Distinct(Of(actions, kind))
  {
    if actions != [] {
      var init, last := actions[..|actions| - 1], actions[|actions| - 1];
      OfElements(init, kind);
      assert Categories(init) == Categories(actions)[..|actions| - 1];
      forall c
        ensures c in Of(actions, kind) <==> (exists i :: Makes(actions, i, kind, c))
      {
        if i :| Makes(actions, i, kind, c) {
          assert i < |init| ==> Makes(init, i, kind, c);
        }
        if c in Of(init, kind) {
          var i :| Makes(init, i, kind, c);
          assert Makes(actions, i, kind, c);
        } else if c in Of(actions, kind) {
          assert Makes(actions, |init|, kind, c);
        }
      }
      if Distinct(Categories(actions)) && last.action == kind {
        forall i | 0 <= i < |init|
          ensures init[i].category != last.category
        {
          assert Categories(actions)[i] == init[i].category && Categories(actions)[|init|] == last.category;
        }
        assert last.category !in Of(init, kind);
      }
    }
  }

  lemma OfPrefix(actions: seq<Action>, n: nat, kind: ActionType)
    requires n < |actions|
    ensures Of(actions[..n + 1], kind)
      == Of(actions[..n], kind) + (if actions[n].action == kind then [actions[n].category] else [])
  {
    assert actions[..n + 1][..n] == actions[..n];
  }

  /** How many bans and picks the plan of a format contains. */
  lemma PlannedActions(d: Draft, kind: ActionType)
    requires d.Valid() && d.state.Completed?
    ensures kind == Ban ==> |Of(d.actions, kind)| == 2
    ensures kind == Pick ==> |Of(d.actions, kind)| == |d.actions| - 2
  {
    assert d.ActionOk(0) && d.ActionOk(1);
    OfPrefix(d.actions, 0, kind);
    OfPrefix(d.actions, 1, kind);
    if d.format.BO3? {
      assert d.ActionOk(2) && d.ActionOk(3);
      OfPrefix(d.actions, 2, kind);
      OfPrefix(d.actions, 3, kind);
    }
    assert d.actions[..|d.actions|] == d.actions;
  }

  lemma ConcatDistinct(a: seq<Category>, b: seq<Category>)
    requires Distinct(a) && Distinct(b) && forall c :: !(c in a && c in b)
    ensures Distinct(a + b)
  {
    forall i, j | 0 <= i < j < |a + b|
      ensures (a + b)[i] != (a + b)[j]
    {
      if i < |a| <= j { assert (a + b)[i] in a && (a + b)[j] in b; }
    }
  }

  /** A completed draft has banned two categories and selected exactly as many as the series has game slots;
      bans and selections are the pool, without overlap and without repeats. */
  lemma CompletedDraftPartitionsPool(d: Draft)
    requires d.Valid() && d.state.Completed?
    ensures |d.selected| == d.format.SlotLimit() && Distinct(d.selected)
    ensures |Of(d.actions, Ban)| == 2 && Distinct(Of(d.actions, Ban))
    ensures forall c :: c in d.pool <==> c in Of(d.actions, Ban) || c in d.selected
    ensures forall c :: !(c in Of(d.actions, Ban) && c in d.selected)
  {
    var used := Categories(d.actions);
    OfElements(d.actions, Ban);
    OfElements(d.actions, Pick);
    forall i | 0 <= i < |used| ensures used[i] in d.pool { assert d.ActionOk(i); }
    UnusedElements(d.pool, used);
    UnusedSize(d.pool, used);
    PlannedActions(d, Ban);
    PlannedActions(d, Pick);
    forall c
      ensures c in used <==> c in Of(d.actions, Ban) || c in Of(d.actions, Pick)
      ensures !(c in Of(d.actions, Ban) && c in Of(d.actions, Pick))
    {
      UsedOnce(d, c);
    }
    ConcatDistinct(Of(d.actions, Pick), Unused(d.pool, used));
  }

  lemma EveryActionIsBanOrPick(d: Draft)
    requires d.Valid()
    ensures forall i :: 0 <= i < |d.actions| ==> d.actions[i].action == Ban || d.actions[i].action == Pick
  {
    forall i | 0 <= i < |d.actions|
      ensures d.actions[i].action == Ban || d.actions[i].action == Pick
    {
      assert d.ActionOk(i);
    }
  }

  lemma UsedOnce(d: Draft, c: Category)
    requires d.Valid()
    ensures c in Categories(d.actions) <==> c in Of(d.actions, Ban) || c in Of(d.actions, Pick)
    ensures !(c in Of(d.actions, Ban) && c in Of(d.actions, Pick))
  {
    OfElements(d.actions, Ban);
    OfElements(d.actions, Pick);
    EveryActionIsBanOrPick(d);
    if c in Categories(d.actions) {
      var i :| 0 <= i < |d.actions| && Categories(d.actions)[i] == c;
      assert Makes(d.actions, i, Ban, c) || Makes(d.actions, i, Pick, c);
    }
    if i, kind :| Makes(d.actions, i, kind, c) {
      assert Categories(d.actions)[i] == c;
    }
    if c in Of(d.actions, Ban) && c in Of(d.actions, Pick) {
      var i :| Makes(d.actions, i, Ban, c);
      var j :| Makes(d.actions, j, Pick, c);
      SamePlaceInDistinct(Categories(d.actions), i, j);
    }
  }

  // ---------------------------------------------------------------- the draft object

  method ValidateActions(d: Draft) returns (ok: bool)
    requires |d.actions| <= |Rules(d.format)|
    ensures ok <==> d.ActionsOk()
  {
    var used: set<Category> := {};
    ghost var categories := Categories(d.actions);
    for i := 0 to |d.actions|
      invariant forall c :: c in used <==> c in categories[..i]
      invariant forall k :: 0 <= k < i ==> d.ActionOk(k)
      invariant Distinct(categories[..i])
    {
      if !d.ActionOk(i) {
        return false;
      }
      if d.actions[i].category in used {
        assert categories[i] in categories[..i];
        return false;
      }
      assert categories[..i + 1] == categories[..i] + [d.actions[i].category];
      used := used + {d.actions[i].category};
    }
    assert categories[..|d.actions|] == categories;
    ok := true;
  }

  method ValidateDraftPool(pool: seq<Category>) returns (ok: bool)
    ensures ok <==> Distinct(pool) && forall i :: 0 <= i < |pool| ==> pool[i].Valid()
  {
    var seen: set<Category> := {};
    for i := 0 to |pool|
      invariant seen == set k | 0 <= k < i :: pool[k]
      invariant forall k :: 0 <= k < i ==> pool[k].Valid()
      invariant Distinct(pool[..i])
    {
      if !pool[i].Valid() || pool[i] in seen {
        return false;
      }
      assert pool[..i + 1] == pool[..i] + [pool[i]];
      seen := seen + {pool[i]};
    }
    assert pool[..|pool|] == pool;
    ok := true;
  }

  /** Collects the picks, then the categories of the pool that no action used. */
  method DeriveSelectedCategories(pool: seq<Category>, actions: seq<Action>) returns (selected: seq<Category>)
    ensures selected == Selection(pool, actions)
  {
    selected := [];
    var used: set<Category> := {};
    ghost var categories := Categories(actions);
    for i := 0 to |actions|
      invariant selected == Of(actions[..i], Pick)
      invariant forall c :: c in used <==> c in categories[..i]
    {
      OfPrefix(actions, i, Pick);
      assert categories[..i + 1] == categories[..i] + [actions[i].category];
      used := used + {actions[i].category};
      if actions[i].action == Pick {
        selected := selected + [actions[i].category];
      }
    }
    assert actions[..|actions|] == actions && categories[..|actions|] == categories;
    for i := 0 to |pool|
      invariant selected == Of(actions, Pick) + Unused(pool[..i], categories)
    {
      assert pool[..i + 1][..i] == pool[..i];
      if pool[i] !in used {
        selected := selected + [pool[i]];
      }
    }
    assert pool[..|pool|] == pool;
  }

  /** The draft with its fields updated in place. */
  class DraftBoard {
    const id: Id
    const seriesId: Id
    const format: SeriesFormat
    const first: Id
    const second: Id
    const pool: seq<Category>
    var state: DraftState
    var turn: int
    var turnDeadline: Time
    var actions: seq<Action>
    var selected: seq<Category>

    function Value(): Draft
      reads this
    {
      Draft(id, seriesId, format, first, second, pool, state, turn, turnDeadline, actions, selected)
    }

    constructor (d: Draft)
      ensures Value() == d
    {
      id, seriesId, format, first, second, pool := d.id, d.seriesId, d.format, d.first, d.second, d.pool;
      state, turn, turnDeadline, actions, selected := d.state, d.turn, d.turnDeadline, d.actions, d.selected;
    }

    /** A draft is opened exactly when its identities are present and its pool is legal. */
    static method New(id: Id, seriesId: Id, format: SeriesFormat, first: Id, second: Id, pool: seq<Category>,
                      firstDeadline: Time)
      returns (r: Result<DraftBoard, DraftError>)
      ensures r.Ok? <==>
        id != 0 && seriesId != 0 && first != 0 && second != 0 && first != second && LegalPool(format, pool)
          && !firstDeadline.IsZero()
      ensures r.Ok? ==> fresh(r.value) && r.value.Value().Valid() && r.value.actions == [] && r.value.state == Active
      ensures r.Ok? ==>
        r.value.Value() == Draft(id, seriesId, format, first, second, pool, Active, 1, firstDeadline, [], [])
    {
      var d := Draft(id, seriesId, format, first, second, pool, Active, 1, firstDeadline, [], []);
      var ok := Validate(d);
      if !ok {
        return Err(InvalidDraft);
      }
      var board := new DraftBoard(d);
      return Ok(board);
    }

    static method Validate(d: Draft) returns (ok: bool)
      ensures ok <==> d.Valid()
    {
      if d.id == 0 || d.seriesId == 0 || d.first == 0 || d.second == 0 || d.first == d.second {
        return false;
      }
      if d.format.UnknownFormat? || |d.pool| != PoolSize(d.format) {
        return false;
      }
      ok := ValidateDraftPool(d.pool);
      if !ok || d.state.UnknownState? || |d.actions| > |Rules(d.format)| {
        return false;
      }
      ok := ValidateActions(d);
      if !ok {
        return false;
      }
      if d.state.Active? {
        return d.turn == |d.actions| + 1 && d.turn <= |Rules(d.format)| && !d.turnDeadline.IsZero()
          && |d.selected| == 0;
      }
      if |d.actions| != |Rules(d.format)| || d.turn != |Rules(d.format)| || !d.turnDeadline.IsZero() {
        return false;
      }
      var expected := DeriveSelectedCategories(d.pool, d.actions);
      ok := d.selected == expected;
    }

    method ApplyAction(r: Request) returns (failure: Option<DraftError>)
      modifies this
      ensures match Applied(old(Value()), r)
              case Ok(d) => failure.None? && Value() == d
              case Err(e) => failure == Some(e) && Value() == old(Value())
    {
      var valid := Validate(Value());
      if !valid {
        return Some(InvalidDraft);
      }
      if state.Completed? {
        return Some(DraftCompleted);
      }
      failure := Refusal(Value(), r);
      if failure.Some? {
        return;
      }
      var last := IsLast(Value());
      actions := actions + [Action(turn, r.actor, r.action, r.category, r.at, turnDeadline)];
      if last {
        state, turnDeadline := Completed, ZERO_TIME;
        selected := DeriveSelectedCategories(pool, actions);
        return None;
      }
      turn := turn + 1;
      turnDeadline := r.nextDeadline;
      failure := None;
    }
  }
}
