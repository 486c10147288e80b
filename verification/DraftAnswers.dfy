/** Category drafts told by their fields alone: what a valid draft looks like, what it answers to a request, and what is
    selected in the end. */
module DraftAnswers {
  import opened Foundation
  import opened Numbering
  import opened Series
  import opened Drafts

  /** Turn i of every plan: the participants alternate, first they ban, then they pick. */
  ghost predicate TurnFits(d: Draft, i: nat)
    requires i < |d.actions|
  {
    var a := d.actions[i];
    && a.turn == i + 1
    && a.actor == (if i % 2 == 0 then d.first else d.second)
    && a.action == (if i < 2 then Ban else Pick)
    && a.category in d.pool
    && a.at.instant != 0 && a.deadline.instant != 0 && a.at.instant <= a.deadline.instant
  }

  function Turns(d: Draft): nat { if d.format == BO1 then 2 else 4 }

  ghost predicate PoolFits(d: Draft) {
    && d.format in {BO1, BO3} && |d.pool| == (if d.format == BO1 then 3 else 5)
    && forall i, j :: 0 <= i < j < |d.pool| ==> d.pool[i] != d.pool[j]
  }

  /** The two picks of a BO3 draft, and in every draft the category that nobody has named. */
  ghost predicate SelectedFits(d: Draft) {
    && |d.actions| == Turns(d) && |d.selected| == Turns(d) - 1
    && (d.format == BO3 ==> d.selected[0] == d.actions[2].category && d.selected[1] == d.actions[3].category)
    && d.selected[|d.selected| - 1] in d.pool
    && forall a :: a in d.actions ==> a.category != d.selected[|d.selected| - 1]
  }

  /** All turns are taken: first the bans, then the picks, each on a category of its own. */
  ghost predicate Played(d: Draft) {
    && PoolFits(d) && |d.actions| == Turns(d) && Distinct(Categories(d.actions))
    && forall i :: 0 <= i < |d.actions| ==> Moved(d, i)
  }

  ghost predicate Moved(d: Draft, i: nat)
    requires i < |d.actions|
  {
    d.actions[i].category in d.pool && d.actions[i].action == if i < 2 then Ban else Pick
  }

  lemma Named(d: Draft, c: Category)
    ensures c in Categories(d.actions) <==> exists a :: a in d.actions && a.category == c
  {
    var used := Categories(d.actions);
    if c in used {
      var i :| 0 <= i < |used| && used[i] == c;
      assert d.actions[i] in d.actions;
    }
    if a :| a in d.actions && a.category == c {
      var i :| 0 <= i < |d.actions| && d.actions[i] == a;
      assert used[i] == c;
    }
  }

  /** After the last turn one category of the pool is left over. */
  lemma {:induction false} OneLeft(d: Draft) returns (left: Category)
    requires Played(d)
    ensures Unused(d.pool, Categories(d.actions)) == [left]
    ensures forall c :: c in d.pool && c !in Categories(d.actions) <==> c == left
  {
    var used := Categories(d.actions);
    forall c | c in used
      ensures c in d.pool
    {
      var i :| 0 <= i < |used| && used[i] == c;
      assert Moved(d, i);
    }
    UnusedElements(d.pool, used);
    UnusedSize(d.pool, used);
    left := Unused(d.pool, used)[0];
    assert Unused(d.pool, used) == [left];
    assert forall c :: c in Unused(d.pool, used) <==> c == left;
  }

  lemma {:induction false} PicksInOrder(d: Draft)
    requires Played(d)
    ensures Of(d.actions, Pick) == if d.format == BO1 then [] else [d.actions[2].category, d.actions[3].category]
  {
    var a := d.actions;
    forall i | 0 <= i < |a| ensures a[i].action == if i < 2 then Ban else Pick { assert Moved(d, i); }
    OfPrefix(a, 0, Pick);
    OfPrefix(a, 1, Pick);
    if d.format == BO3 {
      OfPrefix(a, 2, Pick);
      OfPrefix(a, 3, Pick);
    }
    assert a[..|a|] == a && a[..0] == [];
  }

  /** The selection of a full plan. */
  lemma {:induction false} SelectionFits(d: Draft)
    requires Played(d)
    ensures d.selected == Selection(d.pool, d.actions) <==> SelectedFits(d)
  {
    PicksInOrder(d);
    var left := OneLeft(d);
    var chosen := if |d.selected| > 0 then d.selected[|d.selected| - 1] else left;
    Named(d, chosen);
    if SelectedFits(d) {
      assert chosen == left;
      assert d.selected == Of(d.actions, Pick) + [left];
    }
  }

  lemma TurnsFit(d: Draft)
    requires d.format in {BO1, BO3} && |d.actions| <= Turns(d) && forall i :: 0 <= i < |d.pool| ==> d.pool[i].Valid()
    ensures |Rules(d.format)| == Turns(d)
    ensures forall i :: 0 <= i < |d.actions| ==> (d.ActionOk(i) <==> TurnFits(d, i))
  {
  }

  lemma DistinctCategories(actions: seq<Action>)
    ensures Distinct(Categories(actions))
            <==> forall i, j :: 0 <= i < j < |actions| ==> actions[i].category != actions[j].category
  {
    forall i, j | 0 <= i < j < |actions|
      ensures actions[i].category != actions[j].category <==> Categories(actions)[i] != Categories(actions)[j]
    {
    }
  }

  /** How far the plan has come, and what the draft holds in that state. */
  ghost predicate ProgressFits(d: Draft) {
    if d.state == Active then
      d.turn == |d.actions| + 1 <= Turns(d) && d.turnDeadline.instant != 0 && d.selected == []
    else
      d.turn == |d.actions| == Turns(d) && d.turnDeadline.instant == 0 && SelectedFits(d)
  }

  /** A draft is valid exactly when its identities are present, its pool and its actions fit the plan of its format,
      no category is named twice, and its state fits the turns taken. */
  lemma {:induction false} ValidExactly(d: Draft)
    ensures d.Valid() <==>
      && d.id != 0 && d.seriesId != 0 && d.first != 0 && d.second != 0 && d.first != d.second
      && d.state in {Active, Completed} && PoolFits(d)
      && (forall c :: c in d.pool ==> !c.UnknownCategory?)
      && |d.actions| <= Turns(d)
      && (forall i :: 0 <= i < |d.actions| ==> TurnFits(d, i))
      && (forall i, j :: 0 <= i < j < |d.actions| ==> d.actions[i].category != d.actions[j].category)
      && ProgressFits(d)
  {
    assert (forall c :: c in d.pool ==> !c.UnknownCategory?) <==> forall i :: 0 <= i < |d.pool| ==> d.pool[i].Valid();
    DistinctCategories(d.actions);
    if d.format in {BO1, BO3} && |d.actions| <= Turns(d) && forall i :: 0 <= i < |d.pool| ==> d.pool[i].Valid() {
      TurnsFit(d);
      if PoolFits(d) && d.ActionsOk() && |d.actions| == Turns(d) {
        forall i | 0 <= i < |d.actions| ensures Moved(d, i) { assert TurnFits(d, i); }
        SelectionFits(d);
      }
    }
  }

  /** What a valid active draft answers: its checks in order, told by the fields of draft and request. */
  lemma {:induction false} AnswersExactly(d: Draft, r: Request)
    requires d.Valid() && d.state == Active
    ensures var e := Applied(d, r);
      var legal := && r.actor == (if d.turn % 2 == 1 then d.first else d.second)
                   && r.action == (if d.turn <= 2 then Ban else Pick);
      var named := exists a :: a in d.actions && a.category == r.category;
      var last := d.turn == Turns(d);
      if r.turn != d.turn then e == Err(StaleTurn)
      else if !legal then e == Err(IllegalAction)
      else if r.at.instant > d.turnDeadline.instant then e == Err(DeadlinePassed)
      else if r.category !in d.pool then e == Err(IllegalAction)
      else if named then e == Err(CategoryUsed)
      else if last && r.nextDeadline.instant != 0 then e == Err(InvalidDraft)
      else if !last && (r.nextDeadline.instant == 0 || r.nextDeadline.instant <= r.at.instant)
        then e == Err(InvalidDraft)
      else e.Ok? && Extends(d, r, e.value)
  {
    Named(d, r.category);
    ValidExactly(d);
    RuleFits(d);
    if Applied(d, r).Ok? && d.turn == Turns(d) {
      LastAction(d, r);
    }
  }

  lemma RuleFits(d: Draft)
    requires d.Valid() && d.state == Active
    ensures |Rules(d.format)| == Turns(d) && 1 <= d.turn <= Turns(d)
    ensures d.Actor(Rules(d.format)[d.turn - 1].offset) == (if d.turn % 2 == 1 then d.first else d.second)
    ensures Rules(d.format)[d.turn - 1].action == (if d.turn <= 2 then Ban else Pick)
  {
  }

  /** The draft with one more action, and, after the last turn, with its selection. */
  ghost predicate Extends(d: Draft, r: Request, e: Draft) {
    && e.actions == d.actions + [Action(d.turn, r.actor, r.action, r.category, r.at, d.turnDeadline)]
    && (if d.turn == Turns(d)
        then e == d.(actions := e.actions, state := Completed, turnDeadline := e.turnDeadline, selected := e.selected)
             && e.turnDeadline.instant == 0 && SelectedFits(e)
        else e == d.(actions := e.actions, turn := d.turn + 1, turnDeadline := r.nextDeadline))
  }

  lemma {:induction false} LastAction(d: Draft, r: Request)
    requires d.Valid() && d.state == Active && d.turn == Turns(d) && Applied(d, r).Ok?
    ensures SelectedFits(Applied(d, r).value)
  {
    var e := Applied(d, r).value;
    assert Categories(e.actions) == Categories(d.actions) + [r.category];
    RuleFits(d);
    TurnsFit(d);
    forall i | 0 <= i < |e.actions|
      ensures Moved(e, i)
    {
      if i < |d.actions| { assert TurnFits(d, i) && e.actions[i] == d.actions[i]; }
    }
    SelectionFits(e);
  }

  /** Nobody else is answered: an invalid draft and a completed one refuse every request as such. */
  lemma RefusesExactly(d: Draft, r: Request)
    ensures !d.Valid() <==> Applied(d, r) == Err(InvalidDraft) && !(d.Valid() && d.state == Active)
    ensures d.Valid() && d.state == Completed <==> Applied(d, r) == Err(DraftCompleted)
  {
    if d.Valid() && d.state == Active { AnswersExactly(d, r); }
  }

  /** Left-over categories keep the order of the pool. */
  lemma {:induction false} LeftInOrder(pool: seq<Category>, used: seq<Category>, i: nat, j: nat)
    returns (p: nat, q: nat)
    requires i < j < |Unused(pool, used)|
    ensures p < q < |pool| && pool[p] == Unused(pool, used)[i] && pool[q] == Unused(pool, used)[j]
  {
    var n := |pool| - 1;
    if j < |Unused(pool[..n], used)| {
      p, q := LeftInOrder(pool[..n], used, i, j);
    } else {
      p := PlaceLeft(pool[..n], used, i);
      q := n;
    }
  }

  lemma {:induction false} PlaceLeft(pool: seq<Category>, used: seq<Category>, i: nat) returns (p: nat)
    requires i < |Unused(pool, used)|
    ensures p < |pool| && pool[p] == Unused(pool, used)[i]
  {
    var n := |pool| - 1;
    if i < |Unused(pool[..n], used)| { p := PlaceLeft(pool[..n], used, i); } else { p := n; }
  }
}
