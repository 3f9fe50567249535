/**
  Account ID patterns: which of the four configured patterns an order uses, and
  how the four are filled in from the configuration form with fallbacks.
*/
module AccountIdPatterns {
  import opened Php
  import opened Commerce

  /** The keys of the saved `account_id_patterns` array. */
  datatype PatternKey = Default | Plan | NonPlan | PlanPlusNonPlan

  /** An item is a plan item when its variation type is one of the configured plan variations. */
  predicate IsPlanItem(item: OrderItem, planVariations: seq<string>) {
    item.variationType in planVariations
  }

  predicate HasPlanItem(items: seq<OrderItem>, planVariations: seq<string>) {
    exists i :: 0 <= i < |items| && IsPlanItem(items[i], planVariations)
  }

  predicate HasNonPlanItem(items: seq<OrderItem>, planVariations: seq<string>) {
    exists i :: 0 <= i < |items| && !IsPlanItem(items[i], planVariations)
  }

  /** Both kinds of item occur. */
  predicate Mixed(items: seq<OrderItem>, planVariations: seq<string>) {
    HasPlanItem(items, planVariations) && HasNonPlanItem(items, planVariations)
  }

  /**
    The pattern an order uses, stated on what it contains rather than on how the
    items are scanned: 'default' for no items, 'plan' when every item is a plan
    item, 'nonplan' when none is, 'plan_plus_nonplan' when both kinds occur.
  */
  function SelectedPattern(items: seq<OrderItem>, planVariations: seq<string>): (k: PatternKey)
    ensures k == Default <==> items == []
    ensures k == Plan <==> items != [] && forall i :: 0 <= i < |items| ==> IsPlanItem(items[i], planVariations)
    ensures k == NonPlan <==> items != [] && forall i :: 0 <= i < |items| ==> !IsPlanItem(items[i], planVariations)
    ensures k == PlanPlusNonPlan <==> Mixed(items, planVariations)
  {
    var plan, nonPlan := HasPlanItem(items, planVariations), HasNonPlanItem(items, planVariations);
    assert items != [] ==> plan || nonPlan by {
      if items != [] {
        assert IsPlanItem(items[0], planVariations) || !IsPlanItem(items[0], planVariations);
      }
    }
    if plan && nonPlan then PlanPlusNonPlan
    else if plan then Plan
    else if nonPlan then NonPlan
    else Default
  }

  /** The selection depends only on which items the order holds, never on their order. */
  lemma SelectionIgnoresItemOrder(a: seq<OrderItem>, b: seq<OrderItem>, planVariations: seq<string>)
    requires multiset(a) == multiset(b)
    ensures SelectedPattern(a, planVariations) == SelectedPattern(b, planVariations)
  {
    forall x | x in a ensures x in b {
      assert x in multiset(a);
    }
    forall x | x in b ensures x in a {
      assert x in multiset(b);
    }
    SameItemsSameKinds(a, b, planVariations);
    SameItemsSameKinds(b, a, planVariations);
  }

  lemma SameItemsSameKinds(a: seq<OrderItem>, b: seq<OrderItem>, planVariations: seq<string>)
    requires forall x :: x in a ==> x in b
    ensures HasPlanItem(a, planVariations) ==> HasPlanItem(b, planVariations)
    ensures HasNonPlanItem(a, planVariations) ==> HasNonPlanItem(b, planVariations)
  {
    if HasPlanItem(a, planVariations) {
      var i :| 0 <= i < |a| && IsPlanItem(a[i], planVariations);
      assert a[i] in b;
      var j :| 0 <= j < |b| && b[j] == a[i];
    }
    if HasNonPlanItem(a, planVariations) {
      var i :| 0 <= i < |a| && !IsPlanItem(a[i], planVariations);
      assert a[i] in b;
      var j :| 0 <= j < |b| && b[j] == a[i];
    }
  }

  /** Once a prefix of the items holds both kinds, nothing after it can change the selection. */
  lemma MixedPrefixDecides(items: seq<OrderItem>, k: nat, planVariations: seq<string>)
    requires k <= |items|
    requires Mixed(items[..k], planVariations)
    ensures SelectedPattern(items, planVariations) == PlanPlusNonPlan
  {
    var i :| 0 <= i < k && IsPlanItem(items[..k][i], planVariations);
    var j :| 0 <= j < k && !IsPlanItem(items[..k][j], planVariations);
    assert IsPlanItem(items[i], planVariations);
    assert !IsPlanItem(items[j], planVariations);
  }

  // ---------------------------------------------------------------------------
  // Saving the patterns

  /** The four pattern textfields of the configuration form. */
  datatype PatternFormValues = PatternFormValues(
    defaultPattern: string,    // defaults_fallbacks][default
    planPlusNonplan: string,   // defaults_fallbacks][plan_plus_nonplan
    plans: string,             // plans_nonplans][plans
    nonplans: string)          // plans_nonplans][nonplans

  /**
    The `account_id_patterns` array saved from the form: exactly the four keys,
    each the first truthy value along its fallback chain.
  */
  function SavedPatterns(v: PatternFormValues): (m: map<PatternKey, string>)
    ensures m.Keys == {Default, PlanPlusNonPlan, Plan, NonPlan}
    ensures m[Default] == v.defaultPattern
    ensures m[Plan] == if Truthy(v.plans) then v.plans else v.defaultPattern
    ensures m[NonPlan] == if Truthy(v.nonplans) then v.nonplans else v.defaultPattern
    ensures m[PlanPlusNonPlan] ==
      if Truthy(v.planPlusNonplan) then v.planPlusNonplan
      else if Truthy(v.plans) then v.plans
      else v.defaultPattern
  {
    map[
      Default := v.defaultPattern,
      PlanPlusNonPlan := Elvis(Elvis(v.planPlusNonplan, v.plans), v.defaultPattern),
      Plan := Elvis(v.plans, v.defaultPattern),
      NonPlan := Elvis(v.nonplans, v.defaultPattern)
    ]
  }

  /** With a truthy default, no saved pattern is ever empty or "0". */
  lemma SavedPatternsTruthyWithDefault(v: PatternFormValues, k: PatternKey)
    requires Truthy(v.defaultPattern)
    ensures Truthy(SavedPatterns(v)[k])
  {
  }

  /** With only the default filled in, every order uses the default pattern. */
  lemma OnlyDefaultConfigured(v: PatternFormValues, items: seq<OrderItem>, planVariations: seq<string>)
    requires !Truthy(v.planPlusNonplan) && !Truthy(v.plans) && !Truthy(v.nonplans)
    ensures SavedPatterns(v)[SelectedPattern(items, planVariations)] == v.defaultPattern
  {
  }

  /** An order holding both kinds uses the plans pattern when no plan+nonplan pattern is given. */
  lemma MixedOrderFallsBackToPlans(v: PatternFormValues, items: seq<OrderItem>, planVariations: seq<string>)
    requires Mixed(items, planVariations)
    requires !Truthy(v.planPlusNonplan) && Truthy(v.plans)
    ensures SavedPatterns(v)[SelectedPattern(items, planVariations)] == v.plans
  {
  }
}
