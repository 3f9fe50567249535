/**
  The rest of the gateway's saved configuration: the list of product variation
  types treated as plans, the source of the API credentials, and which form
  errors survive validation when the Recurly module's credentials are used.
*/
module GatewayConfig {
  import opened Php

  /** The variation type the module itself provides for plans; always a plan. */
  const RecurlyPlanVariation := "recurly_plan_variation"

  /**
    The variation types whose checkbox is not exactly the integer 0, in form
    order. A Drupal `checkboxes` element gives 0 for an unchecked box and the
    option's key for a checked one.
  */
  function CheckedTypes(rows: seq<(string, Scalar)>): (types: seq<string>)
    ensures |types| <= |rows|
  {
    if rows == [] then []
    else
      var last := rows[|rows| - 1];
      CheckedTypes(rows[..|rows| - 1]) + (if last.1 == Int(0) then [] else [last.0])
  }

  /** The saved `plan_product_variations` list. */
  function PlanVariations(rows: seq<(string, Scalar)>): (plans: seq<string>)
    ensures |plans| >= 1 && plans[0] == RecurlyPlanVariation
  {
    [RecurlyPlanVariation] + CheckedTypes(rows)
  }

  /** A type is listed exactly when some row names it with a state other than the integer 0. */
  lemma {:induction false} CheckedTypesMembership(rows: seq<(string, Scalar)>, t: string)
    ensures t in CheckedTypes(rows) <==> exists j :: 0 <= j < |rows| && rows[j].0 == t && rows[j].1 != Int(0)
  {
    if rows != [] {
      var init := rows[..|rows| - 1];
      CheckedTypesMembership(init, t);
      if exists j :: 0 <= j < |init| && init[j].0 == t && init[j].1 != Int(0) {
        var j :| 0 <= j < |init| && init[j].0 == t && init[j].1 != Int(0);
        assert rows[j] == init[j];
      }
      if exists j :: 0 <= j < |rows| && rows[j].0 == t && rows[j].1 != Int(0) {
        var j :| 0 <= j < |rows| && rows[j].0 == t && rows[j].1 != Int(0);
        if j < |init| {
          assert init[j] == rows[j];
        }
      }
    }
  }

  /** No more types are listed than rows were submitted, and with every box checked all are listed in order. */
  lemma {:induction false} CheckedTypesAllChecked(rows: seq<(string, Scalar)>)
    ensures |CheckedTypes(rows)| <= |rows|
    ensures (forall j :: 0 <= j < |rows| ==> rows[j].1 != Int(0)) ==>
      CheckedTypes(rows) == seq(|rows|, j requires 0 <= j < |rows| => rows[j].0)
  {
    if rows != [] {
      var init := rows[..|rows| - 1];
      CheckedTypesAllChecked(init);
    }
  }

  // ---------------------------------------------------------------------------
  // Credentials

  /** The settings of the separate Recurly module, when it is installed. */
  datatype ModuleConfig = ModuleConfig(subdomain: string, privateApiKey: string, publicKey: string)

  /** The API details typed into the gateway's own form. */
  datatype Credentials = Credentials(subdomain: string, privateKey: string, publicKey: string)

  /** `(int) $values['use_recurly_module_creds'] === 1`. */
  predicate UsesModuleCredentials(useRecurlyModuleCreds: Option<int>) {
    IntCast(useRecurlyModuleCreds) == 1
  }

  // ---------------------------------------------------------------------------
  // Validation errors

  /** The API elements that the module's credentials can replace. */
  const DependentElements: seq<string> := ["subdomain", "private_key", "public_key"]

  function DependentElementsKey(): string { "configuration][recurly_js_checkout][dependent_elements][" }

  /** The form-error key of a dependent element. */
  function DependentErrorKey(element: string): string {
    DependentElementsKey() + element
  }

  /** The phrase that marks a "required" error. */
  function RequiredMarker(): string { "is required" }

  /** An error that validation drops: a "required" error of the named element. */
  predicate IsRequiredErrorOf(e: (string, string), element: string) {
    e.0 == DependentErrorKey(element) && Contains(e.1, RequiredMarker())
  }

  /** The errors left after dropping the "required" errors of one element. */
  function DropRequiredOf(errors: Assoc, element: string): (kept: Assoc)
    ensures |kept| <= |errors|
  {
    if errors == [] then []
    else
      var last := errors[|errors| - 1];
      DropRequiredOf(errors[..|errors| - 1], element) + (if IsRequiredErrorOf(last, element) then [] else [last])
  }

  /** The errors left after dropping the "required" errors of each element in turn. */
  function DropRequired(errors: Assoc, elements: seq<string>): (kept: Assoc)
    ensures |kept| <= |errors|
  {
    if elements == [] then errors
    else DropRequiredOf(DropRequired(errors, elements[..|elements| - 1]), elements[|elements| - 1])
  }

  /** One more element drops that element's "required" errors from what is left. */
  lemma DropRequiredStep(errors: Assoc, elements: seq<string>, n: nat)
    requires n < |elements|
    ensures DropRequired(errors, elements[..n + 1]) == DropRequiredOf(DropRequired(errors, elements[..n]), elements[n])
  {
    assert elements[..n + 1][..n] == elements[..n];
  }

  lemma {:induction false} DropRequiredOfMembership(errors: Assoc, element: string, e: (string, string))
    ensures e in DropRequiredOf(errors, element) <==> e in errors && !IsRequiredErrorOf(e, element)
  {
    if errors != [] {
      DropRequiredOfMembership(errors[..|errors| - 1], element, e);
      assert errors == errors[..|errors| - 1] + [errors[|errors| - 1]];
    }
  }

  /**
    An error survives exactly when it was reported and is not a "required"
    error of one of the elements.
  */
  lemma {:induction false} DropRequiredMembership(errors: Assoc, elements: seq<string>, e: (string, string))
    ensures e in DropRequired(errors, elements) <==>
      e in errors && forall j :: 0 <= j < |elements| ==> !IsRequiredErrorOf(e, elements[j])
  {
    if elements != [] {
      var init := elements[..|elements| - 1];
      DropRequiredMembership(errors, init, e);
      DropRequiredOfMembership(DropRequired(errors, init), elements[|elements| - 1], e);
      if e in errors && !IsRequiredErrorOf(e, elements[|elements| - 1]) {
        assert forall j :: 0 <= j < |init| ==> init[j] == elements[j];
      }
    }
  }

  /** Surviving errors keep their order: dropping never adds or reorders entries. */
  lemma {:induction false} DropRequiredOfShrinks(errors: Assoc, element: string)
    ensures |DropRequiredOf(errors, element)| <= |errors|
    ensures (forall j :: 0 <= j < |errors| ==> !IsRequiredErrorOf(errors[j], element)) ==>
      DropRequiredOf(errors, element) == errors
  {
    if errors != [] {
      DropRequiredOfShrinks(errors[..|errors| - 1], element);
      assert errors == errors[..|errors| - 1] + [errors[|errors| - 1]];
    }
  }

  /**
    Dropping works entry by entry: the survivors of a concatenation are the
    survivors of each part, in order, so no entry is added or moved.
  */
  lemma {:induction false} DropRequiredOfKeepsOrder(a: Assoc, b: Assoc, element: string)
    ensures DropRequiredOf(a + b, element) == DropRequiredOf(a, element) + DropRequiredOf(b, element)
  {
    if b != [] {
      var init := b[..|b| - 1];
      DropRequiredOfKeepsOrder(a, init, element);
      assert (a + b)[..|a + b| - 1] == a + init;
      assert (a + b)[|a + b| - 1] == b[|b| - 1];
    } else {
      assert a + b == a;
    }
  }

  /** `setErrorByName`: an element keeps the first error recorded for it. */
  function SetErrorByName(errors: Assoc, name: string, message: string): Assoc {
    if name in Keys(errors) then errors else errors + [(name, message)]
  }

  /** `setErrorByName` for each entry of `additions`, in order. */
  function SetErrors(errors: Assoc, additions: Assoc): Assoc {
    if additions == [] then errors
    else
      var last := additions[|additions| - 1];
      SetErrorByName(SetErrors(errors, additions[..|additions| - 1]), last.0, last.1)
  }

  lemma SetErrorsStep(errors: Assoc, additions: Assoc, e: (string, string))
    ensures SetErrors(errors, additions + [e]) == SetErrorByName(SetErrors(errors, additions), e.0, e.1)
  {
    assert (additions + [e])[..|additions|] == additions;
  }

  /** The entries of `additions` whose element has no error in `errors` yet. */
  function NewErrors(errors: Assoc, additions: Assoc): Assoc {
    if additions == [] then []
    else
      var last := additions[|additions| - 1];
      NewErrors(errors, additions[..|additions| - 1]) + (if last.0 in Keys(errors) then [] else [last])
  }

  lemma {:induction false} NewErrorsMembership(errors: Assoc, additions: Assoc, e: (string, string))
    ensures e in NewErrors(errors, additions) <==> e in additions && e.0 !in Keys(errors)
  {
    if additions != [] {
      NewErrorsMembership(errors, additions[..|additions| - 1], e);
      assert additions == additions[..|additions| - 1] + [additions[|additions| - 1]];
    }
  }

  lemma KeysAppend(a: Assoc, b: Assoc, k: string)
    ensures k in Keys(a + b) <==> k in Keys(a) || k in Keys(b)
  {
    if k in Keys(a + b) {
      var i :| 0 <= i < |a + b| && Keys(a + b)[i] == k;
      if i < |a| {
        assert Keys(a)[i] == k;
      } else {
        assert Keys(b)[i - |a|] == k;
      }
    }
    if k in Keys(a) {
      var i :| 0 <= i < |a| && Keys(a)[i] == k;
      assert Keys(a + b)[i] == k;
    }
    if k in Keys(b) {
      var i :| 0 <= i < |b| && Keys(b)[i] == k;
      assert Keys(a + b)[|a| + i] == k;
    }
  }

  /**
    Setting errors with distinct names keeps every existing error and adds,
    in order, exactly those whose element has no error yet.
  */
  lemma {:induction false} SetErrorsAppendsNew(errors: Assoc, additions: Assoc)
    requires DistinctKeys(additions)
    ensures SetErrors(errors, additions) == errors + NewErrors(errors, additions)
  {
    if additions != [] {
      var init, last := additions[..|additions| - 1], additions[|additions| - 1];
      SetErrorsAppendsNew(errors, init);
      var added := NewErrors(errors, init);
      KeysAppend(errors, added, last.0);
      forall i | 0 <= i < |added| ensures Keys(added)[i] != last.0 {
        NewErrorsMembership(errors, init, added[i]);
        var j :| 0 <= j < |init| && init[j] == added[i];
        assert additions[j] == init[j];
      }
    }
  }

  /** Errors set with distinct names onto a cleared error list come back unchanged. */
  lemma SetErrorsOntoEmpty(additions: Assoc)
    requires DistinctKeys(additions)
    ensures SetErrors([], additions) == additions
  {
    SetErrorsAppendsNew([], additions);
    forall e ensures e in NewErrors([], additions) <==> e in additions {
      NewErrorsMembership([], additions, e);
    }
    NewErrorsAll([], additions);
  }

  lemma {:induction false} NewErrorsAll(errors: Assoc, additions: Assoc)
    requires forall j :: 0 <= j < |additions| ==> additions[j].0 !in Keys(errors)
    ensures NewErrors(errors, additions) == additions
  {
    if additions != [] {
      NewErrorsAll(errors, additions[..|additions| - 1]);
    }
  }

  /** Dropping entries never introduces a name, so names stay distinct. */
  lemma DistinctKeysSnoc(a: Assoc, x: (string, string))
    requires DistinctKeys(a)
    requires forall i :: 0 <= i < |a| ==> a[i].0 != x.0
    ensures DistinctKeys(a + [x])
  {
  }

  lemma {:induction false} DropRequiredOfDistinct(errors: Assoc, element: string)
    requires DistinctKeys(errors)
    ensures DistinctKeys(DropRequiredOf(errors, element))
  {
    if errors != [] {
      var init, last := errors[..|errors| - 1], errors[|errors| - 1];
      DropRequiredOfDistinct(init, element);
      var kept := DropRequiredOf(init, element);
      if !IsRequiredErrorOf(last, element) {
        forall i | 0 <= i < |kept| ensures kept[i].0 != last.0 {
          DropRequiredOfMembership(init, element, kept[i]);
          var m :| 0 <= m < |init| && init[m] == kept[i];
          assert errors[m] == init[m];
        }
        DistinctKeysSnoc(kept, last);
      }
    }
  }

  lemma {:induction false} DropRequiredDistinct(errors: Assoc, elements: seq<string>)
    requires DistinctKeys(errors)
    ensures DistinctKeys(DropRequired(errors, elements))
  {
    if elements != [] {
      DropRequiredDistinct(errors, elements[..|elements| - 1]);
      DropRequiredOfDistinct(DropRequired(errors, elements[..|elements| - 1]), elements[|elements| - 1]);
    }
  }

  const MissingPrivateKey := "Your Recurly module configuration is missing a private key."
  const MissingPublicKey := "Your Recurly module configuration is missing a public key."
  const MissingSubdomain := "Your Recurly module configuration is missing a subdomain."
  const UnusableModuleConfig :=
    "Unable to use API Details from your <a href='http://dywm8.lndo.site/admin/config/services/recurly'>Recurly Module Configuration</a>. Please remedy the above errors and then try again."

  /** The errors raised for empty settings of the Recurly module, in the order they are set. */
  function ModuleConfigErrors(c: ModuleConfig): (errors: Assoc)
    ensures errors == [] <==> Truthy(c.privateApiKey) && Truthy(c.publicKey) && Truthy(c.subdomain)
    ensures errors != [] ==> errors[|errors| - 1] == ("use_recurly_module_creds", UnusableModuleConfig)
  {
    var missing :=
      (if Truthy(c.privateApiKey) then [] else [(DependentErrorKey("private_key"), MissingPrivateKey)]) +
      (if Truthy(c.publicKey) then [] else [(DependentErrorKey("public_key"), MissingPublicKey)]) +
      (if Truthy(c.subdomain) then [] else [(DependentErrorKey("subdomain"), MissingSubdomain)]);
    if missing == [] then [] else missing + [("use_recurly_module_creds", UnusableModuleConfig)]
  }

  /** The module-configuration errors are set on distinct elements. */
  lemma ModuleConfigErrorsDistinct(c: ModuleConfig)
    ensures DistinctKeys(ModuleConfigErrors(c))
  {
  }
}
