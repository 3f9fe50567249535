/**
  The Recurly JS offsite payment gateway plugin: its saved configuration, the
  configuration form's validate and submit handlers, the account-ID pattern
  selection, and the return handler that creates the account and the purchase.
  The plugin object is a class whose `configuration` it updates in place; the
  Recurly client is passed in, and token replacement is the parameter `render`.
*/
module Gateway {
  import opened Php
  import opened Commerce
  import opened RecurlyClient
  import opened AccountIdPatterns
  import opened GatewayConfig
  import opened Payloads
  import opened ReturnFlow

  /** The plugin's saved settings (`$this->configuration`), as far as this plugin reads them. */
  datatype Configuration = Configuration(
    useRecurlyModuleCreds: Option<int>,          // the checkbox value; None when never saved
    subdomain: string,
    privateKey: string,
    publicKey: string,
    accountIdPatterns: map<PatternKey, string>,
    planProductVariations: seq<string>)

  /** The configuration form's submitted values under the plugin's parents. */
  datatype ConfigFormValues = ConfigFormValues(
    useRecurlyModuleCreds: Option<int>,
    dependentElements: Credentials,
    accountIdPatterns: PatternFormValues,
    planProductVariationTypes: seq<(string, Scalar)>)  // variation type => checkbox state, in form order

  /** How the return handler ends: with createRecurlyPurchase's value, or by throwing a PaymentGatewayException. */
  datatype ReturnOutcome =
    | Returned(invoices: Option<InvoiceCollection>)
    | PaymentGatewayException(message: string)

  const PurchaseNotCompleted := "Purchase could not be completed: "

  class Recurly {
    var configuration: Configuration
    /** Declared to carry the credentials checkbox through AJAX rebuilds; no code assigns it. */
    var checkboxState: Option<int>
    /** The Recurly module's settings; present exactly when that module is enabled. */
    const recurlyModuleConfig: Option<ModuleConfig>
    /** This module's saved `custom_fields` setting. */
    const configCustomFields: map<string, Assoc>
    /** Error messages handed to the messenger. */
    var errorMessages: seq<string>

    constructor (configuration: Configuration, recurlyModuleConfig: Option<ModuleConfig>, configCustomFields: map<string, Assoc>)
      ensures this.configuration == configuration
      ensures this.recurlyModuleConfig == recurlyModuleConfig && this.configCustomFields == configCustomFields
      ensures checkboxState.None? && errorMessages == []
    {
      this.configuration := configuration;
      this.recurlyModuleConfig := recurlyModuleConfig;
      this.configCustomFields := configCustomFields;
      checkboxState := None;
      errorMessages := [];
    }

    // -------------------------------------------------------------------------
    // Configuration getters

    /** The saved API details and plan list, as last submitted. */
    function GetSubdomain(): (subdomain: string)
      reads this`configuration
      ensures subdomain == configuration.subdomain
    {
      configuration.subdomain
    }

    function GetPrivateKey(): (privateKey: string)
      reads this`configuration
      ensures privateKey == configuration.privateKey
    {
      configuration.privateKey
    }

    function GetPublicKey(): (publicKey: string)
      reads this`configuration
      ensures publicKey == configuration.publicKey
    {
      configuration.publicKey
    }

    function GetPlanProductVariations(): (variations: seq<string>)
      reads this`configuration
      ensures variations == configuration.planProductVariations
    {
      configuration.planProductVariations
    }

    /** A saved pattern, or the empty string (PHP NULL) when that key was never saved. */
    function GetAccountIdPattern(key: PatternKey): (pattern: string)
      reads this`configuration
      ensures key in configuration.accountIdPatterns ==> pattern == configuration.accountIdPatterns[key]
      ensures key !in configuration.accountIdPatterns ==> pattern == ""
    {
      if key in configuration.accountIdPatterns then configuration.accountIdPatterns[key] else ""
    }

    /** `$this->configCustomFields['account_fields']`; a missing entry is empty. */
    function AccountFields(): Assoc {
      if "account_fields" in configCustomFields then configCustomFields["account_fields"] else []
    }

    /**
      Whether the Recurly module's credentials are in use: a set checkbox state
      decides by itself; otherwise the module must be enabled and the saved
      checkbox value must be set and non-zero.
    */
    function ShouldUseRecurlyModuleConfig(): (use: bool)
      reads this`checkboxState, this`configuration
      ensures checkboxState.Some? ==> (use <==> checkboxState.value != 0)
      ensures checkboxState.None? && recurlyModuleConfig.None? ==> !use
      ensures checkboxState.None? && recurlyModuleConfig.Some? ==> (use <==> IntCast(configuration.useRecurlyModuleCreds) != 0)
    {
      if checkboxState.Some? then checkboxState.value != 0
      else if recurlyModuleConfig.None? then false
      else configuration.useRecurlyModuleCreds.Some? && configuration.useRecurlyModuleCreds.value != 0
    }

    // -------------------------------------------------------------------------
    // Configuration form

    /**
      The loops of validation with the module's credentials that unset the
      "is required" errors of the three API elements from the set-aside errors.
    */
    method RemoveRequiredErrors(formErrors: Assoc) returns (errors: Assoc)
      ensures errors == DropRequired(formErrors, DependentElements)
    {
      var kept := formErrors;
      for n := 0 to |DependentElements|
        invariant kept == DropRequired(formErrors, DependentElements[..n])
      {
        var element := DependentElements[n];
        // Unset every "required" error of this element: keep the others, in order.
        var snapshot := kept;
        kept := [];
        for j := 0 to |snapshot|
          invariant kept == DropRequiredOf(snapshot[..j], element)
        {
          assert snapshot[..j + 1][..j] == snapshot[..j];
          if !IsRequiredErrorOf(snapshot[j], element) {
            kept := kept + [snapshot[j]];
          }
        }
        assert snapshot[..|snapshot|] == snapshot;
        DropRequiredStep(formErrors, DependentElements, n);
      }
      assert DependentElements[..|DependentElements|] == DependentElements;
      errors := kept;
    }

    /**
      When the module's credentials are to be used, the "is required" errors of
      the three API elements are dropped, the rest are set again in order, and
      an error is added for each empty module setting, followed by one on the
      checkbox. Otherwise the errors are left alone. An element keeps the first
      error set on it.
    */
    method ValidateConfigurationForm(useRecurlyModuleCreds: Option<int>, formErrors: Assoc) returns (errors: Assoc)
      requires DistinctKeys(formErrors)
      // The source reads the module's settings unconditionally in this case.
      requires UsesModuleCredentials(useRecurlyModuleCreds) ==> recurlyModuleConfig.Some?
      ensures !UsesModuleCredentials(useRecurlyModuleCreds) ==> errors == formErrors
      ensures UsesModuleCredentials(useRecurlyModuleCreds) ==>
        var kept := DropRequired(formErrors, DependentElements);
        errors == kept + NewErrors(kept, ModuleConfigErrors(recurlyModuleConfig.value))
    {
      errors := formErrors;
      if !UsesModuleCredentials(useRecurlyModuleCreds) {
        return;
      }
      // Set the form's errors aside and clear them.
      errors := [];
      var kept := RemoveRequiredErrors(formErrors);
      // Set the remaining errors again.
      DropRequiredDistinct(formErrors, DependentElements);
      for j := 0 to |kept|
        invariant errors == kept[..j]
      {
        DistinctKeysFresh(kept, j);
        errors := SetErrorByName(errors, kept[j].0, kept[j].1);
        assert kept[..j + 1] == kept[..j] + [kept[j]];
      }
      assert kept[..|kept|] == kept;

      errors := SetModuleConfigErrors(errors, recurlyModuleConfig.value);
      ModuleConfigErrorsDistinct(recurlyModuleConfig.value);
      SetErrorsAppendsNew(kept, ModuleConfigErrors(recurlyModuleConfig.value));
    }

    /**
      The checks of the Recurly module's settings in validation: an error on
      each API element whose module setting is empty, then one on the checkbox
      if any was found.
    */
    method SetModuleConfigErrors(errors0: Assoc, c: ModuleConfig) returns (errors: Assoc)
      ensures errors == SetErrors(errors0, ModuleConfigErrors(c))
    {
      errors := errors0;
      ghost var added: Assoc := [];
      var recurlyConfigErrorDetected := false;
      if !Truthy(c.privateApiKey) {
        recurlyConfigErrorDetected := true;
        SetErrorsStep(errors0, added, (DependentErrorKey("private_key"), MissingPrivateKey));
        errors := SetErrorByName(errors, DependentErrorKey("private_key"), MissingPrivateKey);
        added := added + [(DependentErrorKey("private_key"), MissingPrivateKey)];
      }
      assert errors == SetErrors(errors0, added);
      assert added == if Truthy(c.privateApiKey) then [] else [(DependentErrorKey("private_key"), MissingPrivateKey)];
      if !Truthy(c.publicKey) {
        recurlyConfigErrorDetected := true;
        SetErrorsStep(errors0, added, (DependentErrorKey("public_key"), MissingPublicKey));
        errors := SetErrorByName(errors, DependentErrorKey("public_key"), MissingPublicKey);
        added := added + [(DependentErrorKey("public_key"), MissingPublicKey)];
      }
      assert errors == SetErrors(errors0, added);
      assert added ==
        (if Truthy(c.privateApiKey) then [] else [(DependentErrorKey("private_key"), MissingPrivateKey)]) +
        (if Truthy(c.publicKey) then [] else [(DependentErrorKey("public_key"), MissingPublicKey)]);
      if !Truthy(c.subdomain) {
        recurlyConfigErrorDetected := true;
        SetErrorsStep(errors0, added, (DependentErrorKey("subdomain"), MissingSubdomain));
        errors := SetErrorByName(errors, DependentErrorKey("subdomain"), MissingSubdomain);
        added := added + [(DependentErrorKey("subdomain"), MissingSubdomain)];
      }
      assert errors == SetErrors(errors0, added);
      assert added ==
        (if Truthy(c.privateApiKey) then [] else [(DependentErrorKey("private_key"), MissingPrivateKey)]) +
        (if Truthy(c.publicKey) then [] else [(DependentErrorKey("public_key"), MissingPublicKey)]) +
        (if Truthy(c.subdomain) then [] else [(DependentErrorKey("subdomain"), MissingSubdomain)]);
      assert recurlyConfigErrorDetected <==> added != [];
      if recurlyConfigErrorDetected {
        SetErrorsStep(errors0, added, ("use_recurly_module_creds", UnusableModuleConfig));
        errors := SetErrorByName(errors, "use_recurly_module_creds", UnusableModuleConfig);
        added := added + [("use_recurly_module_creds", UnusableModuleConfig)];
      }
      assert errors == SetErrors(errors0, added);
      assert added == ModuleConfigErrors(c);
    }

    /**
      Saves the form: the checkbox value as submitted; the API details from
      the Recurly module exactly when `(int)` of that value is 1, from the
      form otherwise; the four account-ID patterns with their fallbacks; and
      the plan variation types.
    */
    method SubmitConfigurationForm(values: ConfigFormValues)
      // The source reads the module's settings unconditionally in this case.
      requires UsesModuleCredentials(values.useRecurlyModuleCreds) ==> recurlyModuleConfig.Some?
      modifies this`configuration
      ensures configuration.useRecurlyModuleCreds == values.useRecurlyModuleCreds
      ensures UsesModuleCredentials(values.useRecurlyModuleCreds) ==>
        && configuration.subdomain == recurlyModuleConfig.value.subdomain
        && configuration.privateKey == recurlyModuleConfig.value.privateApiKey
        && configuration.publicKey == recurlyModuleConfig.value.publicKey
      ensures !UsesModuleCredentials(values.useRecurlyModuleCreds) ==>
        && configuration.subdomain == values.dependentElements.subdomain
        && configuration.privateKey == values.dependentElements.privateKey
        && configuration.publicKey == values.dependentElements.publicKey
      ensures configuration.accountIdPatterns == SavedPatterns(values.accountIdPatterns)
      ensures configuration.planProductVariations == PlanVariations(values.planProductVariationTypes)
    {
      var useModule := UsesModuleCredentials(values.useRecurlyModuleCreds);
      configuration := configuration.(useRecurlyModuleCreds := values.useRecurlyModuleCreds);

      configuration := configuration.(subdomain :=
        if useModule then recurlyModuleConfig.value.subdomain else values.dependentElements.subdomain);
      configuration := configuration.(privateKey :=
        if useModule then recurlyModuleConfig.value.privateApiKey else values.dependentElements.privateKey);
      configuration := configuration.(publicKey :=
        if useModule then recurlyModuleConfig.value.publicKey else values.dependentElements.publicKey);
      configuration := configuration.(subdomain :=
        if useModule then recurlyModuleConfig.value.subdomain else values.dependentElements.subdomain);

      var p := values.accountIdPatterns;
      configuration := configuration.(accountIdPatterns := map[]);
      configuration := configuration.(accountIdPatterns := configuration.accountIdPatterns[Default := p.defaultPattern]);
      configuration := configuration.(accountIdPatterns :=
        configuration.accountIdPatterns[PlanPlusNonPlan := Elvis(Elvis(p.planPlusNonplan, p.plans), p.defaultPattern)]);
      configuration := configuration.(accountIdPatterns := configuration.accountIdPatterns[Plan := Elvis(p.plans, p.defaultPattern)]);
      configuration := configuration.(accountIdPatterns := configuration.accountIdPatterns[NonPlan := Elvis(p.nonplans, p.defaultPattern)]);

      var planProductVariations := [RecurlyPlanVariation];
      var rows := values.planProductVariationTypes;
      for j := 0 to |rows|
        invariant planProductVariations == [RecurlyPlanVariation] + CheckedTypes(rows[..j])
      {
        assert rows[..j + 1][..j] == rows[..j];
        if rows[j].1 == Int(0) {
          continue;
        }
        planProductVariations := planProductVariations + [rows[j].0];
      }
      assert rows[..|rows|] == rows;
      configuration := configuration.(planProductVariations := planProductVariations);
    }

    // -------------------------------------------------------------------------
    // Choosing the account-ID pattern

    /**
      Scans the order items with a running pattern type and returns the type
      of the whole order; `examined` is how many items were looked at. A mixed
      order stops the scan at the first item of the other kind.
    */
    method DetermineProperAccountIdPatternType(order: Order) returns (key: PatternKey, ghost examined: nat)
      ensures key == SelectedPattern(order.items, configuration.planProductVariations)
      ensures examined <= |order.items|
      ensures key == PlanPlusNonPlan ==>
        examined > 0 && Mixed(order.items[..examined], configuration.planProductVariations)
        && !Mixed(order.items[..examined - 1], configuration.planProductVariations)
      ensures key != PlanPlusNonPlan ==> examined == |order.items|
    {
      var planProductVariations := GetPlanProductVariations();
      var items := order.items;
      var patternToUse := Default;
      var i := 0;
      while i < |items|
        invariant 0 <= i <= |items|
        invariant patternToUse == SelectedPattern(items[..i], planProductVariations)
        invariant i > 0 ==> !Mixed(items[..i - 1], planProductVariations)
      {
        if patternToUse == PlanPlusNonPlan {
          MixedPrefixDecides(items, i, planProductVariations);
          return patternToUse, i;
        }
        assert items[..i + 1] == items[..i] + [items[i]];
        if items[i].variationType in planProductVariations {
          match patternToUse
          case Default =>
            patternToUse := Plan;
          case NonPlan =>
            MixedPrefixDecides(items, i + 1, planProductVariations);
            return PlanPlusNonPlan, i + 1;
          case _ =>
        } else {
          match patternToUse
          case Default =>
            patternToUse := NonPlan;
          case Plan =>
            MixedPrefixDecides(items, i + 1, planProductVariations);
            return PlanPlusNonPlan, i + 1;
          case _ =>
        }
        i := i + 1;
      }
      assert items[..i] == items;
      return patternToUse, i;
    }

    /** The account code of an order: its pattern with the order's tokens replaced. */
    function AccountCode(order: Order, render: (string, Order) -> string): (code: string)
      reads this`configuration
      ensures var key := SelectedPattern(order.items, configuration.planProductVariations);
        code == render(if key in configuration.accountIdPatterns then configuration.accountIdPatterns[key] else "", order)
    {
      render(GetAccountIdPattern(SelectedPattern(order.items, configuration.planProductVariations)), order)
    }

    // -------------------------------------------------------------------------
    // Talking to Recurly

    /** Looks the account up by "code-" + its code; a missing account is no value. */
    method GetRecurlyAccount(client: Client, accountCode: string) returns (r: Result<Option<Account>, string>)
      modifies client`trace
      ensures client.trace == old(client.trace) + Lookup(accountCode, client.replies.getAccount).calls
      ensures r == Lookup(accountCode, client.replies.getAccount).result
    {
      var reply := client.GetAccount(RemoteAccountId(accountCode));
      match reply
      case Ok(account) =>
        r := Ok(Some(account));
      case Err(e) =>
        if e.kind == NotFound {
          r := Ok(None);
        } else {
          r := Err(e.message);
        }
    }

    /**
      Creates the account from the order: the code, the truthy e-mail and
      names, and, when account custom fields are configured, those whose id
      names a remote definition, with their patterns rendered.
    */
    method CreateRecurlyAccount(client: Client, accountCode: string, order: Order, render: (string, Order) -> string)
      returns (r: Result<Account, string>)
      modifies client`trace
      ensures var s := Creation(accountCode, order, AccountFields(), render, client.replies);
        client.trace == old(client.trace) + s.calls && r == s.result
    {
      var accountData := AccountData(accountCode, None, None, None, None);
      if Truthy(order.customerEmail) {
        accountData := accountData.(email := Some(order.customerEmail));
      }
      if Truthy(order.billingAddress.givenName) {
        accountData := accountData.(firstName := Some(order.billingAddress.givenName));
      }
      if Truthy(order.billingAddress.familyName) {
        accountData := accountData.(lastName := Some(order.billingAddress.familyName));
      }

      var accountCustomFields := AccountFields();
      if accountCustomFields != [] {
        var definitions := client.ListCustomFieldDefinitions("account");
        if definitions.Err? {
          r := Err(AccountError(definitions.error));
          return;
        }
        var defs := definitions.value;
        var definedNames: set<string> := {};
        for k := 0 to |defs|
          invariant definedNames == DefinedNames(defs[..k])
          modifies {}
        {
          definedNames := definedNames + {defs[k].name};
          DefinedNamesStep(defs, k);
        }
        assert defs[..|defs|] == defs;

        var customFields: seq<CustomField> := [];
        for j := 0 to |accountCustomFields|
          invariant customFields == CustomFieldValues(accountCustomFields[..j], definedNames, render, order)
        {
          assert accountCustomFields[..j + 1][..j] == accountCustomFields[..j];
          var (fieldId, fieldPattern) := accountCustomFields[j];
          if fieldId !in definedNames {
            continue;
          }
          var fieldValue := render(fieldPattern, order);
          customFields := customFields + [CustomField(fieldId, fieldValue)];
        }
        assert accountCustomFields[..|accountCustomFields|] == accountCustomFields;
        accountData := accountData.(customFields := Some(customFields));
      }

      var reply := client.CreateAccount(accountData);
      match reply
      case Ok(account) =>
        r := Ok(account);
      case Err(e) =>
        r := Err(AccountError(e));
    }

    /**
      Creates and charges the purchase; a validation failure yields no value,
      another SDK error a generic exception, anything else passes through.
    */
    method CreateRecurlyPurchase(client: Client, accountCode: string, lineItems: seq<LineItem>, tokenId: string)
      returns (r: Result<Option<InvoiceCollection>, string>)
      modifies client`trace
      ensures var s := PurchaseStep(accountCode, lineItems, tokenId, client.replies.createPurchase);
        client.trace == old(client.trace) + s.calls && r == s.result
    {
      var purchaseData := PurchasePayload(accountCode, lineItems, tokenId);
      var reply := client.CreatePurchase(purchaseData);
      match reply
      case Ok(invoices) =>
        r := Ok(Some(invoices));
      case Err(e) =>
        if e.kind == Validation {
          r := Ok(None);
        } else if e.kind == OtherException {
          r := Err(e.message);
        } else {
          r := Err(PurchaseNotCreated);
        }
    }

    /** The try block of the return handler; an `Err` is the message of the exception it throws. */
    method ProcessReturn(client: Client, accountCode: string, order: Order, tokenId: string, render: (string, Order) -> string)
      returns (r: Result<Option<InvoiceCollection>, string>)
      modifies client`trace
      ensures var s := TryBlock(accountCode, order, tokenId, AccountFields(), render, client.replies);
        client.trace == old(client.trace) + s.calls && r == s.result
    {
      var found := GetRecurlyAccount(client, accountCode);
      if found.Err? {
        r := Err(found.error);
        return;
      }
      if found.value.None? {
        var created := CreateRecurlyAccount(client, accountCode, order, render);
        if created.Err? {
          r := Err(created.error);
          return;
        }
      }

      var billing := client.UpdateBillingInfo(RemoteAccountId(accountCode), tokenId);
      if billing.Err? {
        r := Err(billing.error.message);
        return;
      }

      var lineItems: seq<LineItem> := [];
      for i := 0 to |order.items|
        invariant lineItems == LineItems(order.items[..i])
        modifies {}
      {
        var unitPrice := order.items[i].unitPrice;
        lineItems := lineItems + [LineItem(unitPrice.currencyCode, unitPrice.number, IntVal(order.items[i].quantity), "charge")];
        LineItemsStep(order.items, i);
      }
      assert order.items[..|order.items|] == order.items;
      r := CreateRecurlyPurchase(client, accountCode, lineItems, tokenId);
    }

    /**
      onReturn: the order's account code from its pattern, then the try block;
      any exception adds "Purchase could not be completed: " + its message to
      the user's errors and is rethrown as a PaymentGatewayException with the
      same message.
    */
    method OnReturn(client: Client, order: Order, tokenId: string, render: (string, Order) -> string)
      returns (outcome: ReturnOutcome)
      modifies this`errorMessages, client`trace
      ensures var s := TryBlock(AccountCode(order, render), order, tokenId, AccountFields(), render, client.replies);
        && client.trace == old(client.trace) + s.calls
        && (s.result.Ok? ==> outcome == Returned(s.result.value) && errorMessages == old(errorMessages))
        && (s.result.Err? ==>
              && outcome == PaymentGatewayException(s.result.error)
              && errorMessages == old(errorMessages) + [PurchaseNotCompleted + s.result.error])
    {
      var accountIdPatternType, examined := DetermineProperAccountIdPatternType(order);
      var accountIdPattern := GetAccountIdPattern(accountIdPatternType);
      var accountCode := render(accountIdPattern, order);

      var r := ProcessReturn(client, accountCode, order, tokenId, render);
      match r
      case Ok(invoices) =>
        outcome := Returned(invoices);
      case Err(message) =>
        errorMessages := errorMessages + [PurchaseNotCompleted + message];
        outcome := PaymentGatewayException(message);
    }
  }

  /**
    For the values a checkbox submits (unset, 0 or 1), once saved, the
    credentials decision agrees with the source the API details were copied
    from.
  */
  lemma ShouldUseAgreesWithSavedCredentials(g: Recurly)
    requires g.checkboxState.None? && g.recurlyModuleConfig.Some?
    requires g.configuration.useRecurlyModuleCreds in {None, Some(0), Some(1)}
    ensures g.ShouldUseRecurlyModuleConfig() <==> UsesModuleCredentials(g.configuration.useRecurlyModuleCreds)
  {
  }

  /** With a complete module configuration, validation leaves exactly the errors that are not "required" errors of the API elements. */
  lemma CompleteModuleConfigAddsNoErrors(formErrors: Assoc, c: ModuleConfig, e: (string, string))
    requires Truthy(c.privateApiKey) && Truthy(c.publicKey) && Truthy(c.subdomain)
    ensures var kept := DropRequired(formErrors, DependentElements);
      e in kept + NewErrors(kept, ModuleConfigErrors(c)) <==>
        e in formErrors && forall j :: 0 <= j < |DependentElements| ==> !IsRequiredErrorOf(e, DependentElements[j])
  {
    DropRequiredMembership(formErrors, DependentElements, e);
  }
}
