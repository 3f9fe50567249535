# Commerce Recurly: gateway and custom-fields form, modelled in Dafny

This project models the core of the Drupal Commerce Recurly module. The module
has two parts.

The first part is the offsite payment gateway plugin `Recurly`. It covers:

- its saved configuration and the configuration form's validate and submit
  handlers, including the switch to the API details of the separate Recurly
  module;
- the choice of account-ID pattern for an order (default, plan, non-plan,
  plan plus non-plan);
- the return handler. This handler renders the account code, looks the
  account up and creates it when it is missing (with the configured account
  custom fields), attaches the billing token, and creates the purchase from
  the order's line items.

The second part is the custom-fields settings form. It builds one fieldset per
configured custom field, counts fieldsets through add and remove buttons, and
saves the submitted rows as the `custom_fields` setting the gateway reads.

Modules:

- `Php`: the PHP value semantics the code relies on: truthiness of strings,
  `(int)` casts, `intval` of decimal strings, and ordered string-keyed arrays
  with in-place assignment.
- `Commerce`: the order data read.
- `RecurlyClient`: the remote API. A `Client` object records the calls made in
  a `trace` and answers each kind of call with a reply fixed beforehand
  (a value or an `ApiError`).
- `AccountIdPatterns`: pattern selection and the pattern fallbacks.
- `GatewayConfig`: the plan-variation list, the credential choice, and the
  filtering and re-setting of form errors.
- `Payloads`: the account, custom-field, line-item and purchase payloads.
- `ReturnFlow`: the return handler's try block as a function of the replies.
- `Gateway`: the plugin class, which updates its `configuration` in place.
- `CustomFieldsForm`: the settings form and its form state, both classes.

Token replacement (`token->replace`) is the parameter `render`, applied to a
pattern and the order.

## Model

| member | source | states |
|---|---|---|
| Gateway.Recurly.constructor | src/Plugin/Commerce/PaymentGateway/Recurly.php:121-154 | the plugin starts from the given configuration, the Recurly module's settings only when that module exists, and the saved custom fields; no checkbox state, no messages |
| Gateway.Recurly.GetAccountIdPattern | src/Plugin/Commerce/PaymentGateway/Recurly.php:211-214 | the saved pattern under the key, or the empty string when that key was never saved |
| Gateway.Recurly.ShouldUseRecurlyModuleConfig | src/Plugin/Commerce/PaymentGateway/Recurly.php:837-856 | a set checkbox state decides alone (0 means no); otherwise never without the Recurly module; otherwise yes exactly when the saved value casts to a non-zero int |
| Gateway.ShouldUseAgreesWithSavedCredentials | src/Plugin/Commerce/PaymentGateway/Recurly.php:366-385 | for the values the checkbox submits, the credentials decision agrees with where submit copied the API details from |
| Gateway.Recurly.RemoveRequiredErrors | src/Plugin/Commerce/PaymentGateway/Recurly.php:303-331 | the nested loops remove, for each dependent element in turn, exactly that element's errors whose message contains "is required" |
| Gateway.Recurly.ValidateConfigurationForm | src/Plugin/Commerce/PaymentGateway/Recurly.php:294-356 | without module credentials the errors are untouched; with them the surviving errors come back in order, followed by each module-configuration error whose element has no error yet |
| Gateway.Recurly.SetModuleConfigErrors | src/Plugin/Commerce/PaymentGateway/Recurly.php:337-355 | setting the module-configuration errors one by one gives the same errors as setting the list of them in order |
| Gateway.CompleteModuleConfigAddsNoErrors | src/Plugin/Commerce/PaymentGateway/Recurly.php:303-355 | with a complete module configuration, an error survives validation exactly when it is not a "required" error of an API element |
| Gateway.Recurly.SubmitConfigurationForm | src/Plugin/Commerce/PaymentGateway/Recurly.php:362-419 | the checkbox value is saved; the API details come from the module settings exactly when the value casts to 1, from the form otherwise; the patterns are saved with their fallbacks; the plan list is the module's variation plus every checked type |
| Gateway.Recurly.DetermineProperAccountIdPatternType | src/Plugin/Commerce/PaymentGateway/Recurly.php:498-547 | the scan returns the pattern type of the whole order and stops at the first item that makes the order mixed |
| Gateway.Recurly.GetRecurlyAccount | src/Plugin/Commerce/PaymentGateway/Recurly.php:579-587 | one lookup of "code-" + code; a found account is returned, a missing one is no value, any other error propagates with its message (the corrected lookup of the first finding) |
| Gateway.Recurly.CreateRecurlyAccount | src/Plugin/Commerce/PaymentGateway/Recurly.php:601-657 | the calls made and the result are those of `Creation`: the definitions are listed only when account fields are configured, then the account is created from the order; a rejected account's error carries the "not created" prefix (the corrected wrapping of the second finding) |
| Gateway.Recurly.CreateRecurlyPurchase | src/Plugin/Commerce/PaymentGateway/Recurly.php:797-828 | one purchase call with the purchase payload; the result is that of `PurchaseStep` |
| Gateway.Recurly.ProcessReturn | src/Plugin/Commerce/PaymentGateway/Recurly.php:450-480 | the calls and the result of the try block are those of `TryBlock`, which uses the corrected lookup and wrapping; the line items are one per order item |
| Gateway.Recurly.OnReturn | src/Plugin/Commerce/PaymentGateway/Recurly.php:426-486 | the account code is the rendered pattern of the order's type; a successful run returns the purchase result with no message; a failed one adds "Purchase could not be completed: " + message and throws a PaymentGatewayException with that message; the run is that of `TryBlock`, with the corrected lookup and wrapping |
| AccountIdPatterns.SelectedPattern | src/Plugin/Commerce/PaymentGateway/Recurly.php:498-547 | plan plus non-plan exactly when both kinds of item occur; plan exactly when only plan items occur; non-plan exactly when only non-plan items occur; default exactly for an empty order |
| AccountIdPatterns.SelectionIgnoresItemOrder | src/Plugin/Commerce/PaymentGateway/Recurly.php:503-544 | two orders holding the same items in any order get the same pattern type |
| AccountIdPatterns.MixedPrefixDecides | src/Plugin/Commerce/PaymentGateway/Recurly.php:504-506 | once a prefix of the items holds both kinds, the rest of the order cannot change the type, so the early return is sound |
| AccountIdPatterns.SavedPatterns | src/Plugin/Commerce/PaymentGateway/Recurly.php:387-404 | exactly the four keys are saved; default as typed; plan and non-plan fall back to the default; plan plus non-plan falls back to the plans pattern, then to the default |
| AccountIdPatterns.SavedPatternsTruthyWithDefault | src/Plugin/Commerce/PaymentGateway/Recurly.php:389-404 | with a non-empty default, no saved pattern is empty or "0" |
| AccountIdPatterns.OnlyDefaultConfigured | src/Plugin/Commerce/PaymentGateway/Recurly.php:389-404 | with only the default filled in, every order's pattern is the default |
| AccountIdPatterns.MixedOrderFallsBackToPlans | src/Plugin/Commerce/PaymentGateway/Recurly.php:393-396 | a mixed order with no plan-plus-non-plan pattern uses the plans pattern |
| GatewayConfig.PlanVariations | src/Plugin/Commerce/PaymentGateway/Recurly.php:406-418 | the list starts with "recurly_plan_variation", followed by the checked types in form order |
| GatewayConfig.CheckedTypesMembership | src/Plugin/Commerce/PaymentGateway/Recurly.php:411-416 | a type is listed exactly when some row names it with a state other than the integer 0 |
| GatewayConfig.CheckedTypesAllChecked | src/Plugin/Commerce/PaymentGateway/Recurly.php:411-416 | never more types than rows; with every box checked, all types are listed in order |
| GatewayConfig.DropRequiredMembership | src/Plugin/Commerce/PaymentGateway/Recurly.php:310-331 | an error survives exactly when it is not a "required" error (key and message) of any dependent element |
| GatewayConfig.DropRequiredOfShrinks | src/Plugin/Commerce/PaymentGateway/Recurly.php:319-330 | removal never lengthens the list, and removes nothing when no error is a "required" error of the element |
| GatewayConfig.DropRequiredOfKeepsOrder | src/Plugin/Commerce/PaymentGateway/Recurly.php:319-330 | removal works entry by entry: the survivors of two lists joined are the survivors of each, in order, so nothing is added or moved |
| GatewayConfig.DropRequiredOf | src/Plugin/Commerce/PaymentGateway/Recurly.php:319-330 | one element's pass never lengthens the error list |
| GatewayConfig.DropRequired | src/Plugin/Commerce/PaymentGateway/Recurly.php:312-331 | the passes over all dependent elements never lengthen the error list (membership: `DropRequiredMembership`) |
| GatewayConfig.CheckedTypes | src/Plugin/Commerce/PaymentGateway/Recurly.php:411-416 | never more types than submitted rows (membership: `CheckedTypesMembership`) |
| GatewayConfig.DropRequiredDistinct | src/Plugin/Commerce/PaymentGateway/Recurly.php:310-331 | removal keeps the error names distinct |
| GatewayConfig.SetErrorsAppendsNew | src/Plugin/Commerce/PaymentGateway/Recurly.php:333-355 | setting errors by name onto a list adds, in order, exactly those whose element has no error yet |
| GatewayConfig.SetErrorsOntoEmpty | src/Plugin/Commerce/PaymentGateway/Recurly.php:302-335 | re-applying distinct errors onto the cleared list gives them back unchanged |
| GatewayConfig.ModuleConfigErrors | src/Plugin/Commerce/PaymentGateway/Recurly.php:337-355 | no errors exactly when the private key, public key and subdomain are all truthy; otherwise one per empty setting, in that order, then the error on the credentials checkbox |
| GatewayConfig.ModuleConfigErrorsDistinct | src/Plugin/Commerce/PaymentGateway/Recurly.php:337-355 | the module-configuration errors name distinct elements |
| Payloads.AccountPayload | src/Plugin/Commerce/PaymentGateway/Recurly.php:607-621 | the account data carries the code, and the e-mail, first and last name exactly when each is truthy |
| Payloads.NoEmptyAccountValues | src/Plugin/Commerce/PaymentGateway/Recurly.php:611-621 | no empty e-mail or name is ever sent |
| Payloads.CustomFieldNamesAreIntersection | src/Plugin/Commerce/PaymentGateway/Recurly.php:626-649 | the fields sent are exactly the configured ids that name a remote definition, in configuration order |
| Payloads.CustomFieldValuesRendered | src/Plugin/Commerce/PaymentGateway/Recurly.php:633-648 | each value sent is its field's rendered pattern, and every configured, defined field is sent |
| Payloads.NoDefinitionsNoCustomFields | src/Plugin/Commerce/PaymentGateway/Recurly.php:633-650 | with no remote definitions, the custom-field list is empty |
| Payloads.LineItemFor | src/Plugin/Commerce/PaymentGateway/Recurly.php:468-476 | a line item copies the price's currency and number, is a charge, and has the integer part of the quantity |
| Payloads.LineItems | src/Plugin/Commerce/PaymentGateway/Recurly.php:466-477 | one line item per order item, in order |
| Payloads.PurchasePayload | src/Plugin/Commerce/PaymentGateway/Recurly.php:800-815 | the purchase carries the first line item's currency, the account code, the billing token and all line items |
| Payloads.PurchaseCurrencyIsFirstItems | src/Plugin/Commerce/PaymentGateway/Recurly.php:801 | the currency is the first order item's, whatever the later items use |
| Php.IntValIsIntegerPart | src/Plugin/Commerce/PaymentGateway/Recurly.php:474 | `intval` of a non-negative quantity is its integer part |
| Php.IntValOfWholeNumber | src/Plugin/Commerce/PaymentGateway/Recurly.php:474 | a whole quantity written with decimals ("2.00") keeps its value |
| ReturnFlow.LookupAsWritten | src/Plugin/Commerce/PaymentGateway/Recurly.php:579-587 | as written, every error of the lookup propagates, a missing account included |
| ReturnFlow.AsWrittenMissingAccountAborts | src/Plugin/Commerce/PaymentGateway/Recurly.php:582-585 | as written, a lookup never yields "no account", so a new customer's return fails |
| ReturnFlow.Lookup | src/Plugin/Commerce/PaymentGateway/Recurly.php:579-587 | the lookup yields no account exactly when the remote says not found; other errors propagate |
| ReturnFlow.AccountErrorAsWritten | src/Plugin/Commerce/PaymentGateway/Recurly.php:654-656 | as written, a rejected account's error passes through unwrapped |
| ReturnFlow.AsWrittenValidationLosesReason | src/Plugin/Commerce/PaymentGateway/Recurly.php:654-656 | as written, a validation failure never gets the "Recurly acccount not created" prefix |
| ReturnFlow.AccountError | src/Plugin/Commerce/PaymentGateway/Recurly.php:654-656 | a validation failure gets the "Recurly acccount not created. <br />Reason: " prefix; other errors pass through |
| ReturnFlow.CreationCalls | src/Plugin/Commerce/PaymentGateway/Recurly.php:601-657 | without account fields only the account is created; with them the definitions are listed first and a failure there stops creation |
| ReturnFlow.PurchaseStep | src/Plugin/Commerce/PaymentGateway/Recurly.php:797-828 | success returns the invoices; a validation failure returns nothing; other SDK errors become "Recurly Purchase not created."; other exceptions pass through |
| ReturnFlow.TryBlockCalls | src/Plugin/Commerce/PaymentGateway/Recurly.php:444-478 | the calls of each run: lookup; creation only when the lookup was falsy; billing only when the account exists or was created; purchase only when billing succeeded |
| ReturnFlow.LookupComesFirst | src/Plugin/Commerce/PaymentGateway/Recurly.php:450-451 | every run starts with the lookup of "code-" + code |
| ReturnFlow.CreatesOnlyWhenLookupFalsy | src/Plugin/Commerce/PaymentGateway/Recurly.php:450-451 | an account is created exactly when the lookup found none and the definitions (if needed) were listed |
| ReturnFlow.CallsAddressTheAccount | src/Plugin/Commerce/PaymentGateway/Recurly.php:450-478 | every call addresses the rendered account: "code-" + code for lookup and billing, the code in the payloads |
| ReturnFlow.BillingInfoBeforePurchase | src/Plugin/Commerce/PaymentGateway/Recurly.php:459-478 | the billing token is attached before any purchase |
| ReturnFlow.TryBlockResult | src/Plugin/Commerce/PaymentGateway/Recurly.php:444-486 | invoices exactly when lookup (or creation), billing and purchase succeed; a failure's message is a reply's message, that message wrapped for a rejected account, or the generic purchase error |
| ReturnFlow.NewCustomerPurchase | src/Plugin/Commerce/PaymentGateway/Recurly.php:426-486 | with the corrected lookup, a new customer's one-item order creates the account, attaches the token and purchases one item of quantity 2 |
| ReturnFlow.AsWrittenNewCustomerFails | src/Plugin/Commerce/PaymentGateway/Recurly.php:450-453 | as written, a not-found lookup ends the try block with that message and only the lookup call, while the corrected lookup goes on to account creation |
| ReturnFlow.TryBlock | src/Plugin/Commerce/PaymentGateway/Recurly.php:445-479 | every run makes one to five calls, the first always the lookup of "code-" + code (the full case split: `TryBlockCalls`) |
| ReturnFlow.Creation | src/Plugin/Commerce/PaymentGateway/Recurly.php:601-657 | creation makes one or two calls; when it succeeds the last call created the account with the given code and the result is that account |
| Payloads.CustomFieldValues | src/Plugin/Commerce/PaymentGateway/Recurly.php:633-648 | never more custom fields than configured ones, each naming a remote definition |
| Payloads.DefinedNames | src/Plugin/Commerce/PaymentGateway/Recurly.php:627-631 | a name is indexed exactly when some remote definition carries it |
| Gateway.Recurly.AccountCode | src/Plugin/Commerce/PaymentGateway/Recurly.php:428-443 | the account code is the rendering of the pattern saved for the order's pattern type, or of "" when none is saved |
| Gateway.Recurly.GetSubdomain | src/Plugin/Commerce/PaymentGateway/Recurly.php:180-182 | the saved subdomain |
| Gateway.Recurly.GetPrivateKey | src/Plugin/Commerce/PaymentGateway/Recurly.php:190-192 | the saved private key |
| Gateway.Recurly.GetPublicKey | src/Plugin/Commerce/PaymentGateway/Recurly.php:200-202 | the saved public key |
| Gateway.Recurly.GetPlanProductVariations | src/Plugin/Commerce/PaymentGateway/Recurly.php:232-234 | the saved plan variation list |
| CustomFieldsForm.SectionId | src/Form/CommerceRecurlyCustomFieldsSettingsForm.php:68 | the section id is as long as the name (shape: `SectionIdShape`) |
| CustomFieldsForm.KebabId | src/Form/CommerceRecurlyCustomFieldsSettingsForm.php:69 | the wrapper id is as long as the section id (shape: `KebabIdShape`) |
| CustomFieldsForm.DefaultFieldsets | src/Form/CommerceRecurlyCustomFieldsSettingsForm.php:89-139 | exactly `count` fieldsets (none for a count that is not positive), the i-th defaulting to the i-th configured field, or to empty values past the end |
| CustomFieldsForm.SectionFields | src/Form/CommerceRecurlyCustomFieldsSettingsForm.php:288-303 | a section never saves more fields than rows were submitted (keys and last-wins: the lemmas below) |
| RecurlyClient.Client.GetAccount | src/Plugin/Commerce/PaymentGateway/Recurly.php:581 | the request is recorded and answered with its reply |
| RecurlyClient.Client.CreateAccount | src/Plugin/Commerce/PaymentGateway/Recurly.php:652 | the request is recorded and answered with its reply |
| RecurlyClient.Client.ListCustomFieldDefinitions | src/Plugin/Commerce/PaymentGateway/Recurly.php:627 | the request is recorded and answered with its reply |
| RecurlyClient.Client.UpdateBillingInfo | src/Plugin/Commerce/PaymentGateway/Recurly.php:464 | the request is recorded and answered with its reply |
| RecurlyClient.Client.CreatePurchase | src/Plugin/Commerce/PaymentGateway/Recurly.php:817 | the request is recorded and answered with its reply |
| CustomFieldsForm.SectionIdShape | src/Form/CommerceRecurlyCustomFieldsSettingsForm.php:68 | the section id has the name's length, no spaces and no upper-case letters |
| CustomFieldsForm.SectionIdIdempotent | src/Form/CommerceRecurlyCustomFieldsSettingsForm.php:68 | deriving the id from an id changes nothing |
| CustomFieldsForm.KebabIdShape | src/Form/CommerceRecurlyCustomFieldsSettingsForm.php:69 | the wrapper id has no underscores or spaces and otherwise equals the section id |
| CustomFieldsForm.AccountSectionIds | src/Form/CommerceRecurlyCustomFieldsSettingsForm.php:45 | the "Account" section has id and wrapper id "account" |
| CustomFieldsForm.NextCount | src/Form/CommerceRecurlyCustomFieldsSettingsForm.php:229-249 | add increments (an unset count gives 1); remove decrements a positive count; anything else keeps it |
| CustomFieldsForm.NextCountNonNegative | src/Form/CommerceRecurlyCustomFieldsSettingsForm.php:231-242 | the counter never goes negative |
| CustomFieldsForm.AddThenRemove | src/Form/CommerceRecurlyCustomFieldsSettingsForm.php:231-242 | remove undoes add; remove at 0 stays 0 |
| CustomFieldsForm.FormState.constructor | src/Form/CommerceRecurlyCustomFieldsSettingsForm.php:98 | a request's form state starts with its stored counters and no rebuild |
| CustomFieldsForm.CustomFieldsSettingsForm.constructor | src/Form/CommerceRecurlyCustomFieldsSettingsForm.php:83-84 | the form edits the saved `custom_fields` setting |
| CustomFieldsForm.CustomFieldsSettingsForm.BuildSection | src/Form/CommerceRecurlyCustomFieldsSettingsForm.php:67-179 | the ids are derived from the name; an unset counter is set to the number of configured fields; that many fieldsets default to the configured fields in order, then to empty; the add button is always there, the remove button exactly when the count is positive |
| CustomFieldsForm.CustomFieldsSettingsForm.AddRemoveHandler | src/Form/CommerceRecurlyCustomFieldsSettingsForm.php:226-255 | only the pressed section's counter changes, to its next count, and a rebuild is requested |
| CustomFieldsForm.CustomFieldsSettingsForm.SubmitForm | src/Form/CommerceRecurlyCustomFieldsSettingsForm.php:266-308 | the saved setting is built from the three sections' submitted rows, section by section |
| CustomFieldsForm.SavedSectionsKeys | src/Form/CommerceRecurlyCustomFieldsSettingsForm.php:269-304 | the setting has exactly the keys account_fields, subscription_fields and item_fields, each holding its section's stored rows; a section with no values saves none |
| CustomFieldsForm.SectionFieldsKeys | src/Form/CommerceRecurlyCustomFieldsSettingsForm.php:288-303 | the saved ids are distinct, and an id is saved exactly when a numbered row with non-empty id and pattern carries it |
| CustomFieldsForm.SectionFieldsLastWins | src/Form/CommerceRecurlyCustomFieldsSettingsForm.php:302 | when rows repeat an id, the last such row's pattern is saved |
| CustomFieldsForm.SectionFieldsTruthy | src/Form/CommerceRecurlyCustomFieldsSettingsForm.php:295-297 | no saved id or pattern is empty or "0" |
| CustomFieldsForm.UnstoredRowsIgnored | src/Form/CommerceRecurlyCustomFieldsSettingsForm.php:290-297 | the actions row and rows with an empty id or pattern change nothing |
| CustomFieldsForm.BuildThenSaveRoundTrip | src/Form/CommerceRecurlyCustomFieldsSettingsForm.php:89-139 | building a section from a saved configuration and saving it unchanged gives that configuration back |

## Left out

- Render arrays, titles, descriptions, AJAX callbacks (`addRemoveCallback`), the `addOne` and `removeCallback` wrappers, and all `buildConfigurationForm`/`render*` element builders. They only lay out the form; the model keeps the values and names the code computes.
- Token replacement is the parameter `render`. The Recurly SDK and the network are the `Client` with fixed replies. `initializeRecurlyClient` is not modelled: the client is always initialised.
- `var_dump`, the logger and the messenger are left out. The only messenger effect kept is the error message of the return handler (`errorMessages`).
- `getAccountIdPatterns` and `defaultConfiguration` are not modelled; the default configuration's unused `account_id_pattern` key plays no part.
- The parent handlers (`parent::validateConfigurationForm`, `parent::submitConfigurationForm`, `parent::submitForm`) are left out.
- Gateway.Recurly.GetAccountIdPattern: a key that was never saved reads as "" (PHP gives NULL with a notice; the token service treats both as empty).
- Gateway.Recurly.ValidateConfigurationForm: requires the Recurly module's settings to be present when module credentials are chosen. The code would call a method on NULL there, a fatal error that is not modelled. `setErrorByName` keeps the first error set under a name; its limit on validation errors for particular buttons is not modelled.
- Gateway.Recurly.SubmitConfigurationForm: the credentials checkbox value is modelled as an optional int, so a string value such as "1" is not represented.
- Plan-variation matching uses strict membership of the bundle name. The loose `in_array` comparison would also match two different numeric strings of equal value (such as "10" and "1e1"); bundle machine names never are such strings.
- Every Recurly SDK error is assumed to be a PHP `Exception`, so that `catch (Exception $e)` at Recurly.php:481 and :584 catches it. Nothing in the module shows the SDK's class hierarchy. If its errors extend `Error` instead, errors from the lookup, account creation, definition listing and billing update escape the return handler without a message or a PaymentGatewayException. ReturnFlow.TryBlockResult, Gateway.Recurly.OnReturn and the "rethrown by the generic handler" part of the first finding rest on this assumption.
- Strings have no Unicode case mapping: `SectionId` lower-cases ASCII letters only, as `strtolower` does.
- CustomFieldsForm.NextCount: the handler stores the count as a string, and an unset count after "remove" becomes "". The model keeps the number, and "" as 0, because every reader compares it numerically.
- CustomFieldsForm.CustomFieldsSettingsForm.SubmitForm: a numeric field id becomes an integer key in PHP arrays; ids are modelled as strings throughout.
- ReturnFlow.PurchaseStep: a validation failure on the purchase ends the return with no value and no message, as the code does (it only dumps the error). The field-level reasons are not reported.
- Order items' purchased entities are represented only by their variation type (bundle); quantities are decimal strings given as units and scale.

## Findings

The gateway class and the try block (`Gateway.Recurly.GetRecurlyAccount`, `CreateRecurlyAccount`, `ProcessReturn`, `OnReturn`, and `ReturnFlow.TryBlock` with its lemmas) follow the corrected lookup and wrapping below. Both as-written behaviours are modelled beside them.

| source | as written | input that shows it | evidently intended | confidence | as-written member | corrected member |
|---|---|---|---|---|---|---|
| src/Plugin/Commerce/PaymentGateway/Recurly.php:582 | `catch (NotFound $e)` names a class in the plugin's own namespace, so the SDK's not-found error is never caught there; it is rethrown by the generic handler (assuming SDK errors are `Exception`s, see Left out) | a return for a customer with no Recurly account: the lookup reply is not found, and the return fails with that message | a missing account makes the lookup return FALSE, so the account is created | not executed | ReturnFlow.LookupAsWritten (shown by ReturnFlow.AsWrittenMissingAccountAborts and ReturnFlow.AsWrittenNewCustomerFails) | ReturnFlow.Lookup, used by ReturnFlow.TryBlock and Gateway.Recurly.GetRecurlyAccount, ProcessReturn, OnReturn |
| src/Plugin/Commerce/PaymentGateway/Recurly.php:654 | `catch (Validation $e)` also names a class in the plugin's own namespace, so a rejected account's error escapes unwrapped | account creation rejected with message "Email is invalid": the error is "Email is invalid", without the prefix | the error reads "Recurly acccount not created. <br />Reason: Email is invalid" | not executed | ReturnFlow.AccountErrorAsWritten (shown by ReturnFlow.AsWrittenValidationLosesReason) | ReturnFlow.AccountError, used by ReturnFlow.Creation and Gateway.Recurly.CreateRecurlyAccount, ProcessReturn, OnReturn |
