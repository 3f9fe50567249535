/**
  What the return-from-offsite-payment handler does once the account code is
  known: the requests it sends, in order, and its result or the message of the
  exception that ends it. These functions specify the gateway's methods; the
  lemmas state the workflow's guarantees over every possible remote reply.
*/
module ReturnFlow {
  import opened Php
  import opened Commerce
  import opened RecurlyClient
  import opened Payloads

  /** The calls made by one part of the workflow, and its value or the message of the exception it throws. */
  datatype Step<T> = Step(calls: seq<Call>, result: Result<T, string>)

  /** The remote account is addressed by its code with a "code-" prefix. */
  function RemoteAccountId(accountCode: string): string {
    "code-" + accountCode
  }

  const AccountNotCreated := "Recurly acccount not created. <br />Reason: "
  const PurchaseNotCreated := "Recurly Purchase not created."

  // ---------------------------------------------------------------------------
  // Looking the account up

  /**
    The lookup as written: the `NotFound` it tries to catch is not the SDK's
    class, so every exception, a missing account included, is rethrown with
    its message, and the lookup never yields FALSE.
  */
  function LookupAsWritten(accountCode: string, reply: Reply<Account>): (s: Step<Option<Account>>)
    ensures s.calls == [GetAccount(RemoteAccountId(accountCode))]
    ensures s.result.Ok? <==> reply.Ok?
    ensures s.result.Ok? ==> s.result.value == Some(reply.value)
    ensures s.result.Err? ==> s.result.error == reply.error.message
  {
    Step([GetAccount(RemoteAccountId(accountCode))],
      match reply
      case Ok(a) => Ok(Some(a))
      case Err(e) => Err(e.message))
  }

  /** As written, a missing account aborts the workflow: account creation can never be reached. */
  lemma AsWrittenMissingAccountAborts(accountCode: string, message: string)
    ensures LookupAsWritten(accountCode, Err(ApiError(NotFound, message))).result == Err(message)
    ensures forall reply: Reply<Account> :: LookupAsWritten(accountCode, reply).result != Ok(None)
  {
  }

  /**
    The lookup as intended: the SDK's NotFound yields FALSE (no account), any
    other exception is rethrown with its message.
  */
  function Lookup(accountCode: string, reply: Reply<Account>): (s: Step<Option<Account>>)
    ensures s.calls == [GetAccount(RemoteAccountId(accountCode))]
    ensures s.result == Ok(None) <==> reply.Err? && reply.error.kind == NotFound
    ensures reply.Ok? ==> s.result == Ok(Some(reply.value))
    ensures reply.Err? && reply.error.kind != NotFound ==> s.result == Err(reply.error.message)
  {
    Step([GetAccount(RemoteAccountId(accountCode))],
      match reply
      case Ok(a) => Ok(Some(a))
      case Err(e) => if e.kind == NotFound then Ok(None) else Err(e.message))
  }

  // ---------------------------------------------------------------------------
  // Creating the account

  /** As written, the `Validation` catch does not match the SDK's class: the message goes out bare. */
  function AccountErrorAsWritten(e: ApiError): (message: string)
    ensures message == e.message
  {
    e.message
  }

  /** As written, a rejected account reaches the user without the "not created" explanation. */
  lemma AsWrittenValidationLosesReason(message: string)
    ensures AccountErrorAsWritten(ApiError(Validation, message)) != AccountNotCreated + message
  {
    assert |AccountNotCreated + message| > |message|;
  }

  /** As intended, a validation failure is rethrown with the "not created" prefix; others keep their message. */
  function AccountError(e: ApiError): (message: string)
    ensures e.kind == Validation ==> message == AccountNotCreated + e.message
    ensures e.kind != Validation ==> message == e.message
  {
    if e.kind == Validation then AccountNotCreated + e.message else e.message
  }

  function AccountResult(reply: Reply<Account>): Result<Account, string> {
    match reply
    case Ok(a) => Ok(a)
    case Err(e) => Err(AccountError(e))
  }

  /**
    createRecurlyAccount: when account custom fields are configured the remote
    definitions are listed first, then the account is created.
  */
  function Creation(accountCode: string, order: Order, accountFields: Assoc, render: (string, Order) -> string, replies: Replies)
    : (s: Step<Account>)
    ensures 1 <= |s.calls| <= 2
    ensures s.result.Ok? ==>
      && replies.createAccount == Ok(s.result.value)
      && s.calls[|s.calls| - 1].CreateAccount? && s.calls[|s.calls| - 1].data.code == accountCode
  {
    if accountFields == [] then
      Step([CreateAccount(AccountPayload(accountCode, order, None))], AccountResult(replies.createAccount))
    else
      match replies.listCustomFieldDefinitions
      case Err(e) => Step([ListCustomFieldDefinitions("account")], Err(AccountError(e)))
      case Ok(definitions) =>
        var customFields := CustomFieldValues(accountFields, DefinedNames(definitions), render, order);
        Step([ListCustomFieldDefinitions("account"), CreateAccount(AccountPayload(accountCode, order, Some(customFields)))],
          AccountResult(replies.createAccount))
  }

  /**
    What creation sends: without configured account fields, only the account;
    with them, first the definition listing, then, if that succeeded, the
    account carrying the configured fields the remote side defines.
  */
  lemma CreationCalls(accountCode: string, order: Order, accountFields: Assoc, render: (string, Order) -> string, replies: Replies)
    ensures var s := Creation(accountCode, order, accountFields, render, replies);
      var listed := replies.listCustomFieldDefinitions;
      && (accountFields == [] ==>
            s.calls == [CreateAccount(AccountPayload(accountCode, order, None))]
            && s.result == AccountResult(replies.createAccount))
      && (accountFields != [] && listed.Err? ==>
            s.calls == [ListCustomFieldDefinitions("account")] && s.result == Err(AccountError(listed.error)))
      && (accountFields != [] && listed.Ok? ==>
            var customFields := CustomFieldValues(accountFields, DefinedNames(listed.value), render, order);
            && s.calls == [ListCustomFieldDefinitions("account"), CreateAccount(AccountPayload(accountCode, order, Some(customFields)))]
            && s.result == AccountResult(replies.createAccount))
  {
  }

  // ---------------------------------------------------------------------------
  // The purchase

  /**
    createRecurlyPurchase: a validation failure is swallowed and yields no
    value; any other SDK error becomes 'Recurly Purchase not created.'; an
    exception from outside the SDK passes through.
  */
  function PurchaseStep(accountCode: string, lineItems: seq<LineItem>, tokenId: string, reply: Reply<InvoiceCollection>)
    : (s: Step<Option<InvoiceCollection>>)
    ensures s.calls == [CreatePurchase(PurchasePayload(accountCode, lineItems, tokenId))]
    ensures reply.Ok? ==> s.result == Ok(Some(reply.value))
    ensures reply.Err? && reply.error.kind == Validation ==> s.result == Ok(None)
    ensures reply.Err? && reply.error.kind in {NotFound, OtherRecurlyError} ==> s.result == Err(PurchaseNotCreated)
    ensures reply.Err? && reply.error.kind == OtherException ==> s.result == Err(reply.error.message)
  {
    Step([CreatePurchase(PurchasePayload(accountCode, lineItems, tokenId))],
      match reply
      case Ok(invoices) => Ok(Some(invoices))
      case Err(e) =>
        if e.kind == Validation then Ok(None)
        else if e.kind == OtherException then Err(e.message)
        else Err(PurchaseNotCreated))
  }

  // ---------------------------------------------------------------------------
  // The try block of onReturn

  /**
    Look the account up, create it if the lookup is falsy, attach the billing
    token, then purchase the order's line items; the first exception ends it.
  */
  function TryBlock(accountCode: string, order: Order, tokenId: string, accountFields: Assoc,
                    render: (string, Order) -> string, replies: Replies): (s: Step<Option<InvoiceCollection>>)
    ensures 1 <= |s.calls| <= 5 && s.calls[0] == GetAccount(RemoteAccountId(accountCode))
  {
    AfterLookup(Lookup(accountCode, replies.getAccount), accountCode, order, tokenId, accountFields, render, replies)
  }

  /** The try block once the lookup step has run, whichever lookup that was. */
  function AfterLookup(lookup: Step<Option<Account>>, accountCode: string, order: Order, tokenId: string, accountFields: Assoc,
                       render: (string, Order) -> string, replies: Replies): Step<Option<InvoiceCollection>>
  {
    match lookup.result
    case Err(m) => Step(lookup.calls, Err(m))
    case Ok(found) =>
      var creation := if found.Some? then Step([], Ok(found.value)) else Creation(accountCode, order, accountFields, render, replies);
      match creation.result
      case Err(m) => Step(lookup.calls + creation.calls, Err(m))
      case Ok(_) =>
        var upToBilling := lookup.calls + creation.calls + [UpdateBillingInfo(RemoteAccountId(accountCode), tokenId)];
        match replies.updateBillingInfo
        case Err(e) => Step(upToBilling, Err(e.message))
        case Ok(_) =>
          var purchase := PurchaseStep(accountCode, LineItems(order.items), tokenId, replies.createPurchase);
          Step(upToBilling + purchase.calls, purchase.result)
  }

  /** The calls a run makes, spelled out by case: at most five, each kind at most once. */
  lemma TryBlockCalls(accountCode: string, order: Order, tokenId: string, accountFields: Assoc,
                      render: (string, Order) -> string, replies: Replies)
    ensures var s := TryBlock(accountCode, order, tokenId, accountFields, render, replies);
      var lookup := Lookup(accountCode, replies.getAccount);
      var creation := Creation(accountCode, order, accountFields, render, replies);
      var billing := UpdateBillingInfo(RemoteAccountId(accountCode), tokenId);
      var purchase := CreatePurchase(PurchasePayload(accountCode, LineItems(order.items), tokenId));
      && (lookup.result.Err? ==> s.calls == lookup.calls)
      && (lookup.result.Ok? && lookup.result.value.Some? ==>
            s.calls == lookup.calls + [billing] + (if replies.updateBillingInfo.Ok? then [purchase] else []))
      && (lookup.result == Ok(None) && creation.result.Err? ==> s.calls == lookup.calls + creation.calls)
      && (lookup.result == Ok(None) && creation.result.Ok? ==>
            s.calls == lookup.calls + creation.calls + [billing] + (if replies.updateBillingInfo.Ok? then [purchase] else []))
  {
  }

  /** The lookup is always the first call, and it addresses "code-" + the account code. */
  lemma LookupComesFirst(accountCode: string, order: Order, tokenId: string, accountFields: Assoc,
                         render: (string, Order) -> string, replies: Replies)
    ensures var s := TryBlock(accountCode, order, tokenId, accountFields, render, replies);
      |s.calls| >= 1 && s.calls[0] == GetAccount(RemoteAccountId(accountCode))
  {
  }

  /**
    An account is created only when the lookup returned a falsy value (no
    account); when the lookup found one, neither the definitions nor a
    creation are requested.
  */
  lemma CreatesOnlyWhenLookupFalsy(accountCode: string, order: Order, tokenId: string, accountFields: Assoc,
                                   render: (string, Order) -> string, replies: Replies)
    ensures var s := TryBlock(accountCode, order, tokenId, accountFields, render, replies);
      var falsy := Lookup(accountCode, replies.getAccount).result == Ok(None);
      && ((exists i :: 0 <= i < |s.calls| && s.calls[i].CreateAccount?) <==>
            falsy && (accountFields == [] || replies.listCustomFieldDefinitions.Ok?))
      && ((exists i :: 0 <= i < |s.calls| && s.calls[i].ListCustomFieldDefinitions?) <==> falsy && accountFields != [])
  {
    TryBlockCalls(accountCode, order, tokenId, accountFields, render, replies);
    var s := TryBlock(accountCode, order, tokenId, accountFields, render, replies);
    var lookup := Lookup(accountCode, replies.getAccount);
    var creation := Creation(accountCode, order, accountFields, render, replies);
    if lookup.result == Ok(None) && (accountFields == [] || replies.listCustomFieldDefinitions.Ok?) {
      var i := |creation.calls| - 1 + 1;
      assert s.calls[i] == creation.calls[|creation.calls| - 1];
    }
    if lookup.result == Ok(None) && accountFields != [] {
      assert s.calls[1] == creation.calls[0];
    }
  }

  /** Every request goes to the right account: "code-" + code for lookup and billing, the code itself in the payloads. */
  lemma CallsAddressTheAccount(accountCode: string, order: Order, tokenId: string, accountFields: Assoc,
                               render: (string, Order) -> string, replies: Replies)
    ensures var s := TryBlock(accountCode, order, tokenId, accountFields, render, replies);
      forall c :: c in s.calls ==>
        && (c.GetAccount? ==> c.accountId == RemoteAccountId(accountCode))
        && (c.UpdateBillingInfo? ==> c == UpdateBillingInfo(RemoteAccountId(accountCode), tokenId))
        && (c.CreateAccount? ==> c.data.code == accountCode)
        && (c.CreatePurchase? ==> c.purchase == PurchasePayload(accountCode, LineItems(order.items), tokenId))
        && (c.ListCustomFieldDefinitions? ==> c.relatedType == "account")
  {
    TryBlockCalls(accountCode, order, tokenId, accountFields, render, replies);
  }

  /** The billing token is attached to the account before the purchase is requested. */
  lemma BillingInfoBeforePurchase(accountCode: string, order: Order, tokenId: string, accountFields: Assoc,
                                  render: (string, Order) -> string, replies: Replies)
    ensures var s := TryBlock(accountCode, order, tokenId, accountFields, render, replies);
      forall j :: 0 <= j < |s.calls| && s.calls[j].CreatePurchase? ==>
        exists i :: 0 <= i < j && s.calls[i] == UpdateBillingInfo(RemoteAccountId(accountCode), tokenId)
  {
    TryBlockCalls(accountCode, order, tokenId, accountFields, render, replies);
    var s := TryBlock(accountCode, order, tokenId, accountFields, render, replies);
    forall j | 0 <= j < |s.calls| && s.calls[j].CreatePurchase?
      ensures exists i :: 0 <= i < j && s.calls[i] == UpdateBillingInfo(RemoteAccountId(accountCode), tokenId)
    {
      assert j == |s.calls| - 1;
      assert s.calls[j - 1] == UpdateBillingInfo(RemoteAccountId(accountCode), tokenId);
    }
  }

  /**
    How a run ends: with the invoices when every call succeeds; with no value
    when the purchase fails validation; otherwise with the first failure's
    message (wrapped for a rejected account, replaced for other SDK errors on
    the purchase).
  */
  lemma TryBlockResult(accountCode: string, order: Order, tokenId: string, accountFields: Assoc,
                       render: (string, Order) -> string, replies: Replies)
    ensures var s := TryBlock(accountCode, order, tokenId, accountFields, render, replies);
      && (s.result.Ok? && s.result.value.Some? <==>
            && (replies.getAccount.Ok? || replies.getAccount.error.kind == NotFound)
            && (replies.getAccount.Ok? || Creation(accountCode, order, accountFields, render, replies).result.Ok?)
            && replies.updateBillingInfo.Ok?
            && replies.createPurchase.Ok?)
      && (s.result.Ok? && s.result.value.Some? ==> s.result.value.value == replies.createPurchase.value)
      && (s.result.Err? ==>
            || s.result.error == PurchaseNotCreated
            || (exists e :: e in ErrorsOf(replies) && (s.result.error == e.message || s.result.error == AccountNotCreated + e.message)))
  {
  }

  /**
    As written, a new customer's return never gets past the lookup: the
    not-found reply ends the try block with its message, before any account
    is created. With the corrected lookup the same replies lead to creation.
  */
  lemma AsWrittenNewCustomerFails(accountCode: string, order: Order, tokenId: string, accountFields: Assoc,
                                  render: (string, Order) -> string, replies: Replies)
    requires replies.getAccount.Err? && replies.getAccount.error.kind == NotFound
    ensures var s := AfterLookup(LookupAsWritten(accountCode, replies.getAccount), accountCode, order, tokenId, accountFields, render, replies);
      && s.calls == [GetAccount(RemoteAccountId(accountCode))]
      && s.result == Err(replies.getAccount.error.message)
    ensures var s := TryBlock(accountCode, order, tokenId, accountFields, render, replies);
      exists i :: 0 <= i < |s.calls| && (s.calls[i].CreateAccount? || s.calls[i].ListCustomFieldDefinitions?)
  {
    var s := TryBlock(accountCode, order, tokenId, accountFields, render, replies);
    if accountFields == [] || replies.listCustomFieldDefinitions.Ok? {
      var creation := Creation(accountCode, order, accountFields, render, replies);
      assert s.calls[|creation.calls|] == creation.calls[|creation.calls| - 1];
    } else {
      assert s.calls[1] == ListCustomFieldDefinitions("account");
    }
  }

  /** The exceptions the replies carry. */
  function ErrorsOf(replies: Replies): set<ApiError> {
    (if replies.getAccount.Err? then {replies.getAccount.error} else {}) +
    (if replies.createAccount.Err? then {replies.createAccount.error} else {}) +
    (if replies.listCustomFieldDefinitions.Err? then {replies.listCustomFieldDefinitions.error} else {}) +
    (if replies.updateBillingInfo.Err? then {replies.updateBillingInfo.error} else {}) +
    (if replies.createPurchase.Err? then {replies.createPurchase.error} else {})
  }

  /**
    A new customer's one-item order: the account is not found, so it is
    created with the rendered code, the token is attached, and one line item
    is purchased.
  */
  lemma NewCustomerPurchase(accountCode: string, render: (string, Order) -> string, account: Account, invoices: InvoiceCollection)
    ensures
      var item := OrderItem("recurly_plan_variation", Price("10.00", "USD"), Decimal(200, 2));
      var order := Order([item], "", Address("", ""));
      var replies := Replies(Err(ApiError(NotFound, "Couldn't find Account")), Ok(account), Ok([]), Ok(()), Ok(invoices));
      var lineItem := LineItem("USD", "10.00", 2, "charge");
      TryBlock(accountCode, order, "tok_123", [], render, replies) ==
        Step([GetAccount("code-" + accountCode),
              CreateAccount(AccountData(accountCode, None, None, None, None)),
              UpdateBillingInfo("code-" + accountCode, "tok_123"),
              CreatePurchase(PurchaseData(Some("USD"), accountCode, "tok_123", [lineItem]))],
             Ok(Some(invoices)))
  {
    var item := OrderItem("recurly_plan_variation", Price("10.00", "USD"), Decimal(200, 2));
    IntValOfWholeNumber(2, 2);
    assert LineItems([item]) == [LineItem("USD", "10.00", 2, "charge")];
  }
}
