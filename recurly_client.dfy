/**
  The Recurly v3 client as the gateway uses it: five calls, the payloads it
  sends, and the exceptions it can raise. The remote service is not modelled;
  a `Client` records every call it receives, in order, and answers each kind of
  call with a reply fixed when the client is made.
*/
module RecurlyClient {
  import opened Php

  /** The classes of exception a call can raise. */
  datatype ErrorKind =
    | NotFound           // \Recurly\Errors\NotFound, a \Recurly\RecurlyError
    | Validation         // \Recurly\Errors\Validation, a \Recurly\RecurlyError
    | OtherRecurlyError  // any other \Recurly\RecurlyError
    | OtherException     // an \Exception outside the SDK's hierarchy

  datatype ApiError = ApiError(kind: ErrorKind, message: string)

  /** What a call returns, or the exception it raises. */
  type Reply<T> = Result<T, ApiError>

  /** Remote resources, opaque to the gateway. */
  datatype Account = Account(id: string)
  datatype CustomFieldDefinition = CustomFieldDefinition(name: string)
  datatype InvoiceCollection = InvoiceCollection(id: string)

  /** An entry of the account's `custom_fields` list. */
  datatype CustomField = CustomField(name: string, value: string)

  /** The account-creation payload; an absent key is `None`. */
  datatype AccountData = AccountData(
    code: string,
    email: Option<string>,
    firstName: Option<string>,
    lastName: Option<string>,
    customFields: Option<seq<CustomField>>)

  /** A purchase line item; `itemType` is the payload's `type` key. */
  datatype LineItem = LineItem(currency: string, unitAmount: string, quantity: int, itemType: string)

  /** The purchase payload; `currency` is NULL when there is no first line item. */
  datatype PurchaseData = PurchaseData(
    currency: Option<string>,
    accountCode: string,
    billingTokenId: string,
    lineItems: seq<LineItem>)

  /** One request sent to the remote service. */
  datatype Call =
    | GetAccount(accountId: string)
    | CreateAccount(data: AccountData)
    | ListCustomFieldDefinitions(relatedType: string)
    | UpdateBillingInfo(accountId: string, tokenId: string)
    | CreatePurchase(purchase: PurchaseData)

  /** The remote service's answer to each kind of call. */
  datatype Replies = Replies(
    getAccount: Reply<Account>,
    createAccount: Reply<Account>,
    listCustomFieldDefinitions: Reply<seq<CustomFieldDefinition>>,
    updateBillingInfo: Reply<()>,
    createPurchase: Reply<InvoiceCollection>)

  /** A client instance: it records each call and answers with the scripted reply. */
  class Client {
    var trace: seq<Call>
    const replies: Replies

    constructor (replies: Replies)
      ensures this.replies == replies && trace == []
    {
      this.replies := replies;
      trace := [];
    }

    method GetAccount(accountId: string) returns (r: Reply<Account>)
      modifies this`trace
      ensures trace == old(trace) + [Call.GetAccount(accountId)]
      ensures r == replies.getAccount
    {
      trace := trace + [Call.GetAccount(accountId)];
      r := replies.getAccount;
    }

    method CreateAccount(data: AccountData) returns (r: Reply<Account>)
      modifies this`trace
      ensures trace == old(trace) + [Call.CreateAccount(data)]
      ensures r == replies.createAccount
    {
      trace := trace + [Call.CreateAccount(data)];
      r := replies.createAccount;
    }

    method ListCustomFieldDefinitions(relatedType: string) returns (r: Reply<seq<CustomFieldDefinition>>)
      modifies this`trace
      ensures trace == old(trace) + [Call.ListCustomFieldDefinitions(relatedType)]
      ensures r == replies.listCustomFieldDefinitions
    {
      trace := trace + [Call.ListCustomFieldDefinitions(relatedType)];
      r := replies.listCustomFieldDefinitions;
    }

    method UpdateBillingInfo(accountId: string, tokenId: string) returns (r: Reply<()>)
      modifies this`trace
      ensures trace == old(trace) + [Call.UpdateBillingInfo(accountId, tokenId)]
      ensures r == replies.updateBillingInfo
    {
      trace := trace + [Call.UpdateBillingInfo(accountId, tokenId)];
      r := replies.updateBillingInfo;
    }

    method CreatePurchase(purchase: PurchaseData) returns (r: Reply<InvoiceCollection>)
      modifies this`trace
      ensures trace == old(trace) + [Call.CreatePurchase(purchase)]
      ensures r == replies.createPurchase
    {
      trace := trace + [Call.CreatePurchase(purchase)];
      r := replies.createPurchase;
    }
  }
}
