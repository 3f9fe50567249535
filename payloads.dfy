/**
  The request payloads the gateway builds from an order: the account-creation
  data with its custom fields, the purchase line items and the purchase.
  Token replacement is the parameter `render`, applied to a pattern and the order.
*/
module Payloads {
  import opened Php
  import opened Commerce
  import opened RecurlyClient

  /** The account-creation payload: the code, plus each order field that is truthy. */
  function AccountPayload(code: string, order: Order, customFields: Option<seq<CustomField>>): (d: AccountData)
    ensures d.code == code
    ensures d.email == if Truthy(order.customerEmail) then Some(order.customerEmail) else None
    ensures d.firstName == if Truthy(order.billingAddress.givenName) then Some(order.billingAddress.givenName) else None
    ensures d.lastName == if Truthy(order.billingAddress.familyName) then Some(order.billingAddress.familyName) else None
    ensures d.customFields == customFields
  {
    AccountData(
      code,
      if Truthy(order.customerEmail) then Some(order.customerEmail) else None,
      if Truthy(order.billingAddress.givenName) then Some(order.billingAddress.givenName) else None,
      if Truthy(order.billingAddress.familyName) then Some(order.billingAddress.familyName) else None,
      customFields)
  }

  /** An account payload never carries an empty e-mail or name. */
  lemma NoEmptyAccountValues(code: string, order: Order, customFields: Option<seq<CustomField>>)
    ensures var d := AccountPayload(code, order, customFields);
      && (d.email.Some? ==> d.email.value != "")
      && (d.firstName.Some? ==> d.firstName.value != "")
      && (d.lastName.Some? ==> d.lastName.value != "")
  {
  }

  /** The names of the remote custom-field definitions (`$custom_field_definitions_by_name`'s keys). */
  function DefinedNames(definitions: seq<CustomFieldDefinition>): (names: set<string>)
    ensures forall n :: n in names <==> exists j :: 0 <= j < |definitions| && definitions[j].name == n
  {
    set j | 0 <= j < |definitions| :: definitions[j].name
  }

  lemma DefinedNamesStep(definitions: seq<CustomFieldDefinition>, k: nat)
    requires k < |definitions|
    ensures DefinedNames(definitions[..k + 1]) == DefinedNames(definitions[..k]) + {definitions[k].name}
  {
    forall n ensures n in DefinedNames(definitions[..k + 1]) <==> n in DefinedNames(definitions[..k]) || n == definitions[k].name {
      if n in DefinedNames(definitions[..k + 1]) {
        var j :| 0 <= j < k + 1 && definitions[..k + 1][j].name == n;
        if j < k {
          assert definitions[..k][j].name == n;
        }
      }
      if n in DefinedNames(definitions[..k]) {
        var j :| 0 <= j < k && definitions[..k][j].name == n;
        assert definitions[..k + 1][j].name == n;
      }
      if n == definitions[k].name {
        assert definitions[..k + 1][k].name == n;
      }
    }
  }

  /**
    The account's `custom_fields` list: for each configured field, in config
    order, whose id names a remote definition, the id with its rendered pattern.
  */
  function CustomFieldValues(fields: Assoc, defined: set<string>, render: (string, Order) -> string, order: Order)
    : (cf: seq<CustomField>)
    ensures |cf| <= |fields|
    ensures forall c :: c in cf ==> c.name in defined
  {
    if fields == [] then []
    else
      var last := fields[|fields| - 1];
      CustomFieldValues(fields[..|fields| - 1], defined, render, order) +
        (if last.0 in defined then [CustomField(last.0, render(last.1, order))] else [])
  }

  /** The configured ids that name a remote definition, in config order. */
  function DefinedKeys(keys: seq<string>, defined: set<string>): seq<string> {
    if keys == [] then []
    else DefinedKeys(keys[..|keys| - 1], defined) + (if keys[|keys| - 1] in defined then [keys[|keys| - 1]] else [])
  }

  function Names(fields: seq<CustomField>): (names: seq<string>)
    ensures |names| == |fields| && forall i :: 0 <= i < |fields| ==> names[i] == fields[i].name
  {
    seq(|fields|, i requires 0 <= i < |fields| => fields[i].name)
  }

  /**
    The custom fields sent are exactly the configured ids also defined
    remotely, in config order; ids missing remotely are skipped.
  */
  lemma {:induction false} CustomFieldNamesAreIntersection(
    fields: Assoc, defined: set<string>, render: (string, Order) -> string, order: Order)
    ensures Names(CustomFieldValues(fields, defined, render, order)) == DefinedKeys(Keys(fields), defined)
  {
    if fields != [] {
      var init := fields[..|fields| - 1];
      CustomFieldNamesAreIntersection(init, defined, render, order);
      assert Keys(fields)[..|fields| - 1] == Keys(init);
    }
  }

  /** Each value sent is the rendering of a configured pattern for that id, and every configured, defined id is sent with its rendering. */
  lemma {:induction false} CustomFieldValuesRendered(
    fields: Assoc, defined: set<string>, render: (string, Order) -> string, order: Order)
    ensures var cf := CustomFieldValues(fields, defined, render, order);
      && (forall c :: c in cf ==> c.name in defined && exists j :: 0 <= j < |fields| && fields[j].0 == c.name && c.value == render(fields[j].1, order))
      && (forall j :: 0 <= j < |fields| && fields[j].0 in defined ==> CustomField(fields[j].0, render(fields[j].1, order)) in cf)
  {
    if fields != [] {
      var init := fields[..|fields| - 1];
      CustomFieldValuesRendered(init, defined, render, order);
      var cf := CustomFieldValues(fields, defined, render, order);
      forall c | c in cf
        ensures c.name in defined && exists j :: 0 <= j < |fields| && fields[j].0 == c.name && c.value == render(fields[j].1, order)
      {
        if c in CustomFieldValues(init, defined, render, order) {
          var j :| 0 <= j < |init| && init[j].0 == c.name && c.value == render(init[j].1, order);
          assert fields[j] == init[j];
        } else {
          assert fields[|fields| - 1].0 == c.name;
        }
      }
      forall j | 0 <= j < |fields| && fields[j].0 in defined
        ensures CustomField(fields[j].0, render(fields[j].1, order)) in cf
      {
        if j < |init| {
          assert fields[j] == init[j];
        }
      }
    }
  }

  /** With no remote definitions nothing is sent, however many fields are configured. */
  lemma {:induction false} NoDefinitionsNoCustomFields(fields: Assoc, render: (string, Order) -> string, order: Order)
    ensures CustomFieldValues(fields, {}, render, order) == []
  {
    if fields != [] {
      NoDefinitionsNoCustomFields(fields[..|fields| - 1], render, order);
    }
  }

  // ---------------------------------------------------------------------------
  // Line items and purchase

  /** The line item for one order item: its price copied, its quantity's integer part, a charge. */
  function LineItemFor(item: OrderItem): (li: LineItem)
    ensures li.currency == item.unitPrice.currencyCode && li.unitAmount == item.unitPrice.number
    ensures li.itemType == "charge"
    ensures item.quantity.units >= 0 ==> 0 <= li.quantity && li.quantity * Pow10(item.quantity.scale) <= item.quantity.units
    ensures item.quantity.units >= 0 ==> item.quantity.units < (li.quantity + 1) * Pow10(item.quantity.scale)
  {
    IntValIsIntegerPart(item.quantity);
    LineItem(item.unitPrice.currencyCode, item.unitPrice.number, IntVal(item.quantity), "charge")
  }

  /** One line item per order item, in order. */
  function LineItems(items: seq<OrderItem>): (lis: seq<LineItem>)
    ensures |lis| == |items|
    ensures forall i :: 0 <= i < |items| ==> lis[i] == LineItemFor(items[i])
  {
    seq(|items|, i requires 0 <= i < |items| => LineItemFor(items[i]))
  }

  lemma LineItemsStep(items: seq<OrderItem>, i: nat)
    requires i < |items|
    ensures LineItems(items[..i + 1]) == LineItems(items[..i]) + [LineItemFor(items[i])]
  {
    assert items[..i + 1][..i] == items[..i];
  }

  /** The purchase payload: the first line item's currency, the account, the billing token, all line items. */
  function PurchasePayload(code: string, lineItems: seq<LineItem>, tokenId: string): (p: PurchaseData)
    ensures p.currency == if lineItems == [] then None else Some(lineItems[0].currency)
    ensures p.accountCode == code && p.billingTokenId == tokenId && p.lineItems == lineItems
  {
    PurchaseData(if lineItems == [] then None else Some(lineItems[0].currency), code, tokenId, lineItems)
  }

  /** The purchase currency is the first order item's currency, whatever the later items use. */
  lemma PurchaseCurrencyIsFirstItems(code: string, first: OrderItem, rest: seq<OrderItem>, tokenId: string)
    ensures PurchasePayload(code, LineItems([first] + rest), tokenId).currency == Some(first.unitPrice.currencyCode)
  {
  }
}
