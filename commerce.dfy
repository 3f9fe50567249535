/**
  The order as the host commerce framework hands it to the gateway. The gateway
  only reads it: the purchased entity's variation type (its bundle), the unit
  price, the quantity, the customer's e-mail and the billing address names.
*/
module Commerce {
  import opened Php

  /** A price: an opaque decimal amount and a currency code, copied through unchanged. */
  datatype Price = Price(number: string, currencyCode: string)

  datatype OrderItem = OrderItem(
    variationType: string,  // $item->getPurchasedEntity()->bundle()
    unitPrice: Price,
    quantity: Decimal)

  /** The billing profile's address; an absent name reads as "". */
  datatype Address = Address(givenName: string, familyName: string)

  /** An absent customer e-mail reads as "". */
  datatype Order = Order(
    items: seq<OrderItem>,
    customerEmail: string,
    billingAddress: Address)
}
