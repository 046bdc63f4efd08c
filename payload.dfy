/**
 * The JSON body of a create-order request, shared by the menu page (which
 * builds it) and the server (which consumes it).
 */
module Payload {
  import opened Common

  /** One requested line: `{item_key, name, price, qty}`. */
  datatype PayloadItem = PayloadItem(itemKey: string, name: string, price: int, qty: int)

  /** A create-order body; a text field that is absent from the JSON is `None`. */
  datatype OrderPayload = OrderPayload(
    guestName: Option<string>,
    roomNo: Option<string>,
    notes: Option<string>,
    menuVersion: Option<string>,
    items: seq<PayloadItem>)

  /** Σ price × qty over the requested lines, accumulated from the first line on. */
  function PayloadTotal(items: seq<PayloadItem>): int
  {
    if items == [] then 0
    else
      var last := items[|items| - 1];
      PayloadTotal(items[..|items| - 1]) + last.price * last.qty
  }
}
