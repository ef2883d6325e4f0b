/** The order data the return assistant reads and the arguments of the
    `propose_return` and `cancel_return` tools, shaped after the tool schema:
    the fields the code tests for presence are optional, the fields the
    schema requires and the code uses unchecked are plain. */
module Returns {
  import opened JsValues

  /** An order line item, with the properties the assistant reads. */
  datatype LineItem = LineItem(
    id: string,
    title: string,
    quantity: int,
    unitPrice: int,
    total: int,
    thumbnail: string,
    variantTitle: Option<string>)

  datatype Order = Order(id: string, items: seq<LineItem>)

  datatype ReturnReason = ReturnReason(id: string, reasonLabel: string)

  datatype ShippingOption = ShippingOption(id: string, name: string)

  /** One element of the `items` argument. */
  datatype ReturnItemArg = ReturnItemArg(
    itemId: string,
    quantity: int,
    note: Option<string>,
    reasonId: Option<string>)

  /** A truthy `items` argument: an array of item objects, or any other truthy
      value (a string, a plain object, an array holding `null`) on which
      `filter((i) => !i.reason_id)` throws. */
  datatype ItemsArg = ItemList(list: seq<ReturnItemArg>) | Unfilterable

  datatype ShippingArg = ShippingArg(optionId: Option<string>, price: int)

  /** The parsed arguments of a `propose_return` call; an absent or falsy
      `items` / `return_shipping` is None. */
  datatype ProposeArgs = ProposeArgs(
    items: Option<ItemsArg>,
    returnShipping: Option<ShippingArg>,
    note: Option<string>,
    receiveNow: Option<bool>,
    noNotification: Option<bool>,
    refund: int,
    locationId: Option<string>,
    createReturnUserConfirmation: Option<bool>)

  /** The parsed arguments of a `cancel_return` call. */
  datatype CancelArgs = CancelArgs(returnId: Option<string>)

  /** `!!i.reason_id`. */
  predicate HasReason(i: ReturnItemArg)
  {
    Truthy(i.reasonId)
  }

  function LineItemId(x: LineItem): string { x.id }

  function ReasonId(x: ReturnReason): string { x.id }

  function OptionId(x: ShippingOption): string { x.id }
}
