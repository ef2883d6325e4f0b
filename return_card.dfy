/** The return proposal card: the parsers that turn `propose_return`
    arguments and the order, reason and shipping data into card rows and a
    refund figure, and the badge-or-button decision. The same parsers appear
    twice in the widget code, once in the assistant and once in the
    standalone card component; this module is the one definition of both. */
module ReturnCard {
  import opened JsValues
  import opened Returns

  /** One row of the card. */
  datatype ItemRow = ItemRow(
    id: string,
    quantity: int,
    title: string,
    total: int,
    unitPrice: int,
    thumbnail: string,
    reason: Option<string>,
    variant: Option<string>)

  datatype ShippingRow = ShippingRow(shippingOption: Option<string>, shippingCost: int)

  /** What the card shows: the rows, the shipping line and the refund. */
  datatype CardData = CardData(items: seq<ItemRow>, shipping: ShippingRow, refund: int)

  /** The card's action area: exactly one of the two is shown. */
  datatype Control = ReturnCreatedBadge | CreateReturnButton(isLoading: bool)

  /** The standalone card as rendered: its data and its action area. */
  datatype CardPanel = CardPanel(data: CardData, control: Control)

  /** `items.filter((i) => !i.reason_id)`. */
  function WithoutReason(list: seq<ReturnItemArg>): (r: seq<ReturnItemArg>)
    ensures |r| <= |list|
    ensures forall x :: x in r <==> x in list && !HasReason(x)
    ensures forall x :: multiset(r)[x] == if HasReason(x) then 0 else multiset(list)[x]
    ensures r == [] <==> forall k :: 0 <= k < |list| ==> HasReason(list[k])
    decreases |list|
  {
    if list == [] then []
    else
      var rest := WithoutReason(list[1..]);
      assert list == [list[0]] + list[1..];
      if HasReason(list[0]) then rest else [list[0]] + rest
  }

  /** The filter keeps the input order: filtering a concatenation is
      concatenating the filtered parts. */
  lemma {:induction false} WithoutReasonAppend(a: seq<ReturnItemArg>, b: seq<ReturnItemArg>)
    ensures WithoutReason(a + b) == WithoutReason(a) + WithoutReason(b)
    decreases |a|
  {
    if a == [] {
      assert a + b == b;
    } else {
      assert (a + b)[0] == a[0];
      assert (a + b)[1..] == a[1..] + b;
      WithoutReasonAppend(a[1..], b);
    }
  }

  /** `return_reasons.find((reason) => reason.id === i.reason_id)?.label`. */
  function ReasonLabel(reasonId: Option<string>, reasons: seq<ReturnReason>): (r: Option<string>)
    ensures r.Some? <==> reasonId.Some? && exists j :: 0 <= j < |reasons| && reasons[j].id == reasonId.value
    ensures r.Some? ==> exists j :: 0 <= j < |reasons| && reasons[j].id == reasonId.value
                                    && reasons[j].reasonLabel == r.value
                                    && forall i :: 0 <= i < j ==> reasons[i].id != reasonId.value
  {
    match reasonId
    case None => None
    case Some(rid) =>
      match Find(reasons, ReasonId, rid)
      case None => None
      case Some(j) => Some(reasons[j].reasonLabel)
  }

  /** The row for argument `a` whose order item is `item`: quantity and id
      from the argument, title, price, thumbnail and variant from the order
      item, the total as their product, and the reason's label when a reason
      has the argument's reason id. */
  function RowFor(a: ReturnItemArg, item: LineItem, reasons: seq<ReturnReason>): (r: ItemRow)
    ensures r.id == a.itemId && r.quantity == a.quantity
    ensures r.title == item.title && r.unitPrice == item.unitPrice && r.thumbnail == item.thumbnail
    ensures r.variant == item.variantTitle
    ensures r.total == a.quantity * item.unitPrice
    ensures r.reason.Some? <==>
      a.reasonId.Some? && exists j :: 0 <= j < |reasons| && reasons[j].id == a.reasonId.value
    ensures r.reason.Some? ==> exists j :: 0 <= j < |reasons| && reasons[j].id == a.reasonId.value
                                           && reasons[j].reasonLabel == r.reason.value
                                           && forall i :: 0 <= i < j ==> reasons[i].id != a.reasonId.value
  {
    ItemRow(a.itemId, a.quantity, item.title, a.quantity * item.unitPrice, item.unitPrice,
            item.thumbnail, ReasonLabel(a.reasonId, reasons), item.variantTitle)
  }

  /** The `map` of `parseItems`; None when an `item_id` matches no order item,
      where `item.title` dereferences `undefined` and throws. */
  function BuildRows(list: seq<ReturnItemArg>, order: Order, reasons: seq<ReturnReason>): (r: Option<seq<ItemRow>>)
    ensures r.Some? <==> forall k :: 0 <= k < |list| ==> Find(order.items, LineItemId, list[k].itemId).Some?
    ensures r.Some? ==> |r.value| == |list|
    ensures r.Some? ==> forall k :: 0 <= k < |list| ==>
      r.value[k] == RowFor(list[k], order.items[Find(order.items, LineItemId, list[k].itemId).value], reasons)
    decreases |list|
  {
    if list == [] then Some([])
    else
      assert forall k :: 1 <= k < |list| ==> list[k] == list[1..][k - 1];
      match Find(order.items, LineItemId, list[0].itemId)
      case None => None
      case Some(j) =>
        match BuildRows(list[1..], order, reasons)
        case None => None
        case Some(rest) => Some([RowFor(list[0], order.items[j], reasons)] + rest)
  }

  /** `parseItems`: nothing when some item lacks a reason id, else one row per
      item in input order; throws when items is not filterable or an item
      id matches no order item. */
  function ParseItems(items: ItemsArg, order: Order, reasons: seq<ReturnReason>): (r: Eval<seq<ItemRow>>)
    ensures items.Unfilterable? ==> r.Thrown?
    ensures r.Undefined? <==> items.ItemList? && exists k :: 0 <= k < |items.list| && !HasReason(items.list[k])
    ensures r.Value? <==>
      && items.ItemList?
      && (forall k :: 0 <= k < |items.list| ==> HasReason(items.list[k]))
      && forall k :: 0 <= k < |items.list| ==> Find(order.items, LineItemId, items.list[k].itemId).Some?
    ensures r.Thrown? <==>
      items.Unfilterable? ||
      ((forall k :: 0 <= k < |items.list| ==> HasReason(items.list[k])) &&
       exists k :: 0 <= k < |items.list| && Find(order.items, LineItemId, items.list[k].itemId).None?)
    ensures r.Value? ==> items.ItemList? && |r.value| == |items.list|
    ensures r.Value? ==> forall k :: 0 <= k < |items.list| ==>
      var a, row := items.list[k], r.value[k];
      && HasReason(a)
      && Find(order.items, LineItemId, a.itemId).Some?
      && var item := order.items[Find(order.items, LineItemId, a.itemId).value];
      && item.id == a.itemId
      && row.id == a.itemId
      && row.quantity == a.quantity
      && row.title == item.title
      && row.unitPrice == item.unitPrice
      && row.total == a.quantity * item.unitPrice
      && row.thumbnail == item.thumbnail
      && row.variant == item.variantTitle
      && row.reason == ReasonLabel(a.reasonId, reasons)
  {
    match items
    case Unfilterable => Thrown
    case ItemList(list) =>
      if WithoutReason(list) != [] then Undefined
      else
        match BuildRows(list, order, reasons)
        case None => Thrown
        case Some(rows) => Value(rows)
  }

  /** `parseShipping`: nothing without a truthy `option_id`; otherwise the
      given price and the name of the first option with that id, if any. */
  function ParseShipping(arg: ShippingArg, options: seq<ShippingOption>): (r: Option<ShippingRow>)
    ensures r.None? <==> !Truthy(arg.optionId)
    ensures r.Some? ==> r.value.shippingCost == arg.price
    ensures r.Some? ==>
      (r.value.shippingOption.Some? <==> exists j :: 0 <= j < |options| && options[j].id == arg.optionId.value)
    ensures r.Some? && r.value.shippingOption.Some? ==>
      exists j :: 0 <= j < |options| && options[j].id == arg.optionId.value && options[j].name == r.value.shippingOption.value
                  && forall i :: 0 <= i < j ==> options[i].id != arg.optionId.value
  {
    if !Truthy(arg.optionId) then None
    else
      var name := match Find(options, OptionId, arg.optionId.value)
        case None => None
        case Some(j) => Some(options[j].name);
      Some(ShippingRow(name, arg.price))
  }

  /** `handleReturnCard`: the card data, or nothing, or a throw from `parseItems`. */
  function HandleReturnCard(args: ProposeArgs, order: Order, reasons: seq<ReturnReason>, options: seq<ShippingOption>)
    : (r: Eval<CardData>)
    ensures args.items.None? || args.returnShipping.None? ==> r.Undefined?
    ensures r.Thrown? <==>
      args.returnShipping.Some? && args.items.Some? && ParseItems(args.items.value, order, reasons).Thrown?
    ensures r.Value? <==>
      && args.items.Some? && args.returnShipping.Some?
      && ParseItems(args.items.value, order, reasons).Value?
      && ParseShipping(args.returnShipping.value, options).Some?
      && Truthy(ParseShipping(args.returnShipping.value, options).value.shippingOption)
    ensures r.Value? ==>
      && ParseItems(args.items.value, order, reasons) == Value(r.value.items)
      && ParseShipping(args.returnShipping.value, options) == Some(r.value.shipping)
      && r.value.refund == args.refund - args.returnShipping.value.price
  {
    if args.items.None? || args.returnShipping.None? then Undefined
    else
      var items := ParseItems(args.items.value, order, reasons);
      if items.Thrown? then Thrown
      else
        var shipping := ParseShipping(args.returnShipping.value, options);
        if items.Undefined? || shipping.None? || !Truthy(shipping.value.shippingOption) then Undefined
        else Value(CardData(items.value, shipping.value, args.refund - shipping.value.shippingCost))
  }

  /** A card is only produced when items are given, every item has a reason
      id and a known `item_id`, the shipping option id is given and names an
      option with a non-empty name; its rows follow the arguments one to one
      and its refund is the model's refund minus the shipping price. */
  lemma {:induction false} CardOnlyWhenResolved(args: ProposeArgs, order: Order, reasons: seq<ReturnReason>,
                                                options: seq<ShippingOption>)
    requires HandleReturnCard(args, order, reasons, options).Value?
    ensures args.items.Some? && args.items.value.ItemList? && args.returnShipping.Some?
    ensures var list := args.items.value.list;
      forall k :: 0 <= k < |list| ==>
        HasReason(list[k]) && exists j :: 0 <= j < |order.items| && order.items[j].id == list[k].itemId
    ensures Truthy(args.returnShipping.value.optionId)
    ensures exists j :: 0 <= j < |options| && options[j].id == args.returnShipping.value.optionId.value
                        && options[j].name != ""
    ensures var d := HandleReturnCard(args, order, reasons, options).value;
      |d.items| == |args.items.value.list|
      && d.shipping.shippingCost == args.returnShipping.value.price
      && d.refund == args.refund - args.returnShipping.value.price
  {
    var list := args.items.value.list;
    forall k | 0 <= k < |list|
      ensures HasReason(list[k]) && exists j :: 0 <= j < |order.items| && order.items[j].id == list[k].itemId
    {
      var j := Find(order.items, LineItemId, list[k].itemId).value;
      assert order.items[j].id == list[k].itemId;
    }
  }

  /** The converse: when items are given, every item has a reason id and an
      `item_id` some order item has, the shipping option id is given and the
      first option with that id has a non-empty name, the card is produced. */
  lemma {:induction false} CardWhenResolved(args: ProposeArgs, order: Order, reasons: seq<ReturnReason>,
                                            options: seq<ShippingOption>)
    requires args.items.Some? && args.items.value.ItemList?
    requires forall k :: 0 <= k < |args.items.value.list| ==>
      HasReason(args.items.value.list[k])
      && exists j :: 0 <= j < |order.items| && order.items[j].id == args.items.value.list[k].itemId
    requires args.returnShipping.Some? && Truthy(args.returnShipping.value.optionId)
    requires exists j :: 0 <= j < |options| && options[j].id == args.returnShipping.value.optionId.value
                         && options[j].name != ""
                         && forall i :: 0 <= i < j ==> options[i].id != args.returnShipping.value.optionId.value
    ensures HandleReturnCard(args, order, reasons, options).Value?
    ensures HandleReturnCard(args, order, reasons, options).value.refund == args.refund - args.returnShipping.value.price
  {
    var list := args.items.value.list;
    forall k | 0 <= k < |list|
      ensures Find(order.items, LineItemId, list[k].itemId).Some?
    {
      var j :| 0 <= j < |order.items| && order.items[j].id == list[k].itemId;
      assert LineItemId(order.items[j]) == list[k].itemId;
    }
    var oid := args.returnShipping.value.optionId.value;
    var j :| 0 <= j < |options| && options[j].id == oid && options[j].name != ""
             && forall i :: 0 <= i < j ==> options[i].id != oid;
    assert OptionId(options[j]) == oid;
    assert Find(options, OptionId, oid) == Some(j);
  }

  /** The action area: the "Return created" badge once this proposal's return
      exists, otherwise the "Create return" button. */
  function Controls(returnCreated: bool, loading: bool): (c: Control)
    ensures c.ReturnCreatedBadge? <==> returnCreated
    ensures c.CreateReturnButton? ==> c.isLoading == loading
  {
    if returnCreated then ReturnCreatedBadge else CreateReturnButton(loading)
  }

  /** The standalone card component: renders nothing without arguments or
      without derivable data, throws when deriving the data throws. */
  function ReturnCardView(args: Option<ProposeArgs>, options: seq<ShippingOption>, reasons: seq<ReturnReason>,
                          order: Order, returnCreated: bool, loading: bool): (r: Eval<CardPanel>)
    ensures args.None? ==> r.Undefined?
    ensures r.Value? <==> args.Some? && HandleReturnCard(args.value, order, reasons, options).Value?
    ensures r.Value? ==> r.value.data == HandleReturnCard(args.value, order, reasons, options).value
    ensures r.Thrown? <==> args.Some? && HandleReturnCard(args.value, order, reasons, options).Thrown?
    ensures r.Value? ==> (r.value.control.ReturnCreatedBadge? <==> returnCreated)
    ensures r.Value? && r.value.control.CreateReturnButton? ==> r.value.control.isLoading == loading
  {
    match args
    case None => Undefined
    case Some(a) =>
      match HandleReturnCard(a, order, reasons, options)
      case Undefined => Undefined
      case Thrown => Thrown
      case Value(d) => Value(CardPanel(d, Controls(returnCreated, loading)))
  }

  /** A one-item proposal: the row takes title, price and thumbnail from the
      order, the reason label from the reasons, and the refund shown is the
      model's refund less the shipping price. */
  lemma ExampleCard()
    ensures
      var order := Order("order_1", [LineItem("li_1", "Shirt", 1, 2000, 2000, "shirt.png", Some("M"))]);
      var args := ProposeArgs(Some(ItemList([ReturnItemArg("li_1", 1, None, Some("rr_1"))])),
                              Some(ShippingArg(Some("so_1"), 500)), None, None, None, 2000, None, None);
      HandleReturnCard(args, order, [ReturnReason("rr_1", "Wrong size")], [ShippingOption("so_1", "Standard")])
      == Value(CardData([ItemRow("li_1", 1, "Shirt", 2000, 2000, "shirt.png", Some("Wrong size"), Some("M"))],
                        ShippingRow(Some("Standard"), 500), 1500))
  {
    var items := [LineItem("li_1", "Shirt", 1, 2000, 2000, "shirt.png", Some("M"))];
    assert Find(items, LineItemId, "li_1") == Some(0);
    assert Find([ReturnReason("rr_1", "Wrong size")], ReasonId, "rr_1") == Some(0);
    assert Find([ShippingOption("so_1", "Standard")], OptionId, "so_1") == Some(0);
    var list := [ReturnItemArg("li_1", 1, None, Some("rr_1"))];
    var reasons := [ReturnReason("rr_1", "Wrong size")];
    var row := ItemRow("li_1", 1, "Shirt", 2000, 2000, "shirt.png", Some("Wrong size"), Some("M"));
    assert ReasonLabel(Some("rr_1"), reasons) == Some("Wrong size");
    assert RowFor(list[0], items[0], reasons) == row;
    var order := Order("order_1", items);
    assert list[1..] == [];
    assert Find(order.items, LineItemId, list[0].itemId) == Some(0);
    assert BuildRows(list[1..], order, reasons) == Some([]);
    assert [row] + [] == [row];
    assert BuildRows(list, order, reasons) == Some([row]);
    assert ParseItems(ItemList(list), Order("order_1", items), reasons) == Value([row]);
  }

  /** The card trusts the model's figures: a reason id that names no known
      reason still yields a card (with no reason shown), and the refund is not
      recomputed from the item totals. */
  lemma ExampleUnresolvedReason()
    ensures
      var order := Order("order_1", [LineItem("li_1", "Shirt", 1, 2000, 2000, "shirt.png", None)]);
      var args := ProposeArgs(Some(ItemList([ReturnItemArg("li_1", 1, None, Some("rr_9"))])),
                              Some(ShippingArg(Some("so_1"), 500)), None, None, None, 9999, None, None);
      var card := HandleReturnCard(args, order, [ReturnReason("rr_1", "Wrong size")], [ShippingOption("so_1", "Standard")]);
      card.Value? && card.value.items[0].reason.None? && card.value.refund == 9499
  {
    var items := [LineItem("li_1", "Shirt", 1, 2000, 2000, "shirt.png", None)];
    assert Find(items, LineItemId, "li_1") == Some(0);
    assert Find([ReturnReason("rr_1", "Wrong size")], ReasonId, "rr_9") == None;
    assert Find([ShippingOption("so_1", "Standard")], OptionId, "so_1") == Some(0);
  }
}
