/** The order return assistant widget: the interpreter of the model's tool
    calls, the confirmation that creates a return, and the per-message view
    with its card gating. The widget's React state is the class's fields;
    domain calls and fresh message ids are parameters. */
module OrderAssistant {
  import opened JsValues
  import opened Returns
  import opened ReturnCard

  datatype Role = System | User | Assistant | Function

  /** A tool call as the model sends it, with its arguments already parsed.
      `CancelReturn(None)` has an empty arguments string; `OtherCall` is any
      call whose name is neither tool's (or that has no name). */
  datatype ToolCall = ProposeReturn(proposal: ProposeArgs) | CancelReturn(cancel: Option<CancelArgs>) | OtherCall

  /** The JSON objects the handler sends back, one constructor per shape. */
  datatype Content =
    | ErrorWithItems(error: string, items: seq<LineItem>)
    | ReasonFollowUp(followUpQuestion: string, returnReasons: seq<ReturnReason>)
    | ShippingFollowUp(followUpQuestion: string, shippingOptions: seq<ShippingOption>)
    | ReturnProposed(returnProposed: string)
    | Error(error: string)
    | Succes(succes: string)

  /** A message's content: text, or `JSON.stringify(value)` of a handler result. */
  datatype MessageContent = Text(text: string) | Json(value: Content)

  datatype Message = Message(
    id: string,
    role: Role,
    content: MessageContent,
    name: Option<string>,
    functionCall: Option<ToolCall>)

  datatype ChatRequest = ChatRequest(messages: seq<Message>)

  /** How a domain mutation promise settles. */
  datatype MutationOutcome = Resolved | Rejected(message: string)

  /** How the create-return mutation settles: with the ids of the order's returns, oldest first. */
  datatype CreateOutcome = Created(returnIds: seq<string>) | CreateRejected(message: string)

  /** What `requestReturn` resolves to. `RequestFailed(None)` is the TypeError
      of `order.returns.at(-1).id` on an order without returns, whose message
      the model leaves open. */
  datatype RequestResult = ReturnCreated(succes: string) | RequestFailed(error: Option<string>)

  /** One rendered element of the transcript. */
  datatype View =
    | CardView(id: string, data: CardData, control: Control, submits: ProposeArgs)
    | Bubble(id: string, fromAssistant: bool, content: MessageContent)

  const ProposeReturnName := "propose_return"
  const CancelReturnName := "cancel_return"

  const NoItemsError :=
    "No items provided. Here are the available items. Ask the agent to select the items they " +
    "want to return and call this function again with the selected items"
  const ReasonQuestionStart := "No return reason id provided for these items: "
  const ReasonQuestionEnd :=
    ". Here are the available return reasons. If not mentioned in previous messages, ask the " +
    "agent to select the reason for the return and call this function again with the selected reason"
  const ShippingQuestion :=
    "No return shipping option id provided. Here are the available return shipping options. " +
    "If not mentioned in previous messages, ask the agent to select the option they want to use " +
    "and call this function again with the selected option"
  const ProposedText :=
    "Return proposal sent to the agent. They can now create the return by clicking the button " +
    "in the card above."
  const NoReturnIdError := "No return_id provided"
  const CancelledText := "Return cancelled successfully"
  const CreatedText := "Return created successfully"

  /** `formatFunctionResponse`: the chat so far, then one `function` message
      carrying the tool name and the JSON of the content. */
  function FormatFunctionResponse(content: Content, chat: seq<Message>, name: string, freshId: string)
    : (r: ChatRequest)
    ensures |r.messages| == |chat| + 1
    ensures r.messages[..|chat|] == chat
    ensures r.messages[|chat|].role == Function && r.messages[|chat|].name == Some(name)
    ensures r.messages[|chat|].content == Json(content) && r.messages[|chat|].id == freshId
  {
    ChatRequest(chat + [Message(freshId, Function, Json(content), Some(name), None)])
  }

  // ---------------------------------------------------------------------
  // The comma-joined id list of the reason question
  // ---------------------------------------------------------------------

  /** `Array.prototype.join()` with its default separator ",". Joining ids
      that contain no comma can be undone: the joined text splits back into
      exactly those ids, in order. */
  function Join(ids: seq<string>): (r: string)
    ensures |ids| > 0 && (forall k :: 0 <= k < |ids| ==> ',' !in ids[k]) ==> Split(r) == ids
    decreases |ids|
  {
    if ids == [] then ""
    else if |ids| == 1 then
      if ',' in ids[0] then ids[0] else SplitWithoutComma(ids[0]); ids[0]
    else
      var rest := Join(ids[1..]);
      if ',' in ids[0] then ids[0] + "," + rest
      else
        SplitAtComma(ids[0], rest);
        assert ids == [ids[0]] + ids[1..];
        ids[0] + "," + rest
  }

  /** `s.split(",")`: the inverse of `Join` for ids without a comma. */
  function Split(s: string): (r: seq<string>)
    ensures |r| >= 1
    decreases |s|
  {
    if s == [] then [""]
    else
      var rest := Split(s[1..]);
      if s[0] == ',' then [""] + rest else [[s[0]] + rest[0]] + rest[1..]
  }

  lemma {:induction false} SplitWithoutComma(a: string)
    requires ',' !in a
    ensures Split(a) == [a]
    decreases |a|
  {
    if a != [] {
      SplitWithoutComma(a[1..]);
      assert a == [a[0]] + a[1..];
    }
  }

  lemma {:induction false} SplitAtComma(a: string, b: string)
    requires ',' !in a
    ensures Split(a + "," + b) == [a] + Split(b)
    decreases |a|
  {
    if a == [] {
      assert a + "," + b == [','] + b;
      assert (a + "," + b)[1..] == b;
    } else {
      var s := a + "," + b;
      assert s[1..] == a[1..] + "," + b;
      SplitAtComma(a[1..], b);
      assert a == [a[0]] + a[1..];
    }
  }

  /** `.map((i) => i.item_id)`. */
  function ItemIds(list: seq<ReturnItemArg>): (r: seq<string>)
    ensures |r| == |list| && forall k :: 0 <= k < |list| ==> r[k] == list[k].itemId
    decreases |list|
  {
    if list == [] then [] else [list[0].itemId] + ItemIds(list[1..])
  }

  /** The follow-up question naming the items without a reason id: between
      its fixed opening and closing text stands a list that splits at the
      commas into the items' ids, in order, when no id holds a comma. */
  function ReasonQuestion(missing: seq<ReturnItemArg>): (q: string)
    ensures exists ids ::
      && q == ReasonQuestionStart + ids + ReasonQuestionEnd
      && (|missing| > 0 && (forall k :: 0 <= k < |missing| ==> ',' !in missing[k].itemId) ==>
            Split(ids) == ItemIds(missing))
  {
    var ids := Join(ItemIds(missing));
    ReasonQuestionStart + ids + ReasonQuestionEnd
  }

  // ---------------------------------------------------------------------
  // The propose_return and cancel_return decisions
  // ---------------------------------------------------------------------

  /** The content answered to a `propose_return` call. The checks run in the
      order items, reason ids, shipping option; a throw inside them (items
      not filterable) is caught and falls through to the proposal. */
  function ProposeContent(args: ProposeArgs, order: Order, reasons: seq<ReturnReason>, options: seq<ShippingOption>)
    : (c: Content)
    ensures c.ErrorWithItems? <==> args.items.None?
    ensures c.ErrorWithItems? ==> c == ErrorWithItems(NoItemsError, order.items)
    ensures c.ReasonFollowUp? <==>
      args.items.Some? && args.items.value.ItemList?
      && exists k :: 0 <= k < |args.items.value.list| && !HasReason(args.items.value.list[k])
    ensures c.ReasonFollowUp? ==> c.returnReasons == reasons
    ensures c.ShippingFollowUp? <==>
      args.items.Some? && args.items.value.ItemList?
      && (forall k :: 0 <= k < |args.items.value.list| ==> HasReason(args.items.value.list[k]))
      && !(args.returnShipping.Some? && Truthy(args.returnShipping.value.optionId))
    ensures c.ShippingFollowUp? ==> c == ShippingFollowUp(ShippingQuestion, options)
    ensures c.ReturnProposed? <==>
      args.items.Some? &&
      (args.items.value.Unfilterable? ||
       ((forall k :: 0 <= k < |args.items.value.list| ==> HasReason(args.items.value.list[k]))
        && args.returnShipping.Some? && Truthy(args.returnShipping.value.optionId)))
    ensures c.ReturnProposed? ==> c == ReturnProposed(ProposedText)
    ensures c.ErrorWithItems? || c.ReasonFollowUp? || c.ShippingFollowUp? || c.ReturnProposed?
  {
    match args.items
    case None => ErrorWithItems(NoItemsError, order.items)
    case Some(Unfilterable) => ReturnProposed(ProposedText)
    case Some(ItemList(list)) =>
      var missing := WithoutReason(list);
      if missing != [] then ReasonFollowUp(ReasonQuestion(missing), reasons)
      else if !(args.returnShipping.Some? && Truthy(args.returnShipping.value.optionId)) then
        ShippingFollowUp(ShippingQuestion, options)
      else ReturnProposed(ProposedText)
  }

  /** When some listed item has no reason id, the answer is the reason
      question, and it lists, comma-joined, exactly the ids of the items
      without a reason id. */
  lemma ReasonQuestionNamesMissing(args: ProposeArgs, list: seq<ReturnItemArg>, order: Order,
                                   reasons: seq<ReturnReason>, options: seq<ShippingOption>)
    requires args.items == Some(ItemList(list))
    requires exists k :: 0 <= k < |list| && !HasReason(list[k])
    ensures var c := ProposeContent(args, order, reasons, options);
      var ids := ItemIds(WithoutReason(list));
      && c.ReasonFollowUp?
      && c.followUpQuestion == ReasonQuestionStart + Join(ids) + ReasonQuestionEnd
      && |ids| > 0
      && forall id :: id in ids <==> exists k :: 0 <= k < |list| && list[k].itemId == id && !HasReason(list[k])
  {
    MissingIds(list);
  }

  /** The ids of the items without a reason id are exactly the ids of the
      items that lack one. */
  lemma MissingIds(list: seq<ReturnItemArg>)
    ensures forall id :: id in ItemIds(WithoutReason(list)) <==>
      exists k :: 0 <= k < |list| && list[k].itemId == id && !HasReason(list[k])
  {
    var missing := WithoutReason(list);
    var ids := ItemIds(missing);
    forall id | id in ids
      ensures exists k :: 0 <= k < |list| && list[k].itemId == id && !HasReason(list[k])
    {
      var m :| 0 <= m < |ids| && ids[m] == id;
      assert missing[m] in missing;
      var k :| 0 <= k < |list| && list[k] == missing[m];
    }
    forall id | exists k :: 0 <= k < |list| && list[k].itemId == id && !HasReason(list[k])
      ensures id in ids
    {
      var k :| 0 <= k < |list| && list[k].itemId == id && !HasReason(list[k]);
      assert list[k] in missing;
      var m :| 0 <= m < |missing| && missing[m] == list[k];
      assert ids[m] == id;
    }
  }

  /** The stored proposal: the arguments with `create_return_user_confirmation` deleted. */
  function WithoutConfirmation(args: ProposeArgs): (r: ProposeArgs)
    ensures r.createReturnUserConfirmation.None?
    ensures r.(createReturnUserConfirmation := args.createReturnUserConfirmation) == args
  {
    args.(createReturnUserConfirmation := None)
  }

  /** The content answered to a `cancel_return` call, given the return id held
      when the handler started and how the cancellation settles. */
  function CancelContent(held: Option<string>, outcome: MutationOutcome): (c: Content)
    ensures !Truthy(held) ==> c == Error(NoReturnIdError)
    ensures Truthy(held) && outcome.Resolved? ==> c == Succes(CancelledText)
    ensures Truthy(held) && outcome.Rejected? ==> c == Error(outcome.message)
  {
    if !Truthy(held) then Error(NoReturnIdError)
    else match outcome
      case Resolved => Succes(CancelledText)
      case Rejected(message) => Error(message)
  }

  // ---------------------------------------------------------------------
  // The widget
  // ---------------------------------------------------------------------

  class OrderAssistantWidget {
    const order: Order
    const returnReasons: seq<ReturnReason>
    const shippingOptions: seq<ShippingOption>
    var returnId: Option<string>
    var returnApiObject: Option<ProposeArgs>
    var returnsCreated: seq<string>

    /** A freshly mounted widget for an order, with the loaded reasons and options. */
    constructor (order: Order, returnReasons: seq<ReturnReason>, shippingOptions: seq<ShippingOption>)
      ensures this.order == order && this.returnReasons == returnReasons
      ensures this.shippingOptions == shippingOptions
      ensures returnId.None? && returnApiObject.None? && returnsCreated == []
    {
      this.order := order;
      this.returnReasons := returnReasons;
      this.shippingOptions := shippingOptions;
      returnId := None;
      returnApiObject := None;
      returnsCreated := [];
    }

    /** `functionCallHandler`. For `propose_return` the answer is `ProposeContent`
        and a proposal is stored only when that content is `return_proposed`.
        For `cancel_return` the return id held before the call decides: with
        one, that id is cancelled (`cancelled`) and the outcome is answered;
        without, the answer is the missing-id error. An id in the arguments
        replaces the held one only afterwards. Any other call answers nothing. */
    method HandleFunctionCall(chat: seq<Message>, call: ToolCall, freshId: string, cancelOutcome: MutationOutcome)
      returns (r: Option<ChatRequest>, cancelled: Option<string>)
      modifies this
      ensures call.ProposeReturn? ==>
        var content := ProposeContent(call.proposal, order, returnReasons, shippingOptions);
        && r == Some(FormatFunctionResponse(content, chat, ProposeReturnName, freshId))
        && cancelled.None?
        && returnApiObject == (if content.ReturnProposed? then Some(WithoutConfirmation(call.proposal))
                               else old(returnApiObject))
        && returnId == old(returnId)
      ensures call.CancelReturn? ==>
        && r == Some(FormatFunctionResponse(CancelContent(old(returnId), cancelOutcome), chat,
                                            CancelReturnName, freshId))
        && cancelled == (if Truthy(old(returnId)) then old(returnId) else None)
        && returnId == (if call.cancel.Some? then call.cancel.value.returnId else old(returnId))
        && returnApiObject == old(returnApiObject)
      ensures call.OtherCall? ==>
        r.None? && cancelled.None? && returnId == old(returnId) && returnApiObject == old(returnApiObject)
      ensures returnsCreated == old(returnsCreated)
      ensures Snapshot() == old(Snapshot()).(returnApiObject := returnApiObject)
    {
      cancelled := None;
      match call
      case ProposeReturn(args) =>
        var content := ProposeContent(args, order, returnReasons, shippingOptions);
        if content.ReturnProposed? {
          returnApiObject := Some(WithoutConfirmation(args));
        }
        r := Some(FormatFunctionResponse(content, chat, ProposeReturnName, freshId));
      case CancelReturn(args) =>
        var held := returnId;
        if args.Some? {
          returnId := args.value.returnId;
        }
        if Truthy(held) {
          cancelled := held;
        }
        r := Some(FormatFunctionResponse(CancelContent(held, cancelOutcome), chat, CancelReturnName, freshId));
      case OtherCall =>
        r := None;
    }

    /** `requestReturn(variables, messageId)`: on success the newest return's
        id is held for cancelling and the message is marked as confirmed; on
        failure nothing changes. `returnsCreated` only ever grows. */
    method RequestReturn(variables: ProposeArgs, messageId: string, outcome: CreateOutcome)
      returns (r: RequestResult)
      modifies this
      ensures outcome.Created? && |outcome.returnIds| > 0 ==>
        && r == ReturnCreated(CreatedText)
        && returnId == Some(outcome.returnIds[|outcome.returnIds| - 1])
        && returnsCreated == old(returnsCreated) + [messageId]
      ensures outcome.Created? && |outcome.returnIds| == 0 ==>
        r == RequestFailed(None) && returnId == old(returnId) && returnsCreated == old(returnsCreated)
      ensures outcome.CreateRejected? ==>
        r == RequestFailed(Some(outcome.message)) && returnId == old(returnId)
        && returnsCreated == old(returnsCreated)
      ensures returnApiObject == old(returnApiObject)
      ensures old(returnsCreated) <= returnsCreated
      ensures outcome.Created? && |outcome.returnIds| > 0 ==>
        Snapshot() == old(Snapshot()).(returnsCreated := old(returnsCreated) + [messageId])
      ensures !(outcome.Created? && |outcome.returnIds| > 0) ==> Snapshot() == old(Snapshot())
    {
      match outcome
      case CreateRejected(message) =>
        r := RequestFailed(Some(message));
      case Created(returnIds) =>
        if |returnIds| == 0 {
          r := RequestFailed(None);
        } else {
          returnId := Some(returnIds[|returnIds| - 1]);
          returnsCreated := returnsCreated + [messageId];
          r := ReturnCreated(CreatedText);
        }
    }

    /** The part of the widget's state that rendering reads; `RequestReturn`
        and `HandleFunctionCall` state their effect on it, which is what
        `MessageView` and `ConfirmationSwapsOnlyThatCard` read. */
    function Snapshot(): (st: WidgetState)
      reads this
      ensures st.order == order && st.returnApiObject == returnApiObject
      ensures st.returnsCreated == returnsCreated
    {
      WidgetState(order, returnReasons, shippingOptions, returnApiObject, returnsCreated)
    }
  }

  /** What one render reads: the order, the loaded reasons and options, the
      stored proposal and the messages whose return was created. */
  datatype WidgetState = WidgetState(
    order: Order,
    returnReasons: seq<ReturnReason>,
    shippingOptions: seq<ShippingOption>,
    returnApiObject: Option<ProposeArgs>,
    returnsCreated: seq<string>)

  /** The card data of a message's `propose_return` call. */
  function CardOf(st: WidgetState, args: ProposeArgs): Eval<CardData>
  {
    HandleReturnCard(args, st.order, st.returnReasons, st.shippingOptions)
  }

  /** What the message map renders for one non-function message: a card
      only for a `propose_return` call whose card data exists while a
      proposal is stored; its button is replaced by the badge once the
      message's return was created, and it submits the stored proposal.
      A text message renders as a bubble unless its text is empty; any other
      call renders nothing. */
  function MessageView(st: WidgetState, m: Message, loading: bool): (v: Eval<View>)
    ensures v.Value? && v.value.CardView? <==>
      m.functionCall.Some? && m.functionCall.value.ProposeReturn?
      && CardOf(st, m.functionCall.value.proposal).Value? && st.returnApiObject.Some?
    ensures v.Value? && v.value.CardView? ==>
      && v.value.id == m.id
      && v.value.data == CardOf(st, m.functionCall.value.proposal).value
      && (v.value.control.ReturnCreatedBadge? <==> m.id in st.returnsCreated)
      && (v.value.control.CreateReturnButton? ==> v.value.control.isLoading == loading)
      && v.value.submits == st.returnApiObject.value
    ensures v.Thrown? <==>
      m.functionCall.Some? && m.functionCall.value.ProposeReturn?
      && CardOf(st, m.functionCall.value.proposal).Thrown?
    ensures v.Value? && v.value.Bubble? <==> m.functionCall.None? && m.content != Text("")
    ensures v.Value? && v.value.Bubble? ==>
      v.value == Bubble(m.id, m.role == Assistant, m.content)
  {
    match m.functionCall
    case Some(call) =>
      if !call.ProposeReturn? then Undefined
      else
        (match CardOf(st, call.proposal)
         case Undefined => Undefined
         case Thrown => Thrown
         case Value(data) =>
           if st.returnApiObject.None? then Undefined
           else Value(CardView(m.id, data, Controls(m.id in st.returnsCreated, loading), st.returnApiObject.value)))
    case None =>
      if m.content == Text("") then Undefined
      else Value(Bubble(m.id, m.role == Assistant, m.content))
  }

  /** The transcript: function-role messages are filtered out, the others are
      rendered in order and the ones that render nothing are left out; one
      throwing message makes the whole render throw. */
  function Transcript(st: WidgetState, ms: seq<Message>, loading: bool): (r: Eval<seq<View>>)
    ensures !r.Undefined?
    ensures r.Thrown? <==>
      exists i :: 0 <= i < |ms| && ms[i].role != Function && MessageView(st, ms[i], loading).Thrown?
    ensures r.Value? ==> |r.value| <= |ms|
    ensures r.Value? ==> forall v :: v in r.value ==>
      exists i :: 0 <= i < |ms| && ms[i].role != Function && MessageView(st, ms[i], loading) == Value(v)
    ensures r.Value? ==> forall i :: 0 <= i < |ms| && ms[i].role != Function && MessageView(st, ms[i], loading).Value? ==>
      MessageView(st, ms[i], loading).value in r.value
    decreases |ms|
  {
    if ms == [] then Value([])
    else
      var rest := Transcript(st, ms[1..], loading);
      assert forall i :: 1 <= i < |ms| ==> ms[i] == ms[1..][i - 1];
      if ms[0].role == Function then rest
      else
        match MessageView(st, ms[0], loading)
        case Thrown => Thrown
        case Undefined => rest
        case Value(v) =>
          match rest
          case Value(vs) => Value([v] + vs)
          case _ => rest
  }

  /** Recording a created return for message `id` (what a successful
      `RequestReturn` does to the rendered state) swaps that message's button
      for the badge, so the same card cannot confirm twice, and leaves the
      rendering of every other message as it was. */
  lemma ConfirmationSwapsOnlyThatCard(st: WidgetState, id: string, m: Message, loading: bool)
    ensures var after := st.(returnsCreated := st.returnsCreated + [id]);
      && (m.id == id && MessageView(after, m, loading).Value? && MessageView(after, m, loading).value.CardView? ==>
            MessageView(after, m, loading).value.control == ReturnCreatedBadge)
      && (m.id != id ==> MessageView(after, m, loading) == MessageView(st, m, loading))
  {
    var after := st.(returnsCreated := st.returnsCreated + [id]);
    assert m.id in after.returnsCreated <==> m.id in st.returnsCreated || m.id == id;
  }
}
