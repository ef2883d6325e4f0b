# Return assistant core, modelled in Dafny

This project models the core of a Medusa admin plug-in in which a chat model helps a shop
operator propose and create order returns. The model covers three parts.

- **The token budgeter** (`OpenAi`). It estimates the size of a conversation plus its function
  list. Each message costs 4, each function 2, each property the encoded length of its value
  (one less for a property called `name`), and 2 more primes the reply. The estimate fails as a
  whole when the tokenizer throws. While the estimate is over 3300 and more than two messages
  remain, the message at index 1 is spliced out of the shared array. The trimming loop is an
  imperative method. It is proved against the recursive function `Trimming.Trimmed`, which is
  stated for any budget test, and the trimming properties are proved as lemmas about that
  function.
- **The completion route** (`OrderReturns`). It builds the system prompt from the order context.
  It puts the prompt in front of the messages unless a system message is already there. Then it
  hands the array to the service, which trims it in place and builds the streaming request.
- **The widget** (`ReturnCard`, `OrderAssistant`). It interprets the model's `propose_return`
  and `cancel_return` calls and answers each with a function message. It turns a proposal into
  card data, confirms a proposal to create the return, and renders the transcript. The card
  shows either the "Return created" badge or the "Create return" button, never both.

Conventions of the model:

- Values JavaScript can leave `null` or `undefined` are `Option`.
- A computation that can `return;`, return a value or throw a TypeError yields an `Eval`.
- A message object is the sequence of its own properties, each value already converted with
  `String`.
- The messages array the route and the service share is the class `Messages.MessageArray`.
- The widget's React state (`returnId`, `returnApiObject`, `returnsCreated`) is the fields of
  `OrderAssistant.OrderAssistantWidget`.
- Parameters stand for what the core cannot see:
  - the tokenizer: `Encoder`, where `None` means `encode` threw;
  - the fresh id that `nanoid` draws;
  - how a domain mutation settles: `MutationOutcome` for a cancellation, `CreateOutcome` for a
    created return with the ids of the order's returns.

The widget file and the standalone card component hold two identical copies of `parseItems`,
`parseShipping` and `handleReturnCard`. `ReturnCard` defines them once.

Behaviour of the code worth knowing:

- The card's refund is the model's `refund` minus the shipping price. It is not recomputed from
  the item totals (`ReturnCard.ExampleUnresolvedReason`).
- A card needs every item to carry a `reason_id`, but not that the id names a known reason. An
  unknown id yields a card row with no reason label.
- `cancel_return` acts on the return id held before the call. An id passed in the call is
  stored only for later calls, because the handler reads the `returnId` of the render that
  created it. So a first `cancel_return("ret_1")` answers "No return_id provided".
- `JSON.parse` of tool-call arguments sits outside the `try`, so malformed arguments are not
  caught. The model takes arguments as already parsed (see "Left out").

## Model

| member | source | states |
|---|---|---|
| JsValues.Find | src/admin/widgets/assistants/order-assistant.tsx:135-139 | `find` by id gives the first index whose key matches, no earlier element matches, and None exactly when no element matches |
| Messages.Lookup | src/api/routes/admin/completion/order-returns.ts:56 | a property read finds a value exactly when a property of that key exists, and the value is that of the first such property |
| Messages.MessageArray.RemoveAt | src/services/open-ai.ts:33 | `splice(i, 1)` leaves the elements before `i` followed by the elements after it |
| Messages.MessageArray.Unshift | src/api/routes/admin/completion/order-returns.ts:57 | `unshift` puts the new element in front of all old ones |
| OpenAi.Over | src/services/open-ai.ts:32 | a count that is `undefined` is never over the budget; a defined one is over exactly when it is above 3300 |
| OpenAi.FieldCost | src/services/open-ai.ts:57-62 | one property costs its value's encoded length, one less exactly when the key is `name`, and fails exactly when `encode` throws on its value |
| OpenAi.FieldsCost | src/services/open-ai.ts:57-62 | an object's property cost is defined exactly when `encode` succeeds on every property value |
| OpenAi.EntryCost | src/services/open-ai.ts:54-62 | a `null` element costs nothing; an object costs the overhead plus its property cost, and fails exactly when encoding one of its values throws |
| OpenAi.EntriesCost | src/services/open-ai.ts:54-63 | a list's cost is defined exactly when `encode` succeeds on every property value of every non-null element |
| OpenAi.FunctionsCost | src/services/open-ai.ts:66-77 | an absent function list costs nothing; a present one is defined exactly when all its property values encode |
| OpenAi.TokenCount | src/services/open-ai.ts:49-85 | the estimate is `undefined` exactly when `encode` throws on some property value of a message or function; otherwise it is the message cost plus the function cost plus 2 |
| OpenAi.FieldsCostAppend | src/services/open-ai.ts:57-62 | the cost of an object's properties is additive over any split of them, and a throw anywhere makes the whole cost fail |
| OpenAi.EntriesCostAppend | src/services/open-ai.ts:54-63 | the cost of a message list is additive over any split of the list |
| OpenAi.FieldsCostLowerBound | src/services/open-ai.ts:57-62 | with unique keys at most one `name` discount applies, so properties never cost below -1, or below 0 without `name` |
| OpenAi.EntryCostLowerBound | src/services/open-ai.ts:55-62 | a non-null message costs at least 3 and a function at least 1 |
| Trimming.WithoutSecond | src/services/open-ai.ts:33 | removing index 1 keeps the first message and all messages from index 2, one shorter |
| OpenAi.RemovingSecondLowersCount | src/services/open-ai.ts:32-34 | a removal lowers a successful estimate by exactly the removed message's cost: by 0 for `null`, by at least 3 for an object |
| Trimming.Drop | src/services/open-ai.ts:32-34 | `k` removals at index 1 leave `n-k` messages, the first one first |
| Trimming.Trimmed | src/services/open-ai.ts:32-36 | trimming never grows the list; it keeps two messages or fewer, and any list not over budget, as they are; it never goes below two; the result is the first message followed by the newest ones; afterwards the list is within budget or only two messages remain |
| Trimming.TrimmedStep | src/services/open-ai.ts:32-35 | one loop round on an over-budget list of more than two messages does not change what the loop ends with |
| Trimming.TrimmedKeepsLast | src/services/open-ai.ts:32-36 | the newest message is never removed |
| Trimming.TrimmedRemovesOnlyWhileOver | src/services/open-ai.ts:32-36 | before every removal the list was over budget with more than two messages, so nothing is removed that need not be |
| Trimming.TrimmedIdempotent | src/services/open-ai.ts:32-36 | trimming a trimmed list changes nothing |
| OpenAi.OpenAiService.constructor | src/services/open-ai.ts:13-19 | the model is the configured one when it is non-empty, else "gpt-3.5-turbo-0613" |
| OpenAi.OpenAiService.CountFields | src/services/open-ai.ts:57-62 | the property loop computes the specified property cost, failing when `encode` throws |
| OpenAi.OpenAiService.CountEntries | src/services/open-ai.ts:54-63 | the loop over messages (or functions) skips `null` elements and computes the specified list cost |
| OpenAi.OpenAiService.CountTokens | src/services/open-ai.ts:49-85 | `count_tokens` is the specified estimate, `undefined` when the tokenizer threw |
| OpenAi.OpenAiService.Create | src/services/open-ai.ts:22-46 | the array is trimmed in place to exactly `Trimmed` of its old contents under the 3300-token test, and the request carries the model, temperature 0.1, streaming, the trimmed messages, the functions and "auto" |
| OrderReturns.SystemPromptLayout | src/api/routes/admin/completion/order-returns.ts:20-53 | the system prompt (`SystemPrompt`, which is `Prompt` with the fixed instructions) is the instructions, then the JSON of items, customer, return reasons, shipping options and currency code, each right after its label, then the closing sentence |
| OrderReturns.FindSystem | src/api/routes/admin/completion/order-returns.ts:56 | the search finds a system message exactly when one occurs before any `null` element; it reports none exactly when every element is a non-system object; otherwise it throws |
| OrderReturns.IsSystem | src/api/routes/admin/completion/order-returns.ts:56 | a message is a system message exactly when it is an object whose first `role` property has the value "system" |
| OrderReturns.WithSystemPrompt | src/api/routes/admin/completion/order-returns.ts:55-58 | the step fails exactly when the search throws; afterwards the search finds a system message; the list is unchanged exactly when it already had one; the old messages follow at most one new one |
| OrderReturns.PrependWhenAbsent | src/api/routes/admin/completion/order-returns.ts:55-58 | without a system message exactly one system message is put first and the old messages follow unchanged |
| OrderReturns.UnchangedWhenPresent | src/api/routes/admin/completion/order-returns.ts:55-58 | a conversation with a system message before any `null` element is left as it is |
| OrderReturns.WithSystemPromptIdempotent | src/api/routes/admin/completion/order-returns.ts:55-58 | the prepend-if-absent step applied twice equals applying it once |
| OrderReturns.HandleOrderReturns | src/api/routes/admin/completion/order-returns.ts:5-61 | when the search throws nothing changes; otherwise the array becomes the trimmed conversation with the prompt prepended if absent, and the request names the return tools |
| ReturnCard.WithoutReason | src/admin/widgets/assistants/return-card.tsx:50-52 | the filter keeps exactly the items without a truthy `reason_id`, with their multiplicities, and is empty exactly when every item has one |
| ReturnCard.WithoutReasonAppend | src/admin/widgets/assistants/return-card.tsx:50-52 | the filter keeps input order: filtering a concatenation concatenates the filtered parts |
| ReturnCard.ReasonLabel | src/admin/widgets/assistants/return-card.tsx:61-72 | a label is shown exactly when some reason has the item's reason id, and it is the label of the first such reason |
| ReturnCard.RowFor | src/admin/widgets/assistants/return-card.tsx:65-74 | a row takes id and quantity from the argument, title, unit price, thumbnail and variant from the order item, total = quantity × unit price, and has a reason label exactly when a reason has the argument's reason id, the label of the first such reason |
| ReturnCard.BuildRows | src/admin/widgets/assistants/return-card.tsx:58-75 | rows exist exactly when every `item_id` names an order item, one row per argument in order, priced from the order item |
| ReturnCard.ParseItems | src/admin/widgets/assistants/return-card.tsx:38-76 | nothing exactly when some item lacks a reason id; a throw exactly when items are not filterable or, all having reason ids, an id names no order item; rows exactly when every item has a reason id and a known `item_id`, then one per item with id, quantity, title, unit price, total = quantity × unit price, thumbnail, variant and reason label |
| ReturnCard.ParseShipping | src/admin/widgets/assistants/return-card.tsx:79-92 | nothing exactly when `option_id` is falsy; otherwise the given price and the name of the first option with that id, absent exactly when no option matches |
| ReturnCard.HandleReturnCard | src/admin/widgets/assistants/return-card.tsx:95-105 | nothing without items or shipping; a throw exactly when item parsing throws; card data exactly when items parse and the shipping option resolves to a non-empty name; the refund is the model's refund minus the shipping price |
| ReturnCard.CardOnlyWhenResolved | src/admin/widgets/assistants/return-card.tsx:95-105 | card data implies every item has a reason id and a known `item_id`, and the option id names an option with a non-empty name |
| ReturnCard.CardWhenResolved | src/admin/widgets/assistants/return-card.tsx:95-105 | conversely, items that all carry a reason id and a known `item_id`, with an option id whose first matching option has a non-empty name, give card data with refund = the model's refund minus the shipping price |
| ReturnCard.Controls | src/admin/widgets/assistants/return-card.tsx:186-200 | the badge is shown exactly when the return was created; otherwise the button, showing the loading state |
| ReturnCard.ReturnCardView | src/admin/widgets/assistants/return-card.tsx:107-114 | the standalone card renders exactly when its arguments are present and card data exists, and it shows that data with the badge exactly when the return was created, else the button with the loading flag; it throws exactly when deriving the card data throws |
| ReturnCard.ExampleCard | src/admin/widgets/assistants/return-card.tsx:95-105 | one item `li_1` with reason `rr_1`, shipping `so_1` at 500 and refund 2000 shows one resolved row, shipping cost 500 and refund 1500 |
| ReturnCard.ExampleUnresolvedReason | src/admin/widgets/assistants/return-card.tsx:58-75 | an unknown reason id still yields a card without a reason label, and a refund of 9999 is shown as 9499 whatever the item totals |
| OrderAssistant.FormatFunctionResponse | src/admin/widgets/assistants/order-assistant.tsx:95-111 | the answer is the chat unchanged plus one `function` message with the tool name, the JSON content and a fresh id |
| OrderAssistant.Join | src/admin/widgets/assistants/order-assistant.tsx:216-218 | `join()` of ids without commas can be undone: the joined text splits back into exactly those ids, in order |
| OrderAssistant.ItemIds | src/admin/widgets/assistants/order-assistant.tsx:216-217 | the mapped list holds each item's `item_id` in order |
| OrderAssistant.ReasonQuestion | src/admin/widgets/assistants/order-assistant.tsx:215-218 | the question is the fixed opening, an id list and the fixed closing, and the id list splits at its commas into the items' ids in order when no id holds a comma |
| OrderAssistant.ProposeContent | src/admin/widgets/assistants/order-assistant.tsx:188-257 | missing items give the error with the order's items; else missing reason ids give the reason question with the reasons; else a falsy option id gives the shipping question with the options; else, or when the checks throw, the proposal is accepted |
| OrderAssistant.ReasonQuestionNamesMissing | src/admin/widgets/assistants/order-assistant.tsx:210-227 | when some listed item has no reason id the answer is the reason question, and it names exactly the ids of the items without a reason id, at least one |
| OrderAssistant.MissingIds | src/admin/widgets/assistants/order-assistant.tsx:210-217 | an id is in the mapped list of items without a reason id exactly when some item with that id lacks a reason id |
| OrderAssistant.WithoutConfirmation | src/admin/widgets/assistants/order-assistant.tsx:249 | the stored proposal is the arguments with only `create_return_user_confirmation` removed |
| OrderAssistant.CancelContent | src/admin/widgets/assistants/order-assistant.tsx:261-303 | no held return id gives "No return_id provided"; otherwise the cancellation's success message or its error message |
| OrderAssistant.OrderAssistantWidget.constructor | src/admin/widgets/assistants/order-assistant.tsx:58-61 | a mounted widget holds no return id, no proposal and no created returns |
| OrderAssistant.OrderAssistantWidget.HandleFunctionCall | src/admin/widgets/assistants/order-assistant.tsx:184-272 | a proposal is answered with its content and stored only when accepted; a cancellation acts on the id held before the call and stores the argument's id for later; other calls answer nothing; of the rendered state only the stored proposal can change |
| OrderAssistant.OrderAssistantWidget.RequestReturn | src/admin/widgets/assistants/order-assistant.tsx:275-290 | on success the newest return's id is held and the message joins the created list, which is the only change to the rendered state; on rejection, or on an order with no returns, the state is unchanged and an error is answered |
| OrderAssistant.MessageView | src/admin/widgets/assistants/order-assistant.tsx:398-441 | a card shows exactly for a `propose_return` call with card data while a proposal is stored; it submits that proposal and shows the badge exactly when the message's return was created; a throw exactly when the card data throws; a bubble exactly for a non-empty text message |
| OrderAssistant.Transcript | src/admin/widgets/assistants/order-assistant.tsx:396-441 | function messages are skipped; the render throws exactly when some shown message throws; otherwise every view comes from a shown message and every view a shown message renders appears |
| OrderAssistant.ConfirmationSwapsOnlyThatCard | src/admin/widgets/assistants/order-assistant.tsx:283-423 | recording a created return swaps that message's button for the badge and leaves every other message's rendering unchanged |

## Left out

- Network and streaming: the OpenAI call, `OpenAIStream` and `streamToResponse` are not modelled. The request value stands for the call.
- The tokenizer `tiktoken` is not modelled. It is the `Encoder` parameter, and its `encode(s).length` is arbitrary.
- `JSON.parse` and `JSON.stringify` are not modelled. Tool-call arguments arrive parsed, the prompt context arrives as JSON text, and a function message carries the content value. So a throw from parsing malformed arguments is not modelled. Neither is the "No arguments provided" initial content, which no path answers: a parsed `null` throws while it is destructured, outside the `try`, and any other falsy parsed value (`0`, `false` or `""`) destructures to `items === undefined` and is answered "No items provided". The model's `ProposeArgs` stands for a destructured object, so these parsed values are its `items == None` case.
- Property values are taken as already converted with `String`. In particular a function's `parameters` object is counted as the text "[object Object]".
- A `messages` array that is itself `null` or missing is not modelled: the route dereferences it before counting.
- A `null` element in the route's messages is modelled only up to the throw of the system-message search.
- The `console.log` calls (token counts in `create`, the caught error in `count_tokens` and in the tool-call handler) are not modelled: they only write to the console.
- Numbers are unbounded integers. Floating point, `NaN` from missing numeric arguments, and the display formatting of amounts (`formatAmount`) are not modelled.
- The domain API is modelled only as outcomes passed in. This covers creating and cancelling returns, and loading reasons and shipping options. The loading state of the hooks and the `notify` toasts are not modelled.
- `nanoid` is not modelled: the `freshId` parameter stands for its result.
- The React render cycle is not modelled. In particular, the standalone card's first render before its effect runs, focus handling, scrolling and the grow and shrink animations are left out.
- The route's wiring (`api/index.ts`, the admin router and CORS) and the `backendUrl` choice are not modelled.
- The widget's `cleanItems` request body is not modelled: it is context the route receives as JSON text.
- The cancellation hook is bound to the `returnId` of the render that created it. The model represents this as `cancelled`, the id the cancellation acts on.
- OrderAssistant.Transcript: states which views appear and which messages make the render throw, not the order of the views.
