/** The completion service: the token estimate of a conversation plus its
    function list, and the loop that drops old messages until the estimate
    fits the budget. The tokenizer is a parameter; a `None` from it is an
    exception thrown by `encode`, which the counter catches as a whole. */
module OpenAi {
  import opened JsValues
  import opened Messages
  import opened Trimming

  /** The tokenizer's `encode(s).length`; None when `encode` throws. */
  type Encoder = string -> Option<nat>

  /** Above this many tokens the oldest message after the first is dropped. */
  const TokenBudget := 3300

  /** The model used when the service options give none. */
  const DefaultModel := "gpt-3.5-turbo-0613"

  /** JavaScript `>` on a count that may be `undefined`: `undefined > n` is false. */
  predicate Over(tokens: Option<int>)
    ensures tokens.None? ==> !Over(tokens)
    ensures tokens.Some? ==> (Over(tokens) <==> tokens.value >= TokenBudget + 1)
  {
    tokens.Some? && tokens.value > TokenBudget
  }

  /** Addition inside a `try`: once one part has thrown the sum has too. */
  function Add(a: Option<int>, b: Option<int>): Option<int>
  {
    if a.Some? && b.Some? then Some(a.value + b.value) else None
  }

  /** `encode` succeeds on every property value of one object. */
  predicate FieldsEncode(fs: seq<Field>, enc: Encoder)
  {
    forall j :: 0 <= j < |fs| ==> enc(fs[j].value).Some?
  }

  /** `encode` succeeds on every property value of every non-null element. */
  predicate EntriesEncode(es: seq<Entry>, enc: Encoder)
  {
    forall i :: 0 <= i < |es| && es[i].Some? ==> FieldsEncode(es[i].value, enc)
  }

  // ---------------------------------------------------------------------
  // The cost formula
  // ---------------------------------------------------------------------

  /** One property: the encoded length of its value, one less for `name`. */
  function FieldCost(f: Field, enc: Encoder): (r: Option<int>)
    ensures r.Some? <==> enc(f.value).Some?
    ensures r.Some? ==> enc(f.value).value - 1 <= r.value <= enc(f.value).value
    ensures r.Some? ==> (r.value == enc(f.value).value <==> f.key != "name")
  {
    match enc(f.value)
    case None => None
    case Some(n) => Some(if f.key == "name" then n - 1 else n)
  }

  /** All properties of one object, in order; fails exactly when `encode`
      throws on one of their values. */
  function FieldsCost(fs: seq<Field>, enc: Encoder): (r: Option<int>)
    ensures r.Some? <==> FieldsEncode(fs, enc)
    decreases |fs|
  {
    if fs == [] then Some(0)
    else
      var init := fs[..|fs| - 1];
      assert forall j :: 0 <= j < |init| ==> init[j] == fs[j];
      Add(FieldsCost(init, enc), FieldCost(fs[|fs| - 1], enc))
  }

  /** One array element: nothing for `null`, else a fixed overhead plus its properties. */
  function EntryCost(e: Entry, overhead: nat, enc: Encoder): (r: Option<int>)
    ensures e.None? ==> r == Some(0)
    ensures r.Some? <==> e.None? || FieldsEncode(e.value, enc)
    ensures r.Some? && e.Some? ==> r.value - overhead == FieldsCost(e.value, enc).value
  {
    match e
    case None => Some(0)
    case Some(rec) => Add(Some(overhead), FieldsCost(rec, enc))
  }

  /** All elements of an array, each with the same overhead; fails exactly
      when `encode` throws on a property value of some non-null element. */
  function EntriesCost(es: seq<Entry>, overhead: nat, enc: Encoder): (r: Option<int>)
    ensures r.Some? <==> EntriesEncode(es, enc)
    decreases |es|
  {
    if es == [] then Some(0)
    else
      var init := es[..|es| - 1];
      assert forall i :: 0 <= i < |init| ==> init[i] == es[i];
      Add(EntriesCost(init, overhead, enc), EntryCost(es[|es| - 1], overhead, enc))
  }

  /** The optional function list: 2 per function plus its properties; an absent list costs nothing. */
  function FunctionsCost(functions: Option<seq<Entry>>, enc: Encoder): (r: Option<int>)
    ensures functions.None? ==> r == Some(0)
    ensures r.Some? <==> functions.None? || EntriesEncode(functions.value, enc)
  {
    match functions
    case None => Some(0)
    case Some(fs) => EntriesCost(fs, 2, enc)
  }

  /** The estimate: 4 per message and 2 per function, each plus its
      properties, and 2 for the reply priming. It is `undefined` exactly when
      `encode` throws on some property value of a message or a function. */
  function TokenCount(messages: seq<Entry>, functions: Option<seq<Entry>>, enc: Encoder): (r: Option<int>)
    ensures r.Some? <==>
      EntriesEncode(messages, enc) && (functions.None? || EntriesEncode(functions.value, enc))
    ensures r.Some? ==>
      r.value - 2 == EntriesCost(messages, 4, enc).value + FunctionsCost(functions, enc).value
  {
    Add(Add(EntriesCost(messages, 4, enc), FunctionsCost(functions, enc)), Some(2))
  }

  lemma {:induction false} FieldsCostAppend(a: seq<Field>, b: seq<Field>, enc: Encoder)
    ensures FieldsCost(a + b, enc) == Add(FieldsCost(a, enc), FieldsCost(b, enc))
    decreases |b|
  {
    if b == [] {
      assert a + b == a;
    } else {
      var b' := b[..|b| - 1];
      assert (a + b)[..|a + b| - 1] == a + b';
      assert (a + b)[|a + b| - 1] == b[|b| - 1];
      FieldsCostAppend(a, b', enc);
    }
  }

  lemma {:induction false} EntriesCostAppend(a: seq<Entry>, b: seq<Entry>, overhead: nat, enc: Encoder)
    ensures EntriesCost(a + b, overhead, enc) == Add(EntriesCost(a, overhead, enc), EntriesCost(b, overhead, enc))
    decreases |b|
  {
    if b == [] {
      assert a + b == a;
    } else {
      var b' := b[..|b| - 1];
      assert (a + b)[..|a + b| - 1] == a + b';
      assert (a + b)[|a + b| - 1] == b[|b| - 1];
      EntriesCostAppend(a, b', overhead, enc);
    }
  }

  /** Some property of the object is called `name`. */
  predicate HasName(fs: seq<Field>)
  {
    exists i :: 0 <= i < |fs| && fs[i].key == "name"
  }

  /** With unique keys at most one property is `name`, so the properties
      together never cost less than -1 (and never less than 0 without `name`). */
  lemma {:induction false} FieldsCostLowerBound(fs: seq<Field>, enc: Encoder)
    requires DistinctKeys(fs)
    requires FieldsCost(fs, enc).Some?
    ensures FieldsCost(fs, enc).value >= (if HasName(fs) then -1 else 0)
    decreases |fs|
  {
    if fs != [] {
      var init, last := fs[..|fs| - 1], fs[|fs| - 1];
      assert DistinctKeys(init) by {
        forall i, j | 0 <= i < j < |init| ensures init[i].key != init[j].key {
          assert init[i] == fs[i] && init[j] == fs[j];
        }
      }
      FieldsCostLowerBound(init, enc);
      if last.key == "name" {
        assert !HasName(init) by {
          forall i | 0 <= i < |init| ensures init[i].key != "name" {
            assert init[i] == fs[i];
          }
        }
      }
      if HasName(init) {
        var i :| 0 <= i < |init| && init[i].key == "name";
        assert fs[i].key == "name";
      }
    }
  }

  /** A non-null object with unique keys costs at least its overhead less one:
      a message at least 3 tokens, a function at least 1. */
  lemma EntryCostLowerBound(r: Record, overhead: nat, enc: Encoder)
    requires DistinctKeys(r)
    requires EntryCost(Some(r), overhead, enc).Some?
    ensures EntryCost(Some(r), overhead, enc).value >= overhead - 1
  {
    FieldsCostLowerBound(r, enc);
  }

  /** Removing the message at index 1 lowers a successful count by exactly
      that message's cost: nothing for `null`, at least 3 for an object. */
  lemma RemovingSecondLowersCount(ms: seq<Entry>, functions: Option<seq<Entry>>, enc: Encoder)
    requires |ms| >= 2
    requires TokenCount(ms, functions, enc).Some?
    ensures TokenCount(WithoutSecond(ms), functions, enc).Some?
    ensures EntryCost(ms[1], 4, enc).Some?
    ensures TokenCount(WithoutSecond(ms), functions, enc).value
         == TokenCount(ms, functions, enc).value - EntryCost(ms[1], 4, enc).value
    ensures ms[1].None? ==> TokenCount(WithoutSecond(ms), functions, enc) == TokenCount(ms, functions, enc)
    ensures ms[1].Some? && DistinctKeys(ms[1].value) ==>
      TokenCount(WithoutSecond(ms), functions, enc).value <= TokenCount(ms, functions, enc).value - 3
  {
    var first, second, rest := ms[..1], ms[1..2], ms[2..];
    assert ms == first + second + rest;
    EntriesCostAppend(first + second, rest, 4, enc);
    EntriesCostAppend(first, second, 4, enc);
    EntriesCostAppend(first, rest, 4, enc);
    assert EntriesCost(second, 4, enc) == Add(Some(0), EntryCost(ms[1], 4, enc)) by {
      assert second[..0] == [];
    }
    if ms[1].Some? && DistinctKeys(ms[1].value) {
      EntryCostLowerBound(ms[1].value, 4, enc);
    }
  }

  // ---------------------------------------------------------------------
  // The budget test
  // ---------------------------------------------------------------------

  /** The loop condition's budget test on a message list: the estimate of
      the list with the given functions is over 3300. */
  function OverBudget(functions: Option<seq<Entry>>, enc: Encoder): seq<Entry> -> bool
  {
    ms => Over(TokenCount(ms, functions, enc))
  }

  lemma OverBudgetApplies(functions: Option<seq<Entry>>, enc: Encoder, ms: seq<Entry>)
    ensures OverBudget(functions, enc)(ms) == Over(TokenCount(ms, functions, enc))
  {
  }

  // ---------------------------------------------------------------------
  // The service
  // ---------------------------------------------------------------------

  /** The parameters of the streaming chat-completion request. */
  datatype CompletionRequest = CompletionRequest(
    model: string,
    temperature: real,
    stream: bool,
    messages: seq<Entry>,
    functions: Option<seq<Entry>>,
    functionCall: string)

  class OpenAiService {
    const model: string
    const encode: Encoder

    /** `options.model || "gpt-3.5-turbo-0613"`; the encoder is the tokenizer. */
    constructor (optionsModel: Option<string>, encode: Encoder)
      ensures model == (if Truthy(optionsModel) then optionsModel.value else DefaultModel)
      ensures this.encode == encode
    {
      model := if Truthy(optionsModel) then optionsModel.value else DefaultModel;
      this.encode := encode;
    }

    /** The inner loop of `count_tokens`: the properties of one object. */
    method CountFields(fields: seq<Field>) returns (r: Option<int>)
      ensures r == FieldsCost(fields, encode)
    {
      var numTokens: int := 0;
      var j := 0;
      while j < |fields|
        invariant 0 <= j <= |fields|
        invariant FieldsCost(fields[..j], encode) == Some(numTokens)
      {
        assert fields[..j + 1][..j] == fields[..j];
        var n := encode(fields[j].value);
        if n.None? {
          assert !FieldsEncode(fields, encode);
          return None;
        }
        numTokens := numTokens + n.value;
        if fields[j].key == "name" {
          numTokens := numTokens - 1;
        }
        j := j + 1;
      }
      assert fields[..j] == fields;
      r := Some(numTokens);
    }

    /** The outer loop of `count_tokens`, shared by messages and functions:
        `null` elements are skipped, the others cost `overhead` plus their properties. */
    method CountEntries(es: seq<Entry>, overhead: nat) returns (r: Option<int>)
      ensures r == EntriesCost(es, overhead, encode)
    {
      var numTokens: int := 0;
      var i := 0;
      while i < |es|
        invariant 0 <= i <= |es|
        invariant EntriesCost(es[..i], overhead, encode) == Some(numTokens)
      {
        assert es[..i + 1][..i] == es[..i];
        if es[i].Some? {
          var f := CountFields(es[i].value);
          if f.None? {
            assert !EntriesEncode(es, encode);
            return None;
          }
          numTokens := numTokens + overhead + f.value;
        }
        i := i + 1;
      }
      assert es[..i] == es;
      r := Some(numTokens);
    }

    /** `count_tokens(messages, functions)`: None when encoding threw. */
    method CountTokens(messages: seq<Entry>, functions: Option<seq<Entry>>) returns (r: Option<int>)
      ensures r == TokenCount(messages, functions, encode)
    {
      var m := CountEntries(messages, 4);
      if m.None? {
        return None;
      }
      var numTokens := m.value;
      if functions.Some? {
        var f := CountEntries(functions.value, 2);
        if f.None? {
          return None;
        }
        numTokens := numTokens + f.value;
      }
      numTokens := numTokens + 2;
      r := Some(numTokens);
    }

    /** `create`: trims the caller's array in place, then builds the request. */
    method Create(messages: MessageArray, functions: Option<seq<Entry>>) returns (request: CompletionRequest)
      modifies messages
      ensures messages.elems == Trimmed(old(messages.elems), OverBudget(functions, encode))
      ensures request == CompletionRequest(model, 0.1, true, messages.elems, functions, "auto")
    {
      ghost var over := OverBudget(functions, encode);
      ghost var goal := Trimmed(messages.elems, over);
      var tokens := CountTokens(messages.elems, functions);
      while Over(tokens) && |messages.elems| > 2
        invariant tokens == TokenCount(messages.elems, functions, encode)
        invariant Trimmed(messages.elems, over) == goal
        decreases |messages.elems|
      {
        ghost var before := messages.elems;
        assert over(before) by {
          OverBudgetApplies(functions, encode, before);
        }
        TrimmedStep(before, over);
        messages.RemoveAt(1);
        assert messages.elems == WithoutSecond(before);
        tokens := CountTokens(messages.elems, functions);
      }
      request := CompletionRequest(model, 0.1, true, messages.elems, functions, "auto");
    }
  }
}
