/** Chat messages as the server side sees them: plain JavaScript objects whose
    own enumerable properties are (key, value) pairs, possibly `null`, held in
    one JavaScript array that the route and the completion service both
    edit in place. */
module Messages {
  import opened JsValues

  /** One own property of a message object; `value` is already `String(value)`. */
  datatype Field = Field(key: string, value: string)

  /** The properties of one object, in `Object.entries` order. */
  type Record = seq<Field>

  /** An element of the messages array: None stands for `null`/`undefined`. */
  type Entry = Option<Record>

  /** Property keys of a JavaScript object are unique. */
  predicate DistinctKeys(r: Record)
  {
    forall i, j :: 0 <= i < j < |r| ==> r[i].key != r[j].key
  }

  /** `obj[key]`: the value of the property called `key`, if there is one. */
  function Lookup(r: Record, key: string): (v: Option<string>)
    ensures v.Some? <==> exists i :: 0 <= i < |r| && r[i].key == key
    ensures v.Some? ==> exists i :: 0 <= i < |r| && r[i].key == key && r[i].value == v.value
                                    && forall j :: 0 <= j < i ==> r[j].key != key
    decreases |r|
  {
    if r == [] then None
    else if r[0].key == key then Some(r[0].value)
    else
      var v := Lookup(r[1..], key);
      assert forall i :: 1 <= i < |r| ==> r[i] == r[1..][i - 1];
      v
  }

  /** The JavaScript array of messages, shared by reference between the route
      handler and the completion service. */
  class MessageArray {
    var elems: seq<Entry>

    constructor (init: seq<Entry>)
      ensures elems == init
    {
      elems := init;
    }

    /** `splice(i, 1)`: removes the element at index `i`. */
    method RemoveAt(i: nat)
      requires i < |elems|
      modifies this
      ensures elems == old(elems[..i] + elems[i + 1..])
    {
      elems := elems[..i] + elems[i + 1..];
    }

    /** `unshift(e)`: puts `e` in front of every element. */
    method Unshift(e: Entry)
      modifies this
      ensures elems == [e] + old(elems)
    {
      elems := [e] + elems;
    }
  }
}
