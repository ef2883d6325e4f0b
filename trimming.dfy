/** The trimming rule of the completion service, independent of how a
    message list is measured: while a list is over budget and more than two
    messages remain, the message at index 1 is removed. */
module Trimming {

  /** The message array without its element at index 1, as `splice(1, 1)` leaves it. */
  function WithoutSecond<T>(ms: seq<T>): (r: seq<T>)
    requires |ms| >= 2
    ensures |r| == |ms| - 1 && r[0] == ms[0] && r[1..] == ms[2..]
  {
    ms[..1] + ms[2..]
  }

  /** The first message followed by the last `|ms| - 1 - k` messages:
      what `k` rounds of `splice(1, 1)` leave. */
  function Drop<T>(ms: seq<T>, k: nat): (r: seq<T>)
    requires k < |ms|
    ensures |r| == |ms| - k && r[0] == ms[0]
  {
    [ms[0]] + ms[k + 1..]
  }

  /** No removal leaves the list as it is. */
  lemma DropNone<T>(ms: seq<T>)
    requires |ms| > 0
    ensures Drop(ms, 0) == ms
  {
    assert ms == [ms[0]] + ms[1..];
  }

  /** `k` removals after a first one are `k + 1` removals. */
  lemma DropAfterRemoval<T>(ms: seq<T>, k: nat)
    requires |ms| >= 2 && k + 1 < |ms|
    ensures Drop(WithoutSecond(ms), k) == Drop(ms, k + 1)
  {
    var ms' := WithoutSecond(ms);
    assert ms'[k + 1..] == ms'[1..][k..];
    assert ms[k + 2..] == ms[2..][k..];
  }

  /** What the trimming loop leaves of `ms` under the budget test `over`:
      while the list is over and more than two messages remain, the message
      at index 1 goes. The result is the first message followed by the
      newest messages, and it is within budget unless only two are left. */
  function Trimmed<T>(ms: seq<T>, over: seq<T> -> bool): (r: seq<T>)
    ensures |r| <= |ms|
    ensures |ms| <= 2 ==> r == ms
    ensures !over(ms) ==> r == ms
    ensures |ms| > 2 ==> |r| >= 2
    ensures |ms| > 0 ==> r == Drop(ms, |ms| - |r|)
    ensures !over(r) || |r| <= 2
    decreases |ms|
  {
    if over(ms) && |ms| > 2 then
      var r := Trimmed(WithoutSecond(ms), over);
      DropAfterRemoval(ms, |ms| - 1 - |r|);
      r
    else if ms == [] then ms
    else
      DropNone(ms);
      ms
  }

  /** One round of the loop: an over-budget list with more than two
      messages trims to what its shortened list trims to. */
  lemma TrimmedStep<T>(ms: seq<T>, over: seq<T> -> bool)
    requires over(ms) && |ms| > 2
    ensures Trimmed(ms, over) == Trimmed(WithoutSecond(ms), over)
  {
  }

  /** The last message always survives trimming. */
  lemma TrimmedKeepsLast<T>(ms: seq<T>, over: seq<T> -> bool)
    requires |ms| > 0
    ensures |Trimmed(ms, over)| > 0 && Trimmed(ms, over)[|Trimmed(ms, over)| - 1] == ms[|ms| - 1]
  {
    var r := Trimmed(ms, over);
    var k := |ms| - |r|;
    if |r| > 1 {
      assert r[|r| - 1] == ms[k + 1..][|r| - 2];
    }
  }

  /** Trimming drops no more messages than it must: before each of the `k`
      removals the list was still over budget with more than two messages. */
  lemma {:induction false} TrimmedRemovesOnlyWhileOver<T>(ms: seq<T>, over: seq<T> -> bool)
    requires |ms| > 0
    ensures forall j :: 0 <= j < |ms| - |Trimmed(ms, over)| ==> |Drop(ms, j)| > 2 && over(Drop(ms, j))
    decreases |ms|
  {
    var r := Trimmed(ms, over);
    if over(ms) && |ms| > 2 {
      var ms' := WithoutSecond(ms);
      assert r == Trimmed(ms', over);
      TrimmedRemovesOnlyWhileOver(ms', over);
      forall j | 0 <= j < |ms| - |r|
        ensures |Drop(ms, j)| > 2 && over(Drop(ms, j))
      {
        if j == 0 {
          DropNone(ms);
        } else {
          DropAfterRemoval(ms, j - 1);
          assert |Drop(ms', j - 1)| > 2 && over(Drop(ms', j - 1));
        }
      }
    }
  }

  /** Trimming an already trimmed list changes nothing. */
  lemma TrimmedIdempotent<T>(ms: seq<T>, over: seq<T> -> bool)
    ensures Trimmed(Trimmed(ms, over), over) == Trimmed(ms, over)
  {
  }
}
