/** What it means that a sequence is picked from another one. */
module Sequences {
  /** `result` consists of the elements of `list` at these positions, in their order and each position once. */
  ghost predicate PickedAt<T>(result: seq<T>, list: seq<T>, at: seq<nat>) {
    && |at| == |result|
    && (forall k :: 0 <= k < |at| ==> at[k] < |list| && result[k] == list[at[k]])
    && (forall j, k :: 0 <= j < k < |at| ==> at[j] < at[k])
  }

  /** Looking at one more element, which is picked or not. */
  lemma OneMorePicked<T>(result: seq<T>, list: seq<T>, at: seq<nat>, n: nat)
    requires n < |list| && PickedAt(result, list[..n], at)
    ensures PickedAt(result, list, at) && PickedAt(result + [list[n]], list, at + [n])
  {
  }
}
