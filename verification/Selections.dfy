/** Parts of a sequence that keep its order. */
module Selections {

  /** Strictly increasing positions in a sequence of length `n`. */
  ghost predicate Increasing(at: seq<nat>, n: nat) {
    && (forall i :: 0 <= i < |at| ==> at[i] < n)
    && (forall i, j :: 0 <= i < j < |at| ==> at[i] < at[j])
  }

  /** `part` holds the elements of `s` at these positions, in the order of `s`. */
  ghost predicate PartAt<T>(s: seq<T>, part: seq<T>, at: seq<nat>) {
    && Increasing(at, |s|) && |part| == |at|
    && forall i :: 0 <= i < |at| ==> part[i] == s[at[i]]
  }

  lemma PartGrows<T>(s: seq<T>, part: seq<T>, at: seq<nat>, last: T)
    requires PartAt(s, part, at)
    ensures PartAt(s + [last], part, at)
    ensures PartAt(s + [last], part + [last], at + [|s|])
  {
  }
}
