/** Small notions that every other module shares. */
module Wrappers {
  datatype Option<+T> = None | Some(value: T)

  ghost predicate Distinct<T>(s: seq<T>) {
    forall i, j :: 0 <= i < j < |s| ==> s[i] != s[j]
  }

  lemma Reassociate<T>(a: seq<T>, b: seq<T>, c: seq<T>)
    ensures (a + b) + c == a + (b + c)
  {
  }

  /** `part` is what stands in the list at the places `at`, in the order of the list. */
  ghost predicate Places<T>(list: seq<T>, part: seq<T>, at: seq<nat>) {
    && |at| == |part| && (forall i, j :: 0 <= i < j < |at| ==> at[i] < at[j])
    && forall i :: 0 <= i < |at| ==> at[i] < |list| && list[at[i]] == part[i]
  }

  /** The places in a list with one more element in front. */
  lemma PlacesBehind<T>(list: seq<T>, part: seq<T>, rest: seq<nat>) returns (at: seq<nat>)
    requires list != [] && Places(list[1..], part, rest)
    ensures |at| == |rest| && forall i :: 0 <= i < |at| ==> at[i] == rest[i] + 1
    ensures Places(list, part, at) && Places(list, [list[0]] + part, [0] + at)
  {
    at := seq(|rest|, i requires 0 <= i < |rest| => rest[i] + 1);
  }
}
