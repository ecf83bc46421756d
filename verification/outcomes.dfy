/**
  Values shared by every fallback loop of the application: an optional value,
  the outcome of one attempt made with one credential, and the reference
  definition of "the first attempt that succeeded".
 */
module Outcomes {

  /** An optional value: JavaScript's `null`/`undefined` versus a present value. */
  datatype Option<+T> = None | Some(value: T)

  /** What one call made with one credential yields: a value, or the message of the error it threw. */
  datatype Attempt<+V> = Ok(value: V) | Err(message: string)

  /** The consecutive indices `from, from + 1, ..., from + count - 1`. */
  function Indices(from: nat, count: nat): (r: seq<nat>)
    ensures |r| == count
    ensures forall j :: 0 <= j < count ==> r[j] == from + j
  {
    seq(count, j requires 0 <= j => from + j)
  }

  /**
    Reference definition of first-success-wins: the least index at or after
    `from` whose attempt succeeded, or None when every attempt from `from` on failed.
   */
  function FirstOk<V>(attempts: seq<Attempt<V>>, from: nat): (r: Option<nat>)
    ensures r.Some? ==> from <= r.value < |attempts| && attempts[r.value].Ok?
    ensures r.Some? ==> forall j :: from <= j < r.value ==> attempts[j].Err?
    ensures r.None? <==> forall j :: from <= j < |attempts| ==> attempts[j].Err?
    decreases |attempts| - from
  {
    if from >= |attempts| then None
    else if attempts[from].Ok? then Some(from)
    else FirstOk(attempts, from + 1)
  }

  /** `FirstOk` finds exactly the least successful index. */
  lemma {:induction false} FirstOkIsLeastSuccess<V>(attempts: seq<Attempt<V>>, from: nat, i: nat)
    requires from <= i < |attempts| && attempts[i].Ok?
    requires forall j :: from <= j < i ==> attempts[j].Err?
    ensures FirstOk(attempts, from) == Some(i)
    decreases i - from
  {
    if from < i {
      FirstOkIsLeastSuccess(attempts, from + 1, i);
    }
  }
}
