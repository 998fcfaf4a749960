/** Values shared by every module of the model. */
module Common {

  /** A value that may be absent: a missing dictionary key, a timed-out read, a failed decode. */
  datatype Option<+T> = None | Some(value: T)

  /** `d.get(key, default)` on a string-valued field. */
  function GetOr(field: Option<string>, default: string): string
  {
    if field.Some? then field.value else default
  }

  /** Appending is associative; stated once so that proofs about logs need not rediscover it. */
  lemma AppendAssoc<T>(a: seq<T>, b: seq<T>, c: seq<T>)
    ensures a + (b + c) == (a + b) + c
  {
  }
}
