/** Vocabulary shared by every component of the model. */
module Shared {

  datatype Option<+T> = None | Some(value: T)

  /** The engine's error codes; a thrown error is modelled as an `Err` value. */
  datatype ErrorCode =
    | ValidationFailed
    | SchemaInvalid
    | NotFound
    | Conflict
    | PermissionDenied
    | InsufficientFunds
    | LimitExceeded
    | Internal

  datatype Result<+T> = Ok(value: T) | Err(code: ErrorCode)

  /** The largest integer a JavaScript number represents exactly. */
  const MAX_SAFE_INTEGER: int := 0x1F_FFFF_FFFF_FFFF

  predicate SafeInteger(n: int) {
    -MAX_SAFE_INTEGER <= n <= MAX_SAFE_INTEGER
  }

  function Min(a: int, b: int): int {
    if a < b then a else b
  }

  function Max(a: int, b: int): int {
    if a < b then b else a
  }

  function Sum(xs: seq<int>): int {
    if xs == [] then 0 else xs[0] + Sum(xs[1..])
  }

  lemma {:induction false} SumConcat(xs: seq<int>, ys: seq<int>)
    ensures Sum(xs + ys) == Sum(xs) + Sum(ys)
  {
    if xs == [] {
      assert xs + ys == ys;
    } else {
      assert (xs + ys)[1..] == xs[1..] + ys;
      SumConcat(xs[1..], ys);
    }
  }

  lemma ConcatAssociates<T>(a: seq<T>, b: seq<T>, c: seq<T>)
    ensures a + (b + c) == a + b + c
  {
  }
}
