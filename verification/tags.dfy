/** Failure-compatible wrappers used throughout the model. */
module Wrappers {

  datatype Option<+T> = None | Some(value: T)

  /** Either a value or the error that stopped the computation producing it. */
  datatype Result<+T, +E> = Success(value: T) | Failure(error: E) {

    predicate IsFailure() {
      Failure?
    }

    function PropagateFailure<U>(): Result<U, E>
      requires Failure?
    {
      Failure(error)
    }

    function Extract(): T
      requires Success?
    {
      value
    }
  }
}

/**
  The decoded tag tree handed over by the world reader. Binary decoding is not
  part of the model: a chunk, a player save and an item node all arrive here
  already decoded into this datatype.
 */
module Tags {
  import opened Wrappers

  /** A tag node: a scalar leaf, an ordered list of tags, or named fields. */
  datatype Tag =
    | TStr(s: string)
    | TInt(i: int)
    | TReal(r: real)
    | TList(elems: seq<Tag>)
    | TCompound(fields: map<string, Tag>)

  /** The exceptions that tag access can raise in inv_analysis.py. */
  datatype Fault =
    | KeyMissing(key: string)  // a named field is absent (KeyError)
    | OutOfRange               // a positional access past the end of a list (IndexError)
    | WrongShape               // named or positional access, or iteration, on a tag that does not support it
    | WrongKind                // a value of a kind the code cannot use

  /** Named field access, `t[key]`. */
  function Get(t: Tag, key: string): (r: Result<Tag, Fault>)
    ensures r.Success? <==> t.TCompound? && key in t.fields
    ensures r.Success? ==> r.value == t.fields[key]
    ensures t.TCompound? && key !in t.fields ==> r == Failure(KeyMissing(key))
    ensures !t.TCompound? ==> r == Failure(WrongShape)
  {
    match t
    case TCompound(fields) =>
      if key in fields then Success(fields[key]) else Failure(KeyMissing(key))
    case _ => Failure(WrongShape)
  }

  /** Positional access, `t[i]`. */
  function At(t: Tag, i: nat): (r: Result<Tag, Fault>)
    ensures r.Success? <==> t.TList? && i < |t.elems|
    ensures r.Success? ==> r.value == t.elems[i]
    ensures t.TList? && |t.elems| <= i ==> r == Failure(OutOfRange)
    ensures !t.TList? ==> r == Failure(WrongShape)
  {
    match t
    case TList(elems) =>
      if i < |elems| then Success(elems[i]) else Failure(OutOfRange)
    case _ => Failure(WrongShape)
  }
}
