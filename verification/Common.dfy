/**
 Types and notions that several of the models share.
 */
module Common {

  datatype Option<T> = None | Some(value: T)

  datatype Result<T, E> = Success(value: T) | Failure(error: E)

  /** An atomic pointer: which value it points at, and the value. */
  datatype Pointer<T> = Pointer(id: nat, value: T)

  function Min(a: int, b: int): int {
    if a <= b then a else b
  }

  function Max(a: nat, b: nat): nat {
    if a >= b then a else b
  }

  predicate Ascending(s: seq<nat>) {
    forall i, j :: 0 <= i < j < |s| ==> s[i] < s[j]
  }

  /** What the other goroutines do, between any two steps of the one under study. */
  class Schedule<T> {
    var rest: seq<seq<T>>

    constructor (rest: seq<seq<T>>)
      ensures this.rest == rest
    {
      this.rest := rest;
    }

    /** The steps they take before the next one. */
    method Next() returns (steps: seq<T>)
      modifies this
      ensures rest == if old(rest) == [] then [] else old(rest)[1..]
      ensures steps == if old(rest) == [] then [] else old(rest)[0]
    {
      steps := [];
      if rest != [] {
        steps, rest := rest[0], rest[1..];
      }
    }
  }
}
