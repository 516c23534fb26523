/**
 * The small part of Rust's standard vocabulary the model needs: `Option`
 * (with `unwrap_or` and `and_then`), the all-or-nothing `collect` of a
 * partial map, and the `i64` integer range.
 */
module Prelude {

  /** Rust's `Option<T>`; also failure-compatible, so `:-` propagates `None`. */
  datatype Option<+T> = None | Some(value: T) {

    predicate IsFailure() {
      None?
    }

    function PropagateFailure<U>(): Option<U>
      requires None?
    {
      None
    }

    function Extract(): T
      requires Some?
    {
      value
    }

    /** Rust's `Option::unwrap_or`. */
    function UnwrapOr(default: T): (r: T)
      ensures Some? ==> r == value
      ensures None? ==> r == default
    {
      match this
      case Some(v) => v
      case None => default
    }

    /** Rust's `Option::and_then`. */
    function AndThen<U>(f: T -> Option<U>): (r: Option<U>)
      ensures None? ==> r == None
      ensures Some? ==> r == f(value)
    {
      match this
      case Some(v) => f(v)
      case None => None
    }
  }

  /** Rust's `i64`. */
  newtype I64 = x: int | -0x8000_0000_0000_0000 <= x < 0x8000_0000_0000_0000

  /** Rust's `u64`. */
  newtype U64 = x: int | 0 <= x < 0x1_0000_0000_0000_0000

  /**
   * Maps the partial function `f` over `xs`, in order, and succeeds only if
   * every element succeeds: one failing element fails the whole call and no
   * partial list is produced. This is what both `iter().map(|x| f(x).unwrap())
   * .collect::<Vec<_>>()` (where the failure is a panic) and the derived
   * deserialization of a `Vec` (where it is an error) do.
   */
  function CollectAll<A, B>(xs: seq<A>, f: A -> Option<B>): (r: Option<seq<B>>)
    ensures r.Some? <==> forall i :: 0 <= i < |xs| ==> f(xs[i]).Some?
    ensures r.Some? ==> |r.value| == |xs|
    ensures r.Some? ==> forall i :: 0 <= i < |xs| ==> f(xs[i]) == Some(r.value[i])
  {
    if xs == [] then Some([])
    else
      var y :- f(xs[0]);
      var ys :- CollectAll(xs[1..], f);
      Some([y] + ys)
  }
}
