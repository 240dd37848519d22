/** Failure-compatible wrappers, row identifiers and small sequence helpers
    shared by every module of the model. */
module Common {

  /** The backend's uuid-valued columns (row ids, user ids) as abstract naturals. */
  type Id = nat

  /** A value that may be missing: TypeScript's `T | null | undefined`. */
  datatype Option<+T> = None | Some(value: T) {

    /** `x ?? default` */
    function GetOr(default: T): T
    {
      match this
      case Some(v) => v
      case None => default
    }
  }

  /** A successful value or the error the source throws. */
  datatype Result<+T, +E> = Ok(value: T) | Err(error: E)

  /** `xs.filter((_, i) => i !== index)`: the sequence without its element at
      `index`; an index outside the sequence removes nothing. */
  function DropIndex<T>(xs: seq<T>, index: int): (r: seq<T>)
    ensures 0 <= index < |xs| ==> |r| == |xs| - 1
    ensures !(0 <= index < |xs|) ==> r == xs
    decreases |xs|
  {
    if xs == [] then []
    else (if index == 0 then [] else [xs[0]]) + DropIndex(xs[1..], index - 1)
  }

  /** Dropping an index inside the sequence splices the two sides together. */
  lemma {:induction false} DropIndexIsSplice<T>(xs: seq<T>, index: int)
    requires 0 <= index < |xs|
    ensures DropIndex(xs, index) == xs[..index] + xs[index + 1..]
  {
    if index > 0 {
      DropIndexIsSplice(xs[1..], index - 1);
      assert xs[1..][..index - 1] == xs[1..index];
      assert xs[1..][index..] == xs[index + 1..];
      assert [xs[0]] + xs[1..index] == xs[..index];
    }
  }

  /** Dropping the element just appended gives the sequence back. */
  lemma DropAppended<T>(xs: seq<T>, x: T)
    ensures DropIndex(xs + [x], |xs|) == xs
  {
    DropIndexIsSplice(xs + [x], |xs|);
    assert (xs + [x])[..|xs|] == xs;
  }
}
