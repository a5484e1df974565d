/** Small shared vocabulary: optional values, outcomes that may fail, and the
    abstraction of Python's `random.choice`. */
module Basics {

  /** A value that may be absent (Python's `None`). */
  datatype Option<+T> = None | Some(value: T) {
    /** `d.get(key, default)`-style reading of an optional value. */
    function GetOr(default: T): T {
      match this
      case Some(v) => v
      case None => default
    }
  }

  /** The outcome of a computation that may raise. */
  datatype Result<+T, +E> = Ok(value: T) | Err(error: E)

  /** `random.choice(xs)`, with the random draw made explicit: any natural
      number selects an element, and every element is selected by some draw
      (see PickReaches). An empty list makes `random.choice` raise, so it is
      excluded here. */
  function Pick<T>(xs: seq<T>, draw: nat): (x: T)
    requires xs != []
    ensures x in xs
  {
    xs[draw % |xs|]
  }

  /** Every element of the list can come out of the draw. */
  lemma PickReaches<T>(xs: seq<T>, i: nat)
    requires i < |xs|
    ensures Pick(xs, i) == xs[i]
  {
    assert i % |xs| == i;
  }
}
