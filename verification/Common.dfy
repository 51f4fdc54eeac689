/** Result and option types shared by every component of the model. */
module Common {

  datatype Option<+T> = None | Some(value: T)

  datatype Result<+T, +E> = Ok(value: T) | Err(error: E)

  function Max(a: int, b: int): (m: int)
    ensures m == a || m == b
    ensures a <= m && b <= m
  {
    if a < b then b else a
  }

  /** Python truthiness of an optional string: both None and "" are falsy. */
  predicate Truthy(s: Option<string>) {
    s.Some? && s.value != ""
  }

  /** An injection of one finite set into another bounds its size. */
  lemma {:induction false} InjectionBound(from: set<nat>, to: set<nat>, image: map<nat, nat>)
    requires from == image.Keys
    requires forall x :: x in from ==> image[x] in to
    requires forall x, y :: x in from && y in from && image[x] == image[y] ==> x == y
    ensures |from| <= |to|
    decreases |from|
  {
    if from != {} {
      var x :| x in from;
      InjectionBound(from - {x}, to - {image[x]}, map y | y in from && y != x :: image[y]);
    }
  }
}
