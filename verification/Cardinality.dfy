/** Finite-set counting: what an injection says about sizes. */
module Cardinality {

  /** The image of a set under a function that is injective on it has the set's size. */
  lemma {:induction false} ImageSize<A, B>(xs: set<A>, f: A -> B, ys: set<B>)
    requires ys == set x | x in xs :: f(x)
    requires forall x, y :: x in xs && y in xs && f(x) == f(y) ==> x == y
    ensures |ys| == |xs|
    decreases |xs|
  {
    if xs == {} {
      assert ys == {};
    } else {
      var x :| x in xs;
      var rest := xs - {x};
      var image := set y | y in rest :: f(y);
      assert ys == image + {f(x)};
      assert f(x) !in image;
      ImageSize(rest, f, image);
    }
  }

  lemma {:induction false} SubsetSize<A>(xs: set<A>, ys: set<A>)
    requires xs <= ys
    ensures |xs| <= |ys|
    decreases |xs|
  {
    if xs == {} {
    } else {
      var x :| x in xs;
      SubsetSize(xs - {x}, ys - {x});
    }
  }
}
