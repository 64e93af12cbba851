/** The size of an injective image. */
module Injections {

  lemma {:induction false} ImageSize<A, B>(xs: set<A>, f: map<A, B>, ys: set<B>)
    requires xs <= f.Keys && (forall x, y :: x in xs && y in xs && f[x] == f[y] ==> x == y)
    requires ys == set x | x in xs :: f[x]
    ensures |ys| == |xs|
    decreases |xs|
  {
    if xs == {} {
      assert ys == {};
    } else {
      var x :| x in xs;
      var rest := xs - {x};
      assert ys - {f[x]} == set y | y in rest :: f[y];
      ImageSize(rest, f, ys - {f[x]});
    }
  }
}
