/** Sequences of sequences read in order. */
module Seqs {
  /** The items of a sequence of sequences, in order. */
  function Concat<T>(xss: seq<seq<T>>): seq<T> {
    if xss == [] then [] else Concat(xss[..|xss| - 1]) + xss[|xss| - 1]
  }

  lemma {:induction false} ConcatPrepend<T>(xs: seq<T>, xss: seq<seq<T>>)
    ensures Concat([xs] + xss) == xs + Concat(xss)
    decreases |xss|
  {
    if xss == [] {
      assert [xs][..0] == [];
    } else {
      var n := |xss|;
      var init := xss[..n - 1];
      assert ([xs] + xss)[..n] == [xs] + init && ([xs] + xss)[n] == xss[n - 1];
      ConcatPrepend(xs, init);
      assert xs + Concat(init) + xss[n - 1] == xs + (Concat(init) + xss[n - 1]);
    }
  }

  lemma {:induction false} ConcatSnoc<T>(xss: seq<seq<T>>, xs: seq<T>)
    ensures Concat(xss + [xs]) == Concat(xss) + xs
  {
    assert (xss + [xs])[..|xss|] == xss;
  }
}
