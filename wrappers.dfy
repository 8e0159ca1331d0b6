/** The optional value used wherever the C# code holds a nullable reference, and the "parse each element,
    keep what parsed" loop shape the loaders share. */
module Wrappers {

  datatype Option<+T> = None | Some(value: T)

  /** The values `f` yields on `xs`, in order, skipping the elements it yields nothing for. */
  function FilterMap<A, B>(f: A -> Option<B>, xs: seq<A>): seq<B>
  {
    if xs == [] then []
    else FilterMap(f, xs[..|xs| - 1]) + (match f(xs[|xs| - 1]) case None => [] case Some(y) => [y])
  }

  lemma FilterMapSnoc<A, B>(f: A -> Option<B>, xs: seq<A>, x: A)
    ensures FilterMap(f, xs + [x]) == FilterMap(f, xs) + (match f(x) case None => [] case Some(y) => [y])
  {
    assert (xs + [x])[..|xs|] == xs;
  }

  lemma {:induction false} FilterMapAppend<A, B>(f: A -> Option<B>, xs: seq<A>, ys: seq<A>)
    ensures FilterMap(f, xs + ys) == FilterMap(f, xs) + FilterMap(f, ys)
    decreases |ys|
  {
    if ys == [] {
      assert xs + ys == xs;
    } else {
      var ys' := ys[..|ys| - 1];
      assert (xs + ys)[..|xs + ys| - 1] == xs + ys';
      FilterMapAppend(f, xs, ys');
    }
  }

  lemma {:induction false} FilterMapCount<A, B>(f: A -> Option<B>, xs: seq<A>)
    ensures |FilterMap(f, xs)| <= |xs|
    ensures |FilterMap(f, xs)| == |xs| <==> forall k :: 0 <= k < |xs| ==> f(xs[k]).Some?
  {
    if xs != [] {
      var init := xs[..|xs| - 1];
      FilterMapCount(f, init);
      if f(xs[|xs| - 1]).None? {
        assert |FilterMap(f, xs)| < |xs|;
      } else {
        assert forall k :: 0 <= k < |init| ==> init[k] == xs[k];
      }
    }
  }
}
