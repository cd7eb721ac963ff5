/** Small shared vocabulary: optional values and order-preserving embeddings of sequences. */
module Prelude {

  datatype Option<+T> = None | Some(value: T)

  type Ip = string

  /** `xs` can be read off `ys` from left to right, possibly skipping elements. */
  ghost predicate Subsequence<T>(xs: seq<T>, ys: seq<T>)
    decreases |ys|
  {
    if xs == [] then true
    else if ys == [] then false
    else
      || Subsequence(xs, ys[..|ys| - 1])
      || (xs[|xs| - 1] == ys[|ys| - 1] && Subsequence(xs[..|xs| - 1], ys[..|ys| - 1]))
  }

  lemma SubsequenceGrows<T>(xs: seq<T>, ys: seq<T>, more: seq<T>)
    requires Subsequence(xs, ys)
    ensures Subsequence(xs, ys + more)
    decreases |more|
  {
    if more == [] {
      assert ys + more == ys;
    } else {
      var zs := ys + more;
      assert zs[..|zs| - 1] == ys + more[..|more| - 1];
      SubsequenceGrows(xs, ys, more[..|more| - 1]);
    }
  }

  lemma SubsequenceSnoc<T>(xs: seq<T>, ys: seq<T>, y: T)
    requires Subsequence(xs, ys)
    ensures Subsequence(xs + [y], ys + [y])
  {
  }

  lemma SubsequencePrefix<T>(xs: seq<T>, x: T, ys: seq<T>)
    requires Subsequence(xs + [x], ys)
    ensures Subsequence(xs, ys)
    decreases |ys|
  {
  }

  lemma {:induction false} SubsequenceTransitive<T>(xs: seq<T>, ys: seq<T>, zs: seq<T>)
    requires Subsequence(xs, ys) && Subsequence(ys, zs)
    ensures Subsequence(xs, zs)
    decreases |zs|
  {
    if xs != [] && zs != [] {
      var init := zs[..|zs| - 1];
      if Subsequence(ys, init) {
        SubsequenceTransitive(xs, ys, init);
      } else if Subsequence(xs, ys[..|ys| - 1]) {
        SubsequenceTransitive(xs, ys[..|ys| - 1], init);
      } else {
        SubsequenceTransitive(xs[..|xs| - 1], ys[..|ys| - 1], init);
      }
    }
  }

  lemma {:induction false} SubsequenceRefl<T>(xs: seq<T>)
    ensures Subsequence(xs, xs)
  {
    if xs != [] {
      SubsequenceRefl(xs[..|xs| - 1]);
    }
  }

  lemma {:induction false} SubsequenceJoined<T>(xs: seq<T>, ys: seq<T>, more: seq<T>)
    requires Subsequence(xs, ys)
    ensures Subsequence(xs + more, ys + more)
    decreases |more|
  {
    if more == [] {
      assert xs + more == xs && ys + more == ys;
    } else {
      var init := more[..|more| - 1];
      SubsequenceJoined(xs, ys, init);
      SubsequenceSnoc(xs + init, ys + init, more[|more| - 1]);
      assert (xs + init) + [more[|more| - 1]] == xs + more;
      assert (ys + init) + [more[|more| - 1]] == ys + more;
    }
  }

  /** Leaving out a middle part. */
  lemma SubsequenceWithoutMiddle<T>(a: seq<T>, x: seq<T>, b: seq<T>)
    ensures Subsequence(a + b, a + x + b)
  {
    SubsequenceRefl(a);
    SubsequenceGrows(a, a, x);
    SubsequenceJoined(a, a + x, b);
  }

  /** A subsequence can be read back as strictly increasing positions. */
  lemma SubsequencePositions<T>(xs: seq<T>, ys: seq<T>) returns (at: seq<nat>)
    requires Subsequence(xs, ys)
    ensures |at| == |xs|
    ensures forall i :: 0 <= i < |xs| ==> at[i] < |ys| && ys[at[i]] == xs[i]
    ensures forall i, j :: 0 <= i < j < |xs| ==> at[i] < at[j]
    decreases |ys|
  {
    if xs == [] {
      at := [];
    } else if Subsequence(xs, ys[..|ys| - 1]) {
      at := SubsequencePositions(xs, ys[..|ys| - 1]);
    } else {
      var before := SubsequencePositions(xs[..|xs| - 1], ys[..|ys| - 1]);
      at := before + [|ys| - 1];
    }
  }

  lemma SubsetSize<T>(xs: set<T>, ys: set<T>)
    requires xs <= ys
    ensures |xs| <= |ys|
  {
    assert ys == xs + (ys - xs);
  }
}
