/**
 * `resample_data`: train and test are put together, the cases are put in a
 * random order, and the first as many as there were train labels become the
 * new train set. The random order is a parameter: a permutation of the
 * case positions, as `DataFrame.sample(frac=1)` would draw it.
 */
module Resample {
  import opened Outcomes

  /** The positions 0 to n-1 in order. */
  function Range(n: nat): (r: seq<nat>)
    ensures |r| == n && forall i :: 0 <= i < n ==> r[i] == i
  {
    seq(n, i requires 0 <= i < n => i)
  }

  /** `order` lists n positions, each below n. */
  predicate InRange(order: seq<nat>, n: nat)
  {
    |order| == n && forall i :: 0 <= i < n ==> order[i] < n
  }

  /** `order` holds every position below n exactly once. */
  predicate IsPermutation(order: seq<nat>, n: nat)
  {
    InRange(order, n) && multiset(order) == multiset(Range(n))
  }

  /** The items of `s` in the given order of positions. */
  function Permute<T>(s: seq<T>, order: seq<nat>): (r: seq<T>)
    requires forall i :: 0 <= i < |order| ==> order[i] < |s|
    ensures |r| == |order| && forall i :: 0 <= i < |order| ==> r[i] == s[order[i]]
  {
    seq(|order|, i requires 0 <= i < |order| => s[order[i]])
  }

  lemma RangeSnoc(n: nat)
    ensures Range(n + 1) == Range(n) + [n]
  {
  }

  lemma RangeMembers(n: nat, x: nat)
    ensures x in multiset(Range(n)) <==> x < n
  {
    if x < n {
      assert Range(n)[x] == x;
    }
  }

  lemma PermuteAppend<T>(s: seq<T>, a: seq<nat>, b: seq<nat>)
    requires forall i :: 0 <= i < |a| ==> a[i] < |s|
    requires forall i :: 0 <= i < |b| ==> b[i] < |s|
    ensures Permute(s, a + b) == Permute(s, a) + Permute(s, b)
  {
  }

  /** `order` holds every position as often as the positions 0 to n-1 do. */
  ghost predicate CountsAsRange(order: seq<nat>, n: nat)
  {
    forall p: nat :: multiset(order)[p] == multiset(Range(n))[p]
  }

  /** Positions below n that hold each position as often as the positions 0 to n-1 do form a permutation. */
  lemma PermutationByCounts(front: seq<nat>, back: seq<nat>, n: nat)
    requires forall i :: 0 <= i < |front| ==> front[i] < n
    requires forall i :: 0 <= i < |back| ==> back[i] < n
    requires CountsAsRange(front + back, n)
    ensures IsPermutation(front + back, n)
  {
    var order := front + back;
    assert multiset(order) == multiset(Range(n));
    assert |multiset(order)| == |order|;
  }

  /** Taking out the position at index j leaves a permutation of the positions below n - 1. */
  lemma DropLast(order: seq<nat>, n: nat, j: nat)
    requires IsPermutation(order, n + 1) && j < |order| && order[j] == n
    ensures IsPermutation(order[..j] + order[j + 1..], n)
  {
    var rest := order[..j] + order[j + 1..];
    assert order == order[..j] + [n] + order[j + 1..];
    RangeSnoc(n);
    assert multiset(order) == multiset(rest) + multiset{n};
    assert multiset(Range(n + 1)) == multiset(Range(n)) + multiset{n};
    assert multiset(rest) == multiset(order) - multiset{n};
    assert multiset(Range(n)) == multiset(Range(n + 1)) - multiset{n};
    assert multiset(rest) == multiset(Range(n));
    forall i | 0 <= i < |rest| ensures rest[i] < n {
      assert rest[i] in multiset(rest);
      RangeMembers(n, rest[i]);
    }
  }

  /** Taking one item out of a reordering takes one copy of it out of the items. */
  lemma PermuteSplit<T>(s: seq<T>, order: seq<nat>, j: nat)
    requires forall i :: 0 <= i < |order| ==> order[i] < |s|
    requires j < |order|
    ensures multiset(Permute(s, order)) == multiset(Permute(s, order[..j] + order[j + 1..])) + multiset{s[order[j]]}
  {
    var front, back := order[..j], order[j + 1..];
    assert order == front + [order[j]] + back;
    PermuteAppend(s, front + [order[j]], back);
    PermuteAppend(s, front, [order[j]]);
    PermuteAppend(s, front, back);
    assert Permute(s, [order[j]]) == [s[order[j]]];
  }

  /** Putting the items of a sequence in another order keeps every item and its number of copies. */
  lemma {:induction false} PermuteMultiset<T>(s: seq<T>, order: seq<nat>)
    requires IsPermutation(order, |s|)
    ensures multiset(Permute(s, order)) == multiset(s)
    decreases |s|
  {
    var n := |s|;
    if n > 0 {
      RangeMembers(n, n - 1);
      assert n - 1 in order;
      var j :| 0 <= j < |order| && order[j] == n - 1;
      var rest := order[..j] + order[j + 1..];
      DropLast(order, n - 1, j);
      var init := s[..n - 1];
      PermuteMultiset(init, rest);
      assert Permute(init, rest) == Permute(s, rest);
      PermuteSplit(s, order, j);
      assert s == init + [s[n - 1]];
    }
  }

  /** Each case's row beside its label. */
  function Zip<R, L>(xs: seq<R>, ys: seq<L>): (r: seq<(R, L)>)
    requires |xs| == |ys|
    ensures |r| == |xs| && forall i :: 0 <= i < |xs| ==> r[i] == (xs[i], ys[i])
  {
    seq(|xs|, i requires 0 <= i < |xs| => (xs[i], ys[i]))
  }

  /** Reordering rows and labels by the same permutation keeps every row beside its own label. */
  lemma ZipPermute<R, L>(xs: seq<R>, ys: seq<L>, order: seq<nat>)
    requires |xs| == |ys| && IsPermutation(order, |ys|)
    ensures multiset(Zip(Permute(xs, order), Permute(ys, order))) == multiset(Zip(xs, ys))
  {
    var zipped := Zip(xs, ys);
    PermuteMultiset(zipped, order);
    assert Permute(zipped, order) == Zip(Permute(xs, order), Permute(ys, order));
  }

  /** A new train/test split: the rows and labels of each side. */
  datatype Resampled<R, L> = Resampled(trainX: seq<R>, trainY: seq<L>, testX: seq<R>, testY: seq<L>)

  /**
   * What `resample_data` returns for a given shuffle order. Attaching the
   * labels to the combined rows raises ValueError when there are not as many
   * labels as rows; the cut falls after as many cases as there were train
   * labels.
   */
  function ResampleData<R, L>(trainX: seq<R>, trainY: seq<L>, testX: seq<R>, testY: seq<L>, order: seq<nat>): (r: Result<Resampled<R, L>>)
    requires IsPermutation(order, |trainY| + |testY|)
    ensures r.Err? <==> |trainX| + |testX| != |trainY| + |testY|
    ensures r.Err? ==> r.error == ValueError
  {
    var allX := trainX + testX;
    var allY := trainY + testY;
    if |allX| != |allY| then Err(ValueError)
    else
      var shuffledX := Permute(allX, order);
      var shuffledY := Permute(allY, order);
      var cut := |trainY|;
      Ok(Resampled(shuffledX[..cut], shuffledY[..cut], shuffledX[cut..], shuffledY[cut..]))
  }

  /** Cutting rows and labels at the same place and joining the pieces again gives them back. */
  lemma CutRejoins<R, L>(xs: seq<R>, ys: seq<L>, cut: nat)
    requires |xs| == |ys| && cut <= |xs|
    ensures xs[..cut] + xs[cut..] == xs && ys[..cut] + ys[cut..] == ys
  {
    assert xs[..cut] + xs[cut..] == xs;
    assert ys[..cut] + ys[cut..] == ys;
  }

  /**
   * The resample keeps the train and test sizes, the new labels are the old
   * ones in another order, and every case keeps its own label.
   */
  lemma ResampleDataKeepsCases<R, L>(trainX: seq<R>, trainY: seq<L>, testX: seq<R>, testY: seq<L>, order: seq<nat>)
    requires IsPermutation(order, |trainY| + |testY|)
    ensures var r := ResampleData(trainX, trainY, testX, testY, order);
      r.Ok? ==>
        |r.value.trainY| == |r.value.trainX| == |trainY| && |r.value.testY| == |r.value.testX| == |testY| &&
        multiset(r.value.trainY + r.value.testY) == multiset(trainY + testY) &&
        multiset(Zip(r.value.trainX + r.value.testX, r.value.trainY + r.value.testY)) == multiset(Zip(trainX + testX, trainY + testY))
  {
    var allX := trainX + testX;
    var allY := trainY + testY;
    if |allX| == |allY| {
      var shuffledX := Permute(allX, order);
      var shuffledY := Permute(allY, order);
      var cut := |trainY|;
      PermuteMultiset(allY, order);
      ZipPermute(allX, allY, order);
      CutRejoins(shuffledX, shuffledY, cut);
    }
  }
}
