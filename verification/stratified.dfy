/**
 * `stratified_resample_data`: the classes of the train labels are listed in
 * ascending order with their train counts (as `np.unique` returns them); for
 * each class the positions of its cases in train followed by test are
 * shuffled, and as many as the class had train cases go to the new train
 * set, the rest to the new test set. Labels are integers; the shuffle of each
 * class is a parameter.
 */
module Stratified {
  import opened Outcomes
  import opened Resample

  /** The distinct labels that occur. */
  function Classes(labels: seq<int>): set<int>
  {
    set x | x in labels
  }

  predicate StrictlyIncreasing(s: seq<int>)
  {
    forall i, j :: 0 <= i < j < |s| ==> s[i] < s[j]
  }

  predicate Ascending(s: seq<int>)
  {
    forall i, j :: 0 <= i < j < |s| ==> s[i] <= s[j]
  }

  /** How many cases carry label c. */
  function Count(labels: seq<int>, c: int): nat
  {
    multiset(labels)[c]
  }

  /** `sorted` with x put in its place, unless it is already there. */
  function Insert(sorted: seq<int>, x: int): seq<int>
    decreases |sorted|
  {
    if |sorted| == 0 then [x]
    else if x < sorted[0] then [x] + sorted
    else if x == sorted[0] then sorted
    else [sorted[0]] + Insert(sorted[1..], x)
  }

  lemma {:induction false} InsertClasses(sorted: seq<int>, x: int)
    ensures Classes(Insert(sorted, x)) == Classes(sorted) + {x}
    decreases |sorted|
  {
    if |sorted| > 0 {
      assert sorted == [sorted[0]] + sorted[1..];
      if x > sorted[0] {
        InsertClasses(sorted[1..], x);
        assert Classes(sorted) == {sorted[0]} + Classes(sorted[1..]);
        var tail := Insert(sorted[1..], x);
        assert Classes([sorted[0]] + tail) == {sorted[0]} + Classes(tail);
      }
    }
  }

  /** A list above `head` with x put in it stays above `head` when x is. */
  lemma InsertAbove(rest: seq<int>, x: int, head: int)
    requires forall k :: 0 <= k < |rest| ==> head < rest[k]
    requires head < x
    ensures forall i :: 0 <= i < |Insert(rest, x)| ==> head < Insert(rest, x)[i]
  {
    InsertClasses(rest, x);
    var tail := Insert(rest, x);
    forall i | 0 <= i < |tail| ensures head < tail[i] {
      assert tail[i] in Classes(rest) + {x};
    }
  }

  /** Putting a label before a strictly increasing list of larger labels keeps it strictly increasing. */
  lemma ConsIncreasing(head: int, tail: seq<int>)
    requires StrictlyIncreasing(tail) && forall i :: 0 <= i < |tail| ==> head < tail[i]
    ensures StrictlyIncreasing([head] + tail)
  {
    var r := [head] + tail;
    forall i, j | 0 <= i < j < |r| ensures r[i] < r[j] {
      assert r[j] == tail[j - 1];
      if i > 0 {
        assert r[i] == tail[i - 1];
      }
    }
  }

  lemma {:induction false} InsertSorted(sorted: seq<int>, x: int)
    requires StrictlyIncreasing(sorted)
    ensures StrictlyIncreasing(Insert(sorted, x))
    decreases |sorted|
  {
    if |sorted| > 0 && x > sorted[0] {
      var rest := sorted[1..];
      InsertSorted(rest, x);
      assert forall k :: 0 <= k < |rest| ==> sorted[0] < rest[k] by {
        forall k | 0 <= k < |rest| ensures sorted[0] < rest[k] {
          assert rest[k] == sorted[k + 1];
        }
      }
      InsertAbove(rest, x, sorted[0]);
      ConsIncreasing(sorted[0], Insert(rest, x));
    } else if |sorted| > 0 && x < sorted[0] {
      ConsIncreasing(x, sorted);
    }
  }

  /** The classes of `np.unique`: every label once, in ascending order. */
  function Unique(labels: seq<int>): (r: seq<int>)
    ensures StrictlyIncreasing(r) && Classes(r) == Classes(labels)
    decreases |labels|
  {
    if |labels| == 0 then []
    else
      var n := |labels| - 1;
      assert labels == labels[..n] + [labels[n]];
      assert Classes(labels) == Classes(labels[..n]) + {labels[n]};
      InsertSorted(Unique(labels[..n]), labels[n]);
      InsertClasses(Unique(labels[..n]), labels[n]);
      Insert(Unique(labels[..n]), labels[n])
  }

  /** Two ascending lists of distinct labels with the same labels are the same list. */
  lemma {:induction false} SameClassesSameList(a: seq<int>, b: seq<int>)
    requires StrictlyIncreasing(a) && StrictlyIncreasing(b) && Classes(a) == Classes(b)
    ensures a == b
    decreases |a|
  {
    if |b| > 0 {
      assert b[0] in Classes(a);
    }
    if |a| > 0 {
      assert a[0] in Classes(b);
      assert a[0] == b[0];
      assert a == [a[0]] + a[1..] && b == [b[0]] + b[1..];
      assert Classes(a[1..]) == Classes(a) - {a[0]};
      assert Classes(b[1..]) == Classes(b) - {b[0]};
      SameClassesSameList(a[1..], b[1..]);
    }
  }

  /** The assertion in the source holds exactly when train and test have the same classes. */
  lemma UniqueSameIff(trainY: seq<int>, testY: seq<int>)
    ensures Unique(trainY) == Unique(testY) <==> Classes(trainY) == Classes(testY)
  {
    if Classes(trainY) == Classes(testY) {
      SameClassesSameList(Unique(trainY), Unique(testY));
    }
  }

  /** The first n + 1 items of a strictly increasing list are the first n and then one item larger than them all. */
  lemma PrefixSnoc(s: seq<int>, n: nat)
    requires StrictlyIncreasing(s) && n < |s|
    ensures s[..n + 1] == s[..n] + [s[n]]
    ensures forall x :: x in s[..n] ==> x < s[n]
    ensures s[n] !in s[..n]
  {
    assert s[..n + 1] == s[..n] + [s[n]];
    forall x | x in s[..n] ensures x < s[n] {
      var k :| 0 <= k < n && s[..n][k] == x;
    }
  }

  /** The positions from k on of the cases with label c, ascending. */
  function PositionsFrom(labels: seq<int>, c: int, k: nat): seq<nat>
    requires k <= |labels|
    decreases |labels| - k
  {
    if k == |labels| then []
    else (if labels[k] == c then [k] else []) + PositionsFrom(labels, c, k + 1)
  }

  lemma {:induction false} PositionsFromFacts(labels: seq<int>, c: int, k: nat)
    requires k <= |labels|
    ensures var r := PositionsFrom(labels, c, k);
      |r| == Count(labels[k..], c) && forall i :: 0 <= i < |r| ==> k <= r[i] < |labels| && labels[r[i]] == c
    decreases |labels| - k
  {
    if k < |labels| {
      PositionsFromFacts(labels, c, k + 1);
      var head: seq<nat> := if labels[k] == c then [k] else [];
      var rest := PositionsFrom(labels, c, k + 1);
      assert PositionsFrom(labels, c, k) == head + rest;
      assert |head + rest| == Count(labels[k..], c) by {
        assert labels[k..] == [labels[k]] + labels[k + 1..];
        CountAppend([labels[k]], labels[k + 1..], c);
      }
      forall i | 0 <= i < |head + rest| ensures k <= (head + rest)[i] < |labels| && labels[(head + rest)[i]] == c {
        if i >= |head| {
          assert (head + rest)[i] == rest[i - |head|];
        }
      }
    }
  }

  /** The positions of the cases with label c, ascending (`np.where`). */
  function Positions(labels: seq<int>, c: int): (r: seq<nat>)
    ensures |r| == Count(labels, c)
    ensures forall i :: 0 <= i < |r| ==> r[i] < |labels| && labels[r[i]] == c
  {
    PositionsFromFacts(labels, c, 0);
    assert labels[0..] == labels;
    PositionsFrom(labels, c, 0)
  }

  /**
   * What the class loop works from: all labels (train then test), the
   * classes in ascending order, the train count of each class, and one
   * shuffle of positions per class.
   */
  datatype Plan = Plan(allY: seq<int>, classes: seq<int>, counts: seq<nat>, orders: seq<seq<nat>>)

  /** One shuffle per class, over as many positions as the class has cases, and no class with more train cases than cases. */
  predicate Fits(p: Plan)
  {
    |p.classes| == |p.counts| == |p.orders| &&
    forall ci :: 0 <= ci < |p.orders| ==>
      InRange(p.orders[ci], Count(p.allY, p.classes[ci])) && p.counts[ci] <= |p.orders[ci]|
  }

  /** The train count of each class (`np.unique(y_train, return_counts=True)`). */
  function TrainCounts(labels: seq<int>, classes: seq<int>): (r: seq<nat>)
    ensures |r| == |classes| && forall i :: 0 <= i < |classes| ==> r[i] == Count(labels, classes[i])
  {
    seq(|classes|, i requires 0 <= i < |classes| => Count(labels, classes[i]))
  }

  /** The plan `stratified_resample_data` follows for the given shuffles. */
  function PlanOf(trainY: seq<int>, testY: seq<int>, orders: seq<seq<nat>>): Plan
  {
    var classes := Unique(trainY);
    Plan(trainY + testY, classes, TrainCounts(trainY, classes), orders)
  }

  /** One shuffle per class of the train labels, each over as many positions as the class has cases. */
  predicate ShufflesFit(trainY: seq<int>, testY: seq<int>, orders: seq<seq<nat>>)
  {
    var classes := Unique(trainY);
    |orders| == |classes| &&
    forall ci :: 0 <= ci < |classes| ==> InRange(orders[ci], Count(trainY + testY, classes[ci]))
  }

  /** Each class's shuffle puts its cases in an order that uses every one of them once. */
  ghost predicate ShufflesPermute(orders: seq<seq<nat>>)
  {
    forall ci :: 0 <= ci < |orders| ==> ShufflePermutes(orders, ci)
  }

  /** The shuffle of class number ci uses each of its positions once. */
  ghost predicate ShufflePermutes(orders: seq<seq<nat>>, ci: nat)
    requires ci < |orders|
  {
    IsPermutation(orders[ci], |orders[ci]|)
  }

  /** Every label of the plan is one of its classes. */
  predicate Covers(p: Plan)
  {
    forall q :: 0 <= q < |p.allY| ==> p.allY[q] in p.classes
  }

  lemma CountAppend(a: seq<int>, b: seq<int>, c: int)
    ensures Count(a + b, c) == Count(a, c) + Count(b, c)
  {
    assert multiset(a + b) == multiset(a) + multiset(b);
  }

  /** Fitting shuffles give a plan that fits: each class's train count is at most its count overall. */
  lemma FitsPlan(trainY: seq<int>, testY: seq<int>, orders: seq<seq<nat>>)
    requires ShufflesFit(trainY, testY, orders)
    ensures Fits(PlanOf(trainY, testY, orders)) && StrictlyIncreasing(PlanOf(trainY, testY, orders).classes)
    ensures forall ci :: 0 <= ci < |orders| ==> PlanOf(trainY, testY, orders).counts[ci] == Count(trainY, Unique(trainY)[ci])
    ensures forall ci :: 0 <= ci < |orders| ==>
      Count(trainY + testY, Unique(trainY)[ci]) - PlanOf(trainY, testY, orders).counts[ci] == Count(testY, Unique(trainY)[ci])
  {
    var classes := Unique(trainY);
    forall ci | 0 <= ci < |orders|
      ensures Count(trainY + testY, classes[ci]) == Count(trainY, classes[ci]) + Count(testY, classes[ci])
    {
      CountAppend(trainY, testY, classes[ci]);
    }
  }

  /** With the same classes in train and test, every label is one of the train classes. */
  lemma PlanCovers(trainY: seq<int>, testY: seq<int>, orders: seq<seq<nat>>)
    requires Classes(trainY) == Classes(testY)
    ensures Covers(PlanOf(trainY, testY, orders))
  {
    var allY := trainY + testY;
    forall q | 0 <= q < |allY| ensures allY[q] in Unique(trainY) {
      assert allY[q] in Classes(trainY) + Classes(testY);
      assert allY[q] in Classes(Unique(trainY));
    }
  }

  /** The positions of class number ci in the order its shuffle puts them. */
  function ClassOrder(p: Plan, ci: nat): (r: seq<nat>)
    requires Fits(p) && ci < |p.orders|
    ensures |r| == Count(p.allY, p.classes[ci])
    ensures forall i :: 0 <= i < |r| ==> r[i] < |p.allY| && p.allY[r[i]] == p.classes[ci]
  {
    Permute(Positions(p.allY, p.classes[ci]), p.orders[ci])
  }

  /** The positions class number ci sends to the new train set: the first as many as its train count. */
  function TrainPart(p: Plan, ci: nat): (r: seq<nat>)
    requires Fits(p) && ci < |p.orders|
    ensures |r| == p.counts[ci] && forall i :: 0 <= i < |r| ==> r[i] < |p.allY| && p.allY[r[i]] == p.classes[ci]
  {
    ClassOrder(p, ci)[..p.counts[ci]]
  }

  /** The positions class number ci sends to the new test set: the rest. */
  function TestPart(p: Plan, ci: nat): (r: seq<nat>)
    requires Fits(p) && ci < |p.orders|
    ensures |r| == Count(p.allY, p.classes[ci]) - p.counts[ci]
    ensures forall i :: 0 <= i < |r| ==> r[i] < |p.allY| && p.allY[r[i]] == p.classes[ci]
  {
    ClassOrder(p, ci)[p.counts[ci]..]
  }

  /** Every position in the list is below n. */
  predicate Below(s: seq<nat>, n: nat)
  {
    forall k :: 0 <= k < |s| ==> s[k] < n
  }

  lemma BelowAppend(a: seq<nat>, b: seq<nat>, n: nat)
    ensures Below(a + b, n) <==> Below(a, n) && Below(b, n)
  {
    if Below(a + b, n) {
      forall k | 0 <= k < |a| ensures a[k] < n {
        assert (a + b)[k] == a[k];
      }
      forall k | 0 <= k < |b| ensures b[k] < n {
        assert (a + b)[|a| + k] == b[k];
      }
    }
    if Below(a, n) && Below(b, n) {
      forall k | 0 <= k < |a + b| ensures (a + b)[k] < n {
        if k >= |a| {
          assert (a + b)[k] == b[k - |a|];
        }
      }
    }
  }

  /** The new train positions after the first m classes. */
  function TrainIndices(p: Plan, m: nat): (r: seq<nat>)
    requires Fits(p) && m <= |p.orders|
    ensures Below(r, |p.allY|)
  {
    if m == 0 then []
    else
      BelowAppend(TrainIndices(p, m - 1), TrainPart(p, m - 1), |p.allY|);
      TrainIndices(p, m - 1) + TrainPart(p, m - 1)
  }

  /** The new test positions after the first m classes. */
  function TestIndices(p: Plan, m: nat): (r: seq<nat>)
    requires Fits(p) && m <= |p.orders|
    ensures Below(r, |p.allY|)
  {
    if m == 0 then []
    else
      BelowAppend(TestIndices(p, m - 1), TestPart(p, m - 1), |p.allY|);
      TestIndices(p, m - 1) + TestPart(p, m - 1)
  }

  /**
   * The rows and labels the plan picks from the combined data: IndexError
   * when a picked position is not a row, otherwise the new train and test
   * sets in the order the classes and their shuffles put them.
   */
  function PickByPlan<R>(p: Plan, allX: seq<R>): Result<Resampled<R, int>>
    requires Fits(p)
  {
    var trainIdx := TrainIndices(p, |p.orders|);
    var testIdx := TestIndices(p, |p.orders|);
    if !(Below(trainIdx, |allX|) && Below(testIdx, |allX|)) then Err(IndexError)
    else Ok(Resampled(Permute(allX, trainIdx), Permute(p.allY, trainIdx), Permute(allX, testIdx), Permute(p.allY, testIdx)))
  }

  /**
   * What `stratified_resample_data` returns for the given shuffles: the
   * assertion fails unless train and test list the same classes, selecting a
   * row past the end of the combined data raises IndexError, and otherwise
   * the rows and labels at the chosen positions make up the new sets.
   */
  function StratifiedResampleData<R>(trainX: seq<R>, trainY: seq<int>, testX: seq<R>, testY: seq<int>, orders: seq<seq<nat>>): Result<Resampled<R, int>>
    requires ShufflesFit(trainY, testY, orders)
  {
    if Unique(trainY) != Unique(testY) then Err(AssertionError)
    else
      FitsPlan(trainY, testY, orders);
      PickByPlan(PlanOf(trainY, testY, orders), trainX + testX)
  }

  /** Labels that are all c count |s| copies of c and none of anything else. */
  lemma {:induction false} AllOneLabel(s: seq<int>, c: int)
    requires forall i :: 0 <= i < |s| ==> s[i] == c
    ensures forall x :: Count(s, x) == if x == c then |s| else 0
    decreases |s|
  {
    if |s| > 0 {
      var init := s[..|s| - 1];
      assert s == init + [c];
      AllOneLabel(init, c);
      assert multiset(s) == multiset(init) + multiset{c};
      forall x ensures Count(s, x) == if x == c then |s| else 0 {
        assert Count(init, x) == if x == c then |init| else 0;
        assert multiset(s)[x] == multiset(init)[x] + multiset{c}[x];
      }
    }
  }

  /** `ys` holds each of the first m classes as often as `base` does, and no other label. */
  ghost predicate CountsUpTo(ys: seq<int>, classes: seq<int>, m: nat, base: seq<int>)
    requires m <= |classes|
  {
    forall x :: Count(ys, x) == if x in classes[..m] then Count(base, x) else 0
  }

  /** Appending a part of class number m - 1 adds that class's count from `base` and nothing else. */
  lemma AppendCounts(allY: seq<int>, done: seq<nat>, part: seq<nat>, classes: seq<int>, m: nat, base: seq<int>)
    requires StrictlyIncreasing(classes) && 0 < m <= |classes|
    requires Below(done, |allY|)
    requires forall i :: 0 <= i < |part| ==> part[i] < |allY| && allY[part[i]] == classes[m - 1]
    requires |part| == Count(base, classes[m - 1])
    requires CountsUpTo(Permute(allY, done), classes, m - 1, base)
    ensures CountsUpTo(Permute(allY, done + part), classes, m, base)
  {
    PermuteAppend(allY, done, part);
    var front, back := Permute(allY, done), Permute(allY, part);
    AllOneLabel(back, classes[m - 1]);
    PrefixSnoc(classes, m - 1);
    forall x ensures Count(front + back, x) == Count(front, x) + Count(back, x) {
      CountAppend(front, back, x);
    }
  }

  /** After m classes, the new train set holds each of those classes as often as `base`, and nothing else. */
  lemma {:induction false} TrainLabelCounts(p: Plan, m: nat, base: seq<int>)
    requires Fits(p) && StrictlyIncreasing(p.classes) && m <= |p.orders|
    requires forall ci :: 0 <= ci < |p.orders| ==> p.counts[ci] == Count(base, p.classes[ci])
    ensures CountsUpTo(Permute(p.allY, TrainIndices(p, m)), p.classes, m, base)
  {
    if m > 0 {
      TrainLabelCounts(p, m - 1, base);
      AppendCounts(p.allY, TrainIndices(p, m - 1), TrainPart(p, m - 1), p.classes, m, base);
    }
  }

  /** After m classes, the new test set holds each of those classes as often as `base`, and nothing else. */
  lemma {:induction false} TestLabelCounts(p: Plan, m: nat, base: seq<int>)
    requires Fits(p) && StrictlyIncreasing(p.classes) && m <= |p.orders|
    requires forall ci :: 0 <= ci < |p.orders| ==> Count(p.allY, p.classes[ci]) - p.counts[ci] == Count(base, p.classes[ci])
    ensures CountsUpTo(Permute(p.allY, TestIndices(p, m)), p.classes, m, base)
  {
    if m > 0 {
      TestLabelCounts(p, m - 1, base);
      AppendCounts(p.allY, TestIndices(p, m - 1), TestPart(p, m - 1), p.classes, m, base);
    }
  }

  /** Labels of the first m classes, one class after another. */
  predicate GroupedUpTo(ys: seq<int>, classes: seq<int>, m: nat)
    requires m <= |classes|
  {
    Ascending(ys) && forall i :: 0 <= i < |ys| ==> ys[i] in classes[..m]
  }

  /** Appending a part of a class above all earlier ones keeps the labels grouped. */
  lemma AppendGrouped(allY: seq<int>, done: seq<nat>, part: seq<nat>, classes: seq<int>, m: nat)
    requires StrictlyIncreasing(classes) && 0 < m <= |classes|
    requires Below(done, |allY|)
    requires forall i :: 0 <= i < |part| ==> part[i] < |allY| && allY[part[i]] == classes[m - 1]
    requires GroupedUpTo(Permute(allY, done), classes, m - 1)
    ensures GroupedUpTo(Permute(allY, done + part), classes, m)
  {
    PermuteAppend(allY, done, part);
    PrefixSnoc(classes, m - 1);
  }

  /** The new train labels come class by class in ascending order. */
  lemma {:induction false} TrainGrouped(p: Plan, m: nat)
    requires Fits(p) && StrictlyIncreasing(p.classes) && m <= |p.orders|
    ensures GroupedUpTo(Permute(p.allY, TrainIndices(p, m)), p.classes, m)
  {
    if m > 0 {
      TrainGrouped(p, m - 1);
      AppendGrouped(p.allY, TrainIndices(p, m - 1), TrainPart(p, m - 1), p.classes, m);
    }
  }

  /** The new test labels come class by class in ascending order. */
  lemma {:induction false} TestGrouped(p: Plan, m: nat)
    requires Fits(p) && StrictlyIncreasing(p.classes) && m <= |p.orders|
    ensures GroupedUpTo(Permute(p.allY, TestIndices(p, m)), p.classes, m)
  {
    if m > 0 {
      TestGrouped(p, m - 1);
      AppendGrouped(p.allY, TestIndices(p, m - 1), TestPart(p, m - 1), p.classes, m);
    }
  }

  /** How many times position q occurs in s. */
  function Occurrences(s: seq<nat>, q: nat): nat
  {
    if |s| == 0 then 0 else (if s[0] == q then 1 else 0) + Occurrences(s[1..], q)
  }

  lemma {:induction false} OccurrencesAppend(a: seq<nat>, b: seq<nat>, q: nat)
    ensures Occurrences(a + b, q) == Occurrences(a, q) + Occurrences(b, q)
  {
    if |a| == 0 {
      assert a + b == b;
    } else {
      assert (a + b)[1..] == a[1..] + b;
      OccurrencesAppend(a[1..], b, q);
    }
  }

  lemma {:induction false} OccurrencesMultiset(s: seq<nat>, q: nat)
    ensures Occurrences(s, q) == multiset(s)[q]
  {
    if |s| > 0 {
      assert s == [s[0]] + s[1..];
      OccurrencesMultiset(s[1..], q);
    }
  }

  /** Each position from k on of a case with label c occurs once among the positions of c, and nothing else does. */
  lemma {:induction false} PositionsFromOnce(labels: seq<int>, c: int, k: nat, q: nat)
    requires k <= |labels|
    ensures Occurrences(PositionsFrom(labels, c, k), q) == if k <= q < |labels| && labels[q] == c then 1 else 0
    decreases |labels| - k
  {
    if k < |labels| {
      PositionsFromOnce(labels, c, k + 1, q);
      var rest: seq<nat> := PositionsFrom(labels, c, k + 1);
      var head: seq<nat> := if labels[k] == c then [k] else [];
      OccurrencesAppend(head, rest, q);
    }
  }

  lemma RangeOnce(n: nat, q: nat)
    ensures multiset(Range(n))[q] == if q < n then 1 else 0
  {
    RangeMembers(n, q);
    if q < n {
      assert Range(n) == Range(n)[..q] + [q] + Range(n)[q + 1..];
      assert q !in Range(n)[..q] && q !in Range(n)[q + 1..];
    }
  }

  /** A shuffle that is a permutation keeps how often each position occurs. */
  lemma ShuffleOnce(positions: seq<nat>, order: seq<nat>, q: nat)
    requires IsPermutation(order, |positions|)
    ensures Occurrences(Permute(positions, order), q) == Occurrences(positions, q)
  {
    PermuteMultiset(positions, order);
    OccurrencesMultiset(Permute(positions, order), q);
    OccurrencesMultiset(positions, q);
  }

  /** Class number ci sends each of its cases to exactly one of the new sets, and no other case. */
  lemma ClassOnce(p: Plan, ci: nat, q: nat)
    requires Fits(p) && ci < |p.orders| && ShufflePermutes(p.orders, ci)
    ensures Occurrences(TrainPart(p, ci), q) + Occurrences(TestPart(p, ci), q) ==
            if q < |p.allY| && p.allY[q] == p.classes[ci] then 1 else 0
  {
    var c := p.classes[ci];
    var positions := Positions(p.allY, c);
    var whole := ClassOrder(p, ci);
    assert whole == TrainPart(p, ci) + TestPart(p, ci);
    OccurrencesAppend(TrainPart(p, ci), TestPart(p, ci), q);
    assert IsPermutation(p.orders[ci], |positions|);
    ShuffleOnce(positions, p.orders[ci], q);
    PositionsFromOnce(p.allY, c, 0, q);
  }

  /** Appending one class's parts to the train and test positions adds its count of q. */
  lemma AppendOnce(trainDone: seq<nat>, trainPart: seq<nat>, testDone: seq<nat>, testPart: seq<nat>, q: nat, inDone: bool, inPart: bool)
    requires Occurrences(trainDone, q) + Occurrences(testDone, q) == if inDone then 1 else 0
    requires Occurrences(trainPart, q) + Occurrences(testPart, q) == if inPart then 1 else 0
    requires !(inDone && inPart)
    ensures Occurrences(trainDone + trainPart, q) + Occurrences(testDone + testPart, q) == if inDone || inPart then 1 else 0
  {
    OccurrencesAppend(trainDone, trainPart, q);
    OccurrencesAppend(testDone, testPart, q);
  }

  /** Adding class number m - 1, which no earlier class equals, adds exactly its cases to the positions used once. */
  lemma OnceStep(p: Plan, m: nat, q: nat)
    requires Fits(p) && StrictlyIncreasing(p.classes) && 0 < m <= |p.orders|
    requires Occurrences(TrainIndices(p, m - 1), q) + Occurrences(TestIndices(p, m - 1), q) ==
             if q < |p.allY| && p.allY[q] in p.classes[..m - 1] then 1 else 0
    requires Occurrences(TrainPart(p, m - 1), q) + Occurrences(TestPart(p, m - 1), q) ==
             if q < |p.allY| && p.allY[q] == p.classes[m - 1] then 1 else 0
    ensures Occurrences(TrainIndices(p, m), q) + Occurrences(TestIndices(p, m), q) ==
            if q < |p.allY| && p.allY[q] in p.classes[..m] then 1 else 0
  {
    var inDone := q < |p.allY| && p.allY[q] in p.classes[..m - 1];
    var inPart := q < |p.allY| && p.allY[q] == p.classes[m - 1];
    assert (q < |p.allY| && p.allY[q] in p.classes[..m]) == (inDone || inPart) && !(inDone && inPart) by {
      PrefixSnoc(p.classes, m - 1);
    }
    AppendOnce(TrainIndices(p, m - 1), TrainPart(p, m - 1), TestIndices(p, m - 1), TestPart(p, m - 1), q, inDone, inPart);
  }

  /** After m classes, each case whose label is among them is used exactly once, and no other case. */
  lemma {:induction false} IndicesOnce(p: Plan, m: nat, q: nat)
    requires Fits(p) && ShufflesPermute(p.orders) && StrictlyIncreasing(p.classes) && m <= |p.orders|
    ensures Occurrences(TrainIndices(p, m), q) + Occurrences(TestIndices(p, m), q) ==
            if q < |p.allY| && p.allY[q] in p.classes[..m] then 1 else 0
  {
    if m > 0 {
      ClassOnce(p, m - 1, q);
      IndicesOnce(p, m - 1, q);
      OnceStep(p, m, q);
    }
  }

  /** Two lists of positions below n that together hold each position below n once form a permutation. */
  lemma PermutationByOccurrences(front: seq<nat>, back: seq<nat>, n: nat)
    requires Below(front, n) && Below(back, n)
    requires forall q: nat :: Occurrences(front, q) + Occurrences(back, q) == if q < n then 1 else 0
    ensures IsPermutation(front + back, n)
  {
    forall q: nat ensures multiset(front + back)[q] == multiset(Range(n))[q] {
      OccurrencesAppend(front, back, q);
      OccurrencesMultiset(front + back, q);
      RangeOnce(n, q);
    }
    PermutationByCounts(front, back, n);
  }

  /** When every label is a class, the new train and test positions use every case exactly once. */
  lemma EachCaseOnce(p: Plan)
    requires Fits(p) && ShufflesPermute(p.orders) && StrictlyIncreasing(p.classes) && Covers(p)
    ensures forall q: nat :: Occurrences(TrainIndices(p, |p.orders|), q) + Occurrences(TestIndices(p, |p.orders|), q) ==
                             if q < |p.allY| then 1 else 0
  {
    assert p.classes[..|p.orders|] == p.classes;
    forall q: nat
      ensures Occurrences(TrainIndices(p, |p.orders|), q) + Occurrences(TestIndices(p, |p.orders|), q) ==
              if q < |p.allY| then 1 else 0
    {
      IndicesOnce(p, |p.orders|, q);
    }
  }

  /** A position that occurs in a list is one of its items. */
  lemma OccursIn(s: seq<nat>, q: nat)
    requires Occurrences(s, q) > 0
    ensures q in s
  {
    OccurrencesMultiset(s, q);
  }

  /** When every label is a class, every case is picked for one of the new sets. */
  lemma CasePicked(p: Plan, q: nat)
    requires Fits(p) && ShufflesPermute(p.orders) && StrictlyIncreasing(p.classes) && Covers(p)
    requires q < |p.allY|
    ensures q in TrainIndices(p, |p.orders|) + TestIndices(p, |p.orders|)
  {
    var trainIdx, testIdx := TrainIndices(p, |p.orders|), TestIndices(p, |p.orders|);
    assert p.classes[..|p.orders|] == p.classes;
    IndicesOnce(p, |p.orders|, q);
    OccurrencesAppend(trainIdx, testIdx, q);
    OccursIn(trainIdx + testIdx, q);
  }

  /** When every label is a class, all picked positions are rows exactly when there are at least as many rows as labels. */
  lemma PickedBelowIff(p: Plan, rows: nat)
    requires Fits(p) && ShufflesPermute(p.orders) && StrictlyIncreasing(p.classes) && Covers(p)
    ensures Below(TrainIndices(p, |p.orders|), rows) && Below(TestIndices(p, |p.orders|), rows) <==> |p.allY| <= rows
  {
    if rows < |p.allY| {
      CasePicked(p, |p.allY| - 1);
      BelowAppend(TrainIndices(p, |p.orders|), TestIndices(p, |p.orders|), rows);
    }
  }

  /**
   * The assertion fails exactly when train and test have different classes;
   * with the same classes, selecting rows raises IndexError exactly when there
   * are fewer rows than labels.
   */
  lemma StratifiedErrors<R>(trainX: seq<R>, trainY: seq<int>, testX: seq<R>, testY: seq<int>, orders: seq<seq<nat>>)
    requires ShufflesFit(trainY, testY, orders) && ShufflesPermute(orders)
    ensures var r := StratifiedResampleData(trainX, trainY, testX, testY, orders);
      (r == Err(AssertionError) <==> Classes(trainY) != Classes(testY)) &&
      (r == Err(IndexError) <==> Classes(trainY) == Classes(testY) && |trainX| + |testX| < |trainY| + |testY|) &&
      (r.Err? ==> r.error in {AssertionError, IndexError})
  {
    UniqueSameIff(trainY, testY);
    if Classes(trainY) == Classes(testY) {
      FitsPlan(trainY, testY, orders);
      PlanCovers(trainY, testY, orders);
      PickedBelowIff(PlanOf(trainY, testY, orders), |trainX + testX|);
    }
  }

  /** Labels that hold every class as often as `base` and no other label, where `base` has only those classes, are `base` reordered. */
  lemma AllClassesCounted(ys: seq<int>, classes: seq<int>, base: seq<int>)
    requires CountsUpTo(ys, classes, |classes|, base) && Classes(base) <= Classes(classes)
    ensures multiset(ys) == multiset(base)
  {
    assert classes[..|classes|] == classes;
    forall x ensures multiset(ys)[x] == multiset(base)[x] {
      if x !in classes {
        assert x !in Classes(base);
      }
    }
  }

  /** Every class keeps its train count in the new train set and its test count in the new test set. */
  lemma StratifiedKeepsClassCounts<R>(trainX: seq<R>, trainY: seq<int>, testX: seq<R>, testY: seq<int>, orders: seq<seq<nat>>)
    requires ShufflesFit(trainY, testY, orders)
    ensures var r := StratifiedResampleData(trainX, trainY, testX, testY, orders);
      r.Ok? ==>
        multiset(r.value.trainY) == multiset(trainY) && multiset(r.value.testY) == multiset(testY) &&
        |r.value.trainX| == |trainY| && |r.value.testX| == |testY|
  {
    var r := StratifiedResampleData(trainX, trainY, testX, testY, orders);
    if r.Ok? {
      var p := PlanOf(trainY, testY, orders);
      FitsPlan(trainY, testY, orders);
      var trainIdx, testIdx := TrainIndices(p, |orders|), TestIndices(p, |orders|);
      assert r.value == Resampled(Permute(trainX + testX, trainIdx), Permute(p.allY, trainIdx),
                                  Permute(trainX + testX, testIdx), Permute(p.allY, testIdx));
      UniqueSameIff(trainY, testY);
      TrainLabelCounts(p, |orders|, trainY);
      AllClassesCounted(Permute(p.allY, trainIdx), p.classes, trainY);
      TestLabelCounts(p, |orders|, testY);
      AllClassesCounted(Permute(p.allY, testIdx), p.classes, testY);
    }
  }

  /** Both new label sequences list the classes one after another in ascending order. */
  lemma StratifiedGroupsClasses<R>(trainX: seq<R>, trainY: seq<int>, testX: seq<R>, testY: seq<int>, orders: seq<seq<nat>>)
    requires ShufflesFit(trainY, testY, orders)
    ensures var r := StratifiedResampleData(trainX, trainY, testX, testY, orders);
      r.Ok? ==> Ascending(r.value.trainY) && Ascending(r.value.testY)
  {
    FitsPlan(trainY, testY, orders);
    TrainGrouped(PlanOf(trainY, testY, orders), |orders|);
    TestGrouped(PlanOf(trainY, testY, orders), |orders|);
  }

  /** Picking rows and labels at two lists of positions that use each label once keeps every row beside its own label. */
  lemma PickedPairs<R>(allX: seq<R>, allY: seq<int>, front: seq<nat>, back: seq<nat>)
    requires |allY| <= |allX| && Below(front, |allY|) && Below(back, |allY|)
    requires forall q: nat :: Occurrences(front, q) + Occurrences(back, q) == if q < |allY| then 1 else 0
    ensures multiset(Zip(Permute(allX, front) + Permute(allX, back), Permute(allY, front) + Permute(allY, back))) ==
            multiset(Zip(allX[..|allY|], allY))
  {
    PermutationByOccurrences(front, back, |allY|);
    var idx := front + back;
    var rows := allX[..|allY|];
    PermuteAppend(allX, front, back);
    PermuteAppend(allY, front, back);
    assert Permute(allX, idx) == Permute(rows, idx);
    ZipPermute(rows, allY, idx);
  }

  /** Every case, row and label together, ends up in exactly one of the new sets. */
  lemma StratifiedKeepsCases<R>(trainX: seq<R>, trainY: seq<int>, testX: seq<R>, testY: seq<int>, orders: seq<seq<nat>>)
    requires ShufflesFit(trainY, testY, orders) && ShufflesPermute(orders)
    ensures var r := StratifiedResampleData(trainX, trainY, testX, testY, orders);
      r.Ok? ==>
        |trainY| + |testY| <= |trainX| + |testX| &&
        multiset(Zip(r.value.trainX + r.value.testX, r.value.trainY + r.value.testY)) ==
        multiset(Zip((trainX + testX)[..|trainY| + |testY|], trainY + testY))
  {
    var r := StratifiedResampleData(trainX, trainY, testX, testY, orders);
    if r.Ok? {
      var p := PlanOf(trainY, testY, orders);
      var allX, allY := trainX + testX, trainY + testY;
      FitsPlan(trainY, testY, orders);
      UniqueSameIff(trainY, testY);
      PlanCovers(trainY, testY, orders);
      var trainIdx, testIdx := TrainIndices(p, |orders|), TestIndices(p, |orders|);
      EachCaseOnce(p);
      assert |allY| <= |allX| by {
        PickedBelowIff(p, |allX|);
      }
      PickedPairs(allX, allY, trainIdx, testIdx);
      assert allX[..|allY|] == (trainX + testX)[..|trainY| + |testY|];
    }
  }

  /** If all positions of the first k classes are below n, so are those of the first j <= k. */
  lemma {:induction false} BelowPrefix(p: Plan, j: nat, k: nat, n: nat)
    requires Fits(p) && j <= k <= |p.orders|
    requires Below(TrainIndices(p, k), n) && Below(TestIndices(p, k), n)
    ensures Below(TrainIndices(p, j), n) && Below(TestIndices(p, j), n)
    decreases k - j
  {
    if j < k {
      BelowAppend(TrainIndices(p, k - 1), TrainPart(p, k - 1), n);
      BelowAppend(TestIndices(p, k - 1), TestPart(p, k - 1), n);
      BelowPrefix(p, j, k - 1, n);
    }
  }

  /** One pass of the class loop: the shuffled positions of class ci, cut after its train count, extend both position lists. */
  lemma ClassStep(p: Plan, ci: nat, shuffled: seq<nat>)
    requires Fits(p) && ci < |p.orders|
    requires shuffled == Permute(Positions(p.allY, p.classes[ci]), p.orders[ci])
    ensures p.counts[ci] <= |shuffled| && Below(shuffled, |p.allY|)
    ensures TrainIndices(p, ci + 1) == TrainIndices(p, ci) + shuffled[..p.counts[ci]]
    ensures TestIndices(p, ci + 1) == TestIndices(p, ci) + shuffled[p.counts[ci]..]
  {
    assert shuffled == ClassOrder(p, ci);
  }

  /** A shuffled position of one class past the end of the rows leaves some picked position past the end. */
  lemma ClassPastEnd(p: Plan, ci: nat, shuffled: seq<nat>, n: nat)
    requires Fits(p) && ci < |p.orders|
    requires shuffled == Permute(Positions(p.allY, p.classes[ci]), p.orders[ci])
    requires !Below(shuffled, n)
    ensures !(Below(TrainIndices(p, |p.orders|), n) && Below(TestIndices(p, |p.orders|), n))
  {
    if Below(TrainIndices(p, |p.orders|), n) && Below(TestIndices(p, |p.orders|), n) {
      var count := p.counts[ci];
      ClassStep(p, ci, shuffled);
      BelowPrefix(p, ci + 1, |p.orders|, n);
      BelowAppend(TrainIndices(p, ci), shuffled[..count], n);
      BelowAppend(TestIndices(p, ci), shuffled[count..], n);
      assert shuffled == shuffled[..count] + shuffled[count..];
      BelowAppend(shuffled[..count], shuffled[count..], n);
    }
  }

  /** Appending one class's picked positions appends their rows and labels. */
  lemma PickStep<R>(allX: seq<R>, allY: seq<int>, trainIdx: seq<nat>, testIdx: seq<nat>, shuffled: seq<nat>, count: nat)
    requires Below(trainIdx, |allX|) && Below(testIdx, |allX|) && Below(shuffled, |allX|)
    requires Below(trainIdx, |allY|) && Below(testIdx, |allY|) && Below(shuffled, |allY|)
    requires count <= |shuffled|
    ensures Below(trainIdx + shuffled[..count], |allX|) && Below(testIdx + shuffled[count..], |allX|)
    ensures Permute(allX, trainIdx + shuffled[..count]) == Permute(allX, trainIdx) + Permute(allX, shuffled[..count])
    ensures Permute(allY, trainIdx + shuffled[..count]) == Permute(allY, trainIdx) + Permute(allY, shuffled[..count])
    ensures Permute(allX, testIdx + shuffled[count..]) == Permute(allX, testIdx) + Permute(allX, shuffled[count..])
    ensures Permute(allY, testIdx + shuffled[count..]) == Permute(allY, testIdx) + Permute(allY, shuffled[count..])
  {
    BelowAppend(shuffled[..count], shuffled[count..], |allX|);
    assert shuffled == shuffled[..count] + shuffled[count..];
    BelowAppend(trainIdx, shuffled[..count], |allX|);
    BelowAppend(testIdx, shuffled[count..], |allX|);
    BelowAppend(shuffled[..count], shuffled[count..], |allY|);
    PermuteAppend(allX, trainIdx, shuffled[..count]);
    PermuteAppend(allY, trainIdx, shuffled[..count]);
    PermuteAppend(allX, testIdx, shuffled[count..]);
    PermuteAppend(allY, testIdx, shuffled[count..]);
  }

  /**
   * The class loop of the resampler: for each class in ascending order takes
   * its shuffled positions, sends the first as many as the class had train
   * cases to the new train set and the rest to the new test set, and appends
   * their rows and labels.
   */
  method PickClasses<R>(allData: seq<R>, allLabels: seq<int>, classes: seq<int>, counts: seq<nat>, orders: seq<seq<nat>>)
    returns (r: Result<Resampled<R, int>>)
    requires Fits(Plan(allLabels, classes, counts, orders))
    ensures r == PickByPlan(Plan(allLabels, classes, counts, orders), allData)
  {
    ghost var p := Plan(allLabels, classes, counts, orders);
    var newTrainX: seq<R>, newTrainY: seq<int>, newTestX: seq<R>, newTestY: seq<int> := [], [], [], [];
    ghost var trainIdx: seq<nat>, testIdx: seq<nat> := [], [];
    for ci := 0 to |classes|
      invariant trainIdx == TrainIndices(p, ci) && testIdx == TestIndices(p, ci)
      invariant Below(trainIdx, |allData|) && Below(testIdx, |allData|)
      invariant newTrainX == Permute(allData, trainIdx) && newTrainY == Permute(allLabels, trainIdx)
      invariant newTestX == Permute(allData, testIdx) && newTestY == Permute(allLabels, testIdx)
    {
      var shuffled := Permute(Positions(allLabels, classes[ci]), orders[ci]);
      var count := counts[ci];
      ClassStep(p, ci, shuffled);
      if !Below(shuffled, |allData|) {
        ClassPastEnd(p, ci, shuffled, |allData|);
        return Err(IndexError);
      }
      PickStep(allData, allLabels, trainIdx, testIdx, shuffled, count);
      var trainPart, testPart := shuffled[..count], shuffled[count..];
      newTrainX, newTrainY := newTrainX + Permute(allData, trainPart), newTrainY + Permute(allLabels, trainPart);
      newTestX, newTestY := newTestX + Permute(allData, testPart), newTestY + Permute(allLabels, testPart);
      trainIdx, testIdx := trainIdx + trainPart, testIdx + testPart;
    }
    return Ok(Resampled(newTrainX, newTrainY, newTestX, newTestY));
  }

  /**
   * The resampler itself: combines train and test, lists the classes of
   * each with the train counts, checks that train and test list the same
   * classes, and runs the class loop.
   */
  method StratifiedResample<R>(trainX: seq<R>, trainY: seq<int>, testX: seq<R>, testY: seq<int>, orders: seq<seq<nat>>)
    returns (r: Result<Resampled<R, int>>)
    requires ShufflesFit(trainY, testY, orders)
    ensures r == StratifiedResampleData(trainX, trainY, testX, testY, orders)
  {
    var allLabels := trainY + testY;
    var allData := trainX + testX;
    var uniqueTrain := Unique(trainY);
    var countsTrain := TrainCounts(trainY, uniqueTrain);
    var uniqueTest := Unique(testY);
    if uniqueTrain != uniqueTest {
      return Err(AssertionError);
    }
    FitsPlan(trainY, testY, orders);
    r := PickClasses(allData, allLabels, uniqueTrain, countsTrain, orders);
  }
}
