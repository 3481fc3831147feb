/** The documented invariant on column positions: a column's `order` is its
    position on the line, counted from the left starting at 0. The column class
    does not enforce it; here it is a predicate over a whole schema, with the
    fact that makes it useful: in a well-ordered schema of n columns every
    position 0..n-1 belongs to exactly one column. */
module Schema {

  import opened Columns

  /** The `order` of every column of the schema, in schema order. */
  function Orders<T>(columns: seq<GenericColumn<T>>): seq<int> {
    seq(|columns|, k requires 0 <= k < |columns| => columns[k].order)
  }

  /** The set of values in a sequence. */
  function Elements(s: seq<int>): set<int> {
    if s == [] then {} else {s[0]} + Elements(s[1..])
  }

  /** The positions 0..n-1 of a line of n fields. */
  function Positions(n: nat): set<int> {
    if n == 0 then {} else Positions(n - 1) + {n - 1}
  }

  ghost predicate Distinct(s: seq<int>) {
    forall j, k :: 0 <= j < k < |s| ==> s[j] != s[k]
  }

  /** Every order is a position of the line and no two columns share one. */
  ghost predicate WellOrdered<T>(columns: seq<GenericColumn<T>>) {
    && (forall k :: 0 <= k < |columns| ==> 0 <= columns[k].order < |columns|)
    && (forall j, k :: 0 <= j < k < |columns| ==> columns[j].order != columns[k].order)
  }

  lemma {:induction false} PositionsAre(n: nat)
    ensures |Positions(n)| == n
    ensures forall x :: x in Positions(n) <==> 0 <= x < n
  {
    if n > 0 {
      PositionsAre(n - 1);
    }
  }

  lemma {:induction false} ElementsAre(s: seq<int>)
    ensures forall x :: x in Elements(s) <==> x in s
  {
    if s != [] {
      ElementsAre(s[1..]);
      assert s == [s[0]] + s[1..];
    }
  }

  /** A sequence is free of repeats when its head is not in its tail and its
      tail is free of repeats. */
  lemma DistinctCons(x: int, t: seq<int>)
    ensures Distinct([x] + t) <==> x !in t && Distinct(t)
  {
    var s := [x] + t;
    if x !in t && Distinct(t) {
      forall j, k | 0 <= j < k < |s|
        ensures s[j] != s[k]
      {
        assert s[k] == t[k - 1];
        if j > 0 {
          assert s[j] == t[j - 1];
        }
      }
    }
    if Distinct(s) {
      forall j, k | 0 <= j < k < |t|
        ensures t[j] != t[k]
      {
        assert t[j] == s[j + 1] && t[k] == s[k + 1];
      }
      forall i | 0 <= i < |t|
        ensures t[i] != x
      {
        assert s[0] == x && t[i] == s[i + 1];
      }
    }
  }

  /** A sequence has at most as many distinct values as elements, and exactly as
      many when no value repeats. */
  lemma {:induction false} ElementsCount(s: seq<int>)
    ensures |Elements(s)| <= |s|
    ensures |Elements(s)| == |s| <==> Distinct(s)
  {
    if s != [] {
      var x, t := s[0], s[1..];
      assert s == [x] + t;
      assert Elements(s) == {x} + Elements(t);
      ElementsCount(t);
      ElementsAre(t);
      DistinctCons(x, t);
      assert x in t <==> x in Elements(t);
    }
  }

  lemma SubsetOfSameSize(a: set<int>, b: set<int>)
    requires a <= b && |a| == |b|
    ensures a == b
  {
    var rest := b - a;
    assert b == a + rest;
    assert a * rest == {};
    assert |rest| == 0;
  }

  /** A schema is well-ordered exactly when its orders are the positions
      0..n-1, each taken once: the orders form a permutation of the positions. */
  lemma WellOrderedIffPermutation<T>(columns: seq<GenericColumn<T>>)
    ensures WellOrdered(columns) <==> Elements(Orders(columns)) == Positions(|columns|)
  {
    var orders := Orders(columns);
    ElementsCount(orders);
    ElementsAre(orders);
    PositionsAre(|columns|);
    if WellOrdered(columns) {
      assert Distinct(orders);
      forall x | x in Elements(orders)
        ensures x in Positions(|columns|)
      {
        var k :| 0 <= k < |orders| && orders[k] == x;
      }
      SubsetOfSameSize(Elements(orders), Positions(|columns|));
    }
    if Elements(orders) == Positions(|columns|) {
      forall k | 0 <= k < |columns|
        ensures 0 <= columns[k].order < |columns|
      {
        assert orders[k] in Elements(orders);
      }
      assert Distinct(orders);
      forall j, k | 0 <= j < k < |columns|
        ensures columns[j].order != columns[k].order
      {
        assert orders[j] != orders[k];
      }
    }
  }

  /** In a well-ordered schema every position of the line has one column, and
      only one. */
  lemma EveryPositionHasOneColumn<T>(columns: seq<GenericColumn<T>>, position: int)
    requires WellOrdered(columns)
    requires 0 <= position < |columns|
    ensures exists k :: 0 <= k < |columns| && columns[k].order == position
    ensures forall j, k ::
      (0 <= j < |columns| && 0 <= k < |columns| &&
       columns[j].order == position && columns[k].order == position) ==> j == k
  {
    WellOrderedIffPermutation(columns);
    PositionsAre(|columns|);
    ElementsAre(Orders(columns));
    assert position in Elements(Orders(columns));
    var k :| 0 <= k < |columns| && Orders(columns)[k] == position;
    assert columns[k].order == position;
  }
}
