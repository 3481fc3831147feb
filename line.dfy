/** A parsed row (`DefaultLine`): a list of values held by reference, whose
    accessor hands out a freshly allocated copy so that callers cannot change
    the row through what they are given. */
module Line {

  /** A `java.util.List` as the row and its callers use it: a heap object whose
      contents can be appended to and cleared. Its element type is the opaque
      `Value` of the loader. */
  class ValueList<V> {
    var elements: seq<V>

    /** `new LinkedList<>()` / `new ArrayList<>()`. */
    constructor Empty()
      ensures elements == []
    {
      elements := [];
    }

    /** `new ArrayList<>(source)`: a new list with the elements of `source`,
        in the same order. */
    constructor CopyOf(source: ValueList<V>)
      ensures elements == source.elements
    {
      elements := source.elements;
    }

    /** `add(v)`. */
    method Add(v: V)
      modifies this
      ensures elements == old(elements) + [v]
    {
      elements := elements + [v];
    }

    /** `clear()`. */
    method Clear()
      modifies this
      ensures elements == []
    {
      elements := [];
    }

    /** `size()`. */
    method Size() returns (n: nat)
      ensures n == |elements|
    {
      n := |elements|;
    }
  }

  class DefaultLine<V> {
    /** The caller's list itself: the constructor makes no copy. */
    const values: ValueList<V>

    /** The row's values as they stand now. */
    ghost function Contents(): seq<V>
      reads values
    {
      values.elements
    }

    /** Stores the given list by reference, so later changes the caller makes
        to that list are seen by the row. */
    constructor (values: ValueList<V>)
      ensures this.values == values
      ensures Contents() == values.elements
    {
      this.values := values;
    }

    /** `values()`: a newly allocated list with the row's elements in the same
        order. It changes nothing, so the row is the same afterwards, and
        whatever is later done to the returned list cannot reach the row. */
    method Values() returns (copy: ValueList<V>)
      ensures fresh(copy)
      ensures copy.elements == Contents()
      ensures unchanged(values)
    {
      copy := new ValueList.CopyOf(values);
    }
  }

  /** Clearing the list that `values()` returned leaves the row as it was:
      `values()` afterwards still yields the row's full contents. */
  method ClearingCopyKeepsLine<V>(line: DefaultLine<V>) returns (before: seq<V>, after: seq<V>)
    ensures before == after == line.Contents()
  {
    var copy := line.Values();
    before := copy.elements;
    copy.Clear();
    var again := line.Values();
    after := again.elements;
  }

  /** The unit-test scenario: a row built from a one-element list still has one
      value after the list returned by `values()` is cleared. */
  method ImmutableValuesScenario<V>(v: V) returns (size: nat)
    ensures size == 1
  {
    var values := new ValueList.Empty();
    values.Add(v);
    var line := new DefaultLine(values);
    var copy := line.Values();
    copy.Clear();
    var again := line.Values();
    size := again.Size();
  }

  /** Two calls of `values()` give two distinct lists with equal contents. */
  method ValuesTwice<V>(line: DefaultLine<V>) returns (first: ValueList<V>, second: ValueList<V>)
    ensures first != second
    ensures first.elements == second.elements == line.Contents()
  {
    first := line.Values();
    second := line.Values();
  }

  /** The row is NOT insulated from its constructor argument: a value the
      caller adds to that list afterwards shows up in `values()`. */
  method SharedArgumentScenario<V>(v: V, w: V) returns (seen: seq<V>)
    ensures seen == [v, w]
  {
    var values := new ValueList.Empty();
    values.Add(v);
    var line := new DefaultLine(values);
    values.Add(w);
    var copy := line.Values();
    seen := copy.elements;
  }
}
