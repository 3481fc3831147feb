/** The column schema unit of the loader (`GenericColumn<T>`): an immutable record
    of a zero-based field position, a column name, a transform from raw text to a
    typed value and a constraint over that typed value. */
module Columns {

  import opened Results

  /** Java's 32-bit `int`, the type of a column's `order`. */
  type Int32 = x: int | -0x8000_0000 <= x < 0x8000_0000

  /** What a transform throws when it cannot convert the raw text. The concrete
      exception class is not part of this model; only its message is kept. */
  datatype TransformError = TransformError(message: string)

  /** `Transform<T>`: raw text to a typed value, or the failure it throws. */
  type Transform<T> = string -> Result<T, TransformError>

  /** `Constrain<T>`: a predicate over the typed value. */
  type Constrain<!T> = T -> bool

  /** A column: every field is final, so a column is a value. The constructor
      stores its arguments as given and checks none of them; in particular it
      does not check that `order` is a valid position (see module Schema). */
  datatype GenericColumn<!T> = GenericColumn(
    order: Int32,
    name: string,
    constrain: Constrain<T>,
    transform: Transform<T>
  ) {

    /** `value(raw)`: the raw text put through the column's transform, and
        nothing else. A transform failure is returned as a Failure. */
    function Value(raw: string): Result<T, TransformError> {
      transform(raw)
    }

    /** `isValid(raw)`: the constraint applied to the TRANSFORMED value. There is
        no catch around the transform, so a transform failure is not turned into
        `false`: it propagates, unchanged, as the result's failure. */
    function IsValid(raw: string): (r: Result<bool, TransformError>)
      ensures r.Failure? <==> transform(raw).Failure?
      ensures r.Failure? ==> r.error == transform(raw).error
      ensures r.Success? ==> r.value == constrain(transform(raw).value)
    {
      match Value(raw)
      case Success(v) => Success(constrain(v))
      case Failure(e) => Failure(e)
    }
  }

  /** `order()` and `name()` give back exactly what the constructor was given,
      and `value` is the given transform. */
  lemma ConstructorKeepsArguments<T>(
    order: Int32, name: string, constrain: Constrain<T>, transform: Transform<T>, raw: string)
    ensures GenericColumn(order, name, constrain, transform).order == order
    ensures GenericColumn(order, name, constrain, transform).name == name
    ensures GenericColumn(order, name, constrain, transform).Value(raw) == transform(raw)
  {
  }

  /** The validity check never looks at the raw text itself: two raw texts that
      transform to the same outcome are equally valid. */
  lemma IsValidDependsOnlyOnValue<T>(c: GenericColumn<T>, raw1: string, raw2: string)
    requires c.Value(raw1) == c.Value(raw2)
    ensures c.IsValid(raw1) == c.IsValid(raw2)
  {
  }

  /** A transform failure is never reported as "invalid": it comes out of the
      validity check as the very same failure. */
  lemma TransformFailurePropagates<T>(c: GenericColumn<T>, raw: string)
    requires c.Value(raw).Failure?
    ensures c.IsValid(raw) == Failure(c.Value(raw).error)
    ensures c.IsValid(raw) != Success(false)
  {
  }

  /** Validity and value depend on the transform and the constraint alone:
      the position and the name of the column play no part. */
  lemma PositionAndNameDoNotMatter<T>(c: GenericColumn<T>, order: Int32, name: string, raw: string)
    ensures c.(order := order, name := name).Value(raw) == c.Value(raw)
    ensures c.(order := order, name := name).IsValid(raw) == c.IsValid(raw)
  {
  }
}
