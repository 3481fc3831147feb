# ezload column schema and row model

This project models two pieces of the ezload delimited-file loader in Dafny:

- **`GenericColumn<T>`**: the column schema unit. It holds a zero-based field
  position (`order`), a column `name`, a `Transform<T>` from raw text to a typed
  value, and a `Constrain<T>` predicate on that value. `value(raw)` is the
  transform applied to `raw`. `isValid(raw)` is the constraint applied to
  `value(raw)`. In the model a column is an immutable datatype (module
  `Columns`). The transform is partial: it returns a `Result`, and its failure
  comes out of `IsValid` unchanged.
- **The position invariant** of the `order` field. An order is a position on the
  line counted from 0. The column class stores whatever it is given and never
  checks this. Module `Schema` states the invariant over a whole schema as
  `WellOrdered`. It proves that the invariant holds exactly when the orders are a
  permutation of 0..n-1, so every position has exactly one column.
- **`DefaultLine`**: a row of values. It keeps the caller's list by reference.
  Its accessor `values()` returns a newly allocated copy. In the model
  (module `Line`) the list is a heap object `ValueList` and the row is a class
  with a `const` reference to it. `Values()` is a method whose result is `fresh`
  and has the row's contents. Client methods show that clearing the returned
  list leaves the row intact. They also show that the row does see later
  changes to the list given to its constructor.

`isValid` has no catch around the transform call (GenericColumn.java line 60),
so a transform failure propagates out of it as an exception. The model returns
`Failure(e)` with the transform's own error `e`, never `Success(false)`. (The
`@todo` on `isValid` in Column.java, lines 61-66, asks for the reverse change: to
throw where the check now returns `false`.)

Files: `results.dfy` (the `Result` datatype), `columns.dfy`, `schema.dfy`,
`line.dfy`.

## Model

| member | source | states |
|---|---|---|
| `Columns.GenericColumn.IsValid` | src/main/java/com/elbraulio/ezload/model/GenericColumn.java:59-61 | fails exactly when the transform fails, with the transform's own error; otherwise it is the constraint applied to the transformed value |
| `Columns.ConstructorKeepsArguments` | src/main/java/com/elbraulio/ezload/model/GenericColumn.java:31-56 | `order` and `name` return exactly the constructor's arguments; `value(raw)` is exactly the given transform applied to `raw` |
| `Columns.IsValidDependsOnlyOnValue` | src/main/java/com/elbraulio/ezload/model/GenericColumn.java:59-61 | two raw texts with the same transform outcome have the same validity: the raw text itself is never inspected |
| `Columns.TransformFailurePropagates` | src/main/java/com/elbraulio/ezload/model/GenericColumn.java:59-61 | a transform failure comes out of `isValid` as that same failure, never as `false` |
| `Columns.PositionAndNameDoNotMatter` | src/main/java/com/elbraulio/ezload/model/GenericColumn.java:43-61 | `value` and `isValid` depend only on the transform and the constraint, not on the column's order or name |
| `Schema.WellOrderedIffPermutation` | src/main/java/com/elbraulio/ezload/model/Column.java:46-52 | orders all within 0..n-1 and pairwise distinct if and only if the set of orders is exactly the positions 0..n-1 |
| `Schema.EveryPositionHasOneColumn` | src/main/java/com/elbraulio/ezload/model/GenericColumn.java:25 | in a well-ordered schema of n columns every position 0..n-1 has a column with that order, and only one |
| `Line.DefaultLine.constructor` | src/main/java/com/elbraulio/ezload/line/DefaultLine.java:46-48 | the row holds the caller's list object itself, not a copy |
| `Line.DefaultLine.Values` | src/main/java/com/elbraulio/ezload/line/DefaultLine.java:51-53 | returns a newly allocated list with the row's elements in the same order, and leaves the row's list unchanged |
| `Line.ValueList.CopyOf` | src/main/java/com/elbraulio/ezload/line/DefaultLine.java:52 | the copy has the source list's elements, in order |
| `Line.ClearingCopyKeepsLine` | src/main/java/com/elbraulio/ezload/line/DefaultLine.java:51-53 | after the returned list is cleared, `values()` still yields the row's full contents, equal to the first result |
| `Line.ImmutableValuesScenario` | src/test/java/com/elbraulio/ezload/line/DefaultLineTest.java:43-53 | a row built from a one-value list still has size 1 after the list returned by `values()` is cleared |
| `Line.ValuesTwice` | src/main/java/com/elbraulio/ezload/line/DefaultLine.java:51-53 | two calls to `values()` return distinct lists with equal contents, equal to the row's |
| `Line.SharedArgumentScenario` | src/main/java/com/elbraulio/ezload/line/DefaultLine.java:46-48 | when `v` is in the list before construction and `w` is added to the constructor's argument afterwards, `values()` yields exactly `[v, w]`: the row is not insulated from its argument |

## Left out

- `addToPreparedStatement` and the `AddBatch<T>` field it uses: JDBC parameter binding is a call into the database driver. The column datatype omits that field.
- `EzInsert`, the `Insert` interface and the chunked batch loader (`InsertFromParser`, `SqlFromParser`): database and reader I/O. The loader's code is not part of this model.
- `EzParseException`: its class is not part of this model.
- `Value`, `Transform`, `Constrain`: the concrete classes are not part of this model. `Value` is a type parameter. Transforms and constraints are function parameters. A transform failure is a `TransformError` that keeps only a message.
- A constraint that throws is not modelled: `Constrain<T>` is a total predicate.
- Java `null` arguments (a null raw string, a null list) are not modelled.
- `java.util.List` is modelled only as far as the row and its test use it: a heap object holding a sequence, with `add`, `clear`, `size` and the copy constructor. Internal array capacity and growth are not modelled.
- Repeated `isValid(raw)` calls agree, and no call changes the column. Both hold by construction: Dafny functions are deterministic, and the column is an immutable value. No separate lemma states this.
