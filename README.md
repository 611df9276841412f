# A model of GreptimeDB's column builder, List type, prefix-end key and protocol gate

This project models four pieces of GreptimeDB's sequential logic and proves what they promise.

- **`VectorBuilder`** (`builder.dfy`, with `vectors.dfy`) is the type-erased mutable column accumulator. It is a class. It has an immutable arm (`const arm`) that is picked from a `ConcreteDataType` when the builder is made. A typed arm keeps a sequence of optional elements; the Null arm keeps only a counter. `Push` is the unchecked insert: its requires clause is the set of pairings that do not panic, which includes the three integer widenings to Date, DateTime and Timestamp. `TryPushRef` is the checked insert and returns `Outcome<Error>`. `PushNull` appends a null. `Finish` returns an immutable `Vector`. The ghost function `Contents()` gives every arm the same abstract view, the rows in insertion order. Every method states the new `Contents()` in terms of the old one. `Refinish` proves the round trip: a builder made from a finished vector's type, fed every row of that vector, finishes as the same vector.
- **`ListType`** (`datatypes.dfy`) is the List data-type descriptor. `ConcreteDataType`, `ListType`, `Value` and `ListValue` are mutually recursive datatypes in one module. The descriptor reports a fixed name and logical type id, a typed-but-absent default value, a recursive Arrow type, and the parameters of the list builder it creates. `FromArrowType` is an inverse of `AsArrowType`, and a lemma proves that every data type, at any nesting depth, is recovered from its Arrow type.
- **`get_prefix_end_key`** (`prefix_end.dfy`) is a backward loop over the key. At the first byte below 0xFF it copies the prefix into a fresh array and increments that byte in place. The method is proved equal to a recursive specification `PrefixEnd`. Lemmas then prove the shape of the result, the `[0]` case, and that the result is a strict lexicographic upper bound of every byte string that starts with the key.
- **`ProtocolAction`** (`protocol.dfy`) is a pair of `u16` minimum versions with `>=` gates. Lemmas show that each minimum is the least admitted version, that the gates are monotone, and that the default admits everything.

Integer widths of the source are subset types of `int` (`u8` to `i64`, in `ints.dfy`); the date and time scalars are in `common_time.dfy`. Because the incremented byte is a `u8` in both `PrefixEnd` and `GetPrefixEndKey`, verification proves it never overflows.

`push` widens Int32 into Date, and Int64 into DateTime and Timestamp (`src/datatypes/src/vectors/builder.rs:163-169`). `try_push_ref` hands the value to each per-type `push_value_ref`, which is outside this model and is assumed to accept only a null or a value of its own type. `PushOnlyWidensIntegers` states the difference.

## Model

| member | source | states |
|---|---|---|
| `Builder.ArmDataType` | src/datatypes/src/vectors/builder.rs:120-140 | the reported data type is never a List, and selecting an arm for it gives back the same arm |
| `Builder.ArmDataTypeOfArmFor` | src/datatypes/src/vectors/builder.rs:65-118 | a builder made for any supported non-List type `t` reports `data_type() == t` |
| `Builder.ArmFor` | src/datatypes/src/vectors/builder.rs:65-118 | the selection of an arm from a non-List type; only the null type gets the counting arm, and `ArmDataTypeOfArmFor` proves the selected arm reports the type back |
| `Builder.VectorBuilder.DataType` | src/datatypes/src/vectors/builder.rs:120-140 | the reported type is never a List and selects the builder's own arm again; the arm is a `const`, so it is the same before and after any pushes |
| `Builder.VectorBuilder.WithCapacity` | src/datatypes/src/vectors/builder.rs:65-118 | the new builder is on the arm for `t`, reports `t`, and is empty whatever the capacity |
| `Builder.VectorBuilder.New` | src/datatypes/src/vectors/builder.rs:61-63 | the same as `WithCapacity` with capacity 0: it reports `t` and is empty |
| `Builder.VectorBuilder.PushNull` | src/datatypes/src/vectors/builder.rs:210-230 | exactly one null row is appended on every arm; the Null arm's count goes up by one; nothing else changes |
| `Builder.VectorBuilder.Push` | src/datatypes/src/vectors/builder.rs:142-177 | a null appends one null; otherwise the value must suit the arm or be one of its integer widenings (every other pairing panics), and exactly the converted element is appended |
| `Builder.PushedElement` | src/datatypes/src/vectors/builder.rs:148-169 | a matching value is stored unchanged; Int32 becomes a Date on the Date arm, Int64 a DateTime on the DateTime arm and a millisecond Timestamp on the Timestamp arm; the stored element always has the arm's type |
| `Builder.PushOnlyWidensIntegers` | src/datatypes/src/vectors/builder.rs:142-208 | `push` takes a value that `try_push_ref` refuses exactly when it is one of the three integer widenings |
| `Builder.PushAcceptsWhatTryPushRefAccepts` | src/datatypes/src/vectors/builder.rs:179-208 | every value `try_push_ref` takes, `push` takes too, and both store it the same way |
| `Builder.VectorBuilder.TryPushRef` | src/datatypes/src/vectors/builder.rs:179-208 | success holds exactly for a null or a value of the builder's type, and appends that one element; a failure changes nothing; the Null arm fails with "unable to accept non-null value in NullVectorBuilder"; a typed arm fails with a cast error naming the value and the builder's type |
| `Builder.VectorBuilder.Finish` | src/datatypes/src/vectors/builder.rs:232-252 | the vector has the builder's data type and one row per accepted insertion, and row i reads back as the i-th element (or null); its rows are exactly the builder's contents; the Null arm gives `NullVector(count)` |
| `Builder.Int32BuilderScenario` | src/datatypes/src/vectors/builder.rs:282-303 | null, 100, null, 101 give rows [null, 100, null, 101], and a Boolean is refused with a cast error |
| `Builder.NullBuilderScenario` | src/datatypes/src/vectors/builder.rs:308-325 | the Null builder refuses Boolean(true) with the literal message and finishes as a two-row null vector |
| `Builder.DateBuilderScenario` | src/datatypes/src/vectors/builder.rs:434-457 | a failed Boolean in the middle appends nothing: the rows are [null, Date 123, Date 456, null] |
| `Builder.WideningScenario` | src/datatypes/src/vectors/builder.rs:163-169 | raw integers pushed into Date, DateTime and Timestamp builders read back as a Date, a DateTime and a millisecond Timestamp |
| `Builder.FinishEmpty` | src/datatypes/src/vectors/builder.rs:232-252 | a builder that received nothing finishes as an empty vector of its own type |
| `Builder.PushThenGet` | src/datatypes/src/vectors/builder.rs:148-162 | a value of the builder's type, pushed alone, reads back unchanged as row 0 of the finished vector |
| `Builder.PushRestoresRow` | src/datatypes/src/vectors/builder.rs:142-162 | every row read back from a valid vector is accepted by `push` on a builder of the vector's type, and `push` stores exactly that row again |
| `Builder.Refinish` | src/datatypes/src/vectors/builder.rs:142-252 | making a builder from a valid vector's type, pushing every row read back from it and finishing gives the same vector |
| `Vectors.RowsDetermineVector` | src/datatypes/src/vectors/builder.rs:232-252 | two valid vectors with the same data type and the same rows are the same vector |
| `Vectors.Vector.Len` | src/datatypes/src/vectors.rs:17-18 | the length is the number of rows; `Finish` proves it is the number of accepted insertions |
| `Vectors.Vector.IsEmpty` | src/datatypes/src/vectors.rs:20-23 | a vector is empty exactly when it has no rows |
| `Vectors.Vector.DataType` | src/datatypes/src/vectors.rs:10-11 | a column reports its own type, and a valid vector reports the null type exactly when it is a `NullVector` |
| `Vectors.Vector.IsNull` | src/datatypes/src/vectors/builder.rs:298-303 | row i is null exactly when it reads back as null; every row of a null vector is null; in a valid vector a row is null exactly when it holds no element |
| `Vectors.Vector.Get` | src/datatypes/src/vectors/builder.rs:278-279 | row i reads back as the i-th row (null for an absent one); every row of a null vector reads as null, and a non-null row of a valid column has the column's type |
| `DataTypes.ListType.New` | src/datatypes/src/types/list_type.rs:35-41 | the descriptor stores exactly the given inner type |
| `DataTypes.ListType.Default` | src/datatypes/src/types/list_type.rs:29-33 | the default List type has the null data type as its inner type |
| `DataTypes.ListTypeEqualityIsStructural` | src/datatypes/src/types/list_type.rs:22-27 | two List types are equal exactly when their inner types are equal |
| `DataTypes.ListType.Name` | src/datatypes/src/types/list_type.rs:44-46 | the name "List"; its promise, independence from the inner type, is stated by `ListNameAndIdIgnoreInner` |
| `DataTypes.ListType.TypeId` | src/datatypes/src/types/list_type.rs:48-50 | the logical type id `List`; its promise is stated by `ListNameAndIdIgnoreInner` |
| `DataTypes.ListNameAndIdIgnoreInner` | src/datatypes/src/types/list_type.rs:44-50 | every List type is named "List" and has the logical type id `List`, whatever its inner type |
| `DataTypes.ListType.DefaultValue` | src/datatypes/src/types/list_type.rs:52-54 | the default value is a List value with absent contents, still tagged with the inner type, and is never `Value.Null` |
| `DataTypes.ConcreteDataType.TypeId` | src/datatypes/src/types/list_type.rs:48-50 | a data type has the logical type id `List` exactly when it is a List; the ids of the primitive types are defined outside this model |
| `DataTypes.ConcreteDataType.AsArrowType` | src/datatypes/src/types/list_type.rs:56-59 | a data type maps to an Arrow List exactly when it is a List, whose field is the nullable "item"; a primitive type maps to an abstract Arrow leaf named by its logical type id |
| `DataTypes.ListType.AsArrowType` | src/datatypes/src/types/list_type.rs:56-59 | an Arrow List of a single nullable field named "item" that carries the inner type's Arrow type |
| `DataTypes.ArrowTypeRoundTrip` | src/datatypes/src/types/list_type.rs:56-59 | the Arrow type of any data type, at any List nesting depth, maps back to that data type |
| `DataTypes.ArrowTypeInjective` | src/datatypes/src/types/list_type.rs:56-59 | two data types with the same Arrow type are equal |
| `DataTypes.ListType.CreateMutableVector` | src/datatypes/src/types/list_type.rs:61-66 | the created list builder is given this List type's inner type and the requested capacity |
| `DataTypes.BooleanListType` | src/datatypes/src/types/list_type.rs:74-87 | a list of booleans is named "List", defaults to an absent boolean list, and maps to an Arrow List of a nullable Boolean "item" |
| `MetaSrvUtil.PrefixEnd` | src/meta-srv/src/util.rs:3-14 | the result is never empty and, for a non-empty key, no longer than the key |
| `MetaSrvUtil.GetPrefixEndKey` | src/meta-srv/src/util.rs:3-14 | the backward loop with early return computes exactly `PrefixEnd(key)` |
| `MetaSrvUtil.PrefixEndIncrementsLastBelowMax` | src/meta-srv/src/util.rs:4-9 | if i is the last index with a byte below 0xFF, the result has length i+1, agrees with the key below i, and has `key[i] + 1` at i |
| `MetaSrvUtil.PrefixEndOfAllMax` | src/meta-srv/src/util.rs:12-13 | a key whose bytes are all 0xFF, the empty key included, gives exactly `[0]` |
| `MetaSrvUtil.LastBelowMax` | src/meta-srv/src/util.rs:4-5 | a key with a byte below 0xFF has a last such index, which the backward scan meets first |
| `MetaSrvUtil.LexLessAtFirstDifference` | src/meta-srv/src/util.rs:1-9 | two byte strings that agree before index k and have a smaller byte at k are in lexicographic order |
| `MetaSrvUtil.PrefixEndBoundsEveryExtension` | src/meta-srv/src/util.rs:1-9 | when a byte below 0xFF exists, the key and every byte string that starts with it sort strictly below the prefix end |
| `MetaSrvUtil.PrefixEndExamples` | src/meta-srv/src/util.rs:21-33 | "testa" gives "testb", [0,0,26] gives [0,0,27], [0,0,255] gives [0,1], [0,255,255] gives [1], and all-0xFF or empty keys give [0] |
| `ManifestAction.SupportedProtocolVersion` | src/store-api/src/manifest/action.rs:8-15 | the supported reader and writer versions are the constants, both 0 |
| `ManifestAction.ProtocolAction.IsReadable` | src/store-api/src/manifest/action.rs:41-43 | the reader gate; its promise is stated by `MinReaderVersionIsLeastReadable` and `AccessIsMonotone` |
| `ManifestAction.ProtocolAction.IsWritable` | src/store-api/src/manifest/action.rs:45-47 | the writer gate; its promise is stated by `MinWriterVersionIsLeastWritable` and `AccessIsMonotone` |
| `ManifestAction.ProtocolAction.Default` | src/store-api/src/manifest/action.rs:26-34 | the default minimums are the supported protocol versions, both 0 |
| `ManifestAction.ProtocolAction.New` | src/store-api/src/manifest/action.rs:36-39 | a new action has minimum reader and writer versions 0 |
| `ManifestAction.MinReaderVersionIsLeastReadable` | src/store-api/src/manifest/action.rs:41-43 | `is_readable(v)` holds exactly when `v >= min_reader_version`, so that minimum is the least readable version |
| `ManifestAction.MinWriterVersionIsLeastWritable` | src/store-api/src/manifest/action.rs:45-47 | `is_writable(v)` holds exactly when `v >= min_writer_version`, so that minimum is the least writable version |
| `ManifestAction.AccessIsMonotone` | src/store-api/src/manifest/action.rs:41-47 | readable or writable at v implies the same at every later version |
| `ManifestAction.DefaultAdmitsEveryVersion` | src/store-api/src/manifest/action.rs:58-61 | the new action is readable and writable at every version |
| `ManifestAction.RaisedMinimumsExample` | src/store-api/src/manifest/action.rs:62-69 | with minimums (2, 3): neither readable nor writable at 0, readable at 2 and 3, writable at 3 and 4 |

## Left out

- Builder.VectorBuilder.TryPushRef: the per-type `push_value_ref` is not part of this model. The model assumes it accepts exactly a null or a value of its own type, with no integer widening. The text of its cast errors is abstracted to `CastValue(value, target)`.
- Builder.VectorBuilder.Finish: the real `finish` takes `&mut self` and drains the per-type buffers. The model does not change the builder, and reuse after `finish` is not modelled.
- The List arm of `with_capacity` is `unimplemented!()` in the source. It becomes the requirement `!dataType.List?`.
- The Null arm's `usize` counter (`*v += 1`) panics on overflow in a debug build and wraps around in a release build. It is an unbounded `nat` here, since no realistic column reaches 2^64 rows.
- The per-type child builders are not part of this model. Each typed arm is a sequence of optional values. Its `data_type()` is assumed to be the type the arm was selected for, and its `finish()` to read back exactly what was pushed. The payloads of the `ConcreteDataType` variants, such as `Timestamp(_)`, are dropped. `ArmDataTypeOfArmFor`, `PushThenGet` and `Refinish` rest on these assumptions.
- Float32/Float64 payloads and the `OrderedFloat` wrapper are not modelled. Floats are opaque tokens compared by equality, with no IEEE numerics.
- `Date::new`, `DateTime::new` and `Timestamp::from_millis` are modelled as plain wrappers around their integer; the `common_time` crate is not part of this model.
- Ownership is not modelled: `ValueRef` is the same datatype as `Value`, and sharing a `Vector` through `Arc` is a value copy.
- The concrete vectors, `to_arrow_array`, the type-erased downcast `as_any`, and the arrow `DataType`/`Field` layer are not part of this model. An Arrow type is an abstract `Leaf` named by a logical type id, or a List of one `Field`.
- The Arrow, name and default-value mappings of the primitive data types are defined in files that are not part of this model. Arrow leaves stay abstract, and names and default values are modelled only for `ListType`.
- `FromArrowType` is an inverse of `AsArrowType` defined in this model. It is not a transcription of the source's own conversion from Arrow types, which is not part of this model.
- `ListVectorBuilder` is modelled only by the item type and capacity it is created with. Its `data_type`, push and finish operations are not part of this model.
- Distinct primitive data types are assumed to have distinct Arrow types: each primitive maps to the leaf named by its own logical type id. `ArrowTypeRoundTrip` and `ArrowTypeInjective` rest on that assumption for the primitive cases.
- The JSON (serde) encoding of `ProtocolAction` is produced by a derive macro, so it is left out.
- `src/common/query/src/logical_plan/udf.rs` and `src/common/query/src/lib.rs` are thin adapters over the execution engine. `src/log-store/src/fs/namespace.rs` is a named handle with no logic. All three are left out.
- `Send`/`Sync` and concurrency are left out: every operation here is sequential.
