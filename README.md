# Reduce-long ops: category, type validation and output inference

This project models `BaseReduceLongOp`, the base class of the nd4j reduction
ops whose output element type is always `LONG`. Before such an op is
executed, callers ask it four things:

- its category, which is always `REDUCE_LONG`;
- whether its operand types are acceptable: a bound `y` must have `x`'s element
  type, and a bound `z` must be `LONG`;
- its output shapes: none while `x` is unbound ("not ready"), otherwise one
  `LONG` descriptor;
- its output data types: `[LONG]` for one input, or for two inputs when the
  second one (the dynamic-axis input) has an integer type.

Every one of these is a pure function of the op's configuration. The
configuration is the optional operands `x`, `y` and `z`, the reduction
`dimensions` and `keepDims`. An exception the Java code throws is an `Err`
value of the model, so the error cases can be stated and proved.

Files:

- `types.dfy` (module `NdTypes`) holds the values: `Option` (a Java reference
  that may be null), `Result` (a return value or a thrown exception),
  `DataType`, `OpKind`, `Operand`, `ShapeDescriptor` and the exceptions.
- `preconditions.dfy` (module `Preconditions`) models a run of
  `Preconditions.check*` calls. The checks run in the order written, and the
  first failing one throws.
- `base_reduce_long_op.dfy` (module `BaseReduceLongOp`) holds the op: its
  configuration record and the members `OpType`, `GetOpType`, `ResultType`,
  `ValidateDataTypes`, `CalculateOutputShape` and `CalculateOutputDataTypes`,
  with the lemmas about them.

Collaborators that are not part of this model are kept uninterpreted:

- `Shape.getReducedShape` is a function-valued parameter (`ReducedShape`). It
  either returns reduced extents or throws, and `calculateOutputShape` passes
  on whatever it throws.
- `DataType.isIntType` is a function-valued parameter (`IsIntType`).
- `INDArray.length()` is a field of `Operand`, given with the operand and not
  derived from its shape.

Nothing else is assumed about them.

Failures are the exceptions the code throws:

- `validateDataTypes` throws `Preconditions.checkArgument`'s illegal-argument
  exception. It reads `x`'s type whenever `y` is bound, so a bound `y` with an
  unbound `x` ends in a null-pointer exception.
- `calculateOutputDataTypes` throws `Preconditions.checkState`'s
  illegal-state exception.

## Model

| member | source | states |
|---|---|---|
| BaseReduceLongOp.CategoryAndResultTypeAreFixed | nd4j/nd4j-backends/nd4j-api-parent/nd4j-api/src/main/java/org/nd4j/linalg/api/ops/BaseReduceLongOp.java:60-73 | For every op, `opType()` is `REDUCE_LONG`, `getOpType()` equals `opType()`, and `resultType()` is `LONG` whatever the operands are. |
| Preconditions.FirstFailure | nd4j/nd4j-backends/nd4j-api-parent/nd4j-api/src/main/java/org/nd4j/linalg/api/ops/BaseReduceLongOp.java:77-84 | A run of checks passes exactly when every check holds. When it fails, it throws the exception of a failing check with no failing check before it. |
| Preconditions.FirstFailureAppend | nd4j/nd4j-backends/nd4j-api-parent/nd4j-api/src/main/java/org/nd4j/linalg/api/ops/BaseReduceLongOp.java:77-82 | Checks written one after another: the later block is consulted only when the earlier one passes, so an earlier failure is the one reported. |
| BaseReduceLongOp.ValidateDataTypes | nd4j/nd4j-backends/nd4j-api-parent/nd4j-api/src/main/java/org/nd4j/linalg/api/ops/BaseReduceLongOp.java:76-85 | `validateDataTypes` succeeds exactly when the family's type policy holds: a bound `y` matches a bound `x`, and a bound `z` is `LONG`. When it succeeds it returns `true`. |
| BaseReduceLongOp.ValidateDataTypesFailures | nd4j/nd4j-backends/nd4j-api-parent/nd4j-api/src/main/java/org/nd4j/linalg/api/ops/BaseReduceLongOp.java:77-82 | Which exception is thrown. A bound `y` with no `x` is a null dereference. An `x`/`y` type mismatch throws an illegal-argument exception naming both types, even when `z` is not `LONG` as well. A non-`LONG` `z` is reported only when `y` passes. |
| BaseReduceLongOp.CalculateOutputShape | nd4j/nd4j-backends/nd4j-api-parent/nd4j-api/src/main/java/org/nd4j/linalg/api/ops/BaseReduceLongOp.java:88-95 | The result is the empty list exactly when `x` is unbound. Otherwise it is exactly one descriptor, of type `LONG`, unless reducing the shape throws. It throws exactly when `x` is non-empty and `getReducedShape` throws, and then it passes on the same exception. |
| BaseReduceLongOp.OutputShapeExtents | nd4j/nd4j-backends/nd4j-api-parent/nd4j-api/src/main/java/org/nd4j/linalg/api/ops/BaseReduceLongOp.java:93 | The descriptor keeps `x`'s own shape when `x` has length 0. Otherwise it has the extents that `getReducedShape(x.shape, dimensions, keepDims)` returns. |
| BaseReduceLongOp.OutputShapeIgnoresTypes | nd4j/nd4j-backends/nd4j-api-parent/nd4j-api/src/main/java/org/nd4j/linalg/api/ops/BaseReduceLongOp.java:93-94 | The inferred shapes depend only on `x`'s extents and length, `dimensions` and `keepDims`. `x`'s element type, `y` and `z` play no part. |
| BaseReduceLongOp.CalculateOutputDataTypes | nd4j/nd4j-backends/nd4j-api-parent/nd4j-api/src/main/java/org/nd4j/linalg/api/ops/BaseReduceLongOp.java:98-106 | Succeeds exactly for a non-null list of one type, or of two types whose second is an integer type. It then returns `[LONG]`. |
| BaseReduceLongOp.CalculateOutputDataTypesFailures | nd4j/nd4j-backends/nd4j-api-parent/nd4j-api/src/main/java/org/nd4j/linalg/api/ops/BaseReduceLongOp.java:101-104 | A null list, or a size other than 1 or 2, throws the input-count illegal-state exception. A two-element list whose second type is not an integer type throws the axis illegal-state exception. |
| BaseReduceLongOp.OutputDataTypesIgnoreFirstInput | nd4j/nd4j-backends/nd4j-api-parent/nd4j-api/src/main/java/org/nd4j/linalg/api/ops/BaseReduceLongOp.java:105 | Two lists that differ only in the first input's type either both fail, or both succeed with the same result. |
| BaseReduceLongOp.ResultTypeAgreesWithInference | nd4j/nd4j-backends/nd4j-api-parent/nd4j-api/src/main/java/org/nd4j/linalg/api/ops/BaseReduceLongOp.java:70-73 | `resultType()` is the type of every descriptor a successful shape inference returns and the one type every successful data-type inference returns. |

## Left out

- The constructors only delegate to the base reduction op and to the
  automatic-differentiation graph classes, which are not part of this model.
  A `ReduceLongOp` value stands for any op they build.
- The inherited `dimensions` field is a Java `int[]` that may be null; the
  model's `seq<int>` cannot be null, so a null array handed on to
  `Shape.getReducedShape` is not represented.
- `Shape.getReducedShape`, `DataType.isIntType` and `INDArray.length()` are
  not part of this model. They are kept uninterpreted, so nothing is proved
  about these rank properties: the reduced rank, extent 1 under `keepDims`,
  deduplication of dimensions, negative axes, or the scalar case. The same
  goes for the reduction examples that depend on them.
- The strides and ordering that `LongShapeDescriptor.fromShape` also records
  are not modelled. A descriptor is its extents and its element type.
- The precondition message text and `getClass()` names are reduced to the
  values the message reports (`Reason`).
- A null element inside the data-type list is not modelled. `DataType` values
  are never null here.
- That `validateDataTypes` does not change its operands is not a separate
  lemma. Every operation of the model is a function, and functions cannot
  change anything.
- `ResultSaver` (model persistence for hyperparameter search) is an interface
  whose one operation does I/O. It has no logic to model.
- The native kernel that finally executes the op is not modelled.
