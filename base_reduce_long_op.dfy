/**
 * The reduce-long op family: reductions whose output element type is always
 * LONG, whatever the type of the input. Before an op is executed, callers
 * ask it for its category, validate its operand types and infer its output
 * shapes and types; each of those questions is a function of the op's
 * configuration here.
 */
module BaseReduceLongOp {
  import opened NdTypes
  import opened Preconditions

  /**
   * The configuration an op inherits from its base classes: the input x,
   * the optional second operand y, the optional output z, the reduction dimensions and the keep-dims flag. An absent
   * operand is a null field.
   */
  datatype ReduceLongOp = ReduceLongOp(
    x: Option<Operand>,
    y: Option<Operand>,
    z: Option<Operand>,
    dimensions: seq<int>,
    keepDims: bool)

  /**
   * Shape.getReducedShape(shape, dimensions, keepDims), which is not part of
   * this model: it returns the reduced extents or throws an exception.
   */
  type ReducedShape = (seq<int>, seq<int>, bool) -> Result<seq<int>, Error>

  /** DataType.isIntType(), which is not part of this model. */
  type IsIntType = DataType -> bool

  // ----- category and result type -----

  function OpType(op: ReduceLongOp): (r: OpKind)
  {
    ReduceLong
  }

  function GetOpType(op: ReduceLongOp): (r: OpKind)
  {
    OpType(op)
  }

  function ResultType(op: ReduceLongOp): (r: DataType)
  {
    Long
  }

  /** Every op of the family is classified REDUCE_LONG, by either accessor, and reports LONG as its result type. */
  lemma CategoryAndResultTypeAreFixed(op: ReduceLongOp)
    ensures OpType(op) == ReduceLong
    ensures GetOpType(op) == OpType(op)
    ensures ResultType(op) == Long
  {
  }

  // ----- operand type validation -----

  /**
   * The type policy of the family, stated on its own: a bound y has the
   * same element type as a bound x, and a bound z is LONG.
   */
  predicate TypesCompatible(op: ReduceLongOp)
  {
    && (op.y.Some? ==> op.x.Some? && op.x.value.dtype == op.y.value.dtype)
    && (op.z.Some? ==> op.z.value.dtype == Long)
  }

  /** The x/y check; it reads x's type, so with x unbound it fails with a null dereference. */
  function XYCheck(x: Option<Operand>, y: Operand): (r: Check)
  {
    match x
    case None => Check(false, NullPointer)
    case Some(xv) => Check(xv.dtype == y.dtype, IllegalArgument(XYTypeMismatch(xv.dtype, y.dtype)))
  }

  /** The checks validateDataTypes runs, in order: x/y when y is bound, then z when z is bound. */
  function ValidationChecks(op: ReduceLongOp): (r: seq<Check>)
  {
    var yChecks := if op.y.Some? then [XYCheck(op.x, op.y.value)] else [];
    var zChecks :=
      if op.z.Some? then [Check(op.z.value.dtype == Long, IllegalArgument(ZNotLong(op.z.value.dtype)))]
      else [];
    yChecks + zChecks
  }

  /** validateDataTypes: returns true when the operand types follow the policy, and throws otherwise. */
  function ValidateDataTypes(op: ReduceLongOp): (r: Result<bool, Error>)
    ensures r.Ok? <==> TypesCompatible(op)
    ensures r.Ok? ==> r.value
  {
    var checks := ValidationChecks(op);
    assert op.y.Some? ==> checks[0] == XYCheck(op.x, op.y.value);
    assert op.z.Some? ==> checks[|checks| - 1].passes == (op.z.value.dtype == Long);
    assert |checks| == (if op.y.Some? then 1 else 0) + (if op.z.Some? then 1 else 0);
    match FirstFailure(checks)
    case None => Ok(true)
    case Some(e) => Err(e)
  }

  /**
   * Which exception validateDataTypes throws. The y check comes first: a
   * type mismatch between x and y is reported even when z is not LONG too,
   * and the z check is the one reported only when y is absent or agrees.
   */
  lemma ValidateDataTypesFailures(op: ReduceLongOp)
    ensures op.y.Some? && op.x.None? ==> ValidateDataTypes(op) == Err(NullPointer)
    ensures op.y.Some? && op.x.Some? && op.x.value.dtype != op.y.value.dtype ==>
      ValidateDataTypes(op) == Err(IllegalArgument(XYTypeMismatch(op.x.value.dtype, op.y.value.dtype)))
    ensures
      && (op.y.None? || (op.x.Some? && op.x.value.dtype == op.y.value.dtype))
      && op.z.Some? && op.z.value.dtype != Long
      ==>
      ValidateDataTypes(op) == Err(IllegalArgument(ZNotLong(op.z.value.dtype)))
  {
  }

  // ----- output shape inference -----

  /**
   * calculateOutputShape: nothing while x is unbound (the op is not ready
   * yet); otherwise one LONG descriptor, whose shape is x's own shape when
   * x has no elements and the reduced shape of x otherwise. An exception
   * thrown while reducing the shape escapes unchanged.
   */
  function CalculateOutputShape(op: ReduceLongOp, reducedShape: ReducedShape): (r: Result<seq<ShapeDescriptor>, Error>)
    ensures r == Ok([]) <==> op.x.None?
    ensures r.Ok? && op.x.Some? ==> |r.value| == 1 && r.value[0].dtype == Long
    ensures r.Err? <==>
      op.x.Some? && op.x.value.length != 0 && reducedShape(op.x.value.shape, op.dimensions, op.keepDims).Err?
    ensures r.Err? ==> r.error == reducedShape(op.x.value.shape, op.dimensions, op.keepDims).error
  {
    match op.x
    case None => Ok([])
    case Some(x) =>
      if x.length == 0 then Ok([ShapeDescriptor(x.shape, Long)])
      else
        match reducedShape(x.shape, op.dimensions, op.keepDims)
        case Ok(shape) => Ok([ShapeDescriptor(shape, Long)])
        case Err(e) => Err(e)
  }

  /**
   * The inferred extents: unchanged for an empty x (the reduced shape is
   * then never asked for), the reduced extents of x otherwise.
   */
  lemma OutputShapeExtents(op: ReduceLongOp, reducedShape: ReducedShape)
    ensures op.x.Some? && op.x.value.length == 0 ==>
      CalculateOutputShape(op, reducedShape) == Ok([ShapeDescriptor(op.x.value.shape, Long)])
    ensures op.x.Some? && op.x.value.length != 0 && reducedShape(op.x.value.shape, op.dimensions, op.keepDims).Ok? ==>
      CalculateOutputShape(op, reducedShape)
      == Ok([ShapeDescriptor(reducedShape(op.x.value.shape, op.dimensions, op.keepDims).value, Long)])
  {
  }

  /**
   * The inferred shapes depend only on x's extents and element count, the
   * dimensions and keepDims: not on x's element type, nor on y or z.
   */
  lemma OutputShapeIgnoresTypes(op1: ReduceLongOp, op2: ReduceLongOp, reducedShape: ReducedShape)
    requires op1.x.None? <==> op2.x.None?
    requires op1.x.Some? ==> op1.x.value.shape == op2.x.value.shape && op1.x.value.length == op2.x.value.length
    requires op1.dimensions == op2.dimensions && op1.keepDims == op2.keepDims
    ensures CalculateOutputShape(op1, reducedShape) == CalculateOutputShape(op2, reducedShape)
  {
  }

  // ----- output data type inference -----

  /** The checks calculateOutputDataTypes runs, in order: the input count, then the axis input's type. */
  function DataTypeChecks(dataTypes: Option<seq<DataType>>, isIntType: IsIntType): (r: seq<Check>)
  {
    var countOk := dataTypes.Some? && (|dataTypes.value| == 1 || |dataTypes.value| == 2);
    var countCheck := Check(countOk, IllegalState(InputCount(dataTypes)));
    // The axis check is only reached once the count check has passed.
    var axisChecks :=
      if countOk then
        var types := dataTypes.value;
        [Check(|types| == 1 || isIntType(types[1]), IllegalState(AxisNotInteger(types)))]
      else [];
    [countCheck] + axisChecks
  }

  /** calculateOutputDataTypes: the single LONG output type, for one input or for an input and an integer axis input. */
  function CalculateOutputDataTypes(dataTypes: Option<seq<DataType>>, isIntType: IsIntType): (r: Result<seq<DataType>, Error>)
    ensures r.Ok? <==>
      dataTypes.Some? && (|dataTypes.value| == 1 || (|dataTypes.value| == 2 && isIntType(dataTypes.value[1])))
    ensures r.Ok? ==> r.value == [Long]
  {
    var checks := DataTypeChecks(dataTypes, isIntType);
    assert checks[0].passes == (dataTypes.Some? && (|dataTypes.value| == 1 || |dataTypes.value| == 2));
    match FirstFailure(checks)
    case None => Ok([Long])
    case Some(e) => Err(e)
  }

  /** Which exception calculateOutputDataTypes throws: a null list or a wrong count first, then a non-integer axis input. */
  lemma CalculateOutputDataTypesFailures(dataTypes: Option<seq<DataType>>, isIntType: IsIntType)
    ensures dataTypes.None? || (|dataTypes.value| != 1 && |dataTypes.value| != 2) ==>
      CalculateOutputDataTypes(dataTypes, isIntType) == Err(IllegalState(InputCount(dataTypes)))
    ensures dataTypes.Some? && |dataTypes.value| == 2 && !isIntType(dataTypes.value[1]) ==>
      CalculateOutputDataTypes(dataTypes, isIntType) == Err(IllegalState(AxisNotInteger(dataTypes.value)))
  {
  }

  /**
   * The first input's type never matters: two lists that differ only in it
   * both succeed, with the same result, or both fail.
   */
  lemma OutputDataTypesIgnoreFirstInput(a: DataType, b: DataType, rest: seq<DataType>, isIntType: IsIntType)
    ensures CalculateOutputDataTypes(Some([a] + rest), isIntType).Ok?
        == CalculateOutputDataTypes(Some([b] + rest), isIntType).Ok?
    ensures CalculateOutputDataTypes(Some([a] + rest), isIntType).Ok? ==>
      CalculateOutputDataTypes(Some([a] + rest), isIntType) == CalculateOutputDataTypes(Some([b] + rest), isIntType)
  {
  }

  /** The result type is the type every successful inference reports. */
  lemma ResultTypeAgreesWithInference(
    op: ReduceLongOp, reducedShape: ReducedShape, dataTypes: Option<seq<DataType>>, isIntType: IsIntType)
    ensures CalculateOutputShape(op, reducedShape).Ok? ==>
      forall i | 0 <= i < |CalculateOutputShape(op, reducedShape).value| ::
        CalculateOutputShape(op, reducedShape).value[i].dtype == ResultType(op)
    ensures CalculateOutputDataTypes(dataTypes, isIntType).Ok? ==>
      CalculateOutputDataTypes(dataTypes, isIntType).value == [ResultType(op)]
  {
  }
}
