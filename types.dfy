/**
 * Values shared by the operation model: the optional value standing for a
 * Java reference that may be null, the result of a call that may throw,
 * the element data types, the operation categories, the operands an op
 * observes and the shape descriptors it produces.
 */
module NdTypes {

  /** A Java reference that may be null. */
  datatype Option<+T> = None | Some(value: T)

  /** The outcome of a Java call: a returned value, or the exception it throws. */
  datatype Result<+T, +E> = Ok(value: T) | Err(error: E)

  /**
   * The element data type of an array. Only LONG is singled out by the
   * reduce-long ops; every other constant of the enum is kept abstract and
   * identified by its ordinal.
   */
  datatype DataType = Long | Other(ordinal: nat)

  /** The category of an op. Only REDUCE_LONG is singled out here. */
  datatype OpKind = ReduceLong | OtherKind(ordinal: nat)

  /**
   * An array bound to an op as x, y or z: its element type, its shape and
   * the element count that INDArray.length() reports for it. The count is
   * kept as given rather than derived from the shape, since the array
   * class is not part of this model.
   */
  datatype Operand = Operand(dtype: DataType, shape: seq<int>, length: nat)

  /** A LongShapeDescriptor: the extents of an output array and its element type. */
  datatype ShapeDescriptor = ShapeDescriptor(shape: seq<int>, dtype: DataType)

  /** What a failed check reports, with the values its message names. */
  datatype Reason =
    | XYTypeMismatch(xType: DataType, yType: DataType)
    | ZNotLong(zType: DataType)
    | InputCount(received: Option<seq<DataType>>)
    | AxisNotInteger(inputs: seq<DataType>)

  /**
   * The exceptions the op can throw: Preconditions.checkArgument raises an
   * illegal-argument exception, Preconditions.checkState an illegal-state
   * exception, and dereferencing an unbound operand a null-pointer exception.
   * Shape.getReducedShape is not part of this model; an exception it throws
   * is identified only by an abstract code.
   */
  datatype Error =
    | IllegalArgument(reason: Reason)
    | IllegalState(reason: Reason)
    | NullPointer
    | ShapeCalculation(code: nat)
}
