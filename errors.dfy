/** The error values an Unmarshal call of the EVM records can return, the
    Result type that carries them, and Option for nil pointers. Every error is
    terminal for the decode call in progress. */
module Errors {

  datatype Error =
    | UnexpectedEOF                                 // io.ErrUnexpectedEOF
    | IntOverflow                                   // ErrIntOverflowEvm
    | InvalidLength                                 // ErrInvalidLengthEvm
    | UnexpectedEndOfGroup                          // ErrUnexpectedEndOfGroupEvm
    | EndGroupForNonGroup                           // "wiretype end group for non-group"
    | IllegalTag(fieldNum: int, wire: int)          // "illegal tag %d (wire type %d)"
    | WrongWireType(fieldNum: int, wireType: int)   // "wrong wireType = %d for field ..."
    | IllegalWireType(wireType: int)                // skipEvm: "illegal wireType %d"

  /** A value that may be absent: a nil pointer field. */
  datatype Option<+T> = None | Some(value: T)

  /** Success with a value, or one of the errors above. */
  datatype Result<+T> = Ok(value: T) | Err(error: Error) {

    predicate IsFailure() {
      Err?
    }

    function PropagateFailure<U>(): Result<U>
      requires Err?
    {
      Err(error)
    }

    function Extract(): T
      requires Ok?
    {
      value
    }
  }
}
