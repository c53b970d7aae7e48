/** Values of the EVM execution layer that the GMP precompile consumes and
    produces: fixed-width words, a sub-call's exit reason, and the failure a
    precompile reports to its caller.  Widths are modelled as range-restricted
    naturals. */
module Evm {

  type Byte = b: int | 0 <= b < 0x100
  type Bytes = seq<Byte>

  type U32 = n: nat | n < 0x1_0000_0000
  type U64 = n: nat | n < 0x1_0000_0000_0000_0000
  type U256 = n: nat | n < 0x1_0000_0000_0000_0000_0000_0000_0000_0000_0000_0000_0000_0000_0000_0000_0000_0000

  /** A 20-byte account address, as its numeric value. */
  type H160 = n: nat | n < 0x1_0000_0000_0000_0000_0000_0000_0000_0000_0000_0000

  datatype Option<T> = None | Some(value: T)

  /** Status of a sub-call that succeeded. */
  datatype ExitSucceed = Stopped | Returned | Suicided

  /** Status of a sub-call that reverted. */
  datatype ExitRevert = Reverted

  /** Status of a sub-call that stopped with an error; its variants belong to
      the EVM interpreter and are carried opaquely. */
  type ExitError(==)

  /** Status of a sub-call that stopped fatally; carried opaquely. */
  type ExitFatal(==)

  /** How a sub-call ended. */
  datatype ExitReason =
    | Succeed(succeed: ExitSucceed)
    | Error(error: ExitError)
    | Revert(revert: ExitRevert)
    | Fatal(fatal: ExitFatal)

  /** The failure a precompile returns; only a revert carries output bytes. */
  datatype PrecompileFailure =
    | Error(errorStatus: ExitError)
    | Revert(revertStatus: ExitRevert, output: Bytes)
    | Fatal(fatalStatus: ExitFatal)

  /** `EvmResult<T>`: a value or a precompile failure.  It is
      failure-compatible, so `:-` plays the part of the `?` operator. */
  datatype EvmResult<+T> = Ok(value: T) | Err(failure: PrecompileFailure) {

    predicate IsFailure() {
      Err?
    }

    function PropagateFailure<U>(): EvmResult<U>
      requires Err?
    {
      Err(failure)
    }

    function Extract(): T
      requires Ok?
    {
      value
    }
  }
}
