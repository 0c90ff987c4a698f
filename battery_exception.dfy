/**
 * The result codes shared by the native provider and the managed layer, and the
 * exception that carries them. Exceptions of the managed layer become `Result`
 * and `Outcome` values.
 */
module BatteryException {

  /**
   * The provider's result codes. As with any C# enum, a value is its integer: the cast
   * `(BatteryResult)code` is the identity and may give a value that has no name.
   */
  newtype BatteryResult = int

  const Success: BatteryResult := 0
  const FailedToOpenBattery: BatteryResult := -101
  const BatteryDoesNotExist: BatteryResult := -102
  const FailedToAllocateMemory: BatteryResult := -103
  const FailedToDetermineBatteryInterface: BatteryResult := -104
  const FailedToDetermineBatteryInterfaceSize: BatteryResult := -105
  const FailedToAccessBattery: BatteryResult := -106
  const UnableToDetermineBatteryIdentifier: BatteryResult := -107
  const FailedToRetrieveQueryData: BatteryResult := -108
  const UnsupportedFunction: BatteryResult := -109

  /**
   * What a query can raise: the battery exception with its result code, or the
   * range error of the `DateTime` constructor for a date that does not exist.
   */
  datatype QueryError =
    | BatteryInfoException(result: BatteryResult)
    | ArgumentOutOfRange

  /** A query's value, or the exception it raises. */
  datatype Result<+T> = Ok(value: T) | Err(error: QueryError)
  {
    /** The value on success; `default` when the query raised (a `catch` that assigns a default). */
    function GetOr(default: T): T {
      match this
      case Ok(v) => v
      case Err(_) => default
    }
  }

  /** The completion of an operation that returns nothing: normal, or by an exception. */
  datatype Outcome = Pass | Fail(error: QueryError)
}
