/** The driver's error type (`Error<E>`, src/error.rs) and the result type
    every fallible operation returns. */
module Errors {
  import opened Bytes
  import opened Status
  import opened Modes

  /** `Error<E>`, with the variants the driver code constructs. The bus
      error `E` and the pin error carry no payload here: the model only
      needs to know that the bus or the pin failed. */
  datatype Error =
    | InvalidDevice(id: byte)
    | BusError
    | Timeout
    | InvalidAddress(address: byte)
    | InvalidScalingFactor(factor: byte)
    | InvalidConfigurationValue(value: u16)
    | ResultNotReady
    | RangeStatusError(rangeCode: RangeStatusCode)
    | AmbientStatusError(ambientCode: AmbientStatusCode)
    | UnknownRegisterCode(code: nat)
    | InvalidMethod(current: Mode)
    | GpioPinError

  datatype Result<+T> = Ok(value: T) | Err(error: Error)
}
