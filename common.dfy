/** Types shared by the speaker model: bytes, blocks and the errors the speaker raises. */
module Common {

  type Byte = bv8

  /** One chunk of PCM bytes pushed to the speaker's input stream. */
  type Block = seq<Byte>

  /** The exceptions raised by the modelled code paths of the speaker. */
  datatype Error =
    | UnableToOpen         // TypeError raised by `play` for a source that is not iterable
    | NegativeRepeat       // ValueError raised by `itertools.tee` when the repeat count is negative
    | DutyCycleOutOfRange  // ValueError raised by `beep` when the duty cycle is not in (0, 1]
    | ZeroTempo            // ZeroDivisionError of `60000.0 / tempo` in `beep`

  datatype Result<T> = Ok(value: T) | Err(error: Error)

  function Max(a: real, b: real): real {
    if a < b then b else a
  }
}
