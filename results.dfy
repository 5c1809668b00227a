/** Optional values and the error kinds the contract's operations report. */
module Results {

  datatype Option<+T> = None | Some(value: T)

  /** The kinds of error the contract returns; the message text is not modelled. */
  datatype ErrorKind =
    | DecodeError   // the input or stored bytes do not parse as an asset record
    | EncodeError   // the record cannot be serialised
    | ReadError     // the world state refused a read
    | WriteError    // the world state refused a write
    | Duplicate     // an asset with this id already exists
    | NotFound      // no asset with this id exists
    | EventError    // the host refused the creation event

  /** A value, or the kind of error that prevented it. */
  datatype Result<+T> = Ok(value: T) | Err(error: ErrorKind)

  /** The outcome of an operation that returns only an error or nothing. */
  datatype Outcome = Pass | Fail(error: ErrorKind)
}
