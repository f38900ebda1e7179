/** Failure-carrying results shared by the whole model. */
module Wrappers {

  datatype Option<+T> = None | Some(value: T)

  /** The Java exceptions (and empty Optionals) the modelled code can end in. */
  datatype Error =
    | IllegalState            // encoder add() after write()
    | IllegalArgument         // unknown relation member type
    | IndexOutOfBounds        // an index into a protobuf list or the string table
    | NegativeArraySize       // a buffer allocated with a negative length
    | InvalidProtocolBuffer   // protobuf parseFrom failed
    | DataFormat              // zlib Inflater rejected its input
    | InvalidPayloadSize      // inflated length differs from raw_size
    | UnsupportedCompression  // a blob with neither raw nor zlib data
    | UnsupportedFeatures     // a required feature the reader cannot honour

  datatype Result<+T> = Ok(value: T) | Err(error: Error)

  /** The outcome of a `void` method that may throw. */
  datatype Outcome = Pass | Fail(error: Error)
}
