/** Outcome types shared by every driver of the model. */
module Common {

  datatype Option<T> = None | Some(value: T)

  /** A value, or the exception the Python code would raise instead. */
  datatype Result<T> = Ok(value: T) | Err(error: Error)

  /** The kinds of exception the drivers raise (or let escape). */
  datatype Error =
    | NotConnected    // RuntimeError("Not connected"), RigolDP2301Error("Not connected to instrument")
    | ConnectFailed   // ConnectionError, RigolDP2301Error("Failed to connect: ...")
    | DeviceFault     // IOError: the Modbus reply reported an error
    | LinkFault       // an exception raised by the Modbus client library itself (a dropped socket, a timeout)
    | Overflow        // OverflowError from struct.pack('>f', x): x too large for single precision
    | WrongType       // TypeError / ValueError while converting a caller's argument
    | NoResponse      // TimeoutError: the serial reply was blank
    | Malformed       // ValueError: a reply of the wrong shape or with an unparsable field
    | InvalidChannel  // RigolDP2301Error("Invalid channel: ...")
    | CommandFailed   // RigolDP2301Error("Command failed ..." / "Query failed ...")
}
