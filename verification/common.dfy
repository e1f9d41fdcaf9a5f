/** Shared wrappers: an optional value, and the outcome of a step that can raise. */
module Common {

  datatype Option<+T> = None | Some(value: T)

  /** The Python exceptions the modelled code lets propagate to its caller. */
  datatype Raised =
    | AttributeError(name: string)   // getattr on a name the object does not have
    | IndexError                     // `observable[0]` on an empty list
    | ValidationError                // the IR text does not parse as a program
    | Base64Error                    // `impl_data` is not base64-encoded UTF-8
    | Unauthorized                   // `abort(401)`
    | UnboundLocalError              // a local variable read before assignment
    | DownloadError                  // urllib's HTTPError or URLError
    | CodeLoadError                  // loading downloaded source code raised
    | DeviceRejected                 // the device refused to run what it was given
    | TypeError                      // an operation applied to None

  datatype Result<+T> = Ok(value: T) | Err(error: Raised)
}
