/** Small value types shared by the audio module and the virtual filesystem. */
module Common {

  /** A value that may be absent (a JavaScript `null`/`undefined` argument). */
  datatype Option<+T> = None | Some(value: T)

  /** An opaque guest memory stream, as handed to an HLE call by the
      argument marshaller; only its identity matters to this model. */
  datatype Stream = Stream(handle: int)
}
