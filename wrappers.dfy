/** Small wrapper datatypes shared by the whole model. */
module Wrappers {

  /** A value that may be absent: Python's `None` versus a value. */
  datatype Option<+T> = None | Some(value: T)

  /**
   * The outcome of a Python call whose exceptions the caller does not catch:
   * it either returns a value or raises, and the raise travels up to the
   * web framework.
   */
  datatype Py<+T> = Returns(value: T) | Raises
}
