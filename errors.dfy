/** The exceptions a Point3d operation can raise, and a result type that carries them. */
module Errors {

  /** ValueError is raised by the constructor with one of three messages;
      IndexError by indexed access with a key outside -4..3. */
  datatype Error = ValueError(message: string) | IndexError

  /** The outcome of an operation that either returns a value or raises. */
  datatype Result<+T> = Ok(value: T) | Err(error: Error)
}
