/** Plain wrapper datatypes shared by every module (they declare no
    failure members, so `:-` does not apply to them), and the error value
    that stands for `anyhow::Error`. */
module Wrappers {

  datatype Option<+T> = None | Some(value: T)

  datatype Result<+T, +E> = Success(value: T) | Failure(error: E)

  /** A result that carries no value: `anyhow::Result<()>`. */
  datatype Outcome<+E> = Pass | Fail(error: E)

  /** An `anyhow::Error`: a message, optionally wrapping the error it was
      raised from (what `.context(..)` adds). */
  datatype Error = Message(text: string) | Context(text: string, source: Error)
}
