/** Option and Result, the two wrappers the model uses for Rust's `Option` and for
 *  operations whose Rust version panics (`unwrap` on a failed read, `unimplemented!`,
 *  `todo!`, an index out of range). `Err` carries the panic message. */
module Wrappers {
  datatype Option<T> = None | Some(value: T)

  datatype Result<T> = Ok(value: T) | Err(msg: string)
  {
    predicate IsFailure() { Err? }

    function PropagateFailure<U>(): Result<U>
      requires Err?
    {
      Err(msg)
    }

    function Extract(): T
      requires Ok?
    {
      value
    }
  }
}
