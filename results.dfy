/** Option, Result and Outcome values, and the errors the import handler can raise. */
module Results {

  datatype Option<+T> = None | Some(value: T)

  datatype Result<+R, +E> = Ok(value: R) | Err(error: E)

  /** The result of a call that returns nothing but may raise. */
  datatype Outcome<+E> = Pass | Fail(error: E)

  /** The exceptions that end an invocation of the handler (it catches none of them). */
  datatype Error =
    | NotEnoughFields(text: string)    // ValueError: `subject_id, sample_id, *_ = ...split('_')`
    | MissingSetting(name: string)     // AttributeError: `.split` on an unset environment variable
    | IndexOutOfRange(text: string)    // IndexError: `.split('/')[1]` on a string without '/'
    | JobRejected(reason: string)      // the start-import-job call raised
}
