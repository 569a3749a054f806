/** Error-carrying results used across the model: a failed torch call, a thrown
    std::runtime_error or a Python exception becomes `Err` with its message. */
module Results {

  datatype Result<+T> = Ok(value: T) | Err(msg: string)

  datatype Option<+T> = None | Some(value: T)

  datatype Outcome = Pass | Fail(msg: string)
}
