/** Option and Result, used for the values the script can lack (a NaN cell,
    a missing JSON key) and for the steps that can raise. */
module Optional {

  datatype Option<+T> = None | Some(value: T)

  datatype Result<+T, +E> = Ok(value: T) | Err(error: E)
}
