/** Option and Result, the two failure-carrying shapes the pipeline uses:
    `Option` for lookups and oracle answers that may be absent, `Result` for
    the `?`-propagated errors of the Rust code. */
module Wrappers {

  datatype Option<+T> = None | Some(value: T)

  datatype Result<+R, +E> = Ok(value: R) | Err(error: E)
}
