/** The `Result<T, E>` type of Rust's standard library, which every fallible
    operation of the test harness returns. */
module Results {

  datatype Result<+T, +E> = Ok(value: T) | Err(error: E)

}
