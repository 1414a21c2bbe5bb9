/** The optional-value datatype shared by the launcher's modules (Rust's `Option`). */
module Options {

  datatype Option<+T> = None | Some(value: T)
}
