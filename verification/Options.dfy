/** The optional value shared by the other modules: it stands for JavaScript's
    `null`/`undefined` and Python's `None`. */
module Options {
  datatype Option<+T> = None | Some(value: T)
}
