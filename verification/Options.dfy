/** The conventional optional value; in this project `None` also stands for
    "the Python code raises here". */
module Options {
  datatype Option<+T> = None | Some(value: T)
}
