// The optional value used for "absent" answers throughout the project.
module Options {
  datatype Option<+T> = None | Some(value: T)
}
