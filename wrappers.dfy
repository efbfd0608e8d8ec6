// A nullable value: None stands for the original's null pointer or absent branch.
module Wrappers {
  datatype Option<+T> = None | Some(value: T)
}
