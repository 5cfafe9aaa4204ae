// Value types shared by every phase of the compiler model.
module Common {
  datatype Option<+T> = None | Some(value: T)
}
