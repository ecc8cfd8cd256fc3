/** Small shared vocabulary: an optional value, standing for Go's nil-able pointers. */
module Common {

  datatype Option<+T> = None | Some(value: T)

}
