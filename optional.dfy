/** The optional value used throughout the model: a JavaScript value that may be
    absent (`null`, `undefined`, or a failed parse) is `None`. */
module Optional {

  datatype Option<+T> = None | Some(value: T)
}
