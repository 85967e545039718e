/** The absent-or-present value used throughout the model: a JavaScript
    `undefined` (or any other falsy value) is `None`. */
module Optional {

  datatype Option<+T> = None | Some(value: T)

}
