/** The absent-or-present result shared by every module of the model: Python's `None`
    (or a swallowed exception) is `None`, a computed value is `Some`. */
module Wrappers {

  datatype Option<T> = None | Some(value: T)
}
