/** The optional values of the controller. For the entries of the app-state
    object, `None` is an `undefined` entry and `Some` a defined one; for a
    control's token array, `None` is a missing array. */
module Wrappers {

  datatype Option<+T> = None | Some(value: T)
}
