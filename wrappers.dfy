/** The Option type used for JavaScript's `undefined`: a registry lookup that finds
    nothing, an attribute a model does not have, a tab title never set. */
module Wrappers {
  datatype Option<+T> = None | Some(value: T)
}
