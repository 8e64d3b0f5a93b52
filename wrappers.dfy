/** The Option type the automaton uses for a transition that may be missing. */
module Wrappers {
  datatype Option<T> = None | Some(value: T)
}
