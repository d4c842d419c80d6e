// A value that may be missing, and the set of what a list holds.

module Wrappers {
  datatype Option<T> = None | Some(value: T)

  function Elements(l: seq<string>): set<string> { set i | 0 <= i < |l| :: l[i] }
}
