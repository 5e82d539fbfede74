// The optional value used for nullable state (`number | null`, an absent key).

module Wrappers {

  datatype Option<T> = None | Some(value: T)
}
