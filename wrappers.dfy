/** The optional value returned by an asset-store lookup or an unset GPU binding. */
module Wrappers {
  datatype Option<+T> = None | Some(value: T)
}
