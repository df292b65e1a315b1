/** The optional value used where the add-on tests a DOM lookup or a scan result against null. */
module Wrappers {

  datatype Option<+T> = None | Some(value: T)
}
