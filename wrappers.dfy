/** A value that may be absent: a JSON field that was not supplied, a search that found nothing. */
module Wrappers {

  datatype Option<+T> = None | Some(value: T)
}
