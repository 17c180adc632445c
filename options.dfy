/** A value that may be absent: a missing DOM attribute, an empty storage slot,
    or the page's not-yet-resolved current city. */
module Options {
  datatype Option<+T> = None | Some(value: T)
}
