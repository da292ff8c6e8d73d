/** An optional value, used for a bracket's missing upper bound and for
    searches and parses that may find nothing. */
module Optional {

  datatype Option<+T> = None | Some(value: T)
}
