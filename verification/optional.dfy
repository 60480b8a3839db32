/** A value that may be absent: stands for the lookups and indexings of the
    dashboard that raise (a missing key, an index past the end). */
module Optional {

  datatype Option<+T> = None | Some(value: T)

}
