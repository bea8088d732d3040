/** A value that may be absent: the `string | null` fields of the front end
    and the nullable columns of the back end. */
module Optional {
  datatype Option<T> = None | Some(value: T)
}
