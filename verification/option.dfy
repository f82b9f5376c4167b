/** An optional value, for lookups and detections that may find nothing. */
module Optional {
  datatype Option<T> = None | Some(value: T)
}
