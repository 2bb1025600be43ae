/** An optional value, for engine queries that may come back empty (a
    raycast that hits nothing, a missing object reference). */
module Optional {

  datatype Option<+T> = None | Some(value: T)
}
