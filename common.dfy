/** Values shared by the front-end store and the sample-data service. */
module Common {

  /** A JavaScript value that may be `null` (or absent). */
  datatype Option<T> = None | Some(value: T)

  /** A post record: the shape served by the sample-data service and fetched by the store. */
  datatype Post = Post(id: int, title: string, body: string, userId: int)

  function Min(a: int, b: int): int
  {
    if a <= b then a else b
  }
}
