/** Values shared by every part of the model: optional values, results with an
    error, and the song record that the resolver builds and the queues hold. */
module Songs {

  /** A value that may be missing (Python's None, or a key absent from a dict). */
  datatype Option<T> = None | Some(value: T)

  /** The outcome of an operation that raises an exception on failure. */
  datatype Result<T, E> = Ok(value: T) | Err(error: E)

  function GetOr<T>(o: Option<T>, default: T): T
  {
    match o
    case Some(v) => v
    case None => default
  }

  /** The dict that `search_song` returns: the stream locator, the display title,
      the canonical reference, the formatted duration, the thumbnail and the
      requester. The requester object is modelled by its mention text, the only
      part of it the bot displays. */
  datatype Song = Song(
    url: string,
    title: string,
    webpageUrl: string,
    duration: string,
    thumbnail: string,
    requester: string
  )
}
