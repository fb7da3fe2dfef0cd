/**
 * The boundary to the catalog service (`VideoServiceProtocol.fetchVideos`):
 * an asynchronous call that either yields a page of videos or throws. The
 * network, decoding and timeouts behind it are not part of this model; a
 * call's outcome is handed to the view models as a `FetchResult`.
 */
module VideoServices {
  import opened Videos

  /** A thrown error (a timeout, a non-2xx status, a decoding failure). */
  datatype FetchError = FetchError(description: string)

  datatype FetchResult = Fetched(videos: seq<Video>) | Failed(error: FetchError)
}
