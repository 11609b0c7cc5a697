/** Turning what the media extractor returned into a song (`search_song`), and
    the fresh stream locator that `play_next` asks for before each playback. The
    extractor itself is a foreign call: its answer is a parameter here. */
module Resolver {
  import opened Songs
  import opened DurationFormat

  /** The fields of the extractor's info dict that the bot reads. A key that is
      absent is `None`; `entries` is present when the answer is a search result
      list. */
  datatype Info = Info(
    entries: Option<seq<Info>>,
    url: Option<string>,
    webpageUrl: Option<string>,
    id: Option<string>,
    title: Option<string>,
    duration: Option<int>,
    thumbnail: Option<string>
  )

  /** The answer of `extract_info`: an info dict, or the exception it raised. */
  datatype Extraction = Extracted(data: Info) | ExtractFailed(reason: string)

  /** Why `search_song` raised: the extractor failed, the result list was empty
      (`IndexError` on `entries[0]`), or the entry had no `url` (`KeyError`). */
  datatype ResolveError = ExtractionError(reason: string) | NoEntries | MissingUrl

  /** Python truthiness of an optional string: present and non-empty. */
  predicate Truthy(o: Option<string>)
  {
    o.Some? && o.value != ""
  }

  const WatchPrefix: string := "https://youtube.com/watch?v="

  /** The canonical reference: `webpage_url`, else `url`, else a watch link built
      from `id` (empty when absent). */
  function WebpageUrl(data: Info): (r: string)
    ensures r != ""
    ensures Truthy(data.webpageUrl) ==> r == data.webpageUrl.value
    ensures !Truthy(data.webpageUrl) && Truthy(data.url) ==> r == data.url.value
    ensures !Truthy(data.webpageUrl) && !Truthy(data.url) ==>
              |r| >= |WatchPrefix| && r[..|WatchPrefix|] == WatchPrefix && r[|WatchPrefix|..] == GetOr(data.id, "")
  {
    if Truthy(data.webpageUrl) then data.webpageUrl.value
    else if Truthy(data.url) then data.url.value
    else WatchPrefix + GetOr(data.id, "")
  }

  /** The dict `search_song` works on: the first search entry when the answer
      is a result list, else the answer itself; `None` when the list is empty. */
  function Selected(top: Info): (r: Option<Info>)
    ensures top.entries.None? ==> r == Some(top)
    ensures top.entries.Some? ==> (r.None? <==> top.entries.value == [])
    ensures top.entries.Some? && r.Some? ==> r.value == top.entries.value[0]
  {
    match top.entries
    case None => Some(top)
    case Some(es) => if |es| == 0 then None else Some(es[0])
  }

  /** `search_song(query, requester)` given what the extractor answered. */
  function SearchSong(found: Extraction, requester: string): (r: Result<Song, ResolveError>)
    ensures found.ExtractFailed? ==> r == Err(ExtractionError(found.reason))
    ensures found.Extracted? && Selected(found.data).None? ==> r == Err(NoEntries)
    ensures found.Extracted? && Selected(found.data).Some? && Selected(found.data).value.url.None? ==> r == Err(MissingUrl)
    ensures r.Ok? <==> found.Extracted? && Selected(found.data).Some? && Selected(found.data).value.url.Some?
    ensures r.Ok? ==>
              var data := Selected(found.data).value;
              && r.value.url == data.url.value
              && r.value.title == GetOr(data.title, "Unknown Title")
              && r.value.webpageUrl == WebpageUrl(data) && r.value.webpageUrl != ""
              && r.value.duration == FormatDuration(data.duration)
              && r.value.thumbnail == GetOr(data.thumbnail, "")
              && r.value.requester == requester
  {
    match found
    case ExtractFailed(reason) => Err(ExtractionError(reason))
    case Extracted(top) =>
      match Selected(top)
      case None => Err(NoEntries)
      case Some(data) =>
        if data.url.None? then Err(MissingUrl)
        else Ok(Song(data.url.value, GetOr(data.title, "Unknown Title"), WebpageUrl(data),
                     FormatDuration(data.duration), GetOr(data.thumbnail, ""), requester))
  }

  /** The duration a resolved song displays reads back as the extractor's
      duration, or is "Unknown" when that was missing or zero. */
  lemma SearchSongDuration(found: Extraction, requester: string)
    requires SearchSong(found, requester).Ok?
    ensures var secs := Selected(found.data).value.duration;
            var shown := SearchSong(found, requester).value.duration;
            if secs.None? || secs.value == 0 then shown == Unknown
            else ParseDuration(shown) == secs
  {
    var secs := Selected(found.data).value.duration;
    if secs.Some? && secs.value != 0 {
      FormatDurationRoundTrip(secs.value);
    }
  }

  /** The stream locator `extract_url` in `play_next` returns: the `url` of the
      info dict for the song's canonical reference; `None` when it raised. */
  function RefreshLocator(refreshed: Extraction): (r: Option<string>)
    ensures r.Some? <==> refreshed.Extracted? && refreshed.data.url.Some?
    ensures r.Some? ==> r == refreshed.data.url
  {
    match refreshed
    case ExtractFailed(_) => None
    case Extracted(data) => data.url
  }
}
