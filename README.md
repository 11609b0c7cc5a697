# A verified model of the music bot's playback queue

The bot (`music_bot.py`) joins a Discord voice channel, resolves text queries
to audio streams with yt-dlp and plays them one after another per guild. This
project models the part of it with behaviour worth stating:

- **`MusicQueue`** (module `GuildQueue`): a FIFO of pending songs plus the
  `current` slot, as a class whose two fields the methods `Add`, `Next` and
  `Clear` update in place. Each method is tied to a function on the abstract
  `QueueState`, and the FIFO properties are lemmas about those functions.
- **`music_queues` / `get_queue`** (module `Registry`): a class holding a map
  from guild id to queue object. Entries are created lazily and never removed,
  and no two guilds share a queue object.
- **Display logic** (modules `DurationFormat`, `Resolver`, `Listing`):
  - the `m:ss` duration string, or "Unknown". It is proved to read back to the
    exact number of seconds.
  - the `webpage_url` fallback chain and the rest of `search_song`, including
    its error paths.
  - the `queue` listing: at most ten numbered songs, plus a "…dan N lagu
    lainnya" line only when more wait. The listing is built by a loop that is
    proved to produce a specified text.
- **Playback driver** (module `Playback`): a state machine per guild. The
  state is the voice client (not connected, or Idle / Playing / Paused) plus
  the queue. Each command handler and the transport's completion callback is
  a step function that returns the new state and the messages sent.
- **Command handlers over the real objects** (module `Bot`): class `MusicBot`
  holds the registry and the voice clients. `play`, `play_next`, `stop` and
  `leave` fetch the guild's queue with `GetQueue` and mutate it in place.
  `skip` does so too, through the completion callback: stopping the client
  runs `play_next` (music_bot.py:260, 212). `queue` and `np` fetch the queue
  (creating it if needed) and only read it. `join`, `pause` and `resume`
  touch only the voice client. Every handler except `queue` and `np` is
  proved to do exactly what the matching `Playback` step says. `queue` is
  proved to return `Listing.ShowQueue` of the guild's queue, and `np` its
  current song and pending count. Every handler leaves every other guild
  unchanged, and any queue object it adds to the registry is newly created,
  so handlers can be run one after another on the same bot
  (`Bot.JoinPlaySkip`).

The extractor (`extract_info`) is a foreign network call. Its answer, either
an info dict or a failure, is a parameter (`Resolver.Extraction`): one for the
search in `play` and one for the locator refresh in `play_next`. Whether the
command's author is in a voice channel is a boolean parameter. The requester
object is represented by its mention text.

After a failed locator refresh, the song stays `current` without playing
(music_bot.py:187, 237-239). `next` has already moved it there and the error
path does not clear it. The model keeps this behaviour
(`Playback.RefreshFailureHalts`). Playback of that guild then halts: with no
track loaded, no completion callback can advance the queue until the next
command.

## Model

| member | source | states |
|---|---|---|
| `DurationFormat.Pad2` | music_bot.py:121 | `:02d` of a value below 100 is two digits that read back as the value |
| `DurationFormat.ParseIntToString` | music_bot.py:121 | the decimal rendering of the minutes (sign included) reads back as the same integer |
| `DurationFormat.FormatDurationRoundTrip` | music_bot.py:118-121 | for a nonzero duration d, the string `d // 60` + ":" + `d % 60` (padded) parses back to exactly d, so minutes and seconds are the floor quotient and the remainder |
| `DurationFormat.NatToString` | music_bot.py:121 | the minutes are written as Python's `str` writes them: decimal digits with no leading zero |
| `DurationFormat.FormatDuration` | music_bot.py:118-123 | the display is "Unknown" exactly when the duration is missing or 0; otherwise it is the minutes `d // 60`, a ':' and the two-digit seconds `d % 60` |
| `Resolver.WebpageUrl` | music_bot.py:126 | the result is `webpage_url` if truthy, else `url` if truthy, else the watch link ending in the id (empty if absent); it is never empty |
| `Resolver.Selected` | music_bot.py:114-115 | a result list yields its first entry, or nothing when it is empty; any other answer is used as it is |
| `Resolver.SearchSong` | music_bot.py:109-137 | fails with the extractor's error (`ExtractionError`), on an empty result list (`NoEntries`) or on a missing `url` (`MissingUrl`), and succeeds exactly otherwise; a success holds the first entry's url, title (default "Unknown Title"), canonical reference, formatted duration, thumbnail (default "") and requester |
| `Resolver.SearchSongDuration` | music_bot.py:117-123 | the duration a resolved song shows reads back as the extractor's duration, or is "Unknown" when that was missing or 0 |
| `Resolver.RefreshLocator` | music_bot.py:197-199 | a fresh locator exists exactly when the extraction succeeded and returned a `url`, and it is that `url` |
| `GuildQueue.Enqueue` | music_bot.py:54-55 | `add` puts the song last and leaves every earlier song and `current` unchanged |
| `GuildQueue.Advance` | music_bot.py:57-62 | `next` on a non-empty queue returns the first song, removes it and makes it `current`; on an empty queue it returns None and clears `current` |
| `GuildQueue.Cleared` | music_bot.py:64-66 | after `clear` nothing is pending or current, and a following `next` returns None and changes nothing |
| `GuildQueue.EnqueueAllAppends` | music_bot.py:54-55 | adding songs one by one appends them in order behind the pending ones |
| `GuildQueue.AdvanceNTakesPrefix` | music_bot.py:57-60 | n calls of `next`, with at least n songs pending, return the first n songs in order, leave the rest pending, and leave the n-th as `current` |
| `GuildQueue.AdvanceNOnEmpty` | music_bot.py:58-62 | with nothing pending, every `next` returns None and leaves the queue empty |
| `GuildQueue.AdvanceNSplit` | music_bot.py:57-62 | m + n calls of `next` are m calls followed by n more |
| `GuildQueue.FifoDrain` | music_bot.py:54-62 | songs added to a fresh queue come out of `next` each exactly once, in the order added, and then None on every further call |
| `GuildQueue.MusicQueue.constructor` | music_bot.py:50-52 | a new queue has nothing pending and no current song |
| `GuildQueue.MusicQueue.Add` | music_bot.py:54-55 | appends to the `queue` field in place; `current` is unchanged |
| `GuildQueue.MusicQueue.Next` | music_bot.py:57-62 | pops the front of the `queue` field into `current` and returns it, or sets `current` to None and returns None when empty |
| `GuildQueue.MusicQueue.Clear` | music_bot.py:64-66 | empties the `queue` field and sets `current` to None |
| `GuildQueue.FifoScenario` | music_bot.py:49-66 | three songs added to a new queue object come back from `Next` as the first, second and third, then None |
| `Registry.QueueRegistry.constructor` | music_bot.py:14 | the registry starts with no guilds |
| `Registry.QueueRegistry.GetQueue` | music_bot.py:68-71 | a known guild gets its existing queue object and nothing changes; an unknown guild gets a fresh empty queue added under its id and no other entry changes; queue objects stay distinct per guild |
| `Registry.GetQueueTwice` | music_bot.py:68-71 | two calls for the same guild return the same object, and only that guild's entry can have been added |
| `Playback.PlayNext` | music_bot.py:185-239 | advances the queue exactly once; reports "queue finished" exactly when nothing was pending; starts playing, with a now-playing reply showing the remaining count, exactly when a song was pending, the refresh gave a locator and the client was idle; otherwise the client state is unchanged and, if a song was pending, the one reply is the playback error |
| `Playback.Finish` | music_bot.py:206-217 | the completion callback runs `play_next` on an idle client when a track was loaded, and does nothing otherwise |
| `Playback.Join` | music_bot.py:85-97 | without the author in a voice channel nothing changes; otherwise the bot connects (idle) when not connected, and keeps its state when it moves |
| `Playback.Leave` | music_bot.py:99-107 | when connected, the queue is cleared and the client disconnected, and the ended track's callback reports the end of the queue; otherwise only an error reply |
| `Playback.Play` | music_bot.py:139-183 | the author must be in a voice channel; the bot connects if needed; a failed search changes no queue; otherwise the song is appended, and `play_next` runs exactly when nothing is playing or paused, else the reply reports the song's position |
| `Playback.Pause` | music_bot.py:241-247 | the state changes exactly when playing, and then only to paused |
| `Playback.Resume` | music_bot.py:249-255 | the state changes exactly when paused, and then only to playing |
| `Playback.Skip` | music_bot.py:257-263 | the state changes exactly when playing; the skip then advances the queue once through the completion callback |
| `Playback.Stop` | music_bot.py:265-273 | when connected the queue ends up empty and a loaded track is stopped; when not connected nothing changes |
| `Playback.StepConsistent` | music_bot.py:185-273 | when handlers run one at a time, no command or completion callback produces a loaded track without a current song |
| `Playback.RunConsistent` | music_bot.py:185-273 | the same holds after any sequence of handlers run one at a time (see "Left out" for interleavings) |
| `Playback.StopIsClearThenFinish` | music_bot.py:206-217 | `stop` equals `clear` followed by the stopped track's callback, whatever that callback would fetch |
| `Playback.RefreshFailureHalts` | music_bot.py:185-239 | when the refresh fails the error is reported, the client stays idle with the song as `current`, and no callback advances the queue afterwards |
| `Playback.SkipToNext` | music_bot.py:257-263 | skipping while songs wait starts the first of them, with the remaining count |
| `Playback.SkipAtEnd` | music_bot.py:257-263 | skipping the last song leaves an idle client, an empty queue, and one "queue finished" reply |
| `Playback.ThreeSongsThenSkips` | music_bot.py:139-263 | three songs requested while idle: the first plays at once, the others get positions 1 and 2, and three skips play them in order and then report the end exactly once |
| `Listing.ListingOf` | music_bot.py:297-301 | at most 10 entries, numbered 1..min(10, n) and holding the first pending songs in order; the "more" count appears exactly when n > 10 and is n − 10 |
| `Listing.EntryLineShape` | music_bot.py:298 | an entry's line opens with a backquote and the index, which reads back as the entry's number and is closed by ".`"; the bold title follows, and it ends with the requester's mention and a newline |
| `Listing.MoreLineReadsBack` | music_bot.py:300-301 | the note starts "\n_...dan ", ends with '_', and the count in it reads back as the number of songs left off |
| `Listing.RenderShape` | music_bot.py:296-301 | the entry lines come first; the note follows exactly when songs were left off, which is exactly when the text ends in '_' |
| `Listing.BuildQueueList` | music_bot.py:296-301 | the loop builds exactly the rendering of `ListingOf` |
| `Listing.ShowQueue` | music_bot.py:275-306 | "queue empty" exactly when nothing is current or pending; otherwise the current song, the listing exactly when songs are pending, and the pending count |
| `Listing.ListingIgnoresTail` | music_bot.py:297 | songs added behind the first ten do not change any shown entry |
| `Bot.MusicBot.constructor` | music_bot.py:14 | the bot starts with an empty queue registry and no voice clients |
| `Bot.MusicBot.PlayNext` | music_bot.py:185-239 | on the real queue object and voice client, does to the guild what `Playback.PlayNext` says and leaves every other guild unchanged |
| `Bot.MusicBot.Finish` | music_bot.py:206-217 | the callback does what `Playback.Finish` says; other guilds unchanged |
| `Bot.MusicBot.Join` | music_bot.py:85-97 | does what `Playback.Join` says; no queue is created; other guilds unchanged |
| `Bot.MusicBot.Leave` | music_bot.py:99-107 | does what `Playback.Leave` says; other guilds unchanged |
| `Bot.MusicBot.Play` | music_bot.py:139-183 | does what `Playback.Play` says; other guilds unchanged |
| `Bot.MusicBot.AddSong` | music_bot.py:156-171 | the song joins the end of the guild's queue and the returned position is the new queue length; no other guild and no voice client changes |
| `Bot.MusicBot.Pause` | music_bot.py:241-247 | does what `Playback.Pause` says; no queue is created; other guilds unchanged |
| `Bot.MusicBot.Resume` | music_bot.py:249-255 | does what `Playback.Resume` says; no queue is created; other guilds unchanged |
| `Bot.MusicBot.Skip` | music_bot.py:257-263 | does what `Playback.Skip` says; other guilds unchanged |
| `Bot.MusicBot.Stop` | music_bot.py:265-273 | does what `Playback.Stop` says; other guilds unchanged |
| `Bot.MusicBot.ShowQueue` | music_bot.py:275-306 | returns `Listing.ShowQueue` of the guild's queue; no guild's state changes |
| `Bot.MusicBot.NowPlaying` | music_bot.py:308-326 | returns the guild's current song and pending count; no guild's state changes |
| `Bot.JoinPlaySkip` | music_bot.py:85-263 | `join`, `pause`, `play` and `skip` run one after another on a new bot: the replies are joined, nothing playing, now playing with 0 left, skipping and queue finished, and the guild ends connected, idle and with an empty queue |

## Left out

- Discord I/O is not modelled: sending messages and embeds, their colours and
  thumbnails, the "searching" message with its reaction and deletion,
  `connect`/`move_to`/`disconnect`, and `bot.run`. Replies are modelled by
  meaning (`Playback.Reply`). The channel a client is connected to is not
  modelled, only whether it is connected.
- yt-dlp's `extract_info` and its option dict are a foreign network call. Each
  answer is an `Extraction` parameter; how a query maps to an answer is not
  modelled.
- The FFmpeg options, `FFmpegPCMAudio`, and the FFmpeg check in `on_ready` are
  external processes and logging, and are not modelled.
- `run_in_executor`, `run_coroutine_threadsafe` and the cross-thread
  `after_playing` callback are not modelled as concurrency. A track ending is
  the `Finish` step. `skip` runs it right after stopping the client. `stop`
  and `leave` clear the queue first, so the callback's `play_next` can only
  report that the queue is finished; they add that reply directly instead of
  running `Finish` (after `leave` disconnects, `Finish` itself would do
  nothing). The relative order of the command's
  own reply and the callback's replies is fixed in the model but not in the
  program. An exception inside the callback is only logged by the program and
  is not modelled.
- Each handler is modelled as one atomic step. The program can interleave
  handlers: `play` waits at the search (music_bot.py:154), and `play_next`
  waits at the locator refresh (music_bot.py:201), between `queue.next()`
  (187) and `voice_client.play` (219). Two behaviours this allows are not in
  the model:
  - While `play_next` waits on the refresh for song A, a `stop` clears the
    queue without any track loaded. A then starts with `current` None, so
    `queue` says the queue is empty and `np` says nothing is playing.
  - Two `play` commands that both pass the idle test (162) before either
    starts a track each call `play_next`. The second pops song B into
    `current` while A plays, then fails at 219, so B is never played.
- Playback.StepConsistent, Playback.RunConsistent: "a loaded track has a
  current song" is proved only for handlers run one at a time. The first
  interleaving above breaks it.
- Registry creation is not guarded against concurrent first access. The
  program creates queues only on its single event loop, so the model
  `GetQueue` is sequential.
- The float-to-int conversion of the duration is not modelled: the formatter
  takes whole seconds.
- Playback.PlayNext: starting a track is modelled as failing, with one error
  reply, whenever the client is not connected and idle. Through the steps,
  `play_next` is entered only with a connected, idle client: `play` connects
  first and calls it only when nothing is loaded, and `Finish` first sets the
  client idle. So none of the client cases of that guard arises through the
  steps. They arise only under the interleavings listed above. Other
  transport failures inside `voice_client.play` are not modelled.
- Resolver.SearchSong: a key that is present with a null value is treated like
  an absent key. For `title` and `thumbnail` the program would then store
  None, and for `id` it would build a link ending in "None". For `url` the
  program queues a song whose url is None, which can still play because
  `play_next` uses the refreshed locator (music_bot.py:129, 198-199); the
  model fails with `MissingUrl` and queues nothing. For `entries` the program
  raises a TypeError at music_bot.py:115; the model uses the top-level info
  as the selected entry.
- The access token on the last line of the program is not part of this model.
