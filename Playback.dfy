/** The playback driver as a per-guild state machine. A guild's state is its
    voice client (`None` when the bot is not connected; otherwise idle, playing
    or paused) and its queue. Each command handler, and the transport's
    completion callback, is a function from the old state to the new state and
    the messages the bot sends. The media extractor's answers are parameters. */
module Playback {
  import opened Songs
  import opened Resolver
  import opened GuildQueue

  /** What `is_playing()` and `is_paused()` report about a connected client. */
  datatype Player = Idle | Playing | Paused

  datatype Guild = Guild(voice: Option<Player>, queue: QueueState)

  /** The messages and embeds the handlers send, by meaning. */
  datatype Reply =
    | NotInVoiceChannel                              // the author is not in a voice channel
    | NotConnected                                   // the bot is not in a voice channel
    | Joined | Moved | LeftChannel
    | SearchFailed(error: ResolveError)              // "Terjadi kesalahan"
    | AddedToQueue(song: Song, position: nat)        // embed with the queue position
    | NowPlaying(song: Song, remaining: nat)         // embed with the songs left in the queue
    | QueueFinished                                  // "Queue selesai!"
    | PlaybackFailed                                 // "Error saat memutar"
    | PauseDone | NothingPlaying | ResumeDone | NotPaused | Skipping | StopDone

  /** `is_playing() or is_paused()`: a track is loaded in the voice client. */
  predicate Active(g: Guild)
  {
    g.voice == Some(Playing) || g.voice == Some(Paused)
  }

  /** `play_next`: advance the queue once; on `None` report that the queue is
      finished; otherwise fetch a fresh stream locator for the song's canonical
      reference and start it. When the fetch fails, or the voice client is not
      connected and idle, the error is reported and the song stays `current`
      without playing. The steps enter it only with a connected, idle client
      (`Play` connects first, `Finish` sets the client idle), so the client
      cases of that guard arise only when handlers interleave. */
  function PlayNext(g: Guild, refreshed: Extraction): (r: (Guild, seq<Reply>))
    ensures r.0.queue == Advance(g.queue).0
    ensures r.1 == [QueueFinished] <==> g.queue.pending == []
    ensures r.0.voice != g.voice <==> g.queue.pending != [] && RefreshLocator(refreshed).Some? && g.voice == Some(Idle)
    ensures r.0.voice != g.voice ==>
              r.0.voice == Some(Playing) && r.1 == [NowPlaying(g.queue.pending[0], |g.queue.pending| - 1)]
    ensures g.queue.pending != [] && r.0.voice == g.voice ==> r.1 == [PlaybackFailed]
  {
    var (q, song) := Advance(g.queue);
    if song.None? then (g.(queue := q), [QueueFinished])
    else if RefreshLocator(refreshed).None? || g.voice != Some(Idle) then (g.(queue := q), [PlaybackFailed])
    else (Guild(Some(Playing), q), [NowPlaying(song.value, |q.pending|)])
  }

  /** The completion callback `after_playing`: the loaded track ended (on its
      own, or because the client was stopped), so the client is idle and
      `play_next` runs. With no track loaded there is no callback. */
  function Finish(g: Guild, refreshed: Extraction): (r: (Guild, seq<Reply>))
    ensures !Active(g) ==> r == (g, [])
    ensures Active(g) ==> r == PlayNext(g.(voice := Some(Idle)), refreshed)
  {
    if Active(g) then PlayNext(g.(voice := Some(Idle)), refreshed) else (g, [])
  }

  /** `join`: connect when not connected, otherwise move; the player state and
      the queue are kept. */
  function Join(g: Guild, authorInVoice: bool): (r: (Guild, seq<Reply>))
    ensures r.0.queue == g.queue
    ensures !authorInVoice ==> r == (g, [NotInVoiceChannel])
    ensures authorInVoice ==> r.0.voice == if g.voice.None? then Some(Idle) else g.voice
  {
    if !authorInVoice then (g, [NotInVoiceChannel])
    else if g.voice.None? then (g.(voice := Some(Idle)), [Joined])
    else (g, [Moved])
  }

  /** `leave`: clear the queue and disconnect. Disconnecting ends a loaded
      track, whose callback then finds the queue empty. */
  function Leave(g: Guild): (r: (Guild, seq<Reply>))
    ensures g.voice.None? ==> r == (g, [NotConnected])
    ensures g.voice.Some? ==> r.0 == Guild(None, Empty)
    ensures g.voice.Some? ==> r.1 == [LeftChannel] + (if Active(g) then [QueueFinished] else [])
  {
    if g.voice.None? then (g, [NotConnected])
    else (Guild(None, Empty), [LeftChannel] + (if Active(g) then [QueueFinished] else []))
  }

  /** `play <query>`: connect if needed, resolve the query, append the song, and
      start playback only when nothing is playing or paused; otherwise report
      the song's position. A failed search adds nothing. */
  function Play(g: Guild, authorInVoice: bool, found: Extraction, requester: string, refreshed: Extraction): (r: (Guild, seq<Reply>))
    ensures !authorInVoice ==> r == (g, [NotInVoiceChannel])
    ensures authorInVoice && SearchSong(found, requester).Err? ==>
              r == (Guild(if g.voice.None? then Some(Idle) else g.voice, g.queue), [SearchFailed(SearchSong(found, requester).error)])
    ensures authorInVoice && SearchSong(found, requester).Ok? ==>
              var song := SearchSong(found, requester).value;
              var g' := Guild(if g.voice.None? then Some(Idle) else g.voice, Enqueue(g.queue, song));
              if Active(g) then r == (g', [AddedToQueue(song, |g.queue.pending| + 1)])
              else r == PlayNext(g', refreshed)
  {
    if !authorInVoice then (g, [NotInVoiceChannel])
    else
      var g1 := if g.voice.None? then g.(voice := Some(Idle)) else g;
      match SearchSong(found, requester)
      case Err(e) => (g1, [SearchFailed(e)])
      case Ok(song) =>
        var g2 := g1.(queue := Enqueue(g1.queue, song));
        if !Active(g2) then PlayNext(g2, refreshed)
        else (g2, [AddedToQueue(song, |g2.queue.pending|)])
  }

  /** `pause`: only a playing track is paused; in any other state nothing changes. */
  function Pause(g: Guild): (r: (Guild, seq<Reply>))
    ensures r.0 != g <==> g.voice == Some(Playing)
    ensures g.voice == Some(Playing) ==> r == (g.(voice := Some(Paused)), [PauseDone])
    ensures g.voice != Some(Playing) ==> r == (g, [NothingPlaying])
  {
    if g.voice == Some(Playing) then (g.(voice := Some(Paused)), [PauseDone])
    else (g, [NothingPlaying])
  }

  /** `resume`: only a paused track is resumed; in any other state nothing changes. */
  function Resume(g: Guild): (r: (Guild, seq<Reply>))
    ensures r.0 != g <==> g.voice == Some(Paused)
    ensures g.voice == Some(Paused) ==> r == (g.(voice := Some(Playing)), [ResumeDone])
    ensures g.voice != Some(Paused) ==> r == (g, [NotPaused])
  {
    if g.voice == Some(Paused) then (g.(voice := Some(Playing)), [ResumeDone])
    else (g, [NotPaused])
  }

  /** `skip`: only a playing track is skipped: stopping it fires the completion
      callback, which advances the queue. In any other state nothing changes. */
  function Skip(g: Guild, refreshed: Extraction): (r: (Guild, seq<Reply>))
    ensures r.0 != g <==> g.voice == Some(Playing)
    ensures g.voice == Some(Playing) ==>
              r.0.queue == Advance(g.queue).0 && r.1 == [Skipping] + Finish(g, refreshed).1
    ensures g.voice != Some(Playing) ==> r == (g, [NothingPlaying])
  {
    if g.voice == Some(Playing) then
      var (g', replies) := Finish(g, refreshed);
      (g', [Skipping] + replies)
    else (g, [NothingPlaying])
  }

  /** `stop`: when connected, clear the queue and stop the client; a loaded
      track then ends and its callback finds the queue empty. */
  function Stop(g: Guild): (r: (Guild, seq<Reply>))
    ensures g.voice.None? ==> r == (g, [NotConnected])
    ensures g.voice.Some? ==> r.0.queue == Empty && r.0.voice == (if Active(g) then Some(Idle) else g.voice)
  {
    if g.voice.None? then (g, [NotConnected])
    else (Guild(if Active(g) then Some(Idle) else g.voice, Empty), [StopDone] + (if Active(g) then [QueueFinished] else []))
  }

  /** Everything that can happen to a guild: a command, or the end of a track. */
  datatype Event =
    | JoinCommand(authorInVoice: bool)
    | LeaveCommand
    | PlayCommand(authorInVoice: bool, found: Extraction, requester: string, refreshed: Extraction)
    | PauseCommand
    | ResumeCommand
    | SkipCommand(refreshed: Extraction)
    | StopCommand
    | TrackEnded(refreshed: Extraction)

  function Step(g: Guild, e: Event): (Guild, seq<Reply>)
  {
    match e
    case JoinCommand(inVoice) => Join(g, inVoice)
    case LeaveCommand => Leave(g)
    case PlayCommand(inVoice, found, requester, refreshed) => Play(g, inVoice, found, requester, refreshed)
    case PauseCommand => Pause(g)
    case ResumeCommand => Resume(g)
    case SkipCommand(refreshed) => Skip(g, refreshed)
    case StopCommand => Stop(g)
    case TrackEnded(refreshed) => Finish(g, refreshed)
  }

  /** The state after the events in order, and every message sent. */
  function Run(g: Guild, events: seq<Event>): (Guild, seq<Reply>)
    decreases |events|
  {
    if events == [] then (g, [])
    else
      var (g', out) := Step(g, events[0]);
      var (g'', outs) := Run(g', events[1..]);
      (g'', out + outs)
  }

  /** A loaded track always has a current song. */
  ghost predicate Consistent(g: Guild)
  {
    Active(g) ==> g.queue.current.Some?
  }

  /** Every command and every track end keeps a guild consistent. */
  lemma StepConsistent(g: Guild, e: Event)
    requires Consistent(g)
    ensures Consistent(Step(g, e).0)
  {
  }

  lemma {:induction false} RunConsistent(g: Guild, events: seq<Event>)
    requires Consistent(g)
    ensures Consistent(Run(g, events).0)
    decreases |events|
  {
    if events != [] {
      StepConsistent(g, events[0]);
      RunConsistent(Step(g, events[0]).0, events[1..]);
    }
  }

  /** `stop` is `clear` followed by the completion callback of the stopped
      track, whatever that callback would fetch. */
  lemma StopIsClearThenFinish(g: Guild, refreshed: Extraction)
    requires g.voice.Some?
    ensures var (g', out) := Finish(g.(queue := Cleared(g.queue)), refreshed);
            Stop(g) == (g', [StopDone] + out)
  {
  }

  /** When the fresh locator cannot be fetched, the guild is left idle with the
      song as `current`, and no completion callback can advance the queue
      until the next command. */
  lemma RefreshFailureHalts(g: Guild, refreshed: Extraction, later: Extraction)
    requires g.voice == Some(Idle) && g.queue.pending != [] && RefreshLocator(refreshed).None?
    ensures var (g', out) := PlayNext(g, refreshed);
            && out == [PlaybackFailed]
            && g'.voice == Some(Idle) && g'.queue.current == Some(g.queue.pending[0])
            && Finish(g', later) == (g', [])
  {
  }

  /** `skip` while playing with songs pending starts the next one. */
  lemma SkipToNext(g: Guild, refreshed: Extraction)
    requires g.voice == Some(Playing) && g.queue.pending != [] && RefreshLocator(refreshed).Some?
    ensures var p := g.queue.pending;
            Skip(g, refreshed) == (Guild(Some(Playing), QueueState(p[1..], Some(p[0]))), [Skipping, NowPlaying(p[0], |p| - 1)])
  {
    var p := g.queue.pending;
    var g' := Guild(Some(Playing), QueueState(p[1..], Some(p[0])));
    assert Finish(g, refreshed) == (g', [NowPlaying(p[0], |p| - 1)]);
    assert Skip(g, refreshed).0 == g';
    assert Skip(g, refreshed).1 == [Skipping] + [NowPlaying(p[0], |p| - 1)];
    assert [Skipping] + [NowPlaying(p[0], |p| - 1)] == [Skipping, NowPlaying(p[0], |p| - 1)];
  }

  /** `skip` on the last song empties the queue and reports its end once. */
  lemma SkipAtEnd(g: Guild, refreshed: Extraction)
    requires g.voice == Some(Playing) && g.queue.pending == []
    ensures Skip(g, refreshed) == (Guild(Some(Idle), Empty), [Skipping, QueueFinished])
  {
    assert Finish(g, refreshed) == (Guild(Some(Idle), Empty), [QueueFinished]);
    assert Skip(g, refreshed).0 == Guild(Some(Idle), Empty);
    assert Skip(g, refreshed).1 == [Skipping] + [QueueFinished];
    assert [Skipping] + [QueueFinished] == [Skipping, QueueFinished];
  }

  /** Three songs requested while idle: the first starts at once, the others
      wait; three skips play them in order and then report the end of the queue
      exactly once, leaving an idle client and an empty queue. */
  lemma {:induction false} ThreeSongsThenSkips(
    g: Guild, fa: Extraction, fb: Extraction, fc: Extraction, req: string, ok: Extraction)
    requires g == Guild(Some(Idle), Empty)
    requires SearchSong(fa, req).Ok? && SearchSong(fb, req).Ok? && SearchSong(fc, req).Ok?
    requires RefreshLocator(ok).Some?
    ensures var a, b, c := SearchSong(fa, req).value, SearchSong(fb, req).value, SearchSong(fc, req).value;
            Run(g, [PlayCommand(true, fa, req, ok), PlayCommand(true, fb, req, ok), PlayCommand(true, fc, req, ok),
                    SkipCommand(ok), SkipCommand(ok), SkipCommand(ok)])
            == (Guild(Some(Idle), Empty),
                [NowPlaying(a, 0), AddedToQueue(b, 1), AddedToQueue(c, 2),
                 Skipping, NowPlaying(b, 1), Skipping, NowPlaying(c, 0), Skipping, QueueFinished])
  {
    var a, b, c := SearchSong(fa, req).value, SearchSong(fb, req).value, SearchSong(fc, req).value;
    var e1, e2, e3 := PlayCommand(true, fa, req, ok), PlayCommand(true, fb, req, ok), PlayCommand(true, fc, req, ok);
    var s := SkipCommand(ok);
    var g1 := Guild(Some(Playing), QueueState([], Some(a)));
    var g2 := Guild(Some(Playing), QueueState([b], Some(a)));
    var g3 := Guild(Some(Playing), QueueState([b, c], Some(a)));
    var g4 := Guild(Some(Playing), QueueState([c], Some(b)));
    var g5 := Guild(Some(Playing), QueueState([], Some(c)));
    assert Step(g, e1) == (g1, [NowPlaying(a, 0)]);
    assert Step(g1, e2) == (g2, [AddedToQueue(b, 1)]);
    assert Enqueue(g2.queue, c) == g3.queue;
    assert Step(g2, e3) == (g3, [AddedToQueue(c, 2)]);
    assert Advance(g3.queue) == (g4.queue, Some(b));
    SkipToNext(g3, ok);
    assert g3.queue.pending[1..] == [c];
    SkipToNext(g4, ok);
    SkipAtEnd(g5, ok);
    var evs := [e1, e2, e3, s, s, s];
    forall k | 0 <= k < 6 ensures evs[k..][0] == evs[k] && evs[k..][1..] == evs[k + 1..] { }
    assert evs[6..] == [];
    assert Run(Guild(Some(Idle), Empty), []) == (Guild(Some(Idle), Empty), []);
    assert [Skipping, QueueFinished] + [] == [Skipping, QueueFinished];
    var done := Guild(Some(Idle), Empty);
    var out5 := [Skipping, QueueFinished];
    var out4 := [Skipping, NowPlaying(c, 0)] + out5;
    var out3 := [Skipping, NowPlaying(b, 1)] + out4;
    var out2 := [AddedToQueue(c, 2)] + out3;
    var out1 := [AddedToQueue(b, 1)] + out2;
    var out0 := [NowPlaying(a, 0)] + out1;
    assert Run(g5, evs[5..]) == (done, out5);
    assert Run(g4, evs[4..]) == (done, out4);
    assert Run(g3, evs[3..]) == (done, out3);
    assert Run(g2, evs[2..]) == (done, out2);
    assert Run(g1, evs[1..]) == (done, out1);
    assert Run(g, evs) == (done, out0);
    assert out0 == [NowPlaying(a, 0), AddedToQueue(b, 1), AddedToQueue(c, 2),
                    Skipping, NowPlaying(b, 1), Skipping, NowPlaying(c, 0), Skipping, QueueFinished];
  }
}
