/** The command handlers as they run: they look up the guild's queue object
    through the registry, read or mutate it in place, and update the guild's
    voice client. Each playback handler is proved to do to its guild exactly
    what the corresponding step of the `Playback` state machine says; `queue`
    and `np` are proved to report the guild's queue. Every handler leaves
    every other guild as it was. */
module Bot {
  import opened Songs
  import opened Resolver
  import opened GuildQueue
  import opened Registry
  import Playback
  import Listing

  class MusicBot {
    /** `music_queues`. */
    const registry: QueueRegistry
    /** The connected voice clients: a guild is absent when the bot is not in
        one of its voice channels. */
    var voice: map<GuildId, Playback.Player>

    ghost predicate Valid()
      reads this, registry
    {
      registry.Valid()
    }

    /** Guild `g` as the state machine sees it. A guild whose queue was never
        created has the empty queue `get_queue` would create. */
    ghost function View(g: GuildId): Playback.Guild
      reads this, registry, registry.queues.Values
    {
      Playback.Guild(if g in voice then Some(voice[g]) else None,
                     if g in registry.queues then registry.queues[g].State() else Empty)
    }

    constructor ()
      ensures Valid() && fresh(registry)
      ensures voice == map[] && registry.queues == map[]
    {
      registry := new QueueRegistry();
      voice := map[];
    }

    /** `play_next`. */
    method PlayNext(g: GuildId, refreshed: Extraction) returns (replies: seq<Playback.Reply>)
      requires Valid()
      modifies this, registry, registry.queues.Values
      ensures Valid()
      ensures forall q :: q in registry.queues.Values && q !in old(registry.queues.Values) ==> fresh(q)
      ensures (View(g), replies) == Playback.PlayNext(old(View(g)), refreshed)
      ensures forall h :: h != g ==> View(h) == old(View(h))
    {
      var q := registry.GetQueue(g);
      var song := q.Next();
      if song.None? {
        return [Playback.QueueFinished];
      }
      if RefreshLocator(refreshed).None? || g !in voice || voice[g] != Playback.Idle {
        return [Playback.PlaybackFailed];
      }
      voice := voice[g := Playback.Playing];
      replies := [Playback.NowPlaying(song.value, |q.queue|)];
    }

    /** `after_playing`: the loaded track ended, so `play_next` runs. */
    method Finish(g: GuildId, refreshed: Extraction) returns (replies: seq<Playback.Reply>)
      requires Valid()
      modifies this, registry, registry.queues.Values
      ensures Valid()
      ensures forall q :: q in registry.queues.Values && q !in old(registry.queues.Values) ==> fresh(q)
      ensures (View(g), replies) == Playback.Finish(old(View(g)), refreshed)
      ensures forall h :: h != g ==> View(h) == old(View(h))
    {
      if g in voice && voice[g] != Playback.Idle {
        voice := voice[g := Playback.Idle];
        replies := PlayNext(g, refreshed);
      } else {
        replies := [];
      }
    }

    /** `join`. */
    method Join(g: GuildId, authorInVoice: bool) returns (replies: seq<Playback.Reply>)
      modifies this
      ensures registry.queues == old(registry.queues)
      ensures (View(g), replies) == Playback.Join(old(View(g)), authorInVoice)
      ensures forall h :: h != g ==> View(h) == old(View(h))
    {
      if !authorInVoice {
        return [Playback.NotInVoiceChannel];
      }
      if g !in voice {
        voice := voice[g := Playback.Idle];
        return [Playback.Joined];
      }
      return [Playback.Moved];
    }

    /** `leave`. */
    method Leave(g: GuildId) returns (replies: seq<Playback.Reply>)
      requires Valid()
      modifies this, registry, registry.queues.Values
      ensures Valid()
      ensures forall q :: q in registry.queues.Values && q !in old(registry.queues.Values) ==> fresh(q)
      ensures (View(g), replies) == Playback.Leave(old(View(g)))
      ensures forall h :: h != g ==> View(h) == old(View(h))
    {
      if g !in voice {
        return [Playback.NotConnected];
      }
      ghost var before := View(g);
      var loaded := voice[g] != Playback.Idle;
      assert loaded == Playback.Active(before);
      var q := registry.GetQueue(g);
      q.Clear();
      voice := voice - {g};
      replies := [Playback.LeftChannel];
      if loaded {
        // disconnecting ends the track; its callback's `play_next` finds nothing
        var song := q.Next();
        replies := replies + [Playback.QueueFinished];
      }
      assert View(g) == Playback.Guild(None, Empty);
      assert [Playback.LeftChannel] + [] == [Playback.LeftChannel];
    }

    /** `play <query>`, given the extractor's answer to the search and to the
        locator refresh that may follow. */
    method Play(g: GuildId, authorInVoice: bool, found: Extraction, requester: string, refreshed: Extraction)
      returns (replies: seq<Playback.Reply>)
      requires Valid()
      modifies this, registry, registry.queues.Values
      ensures Valid()
      ensures forall q :: q in registry.queues.Values && q !in old(registry.queues.Values) ==> fresh(q)
      ensures (View(g), replies) == Playback.Play(old(View(g)), authorInVoice, found, requester, refreshed)
      ensures forall h :: h != g ==> View(h) == old(View(h))
    {
      if !authorInVoice {
        return [Playback.NotInVoiceChannel];
      }
      if g !in voice {
        voice := voice[g := Playback.Idle];
      }
      ghost var connected := View(g);
      assert connected == old(View(g)).(voice := if old(View(g)).voice.None? then Some(Playback.Idle) else old(View(g)).voice);
      var result := SearchSong(found, requester);
      if result.Err? {
        return [Playback.SearchFailed(result.error)];
      }
      var song := result.value;
      var count := AddSong(g, song);
      if voice[g] == Playback.Idle {
        replies := PlayNext(g, refreshed);
      } else {
        replies := [Playback.AddedToQueue(song, count)];
      }
    }

    /** The `add` step of `play`: the song joins the end of guild `g`'s queue,
        whose new length is returned; nothing else changes. */
    method AddSong(g: GuildId, song: Song) returns (count: nat)
      requires Valid()
      modifies registry, registry.queues.Values
      ensures Valid()
      ensures View(g) == old(View(g)).(queue := Enqueue(old(View(g)).queue, song))
      ensures count == |View(g).queue.pending|
      ensures forall q :: q in registry.queues.Values && q !in old(registry.queues.Values) ==> fresh(q)
      ensures forall h :: h != g ==> View(h) == old(View(h))
    {
      var q := registry.GetQueue(g);
      assert g in old(registry.queues) ==> q in old(registry.queues).Values;
      q.Add(song);
      count := |q.queue|;
    }

    /** `pause`. */
    method Pause(g: GuildId) returns (replies: seq<Playback.Reply>)
      modifies this
      ensures registry.queues == old(registry.queues)
      ensures (View(g), replies) == Playback.Pause(old(View(g)))
      ensures forall h :: h != g ==> View(h) == old(View(h))
    {
      if g in voice && voice[g] == Playback.Playing {
        voice := voice[g := Playback.Paused];
        return [Playback.PauseDone];
      }
      return [Playback.NothingPlaying];
    }

    /** `resume`. */
    method Resume(g: GuildId) returns (replies: seq<Playback.Reply>)
      modifies this
      ensures registry.queues == old(registry.queues)
      ensures (View(g), replies) == Playback.Resume(old(View(g)))
      ensures forall h :: h != g ==> View(h) == old(View(h))
    {
      if g in voice && voice[g] == Playback.Paused {
        voice := voice[g := Playback.Playing];
        return [Playback.ResumeDone];
      }
      return [Playback.NotPaused];
    }

    /** `skip`: stopping the client fires the completion callback. */
    method Skip(g: GuildId, refreshed: Extraction) returns (replies: seq<Playback.Reply>)
      requires Valid()
      modifies this, registry, registry.queues.Values
      ensures Valid()
      ensures forall q :: q in registry.queues.Values && q !in old(registry.queues.Values) ==> fresh(q)
      ensures (View(g), replies) == Playback.Skip(old(View(g)), refreshed)
      ensures forall h :: h != g ==> View(h) == old(View(h))
    {
      if g in voice && voice[g] == Playback.Playing {
        var after := Finish(g, refreshed);
        replies := [Playback.Skipping] + after;
      } else {
        replies := [Playback.NothingPlaying];
      }
    }

    /** `stop`. */
    method Stop(g: GuildId) returns (replies: seq<Playback.Reply>)
      requires Valid()
      modifies this, registry, registry.queues.Values
      ensures Valid()
      ensures forall q :: q in registry.queues.Values && q !in old(registry.queues.Values) ==> fresh(q)
      ensures (View(g), replies) == Playback.Stop(old(View(g)))
      ensures forall h :: h != g ==> View(h) == old(View(h))
    {
      if g !in voice {
        return [Playback.NotConnected];
      }
      var q := registry.GetQueue(g);
      q.Clear();
      replies := [Playback.StopDone];
      if voice[g] != Playback.Idle {
        // the stopped track's callback runs `play_next` on the cleared queue
        voice := voice[g := Playback.Idle];
        var song := q.Next();
        replies := replies + [Playback.QueueFinished];
      }
      assert [Playback.StopDone] + [] == [Playback.StopDone];
    }

    /** `queue`: creates the guild's queue if needed and lists it. */
    method ShowQueue(g: GuildId) returns (view: Listing.QueueView)
      requires Valid()
      modifies registry
      ensures Valid()
      ensures forall q :: q in registry.queues.Values && q !in old(registry.queues.Values) ==> fresh(q)
      ensures view == Listing.ShowQueue(old(View(g)).queue)
      ensures forall h :: View(h) == old(View(h))
    {
      var q := registry.GetQueue(g);
      if q.current.None? && |q.queue| == 0 {
        return Listing.EmptyQueue;
      }
      var upNext := None;
      if q.queue != [] {
        var text := Listing.BuildQueueList(q.queue);
        upNext := Some(text);
      }
      view := Listing.QueueEmbed(q.current, upNext, |q.queue|);
    }

    /** `np`: the current song and how many wait behind it. */
    method NowPlaying(g: GuildId) returns (song: Option<Song>, remaining: nat)
      requires Valid()
      modifies registry
      ensures Valid()
      ensures forall q :: q in registry.queues.Values && q !in old(registry.queues.Values) ==> fresh(q)
      ensures song == old(View(g)).queue.current && remaining == |old(View(g)).queue.pending|
      ensures forall h :: View(h) == old(View(h))
    {
      var q := registry.GetQueue(g);
      song, remaining := q.current, |q.queue|;
    }
  }

  /** Handlers run one after another on the same bot: join, a `pause` with
      nothing playing, a `play` that starts the song at once, and a `skip`
      that ends it and finds the queue empty. The guild is left connected,
      idle and with an empty queue. */
  method JoinPlaySkip(found: Extraction, requester: string, refreshed: Extraction)
    returns (b: MusicBot, replies: seq<Playback.Reply>)
    requires SearchSong(found, requester).Ok? && RefreshLocator(refreshed).Some?
    ensures b.Valid()
    ensures b.View(1) == Playback.Guild(Some(Playback.Idle), Empty)
    ensures replies == [Playback.Joined, Playback.NothingPlaying,
                        Playback.NowPlaying(SearchSong(found, requester).value, 0),
                        Playback.Skipping, Playback.QueueFinished]
  {
    b := new MusicBot();
    var joined := b.Join(1, true);
    var paused := b.Pause(1);
    var played := b.Play(1, true, found, requester, refreshed);
    var skipped := b.Skip(1, refreshed);
    replies := joined + paused + played + skipped;
  }
}
