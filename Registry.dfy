/** `music_queues` and `get_queue`: the process-wide map from guild id to that
    guild's queue object, filled lazily and never emptied. */
module Registry {
  import opened GuildQueue

  /** A Discord guild snowflake. */
  type GuildId = int

  class QueueRegistry {
    var queues: map<GuildId, MusicQueue>

    /** Each guild has its own queue object: no two guilds share one, so a
        change to one guild's queue leaves every other guild's queue as it was. */
    ghost predicate Valid()
      reads this
    {
      forall g, h :: g in queues && h in queues && g != h ==> queues[g] != queues[h]
    }

    constructor ()
      ensures Valid() && queues == map[]
    {
      queues := map[];
    }

    /** `get_queue(guild_id)`: creates an empty queue for a guild seen for the
        first time, and otherwise returns the one already there, changing
        nothing. Entries are never removed. */
    method GetQueue(g: GuildId) returns (q: MusicQueue)
      requires Valid()
      modifies this
      ensures Valid()
      ensures g in queues && q == queues[g]
      ensures g in old(queues) ==> queues == old(queues) && q == old(queues[g])
      ensures g !in old(queues) ==> fresh(q) && queues == old(queues)[g := q] && q.State() == Empty
      ensures old(queues).Keys <= queues.Keys
    {
      if g !in queues {
        q := new MusicQueue();
        queues := queues[g := q];
      }
      q := queues[g];
    }
  }

  /** Asking for a guild's queue twice gives the same object, and the second
      call creates nothing. */
  method GetQueueTwice(r: QueueRegistry, g: GuildId) returns (q1: MusicQueue, q2: MusicQueue)
    requires r.Valid()
    modifies r
    ensures r.Valid()
    ensures q1 == q2 && r.queues == old(r.queues)[g := q1]
    ensures forall h :: h in old(r.queues) && h != g ==> h in r.queues && r.queues[h] == old(r.queues[h])
  {
    q1 := r.GetQueue(g);
    ghost var afterFirst := r.queues;
    q2 := r.GetQueue(g);
    assert r.queues == afterFirst;
  }
}
