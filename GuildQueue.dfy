/** The per-guild playback queue (`MusicQueue`): a FIFO of pending songs and the
    song most recently taken from it. The transitions are first given as
    functions on a value, which the lemmas reason about; the class then
    performs them in place on its two fields. */
module GuildQueue {
  import opened Songs

  /** The abstract content of a `MusicQueue`: `queue` and `current`. */
  datatype QueueState = QueueState(pending: seq<Song>, current: Option<Song>)

  /** A freshly constructed queue. */
  const Empty: QueueState := QueueState([], None)

  /** `add`: the song goes to the back; `current` and earlier songs stay. */
  function Enqueue(q: QueueState, song: Song): (r: QueueState)
    ensures |r.pending| == |q.pending| + 1 && r.pending[|q.pending|] == song
    ensures r.pending[..|q.pending|] == q.pending && r.current == q.current
  {
    QueueState(q.pending + [song], q.current)
  }

  /** `next`: pops the front into `current` and returns it, or clears
      `current` and returns `None` when nothing is pending. */
  function Advance(q: QueueState): (r: (QueueState, Option<Song>))
    ensures q.pending != [] ==> r.1 == Some(q.pending[0]) && r.0 == QueueState(q.pending[1..], r.1)
    ensures q.pending == [] ==> r.1 == None && r.0 == Empty
    ensures r.0.current == r.1
  {
    if q.pending != [] then (QueueState(q.pending[1..], Some(q.pending[0])), Some(q.pending[0]))
    else (Empty, None)
  }

  /** `clear`: nothing pending, nothing current, so a following `next`
      returns `None` and changes nothing. */
  function Cleared(q: QueueState): (r: QueueState)
    ensures r.pending == [] && r.current == None
    ensures Advance(r) == (r, None)
  {
    Empty
  }

  /** The queue after `add`ing each of `songs` in turn. */
  function EnqueueAll(q: QueueState, songs: seq<Song>): QueueState
    decreases |songs|
  {
    if songs == [] then q else EnqueueAll(Enqueue(q, songs[0]), songs[1..])
  }

  /** The queue after `n` calls of `next`, and what each call returned. */
  function AdvanceN(q: QueueState, n: nat): (QueueState, seq<Option<Song>>)
    decreases n
  {
    if n == 0 then (q, [])
    else
      var (q', out) := Advance(q);
      var (q'', outs) := AdvanceN(q', n - 1);
      (q'', [out] + outs)
  }

  /** The songs of `s`, each wrapped as a `next` result. */
  function Wrapped(s: seq<Song>): (r: seq<Option<Song>>)
    ensures |r| == |s| && forall i :: 0 <= i < |s| ==> r[i] == Some(s[i])
  {
    seq(|s|, i requires 0 <= i < |s| => Some(s[i]))
  }

  /** `n` results of `next` on an empty queue. */
  function Nones(n: nat): (r: seq<Option<Song>>)
    ensures |r| == n && forall i :: 0 <= i < n ==> r[i] == None
  {
    seq(n, _ => None)
  }

  /** `add`ing songs one by one appends them, in order, behind what is pending. */
  lemma {:induction false} EnqueueAllAppends(q: QueueState, songs: seq<Song>)
    ensures EnqueueAll(q, songs) == QueueState(q.pending + songs, q.current)
    decreases |songs|
  {
    if songs != [] {
      EnqueueAllAppends(Enqueue(q, songs[0]), songs[1..]);
      assert q.pending + [songs[0]] + songs[1..] == q.pending + songs;
    }
  }

  /** `n` calls of `next`, with at least `n` songs pending, return the first `n`
      pending songs in order, leave the rest pending, and leave the last one
      returned as `current`. */
  lemma {:induction false} AdvanceNTakesPrefix(q: QueueState, n: nat)
    requires n <= |q.pending|
    ensures AdvanceN(q, n).1 == Wrapped(q.pending[..n])
    ensures AdvanceN(q, n).0.pending == q.pending[n..]
    ensures AdvanceN(q, n).0.current == if n == 0 then q.current else Some(q.pending[n - 1])
    decreases n
  {
    if n > 0 {
      var q' := Advance(q).0;
      AdvanceNTakesPrefix(q', n - 1);
      assert q'.pending == q.pending[1..];
      assert q.pending[..n] == [q.pending[0]] + q'.pending[..n - 1];
      assert q'.pending[n - 1..] == q.pending[n..];
    }
  }

  /** With nothing pending, every further `next` returns `None`, and after at
      least one of them the queue is `Empty`. */
  lemma {:induction false} AdvanceNOnEmpty(q: QueueState, n: nat)
    requires q.pending == []
    ensures AdvanceN(q, n).1 == Nones(n)
    ensures AdvanceN(q, n).0 == if n == 0 then q else Empty
    decreases n
  {
    if n > 0 {
      AdvanceNOnEmpty(Empty, n - 1);
      assert Nones(n) == [None] + Nones(n - 1);
    }
  }

  /** First-in first-out: after `add`ing `songs` to a fresh queue, `next`
      returns each of them exactly once and in the order they were added, and
      from then on `None` on every call until the next `add`. */
  lemma FifoDrain(songs: seq<Song>, extra: nat)
    ensures AdvanceN(EnqueueAll(Empty, songs), |songs| + extra).1
            == Wrapped(songs) + Nones(extra)
  {
    var q := EnqueueAll(Empty, songs);
    EnqueueAllAppends(Empty, songs);
    AdvanceNSplit(q, |songs|, extra);
    AdvanceNTakesPrefix(q, |songs|);
    assert q.pending[..|songs|] == songs;
    AdvanceNOnEmpty(AdvanceN(q, |songs|).0, extra);
  }

  /** `m + n` calls of `next` are `m` calls followed by `n` more. */
  lemma {:induction false} AdvanceNSplit(q: QueueState, m: nat, n: nat)
    ensures AdvanceN(q, m + n).0 == AdvanceN(AdvanceN(q, m).0, n).0
    ensures AdvanceN(q, m + n).1 == AdvanceN(q, m).1 + AdvanceN(AdvanceN(q, m).0, n).1
    decreases m
  {
    if m > 0 {
      AdvanceNSplit(Advance(q).0, m - 1, n);
    }
  }

  /** A guild's queue object: the `queue` deque as a sequence and `current`. */
  class MusicQueue {
    var queue: seq<Song>
    var current: Option<Song>

    function State(): QueueState
      reads this
    {
      QueueState(queue, current)
    }

    constructor ()
      ensures State() == Empty
    {
      queue := [];
      current := None;
    }

    method Add(song: Song)
      modifies this
      ensures queue == old(queue) + [song] && current == old(current)
      ensures State() == Enqueue(old(State()), song)
    {
      queue := queue + [song];
    }

    method Next() returns (song: Option<Song>)
      modifies this
      ensures old(queue) != [] ==> song == Some(old(queue)[0]) && queue == old(queue)[1..]
      ensures old(queue) == [] ==> song == None && queue == []
      ensures current == song
      ensures (State(), song) == Advance(old(State()))
    {
      if queue != [] {
        current := Some(queue[0]);
        queue := queue[1..];
        return current;
      }
      current := None;
      return None;
    }

    method Clear()
      modifies this
      ensures queue == [] && current == None
      ensures State() == Cleared(old(State()))
    {
      queue := [];
      current := None;
    }
  }

  /** Three songs added to a new queue come back out in order, then `None`. */
  method FifoScenario(a: Song, b: Song, c: Song) returns (r1: Option<Song>, r2: Option<Song>, r3: Option<Song>, r4: Option<Song>)
    ensures r1 == Some(a) && r2 == Some(b) && r3 == Some(c) && r4 == None
  {
    var q := new MusicQueue();
    q.Add(a);
    q.Add(b);
    q.Add(c);
    r1 := q.Next();
    r2 := q.Next();
    r3 := q.Next();
    r4 := q.Next();
  }
}
