/** The `queue` command: the embed that lists the current song and the first
    ten pending songs, numbered from 1, with a note on how many more wait. */
module Listing {
  import opened Songs
  import opened DurationFormat
  import opened GuildQueue

  /** How many pending songs the listing shows at most. */
  const MaxShown: nat := 10

  /** One numbered line of the listing. */
  datatype Entry = Entry(index: nat, song: Song)

  /** What the "up next" field lists: numbered entries, and the number of songs
      left off when there are more than `MaxShown`. */
  datatype Listing = Listing(entries: seq<Entry>, more: Option<nat>)

  /** The first `MaxShown` pending songs, numbered from 1 in queue order; the
      count of the others only when some are left off. */
  function ListingOf(pending: seq<Song>): (l: Listing)
    ensures |l.entries| == if |pending| < MaxShown then |pending| else MaxShown
    ensures forall i :: 0 <= i < |l.entries| ==> l.entries[i] == Entry(i + 1, pending[i])
    ensures l.more.Some? <==> |pending| > MaxShown
    ensures l.more.Some? ==> l.more.value == |pending| - MaxShown && l.more.value > 0
  {
    var shown := if |pending| < MaxShown then |pending| else MaxShown;
    Listing(seq(shown, i requires 0 <= i < shown => Entry(i + 1, pending[i])),
            if |pending| > MaxShown then Some(|pending| - MaxShown) else None)
  }

  /** The text of one entry: index, bold title, duration, requester. */
  function EntryLine(e: Entry): string
  {
    "`" + NatToString(e.index) + ".` **" + e.song.title + "** - `" + e.song.duration + "`\n\U{1F464} "
      + e.song.requester + "\n"
  }

  /** An entry's line opens with a backquote and the index, which reads back
      as `e.index` and is closed by ".`"; the bold title follows, and the line
      ends with the requester's mention on a line of its own. */
  lemma EntryLineShape(e: Entry)
    ensures var r := EntryLine(e); var k := |NatToString(e.index)|;
      && |r| > k + 2 && r[0] == '`' && r[k + 1..k + 3] == ".`"
      && IsDigits(r[1..k + 1]) && ParseNat(r[1..k + 1]) == e.index
    ensures "`" + NatToString(e.index) + ".` **" + e.song.title + "** - `" <= EntryLine(e)
    ensures var r := EntryLine(e);
      |r| > |e.song.requester| && r[|r| - |e.song.requester| - 1..] == e.song.requester + "\n"
  {
    var r := EntryLine(e);
    var k := |NatToString(e.index)|;
    assert r[1..k + 1] == NatToString(e.index);
    assert r[k + 1..k + 3] == ".`";
    ParseNatToString(e.index);
    assert r[|r| - |e.song.requester| - 1..] == e.song.requester + "\n";
  }

  const MoreHead: string := "\n_...dan "
  const MoreTail: string := " lagu lainnya_"

  /** The closing "...and N more songs" line. */
  function MoreLine(n: nat): string
  {
    MoreHead + NatToString(n) + MoreTail
  }

  /** The note starts with its fixed head, ends in '_', and the count in it
      reads back as `n`. */
  lemma MoreLineReadsBack(n: nat)
    ensures var r := MoreLine(n);
      |r| > |MoreHead| + |MoreTail| && MoreHead <= r && r[|r| - 1] == '_'
    ensures var r := MoreLine(n);
      IsDigits(r[|MoreHead|..|r| - |MoreTail|]) && ParseNat(r[|MoreHead|..|r| - |MoreTail|]) == n
  {
    var r := MoreLine(n);
    assert r[|MoreHead|..|r| - |MoreTail|] == NatToString(n);
    ParseNatToString(n);
  }

  /** The entry lines one after the other. */
  function EntryLines(es: seq<Entry>): string
    decreases |es|
  {
    if es == [] then "" else EntryLines(es[..|es| - 1]) + EntryLine(es[|es| - 1])
  }

  /** The entry lines are empty exactly when there are no entries, and
      otherwise end a line. */
  lemma EntryLinesEnd(es: seq<Entry>)
    ensures EntryLines(es) == "" <==> es == []
    ensures es != [] ==> EntryLines(es)[|EntryLines(es)| - 1] == '\n'
  {
    if es != [] {
      var line := EntryLine(es[|es| - 1]);
      assert line[|line| - 1] == '\n';
    }
  }

  /** One more entry adds one more line. */
  lemma EntryLinesExtend(es: seq<Entry>, i: nat)
    requires i < |es|
    ensures EntryLines(es[..i + 1]) == EntryLines(es[..i]) + EntryLine(es[i])
  {
    assert es[..i + 1][..i] == es[..i];
  }

  /** The text of the "up next" field: the entry lines, then the note. */
  function Render(l: Listing): string
  {
    EntryLines(l.entries) + (if l.more.Some? then MoreLine(l.more.value) else "")
  }

  /** The entry lines come first, then the note, which is there exactly when
      the text ends in its closing '_'. */
  lemma RenderShape(l: Listing)
    ensures EntryLines(l.entries) <= Render(l)
    ensures l.more.Some? ==> Render(l)[|EntryLines(l.entries)|..] == MoreLine(l.more.value)
    ensures l.more.None? ==> Render(l) == EntryLines(l.entries)
    ensures var r := Render(l); (|r| > 0 && r[|r| - 1] == '_') <==> l.more.Some?
  {
    EntryLinesEnd(l.entries);
    if l.more.Some? {
      MoreLineReadsBack(l.more.value);
    }
  }

  /** The string `show_queue` accumulates: one line per shown song, then the
      note on the songs left off. */
  method BuildQueueList(pending: seq<Song>) returns (text: string)
    ensures text == Render(ListingOf(pending))
  {
    var listing := ListingOf(pending);
    var shown := if |pending| < MaxShown then pending else pending[..MaxShown];
    ghost var lines := listing.entries;
    assert |shown| == |lines|;
    text := "";
    for i := 0 to |shown|
      invariant text == EntryLines(lines[..i])
    {
      var entry := Entry(i + 1, shown[i]);
      assert entry == lines[i];
      EntryLinesExtend(lines, i);
      text := text + EntryLine(entry);
    }
    assert lines[..|shown|] == lines;
    if |pending| > MaxShown {
      text := text + MoreLine(|pending| - MaxShown);
    }
  }

  /** The embed `show_queue` sends, or the "queue is empty" message. */
  datatype QueueView =
    | EmptyQueue
    | QueueEmbed(nowPlaying: Option<Song>, upNext: Option<string>, total: nat)

  /** `show_queue`: "empty" only when nothing is current and nothing pending;
      otherwise the current song if any, the listing if anything is pending,
      and the pending count in the footer. */
  function ShowQueue(q: QueueState): (v: QueueView)
    ensures v.EmptyQueue? <==> q.current.None? && q.pending == []
    ensures v.QueueEmbed? ==>
              && v.nowPlaying == q.current
              && v.total == |q.pending|
              && (v.upNext.Some? <==> q.pending != [])
              && (v.upNext.Some? ==> v.upNext.value == Render(ListingOf(q.pending)))
  {
    if q.current.None? && q.pending == [] then EmptyQueue
    else QueueEmbed(q.current, if q.pending != [] then Some(Render(ListingOf(q.pending))) else None, |q.pending|)
  }

  /** The listing of a queue is the listing of its first ten songs: songs
      added behind them do not change any shown line, only the note. */
  lemma ListingIgnoresTail(pending: seq<Song>, more: seq<Song>)
    requires |pending| >= MaxShown
    ensures ListingOf(pending + more).entries == ListingOf(pending).entries
  {
  }
}
