/** The duration shown for a song: `minutes:seconds` with the seconds padded to
    two digits, or "Unknown" when the extractor gave no duration or a zero one. */
module DurationFormat {
  import opened Songs

  predicate IsDigits(s: string)
  {
    forall i :: 0 <= i < |s| ==> '0' <= s[i] <= '9'
  }

  function DigitChar(d: nat): (c: char)
    requires d < 10
    ensures '0' <= c <= '9' && c as int - '0' as int == d
  {
    "0123456789"[d]
  }

  function DigitValue(c: char): (d: nat)
    requires '0' <= c <= '9'
    ensures d < 10
  {
    c as int - '0' as int
  }

  /** Decimal rendering of a natural number, as Python's `str` writes it. */
  function NatToString(n: nat): (s: string)
    ensures |s| >= 1 && IsDigits(s)
    ensures n > 0 ==> s[0] != '0'
    ensures |s| > 1 ==> s[0] != '0'
    decreases n
  {
    if n < 10 then [DigitChar(n)] else NatToString(n / 10) + [DigitChar(n % 10)]
  }

  /** Reads a string of decimal digits back as a number. */
  function ParseNat(s: string): nat
    requires IsDigits(s)
    decreases |s|
  {
    if s == [] then 0 else ParseNat(s[..|s| - 1]) * 10 + DigitValue(s[|s| - 1])
  }

  lemma {:induction false} ParseNatToString(n: nat)
    ensures ParseNat(NatToString(n)) == n
    decreases n
  {
    if n >= 10 {
      var s := NatToString(n / 10);
      var t := s + [DigitChar(n % 10)];
      assert t[..|t| - 1] == s;
      ParseNatToString(n / 10);
    }
  }

  /** Decimal rendering of an integer with a leading '-' when negative. */
  function IntToString(i: int): (s: string)
    ensures |s| >= 1
  {
    if i < 0 then "-" + NatToString(-i) else NatToString(i)
  }

  function ParseInt(s: string): Option<int>
  {
    if |s| >= 2 && s[0] == '-' && IsDigits(s[1..]) then Some(0 - ParseNat(s[1..]))
    else if |s| >= 1 && IsDigits(s) then Some(ParseNat(s))
    else None
  }

  lemma {:induction false} ParseIntToString(i: int)
    ensures ParseInt(IntToString(i)) == Some(i)
  {
    var s := IntToString(i);
    if i < 0 {
      var t := NatToString(-i);
      assert s == "-" + t;
      assert s[1..] == t;
      ParseNatToString(-i);
    } else {
      assert s == NatToString(i);
      assert '0' <= s[0] <= '9';
      ParseNatToString(i);
    }
  }

  /** Python's `f"{n:02d}"` for 0 <= n < 100. */
  function Pad2(n: nat): (s: string)
    requires n < 100
    ensures |s| == 2 && IsDigits(s) && ParseNat(s) == n
  {
    var s := [DigitChar(n / 10), DigitChar(n % 10)];
    assert s[..1] == [s[0]] && s[..1][..0] == [];
    assert ParseNat(s[..1]) == n / 10;
    s
  }

  const Unknown: string := "Unknown"

  /** The display string for a duration in whole seconds. `None` stands for a
      missing or null duration; it and 0 are falsy and give "Unknown". Python's
      `//` and `%` floor; for the positive divisor 60 Dafny's `/` and `%` agree
      with them, also for negative durations. */
  function FormatDuration(duration: Option<int>): (r: string)
    ensures r == Unknown <==> duration.None? || duration.value == 0
    ensures r != Unknown ==>
              && |r| >= 4 && r[|r| - 3] == ':'
              && r[..|r| - 3] == IntToString(duration.value / 60)
              && r[|r| - 2..] == Pad2(duration.value % 60)
  {
    if duration.None? || duration.value == 0 then Unknown
    else
      var minutes, seconds := IntToString(duration.value / 60), Pad2(duration.value % 60);
      var r := minutes + ":" + seconds;
      assert r[|r| - 3] == ':' && r[..|r| - 3] == minutes && r[|r| - 2..] == seconds;
      assert Unknown[|Unknown| - 3] != ':';
      r
  }

  /** Reads a display string back: `<int>:<two digits below 60>` gives the
      number of seconds, anything else (in particular "Unknown") gives `None`. */
  function ParseDuration(s: string): Option<int>
  {
    if |s| < 4 || s[|s| - 3] != ':' || !IsDigits(s[|s| - 2..]) then None
    else
      var secs := ParseNat(s[|s| - 2..]);
      match ParseInt(s[..|s| - 3])
      case None => None
      case Some(m) => if secs < 60 then Some(m * 60 + secs) else None
  }

  /** A nonzero duration is shown as minutes and seconds that add back up to it:
      the display loses nothing. */
  lemma FormatDurationRoundTrip(d: int)
    requires d != 0
    ensures ParseDuration(FormatDuration(Some(d))) == Some(d)
  {
    var m, sec := d / 60, d % 60;
    var ms, ss := IntToString(m), Pad2(sec);
    var s := ms + ":" + ss;
    assert FormatDuration(Some(d)) == s;
    assert s[..|s| - 3] == ms;
    assert s[|s| - 2..] == ss;
    ParseIntToString(m);
  }
}
