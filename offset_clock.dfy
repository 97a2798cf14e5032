/**
 * The live clock's fixed-offset formatter, `getTimeWithOffset`: find the
 * first `UTC[+-]DD:DD` in a string, turn it into a signed number of
 * minutes, add it to the current instant and show the time of day as
 * `HH:MM:SS`.
 *
 * The current instant is an input (epoch milliseconds, what `getTime()`
 * returns) and the engine's time formatting becomes two-digit fields.
 */
module OffsetClock {
  import opened Wrappers

  /** Length of a match of `UTC[+-]\d{2}:\d{2}`. */
  const PatternLength: nat := 9
  /** The largest offset the pattern can express: `UTC+99:99`. */
  const MaxOffsetMinutes: nat := 99 * 60 + 99
  const SecondsPerDay: nat := 86400

  // ---------------------------------------------------------------------
  // Parsing
  // ---------------------------------------------------------------------

  /** `\d` without the `u` flag: an ASCII digit. */
  predicate IsDigit(c: char) {
    '0' <= c <= '9'
  }

  function DigitValue(c: char): (d: nat)
    requires IsDigit(c)
    ensures d < 10
  {
    (c as int) - ('0' as int)
  }

  /** `parseInt` of a two-digit capture. */
  function TwoDigitValue(hi: char, lo: char): (n: nat)
    requires IsDigit(hi) && IsDigit(lo)
    ensures n < 100
  {
    10 * DigitValue(hi) + DigitValue(lo)
  }

  /** The pattern `UTC[+-]\d{2}:\d{2}` matches `s` starting at index `i`. */
  predicate MatchesAt(s: string, i: nat) {
    i + PatternLength <= |s| &&
    s[i] == 'U' && s[i + 1] == 'T' && s[i + 2] == 'C' &&
    (s[i + 3] == '+' || s[i + 3] == '-') &&
    IsDigit(s[i + 4]) && IsDigit(s[i + 5]) &&
    s[i + 6] == ':' &&
    IsDigit(s[i + 7]) && IsDigit(s[i + 8])
  }

  /**
   * The leftmost match starting at or after `from`: the one a regular
   * expression without the `g` flag reports.
   */
  function FirstMatch(s: string, from: nat): (r: Option<nat>)
    ensures r.Some? ==> from <= r.value && MatchesAt(s, r.value)
    ensures r.Some? ==> forall j: nat :: from <= j < r.value ==> !MatchesAt(s, j)
    ensures r.None? ==> forall j: nat :: from <= j ==> !MatchesAt(s, j)
    decreases |s| - from
  {
    if from + PatternLength > |s| then None
    else if MatchesAt(s, from) then Some(from)
    else FirstMatch(s, from + 1)
  }

  /** Signed minutes of the match at `i`: +1 exactly for a `+` sign, -1 otherwise. */
  function OffsetAt(s: string, i: nat): (minutes: int)
    requires MatchesAt(s, i)
    ensures s[i + 3] == '+' ==> minutes == TwoDigitValue(s[i + 4], s[i + 5]) * 60 + TwoDigitValue(s[i + 7], s[i + 8])
    ensures s[i + 3] == '-' ==> minutes == -(TwoDigitValue(s[i + 4], s[i + 5]) * 60 + TwoDigitValue(s[i + 7], s[i + 8]))
  {
    var sign := if s[i + 3] == '+' then 1 else -1;
    sign * (TwoDigitValue(s[i + 4], s[i + 5]) * 60 + TwoDigitValue(s[i + 7], s[i + 8]))
  }

  /** The offset in minutes found in `s`, or `None` (the source's `null`). */
  function ParseOffset(s: string): (r: Option<int>)
    ensures r.None? <==> forall i: nat :: !MatchesAt(s, i)
    ensures r.Some? ==> -(MaxOffsetMinutes as int) <= r.value <= MaxOffsetMinutes
  {
    match FirstMatch(s, 0)
    case None => None
    case Some(i) => Some(OffsetAt(s, i))
  }

  /** The offset comes from the leftmost match, wherever it is in the string. */
  lemma ParseOffsetLeftmost(s: string, i: nat)
    requires MatchesAt(s, i)
    requires forall j: nat :: j < i ==> !MatchesAt(s, j)
    ensures ParseOffset(s) == Some(OffsetAt(s, i))
  {
  }

  /** A match is decided by the nine characters it covers. */
  lemma MatchesAtSlice(s: string, i: nat)
    requires i + PatternLength <= |s|
    ensures MatchesAt(s, i) == MatchesAt(s[i..i + PatternLength], 0)
    ensures MatchesAt(s, i) ==> OffsetAt(s, i) == OffsetAt(s[i..i + PatternLength], 0)
  {
  }

  lemma MatchesAtWindow(s: string, t: string, i: nat, k: nat)
    requires k + PatternLength <= |t|
    requires i + PatternLength <= |s|
    requires s[i..i + PatternLength] == t[k..k + PatternLength]
    ensures MatchesAt(s, i) == MatchesAt(t, k)
    ensures MatchesAt(s, i) ==> OffsetAt(s, i) == OffsetAt(t, k)
  {
    MatchesAtSlice(s, i);
    MatchesAtSlice(t, k);
  }

  /** Characters after a match are ignored: `"UTC+05:300"` reads as `"UTC+05:30"`. */
  lemma {:induction false} ParseOffsetIgnoresSuffix(s: string, t: string)
    requires ParseOffset(s).Some?
    ensures ParseOffset(s + t) == ParseOffset(s)
  {
    var i := FirstMatch(s, 0).value;
    var st := s + t;
    assert s[i..i + PatternLength] == st[i..i + PatternLength];
    MatchesAtWindow(s, st, i, i);
    forall j: nat | j < i ensures !MatchesAt(st, j) {
      assert s[j..j + PatternLength] == st[j..j + PatternLength];
      MatchesAtWindow(s, st, j, j);
    }
    ParseOffsetLeftmost(st, i);
  }

  /** A prefix with no `U` cannot hold a match, so the search skips it. */
  lemma {:induction false} ParseOffsetSkipsPrefix(p: string, s: string)
    requires forall k :: 0 <= k < |p| ==> p[k] != 'U'
    ensures ParseOffset(p + s) == ParseOffset(s)
  {
    var ps := p + s;
    forall j: nat | j < |p| ensures !MatchesAt(ps, j) {
      assert ps[j] == p[j];
    }
    forall i: nat | i + PatternLength <= |s|
      ensures MatchesAt(ps, |p| + i) == MatchesAt(s, i)
      ensures MatchesAt(s, i) ==> OffsetAt(ps, |p| + i) == OffsetAt(s, i)
    {
      assert ps[|p| + i..|p| + i + PatternLength] == s[i..i + PatternLength];
      MatchesAtWindow(ps, s, |p| + i, i);
    }
    match FirstMatch(s, 0)
    case None =>
      forall j: nat ensures !MatchesAt(ps, j) {
        if j >= |p| && j + PatternLength <= |ps| {
          assert MatchesAt(ps, |p| + (j - |p|)) == MatchesAt(s, j - |p|);
        }
      }
    case Some(i) =>
      forall j: nat | j < |p| + i ensures !MatchesAt(ps, j) {
        if j >= |p| {
          assert MatchesAt(ps, |p| + (j - |p|)) == MatchesAt(s, j - |p|);
        }
      }
      ParseOffsetLeftmost(ps, |p| + i);
  }

  /** The sign decides the direction of the shift; `UTC-00:00` is zero too. */
  lemma ParseOffsetSign(s: string, i: nat)
    requires MatchesAt(s, i)
    ensures s[i + 3] == '+' ==> OffsetAt(s, i) >= 0
    ensures s[i + 3] == '-' ==> OffsetAt(s, i) <= 0
    ensures OffsetAt(s, i) == 0 <==> TwoDigitValue(s[i + 4], s[i + 5]) == 0 && TwoDigitValue(s[i + 7], s[i + 8]) == 0
  {
  }

  /** The examples the clock is expected to accept and reject. */
  lemma ParseOffsetExamples()
    ensures ParseOffset("UTC+05:30") == Some(330)
    ensures ParseOffset("UTC-04:00") == Some(-240)
    ensures ParseOffset("UTC+00:00") == Some(0)
    ensures ParseOffset("UTC+05:300") == Some(330)
    ensures ParseOffset("UTC+99:99") == Some(MaxOffsetMinutes as int)
    ensures ParseOffset("UTC+5:3") == None
    ensures ParseOffset("banana") == None
    ensures ParseOffset("UTC") == None
  {
  }

  // ---------------------------------------------------------------------
  // Wall-clock arithmetic and formatting
  // ---------------------------------------------------------------------

  /**
   * Second of the day shown for the instant `nowMillis` shifted by
   * `offsetMinutes`: the UTC instant plus the offset, truncated to whole
   * seconds and reduced to one day.
   */
  function DisplayedSecondOfDay(nowMillis: int, offsetMinutes: int): (r: nat)
    ensures r < SecondsPerDay
    ensures ((nowMillis + offsetMinutes * 60000) / 1000 - r) % SecondsPerDay == 0
  {
    ((nowMillis + offsetMinutes * 60000) / 1000) % SecondsPerDay
  }

  /** With a zero offset the clock shows the UTC time of day. */
  lemma ZeroOffsetShowsUtc(nowMillis: int)
    ensures DisplayedSecondOfDay(nowMillis, 0) == (nowMillis / 1000) % SecondsPerDay
  {
  }

  /** Each one-second tick advances the shown time by one second, wrapping at midnight. */
  lemma TickAdvancesOneSecond(nowMillis: int, offsetMinutes: int)
    ensures DisplayedSecondOfDay(nowMillis + 1000, offsetMinutes)
         == (DisplayedSecondOfDay(nowMillis, offsetMinutes) + 1) % SecondsPerDay
  {
    var a := nowMillis + offsetMinutes * 60000;
    assert (a + 1000) / 1000 == a / 1000 + 1;
    ShiftWithinDay(a / 1000, 1);
  }

  /** An offset one hour further east shows a time one hour later. */
  lemma OneHourEastIsOneHourLater(nowMillis: int, offsetMinutes: int)
    ensures DisplayedSecondOfDay(nowMillis, offsetMinutes + 60)
         == (DisplayedSecondOfDay(nowMillis, offsetMinutes) + 3600) % SecondsPerDay
  {
    var a := nowMillis + offsetMinutes * 60000;
    assert nowMillis + (offsetMinutes + 60) * 60000 == a + 3600000;
    assert (a + 3600000) / 1000 == a / 1000 + 3600;
    ShiftWithinDay(a / 1000, 3600);
  }

  /** Adding `d` seconds commutes with reducing to one day. */
  lemma ShiftWithinDay(x: int, d: nat)
    ensures (x + d) % SecondsPerDay == (x % SecondsPerDay + d) % SecondsPerDay
  {
    var q := x / SecondsPerDay;
    assert x == q * SecondsPerDay + x % SecondsPerDay;
    assert x + d == q * SecondsPerDay + (x % SecondsPerDay + d);
  }

  /** A time of day in 24-hour notation. */
  datatype TimeOfDay = TimeOfDay(hour: nat, minute: nat, second: nat)

  predicate ValidTime(t: TimeOfDay) {
    t.hour < 24 && t.minute < 60 && t.second < 60
  }

  function SecondOfDay(t: TimeOfDay): nat {
    t.hour * 3600 + t.minute * 60 + t.second
  }

  /** Splits a second of the day into hours, minutes and seconds. */
  function ToTimeOfDay(secs: nat): (t: TimeOfDay)
    requires secs < SecondsPerDay
    ensures ValidTime(t) && SecondOfDay(t) == secs
  {
    TimeOfDay(secs / 3600, (secs % 3600) / 60, secs % 60)
  }

  /** Splitting is the inverse of counting seconds. */
  lemma ToTimeOfDayOfSecondOfDay(t: TimeOfDay)
    requires ValidTime(t)
    ensures SecondOfDay(t) < SecondsPerDay
    ensures ToTimeOfDay(SecondOfDay(t)) == t
  {
  }

  /** Two-digit, zero-padded rendering of a number below 100. */
  function Pad2(n: nat): (r: string)
    requires n < 100
    ensures |r| == 2 && IsDigit(r[0]) && IsDigit(r[1])
    ensures TwoDigitValue(r[0], r[1]) == n
  {
    [('0' as int + n / 10) as char, ('0' as int + n % 10) as char]
  }

  /** Text of the form `DD:DD:DD`. */
  predicate IsClockText(r: string) {
    |r| == 8 &&
    IsDigit(r[0]) && IsDigit(r[1]) && r[2] == ':' &&
    IsDigit(r[3]) && IsDigit(r[4]) && r[5] == ':' &&
    IsDigit(r[6]) && IsDigit(r[7])
  }

  /** Reads back the three fields of a clock text. */
  function ReadClockText(r: string): TimeOfDay
    requires IsClockText(r)
  {
    TimeOfDay(TwoDigitValue(r[0], r[1]), TwoDigitValue(r[3], r[4]), TwoDigitValue(r[6], r[7]))
  }

  /** `HH:MM:SS`, 24-hour, every field zero-padded. */
  function FormatTime(t: TimeOfDay): (r: string)
    requires ValidTime(t)
    ensures IsClockText(r)
    ensures ReadClockText(r) == t
  {
    Pad2(t.hour) + ":" + Pad2(t.minute) + ":" + Pad2(t.second)
  }

  /**
   * `getTimeWithOffset(offsetString)` at the instant `nowMillis`: `None`
   * when the string holds no offset, otherwise the shifted time of day.
   */
  function TimeWithOffset(offsetString: string, nowMillis: int): (r: Option<string>)
    ensures r.None? <==> forall i: nat :: !MatchesAt(offsetString, i)
    ensures r.Some? ==> IsClockText(r.value)
    ensures r.Some? ==> ValidTime(ReadClockText(r.value))
    ensures r.Some? ==> SecondOfDay(ReadClockText(r.value)) == DisplayedSecondOfDay(nowMillis, ParseOffset(offsetString).value)
  {
    match ParseOffset(offsetString)
    case None => None
    case Some(minutes) => Some(FormatTime(ToTimeOfDay(DisplayedSecondOfDay(nowMillis, minutes))))
  }

  /** `"UTC+00:00"` shows the UTC time itself. */
  lemma ZeroOffsetStringShowsUtc(nowMillis: int)
    ensures TimeWithOffset("UTC+00:00", nowMillis) == Some(FormatTime(ToTimeOfDay((nowMillis / 1000) % SecondsPerDay)))
  {
    ParseOffsetExamples();
  }

  /** Two renderings used by the examples below. */
  lemma ClockTextExamples()
    ensures FormatTime(TimeOfDay(5, 30, 0)) == "05:30:00"
    ensures FormatTime(TimeOfDay(20, 0, 0)) == "20:00:00"
  {
  }

  /** Concrete readings at the epoch (00:00:00 UTC). */
  lemma TimeWithOffsetExamples()
    ensures TimeWithOffset("UTC+05:30", 0) == Some("05:30:00")
    ensures TimeWithOffset("UTC-04:00", 0) == Some("20:00:00")
    ensures TimeWithOffset("UTC+5:3", 0) == None
  {
    ParseOffsetExamples();
    ClockTextExamples();
    ShownAtEpoch("UTC+05:30", 330, TimeOfDay(5, 30, 0), "05:30:00");
    ShownAtEpoch("UTC-04:00", -240, TimeOfDay(20, 0, 0), "20:00:00");
  }

  /** At the epoch, an offset string whose shifted second is that of `t` shows `t` as `text`. */
  lemma ShownAtEpoch(offsetString: string, minutes: int, t: TimeOfDay, text: string)
    requires ValidTime(t) && ParseOffset(offsetString) == Some(minutes)
    requires DisplayedSecondOfDay(0, minutes) == SecondOfDay(t) && FormatTime(t) == text
    ensures TimeWithOffset(offsetString, 0) == Some(text)
  {
    ToTimeOfDayOfSecondOfDay(t);
  }
}
