/**
 * Hours-minutes-seconds arithmetic and its "HH:MM:SS" rendering, as the
 * recording timer (update_timer) and the transcript clock stamps
 * (strftime("%H:%M:%S")) produce it.
 */
module Clock {
  import opened Wrappers
  import opened Text
  import opened Decimal

  datatype Hms = Hms(hours: int, minutes: nat, seconds: nat)

  /** A time of day, as strftime("%H:%M:%S") reads the wall clock. */
  type TimeOfDay = t: Hms | 0 <= t.hours < 24 && t.minutes < 60 && t.seconds < 60 witness Hms(0, 0, 0)

  /**
   * hours = elapsed // 3600, minutes = (elapsed % 3600) // 60, seconds = elapsed % 60.
   * Python's // and % floor; with a positive divisor that is Dafny's
   * Euclidean / and %, so the split is exact for negative values too.
   */
  function SplitElapsed(elapsed: int): (t: Hms)
    ensures t.hours * 3600 + t.minutes * 60 + t.seconds == elapsed
    ensures t.minutes < 60 && t.seconds < 60
    ensures elapsed >= 0 ==> t.hours >= 0
  {
    var h := elapsed / 3600;
    var r := elapsed % 3600;
    assert r % 60 == elapsed % 60 by {
      assert elapsed == h * 3600 + r;
      assert h * 3600 == (h * 60) * 60;
    }
    Hms(h, r / 60, r % 60)
  }

  /** The split is the only one with minutes and seconds below 60. */
  lemma SplitElapsedUnique(elapsed: int, t: Hms)
    requires t.hours * 3600 + t.minutes * 60 + t.seconds == elapsed
    requires t.minutes < 60 && t.seconds < 60
    ensures SplitElapsed(elapsed) == t
  {
    var u := SplitElapsed(elapsed);
    var a := t.minutes * 60 + t.seconds;
    var b := u.minutes * 60 + u.seconds;
    assert 0 <= a < 3600 && 0 <= b < 3600;
    assert (t.hours - u.hours) * 3600 == b - a;
    assert t.hours == u.hours;
    assert t.minutes == u.minutes;
  }

  /** f"{h:02d}:{m:02d}:{s:02d}" */
  function HmsText(t: Hms): string {
    FormatInt(t.hours, 2) + ":" + ZeroPad(t.minutes, 2) + ":" + ZeroPad(t.seconds, 2)
  }

  /** The timer label update_timer shows for a number of elapsed seconds. */
  function TimerText(elapsed: int): string {
    HmsText(SplitElapsed(elapsed))
  }

  /** Reads an "H:MM:SS" label back into seconds; None when it is not three digit groups. */
  function ParseHms(text: string): Option<int> {
    var parts := SplitOn(text, ':');
    if |parts| == 3 && AllDigits(parts[0]) && AllDigits(parts[1]) && AllDigits(parts[2]) then
      Some(ParseDigits(parts[0]) * 3600 + ParseDigits(parts[1]) * 60 + ParseDigits(parts[2]))
    else
      None
  }

  lemma DigitsFree(s: string)
    requires AllDigits(s)
    ensures Free(s, ':')
  {
  }

  /** The timer label loses nothing: reading it back gives the elapsed seconds it was made from. */
  lemma TimerTextRoundTrip(elapsed: int)
    requires elapsed >= 0
    ensures ParseHms(TimerText(elapsed)) == Some(elapsed)
  {
    var t := SplitElapsed(elapsed);
    var hs, ms, ss := ZeroPad(t.hours, 2), ZeroPad(t.minutes, 2), ZeroPad(t.seconds, 2);
    ZeroPadRoundTrip(t.hours, 2);
    ZeroPadRoundTrip(t.minutes, 2);
    ZeroPadRoundTrip(t.seconds, 2);
    var parts := [hs, ms, ss];
    JoinThree(hs, ms, ss, [':']);
    assert Join(parts, [':']) == TimerText(elapsed);
    DigitsFree(hs);
    DigitsFree(ms);
    DigitsFree(ss);
    SplitOnJoin(parts, ':');
  }

  /** A clock reading with hours, minutes and seconds below 100 renders as exactly eight characters dd:dd:dd. */
  lemma HmsTextShape(t: Hms)
    requires 0 <= t.hours < 100 && t.minutes < 100 && t.seconds < 100
    ensures |HmsText(t)| == 8
    ensures HmsText(t)[2] == ':' && HmsText(t)[5] == ':'
    ensures forall i | i in {0, 1, 3, 4, 6, 7} :: IsDigit(HmsText(t)[i])
  {
    TwoDigits(t.hours);
    TwoDigits(t.minutes);
    TwoDigits(t.seconds);
  }
}
