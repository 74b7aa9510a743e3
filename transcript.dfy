/**
 * The transcript text format shared by the live transcribers and the
 * synthesizer: "[HH:MM:SS] text" lines, the Logseq heading variant, the
 * bracketed-timestamp extractor and the "[HH:MM - HH:MM]" block label.
 */
module Transcript {
  import opened Text
  import opened Decimal
  import opened Clock

  /** HH:MM:SS, the group captured by \[(\d{2}:\d{2}:\d{2})\] */
  predicate IsTimestamp(s: string) {
    && |s| == 8
    && IsDigit(s[0]) && IsDigit(s[1]) && s[2] == ':'
    && IsDigit(s[3]) && IsDigit(s[4]) && s[5] == ':'
    && IsDigit(s[6]) && IsDigit(s[7])
  }

  /** The pattern matches at the start of `s`. */
  predicate StampAtStart(s: string) {
    |s| >= 10 && s[0] == '[' && IsTimestamp(s[1..9]) && s[9] == ']'
  }

  /** Characters the pattern can match; any other character ends a match. */
  predicate IsStampChar(c: char) {
    c == '[' || c == ']' || c == ':' || IsDigit(c)
  }

  /**
   * re.findall(r'\[(\d{2}:\d{2}:\d{2})\]', text): tried at each position
   * from the left; after a match the scan resumes behind it.
   */
  function ExtractTimestamps(text: string): (stamps: seq<string>)
    ensures forall k | 0 <= k < |stamps| :: IsTimestamp(stamps[k])
    decreases |text|
  {
    if |text| < 10 then []
    else if StampAtStart(text) then [text[1..9]] + ExtractTimestamps(text[10..])
    else ExtractTimestamps(text[1..])
  }

  /** The bracketed timestamp `stamp` occupies text[i..i + 10]. */
  predicate StampAt(text: string, i: int, stamp: string) {
    0 <= i <= |text| - 10 && text[i..i + 10] == "[" + stamp + "]"
  }

  /** "[" + stamp + "]" occurs somewhere in the text. */
  predicate Occurs(text: string, stamp: string) {
    exists i | 0 <= i <= |text| - 10 :: StampAt(text, i, stamp)
  }

  lemma OccursInSuffix(text: string, d: nat, stamp: string)
    requires d <= |text| && Occurs(text[d..], stamp)
    ensures Occurs(text, stamp)
  {
    var rest := text[d..];
    var i :| 0 <= i <= |rest| - 10 && StampAt(rest, i, stamp);
    assert text[i + d..i + d + 10] == rest[i..i + 10];
    assert StampAt(text, i + d, stamp);
  }

  lemma {:induction false} ExtractedStampOccurs(text: string, k: nat)
    requires k < |ExtractTimestamps(text)|
    ensures Occurs(text, ExtractTimestamps(text)[k])
    decreases |text|
  {
    var stamps := ExtractTimestamps(text);
    if StampAtStart(text) {
      if k == 0 {
        assert text[0..10] == "[" + text[1..9] + "]";
        assert StampAt(text, 0, stamps[0]);
      } else {
        assert stamps[k] == ExtractTimestamps(text[10..])[k - 1];
        ExtractedStampOccurs(text[10..], k - 1);
        OccursInSuffix(text, 10, stamps[k]);
      }
    } else {
      assert stamps[k] == ExtractTimestamps(text[1..])[k];
      ExtractedStampOccurs(text[1..], k);
      OccursInSuffix(text, 1, stamps[k]);
    }
  }

  /** Every extracted timestamp stands in the text between brackets. */
  lemma ExtractedStampsOccur(text: string)
    ensures forall k | 0 <= k < |ExtractTimestamps(text)| :: Occurs(text, ExtractTimestamps(text)[k])
  {
    forall k | 0 <= k < |ExtractTimestamps(text)|
      ensures Occurs(text, ExtractTimestamps(text)[k])
    {
      ExtractedStampOccurs(text, k);
    }
  }

  /**
   * The reference reading of the pattern: the stamp matched at each position
   * of the text, in position order, with no position skipped.
   */
  function StampsAtEveryPosition(text: string): seq<string>
    decreases |text|
  {
    if |text| < 10 then []
    else (if StampAtStart(text) then [text[1..9]] else []) + StampsAtEveryPosition(text[1..])
  }

  /** No match starts at a position that does not hold '['. */
  lemma {:induction false} SkipBracketFree(s: string, n: nat)
    requires n <= |s|
    requires forall j | 0 <= j < n :: s[j] != '['
    ensures StampsAtEveryPosition(s) == StampsAtEveryPosition(s[n..])
    decreases n
  {
    if n > 0 && |s| >= 10 {
      SkipBracketFree(s[1..], n - 1);
      assert s[1..][n - 1..] == s[n..];
    }
  }

  /**
   * Matches never overlap: a match holds '[' only at its first character, so
   * resuming the scan behind a match skips no other match.
   */
  lemma {:induction false} ExtractFindsEveryPosition(text: string)
    ensures ExtractTimestamps(text) == StampsAtEveryPosition(text)
    decreases |text|
  {
    if |text| >= 10 {
      if StampAtStart(text) {
        var rest := text[1..];
        assert forall j | 0 <= j < 8 :: rest[j] == text[1..9][j];
        SkipBracketFree(rest, 9);
        assert rest[9..] == text[10..];
        ExtractFindsEveryPosition(text[10..]);
      } else {
        ExtractFindsEveryPosition(text[1..]);
      }
    }
  }

  lemma {:induction false} StampFoundAtPosition(text: string, i: nat, stamp: string)
    requires StampAt(text, i, stamp) && IsTimestamp(stamp)
    ensures stamp in StampsAtEveryPosition(text)
    decreases i
  {
    if i == 0 {
      assert text[1..9] == text[0..10][1..9] == stamp;
      assert StampAtStart(text);
    } else {
      assert text[1..][i - 1..i + 9] == text[i..i + 10];
      StampFoundAtPosition(text[1..], i - 1, stamp);
    }
  }

  /** A bracketed timestamp anywhere in the text is extracted. */
  lemma StampFound(text: string, i: nat, stamp: string)
    requires StampAt(text, i, stamp) && IsTimestamp(stamp)
    ensures stamp in ExtractTimestamps(text)
  {
    ExtractFindsEveryPosition(text);
    StampFoundAtPosition(text, i, stamp);
  }

  /** A timestamp is extracted exactly when it stands in the text between brackets. */
  lemma ExtractedIffOccurs(text: string, stamp: string)
    ensures stamp in ExtractTimestamps(text) <==> IsTimestamp(stamp) && Occurs(text, stamp)
  {
    var stamps := ExtractTimestamps(text);
    if stamp in stamps {
      var k :| 0 <= k < |stamps| && stamps[k] == stamp;
      ExtractedStampOccurs(text, k);
    }
    if IsTimestamp(stamp) && Occurs(text, stamp) {
      var i :| 0 <= i <= |text| - 10 && StampAt(text, i, stamp);
      StampFound(text, i, stamp);
    }
  }

  lemma {:induction false} PositionOrder(text: string, i: nat, a: string, j: nat, b: string)
    requires StampAt(text, i, a) && IsTimestamp(a) && StampAt(text, j, b) && IsTimestamp(b) && i < j
    ensures exists k, l | 0 <= k < l < |StampsAtEveryPosition(text)| ::
      StampsAtEveryPosition(text)[k] == a && StampsAtEveryPosition(text)[l] == b
    decreases i
  {
    var rest := text[1..];
    var all := StampsAtEveryPosition(text);
    assert rest[j - 1..j + 9] == text[j..j + 10];
    if i == 0 {
      assert text[1..9] == text[0..10][1..9] == a;
      assert all == [a] + StampsAtEveryPosition(rest);
      StampFoundAtPosition(rest, j - 1, b);
      var l :| 0 <= l < |StampsAtEveryPosition(rest)| && StampsAtEveryPosition(rest)[l] == b;
      assert all[0] == a && all[l + 1] == b;
    } else {
      assert rest[i - 1..i + 9] == text[i..i + 10];
      PositionOrder(rest, i - 1, a, j - 1, b);
      var k, l :| 0 <= k < l < |StampsAtEveryPosition(rest)|
        && StampsAtEveryPosition(rest)[k] == a && StampsAtEveryPosition(rest)[l] == b;
      var d := |all| - |StampsAtEveryPosition(rest)|;
      assert all[k + d] == a && all[l + d] == b;
    }
  }

  /** Stamps come back in text order: one standing before another is extracted before it. */
  lemma ExtractKeepsTextOrder(text: string, i: nat, a: string, j: nat, b: string)
    requires StampAt(text, i, a) && IsTimestamp(a) && StampAt(text, j, b) && IsTimestamp(b) && i < j
    ensures exists k, l | 0 <= k < l < |ExtractTimestamps(text)| ::
      ExtractTimestamps(text)[k] == a && ExtractTimestamps(text)[l] == b
  {
    ExtractFindsEveryPosition(text);
    PositionOrder(text, i, a, j, b);
  }

  lemma WindowIsStampChars(s: string)
    requires StampAtStart(s)
    ensures forall i | 0 <= i < 10 :: IsStampChar(s[i])
  {
    assert forall i | 1 <= i < 9 :: s[i] == s[1..9][i - 1];
  }

  /**
   * A character the pattern cannot match separates the matches: the
   * timestamps of a + [c] + b are those of a followed by those of b.
   */
  lemma {:induction false} ExtractSplit(a: string, c: char, b: string)
    requires !IsStampChar(c)
    ensures ExtractTimestamps(a + [c] + b) == ExtractTimestamps(a) + ExtractTimestamps(b)
    decreases |a|
  {
    var s := a + [c] + b;
    if |s| < 10 {
    } else if StampAtStart(s) {
      WindowIsStampChars(s);
      assert s[|a|] == c;
      assert s[..10] == a[..10];
      assert s[1..9] == a[1..9];
      assert StampAtStart(a);
      assert s[10..] == a[10..] + [c] + b;
      ExtractSplit(a[10..], c, b);
    } else if a == [] {
      assert s[1..] == b;
    } else {
      assert s[1..] == a[1..] + [c] + b;
      ExtractSplit(a[1..], c, b);
      if |a| >= 10 {
        assert a[..10] == s[..10];
        assert a[1..9] == s[1..9];
      }
    }
  }

  /** The timestamps of each line, in line order. */
  function StampsOfLines(lines: seq<string>): seq<string>
    decreases |lines|
  {
    if lines == [] then [] else ExtractTimestamps(lines[0]) + StampsOfLines(lines[1..])
  }

  /** Joining lines with newlines neither loses, adds nor reorders a timestamp. */
  lemma {:induction false} ExtractOfJoinedLines(lines: seq<string>)
    ensures ExtractTimestamps(Join(lines, "\n")) == StampsOfLines(lines)
    decreases |lines|
  {
    if |lines| == 1 {
      assert StampsOfLines(lines[1..]) == [];
    } else if |lines| > 1 {
      ExtractSplit(lines[0], '\n', Join(lines[1..], "\n"));
      ExtractOfJoinedLines(lines[1..]);
    }
  }

  lemma StampsOfLinesAppend(a: seq<string>, b: seq<string>)
    ensures StampsOfLines(a + b) == StampsOfLines(a) + StampsOfLines(b)
    decreases |a|
  {
    if a != [] {
      assert (a + b)[1..] == a[1..] + b;
      StampsOfLinesAppend(a[1..], b);
    } else {
      assert a + b == b;
    }
  }

  // ---------------------------------------------------------------------------
  // Block labels

  /** The "HH:MM" part of a timestamp, stamp[:5]. */
  function Minutes(stamp: string): string
    requires IsTimestamp(stamp)
  {
    stamp[..5]
  }

  /** time_range: "[" + first[:5] + " - " + last[:5] + "]" over the block's timestamps, or "[Unknown Time]". */
  function TimeRange(text: string): string {
    var stamps := ExtractTimestamps(text);
    if stamps == [] then "[Unknown Time]"
    else "[" + Minutes(stamps[0]) + " - " + Minutes(stamps[|stamps| - 1]) + "]"
  }

  /** A label with a range is fifteen characters "[dd:dd - dd:dd]", and "[Unknown Time]" exactly when there is no timestamp. */
  lemma TimeRangeShape(text: string)
    ensures var r := TimeRange(text);
      && (r == "[Unknown Time]" <==> ExtractTimestamps(text) == [])
      && (ExtractTimestamps(text) != [] ==>
            && |r| == 15 && r[0] == '[' && r[6..9] == " - " && r[14] == ']'
            && r[3] == ':' && r[11] == ':'
            && forall i | i in {1, 2, 4, 5, 9, 10, 12, 13} :: IsDigit(r[i]))
  {
    var stamps := ExtractTimestamps(text);
    if stamps != [] {
      RangeLabelShape(stamps[0], stamps[|stamps| - 1]);
    }
  }

  /** The label built from two timestamps: fifteen characters "[dd:dd - dd:dd]". */
  lemma RangeLabelShape(first: string, last: string)
    requires IsTimestamp(first) && IsTimestamp(last)
    ensures var r := "[" + Minutes(first) + " - " + Minutes(last) + "]";
      && |r| == 15 && r[0] == '[' && r[6..9] == " - " && r[14] == ']'
      && r[3] == ':' && r[11] == ':'
      && forall i | i in {1, 2, 4, 5, 9, 10, 12, 13} :: IsDigit(r[i])
  {
    var r := "[" + Minutes(first) + " - " + Minutes(last) + "]";
    assert r[1..6] == first[..5];
    assert r[9..14] == last[..5];
    forall i | i in {1, 2, 4, 5, 9, 10, 12, 13}
      ensures IsDigit(r[i])
    {
      if i < 6 {
        assert r[i] == r[1..6][i - 1] == first[i - 1];
      } else {
        assert r[i] == r[9..14][i - 9] == last[i - 9];
      }
    }
  }

  // ---------------------------------------------------------------------------
  // Transcript lines written by the live transcribers

  /** One transcript entry as it reads back line by line: "[" + ts + "] " + text. */
  function Entry(stamp: string, text: string): string {
    "[" + stamp + "] " + text
  }

  /** The line appended to transcript_full.txt: f"[{timestamp}] {text}\n". */
  function RawLine(stamp: string, text: string): string {
    Entry(stamp, text) + "\n"
  }

  /** The text appended to notes_logseq.md: f"\n## [{timestamp}] {text}". */
  function LogseqLine(stamp: string, text: string): string {
    "\n## " + Entry(stamp, text)
  }

  predicate NoBracket(s: string) {
    forall i | 0 <= i < |s| :: s[i] != '['
  }

  lemma {:induction false} NoBracketNoStamps(s: string)
    requires NoBracket(s)
    ensures ExtractTimestamps(s) == []
    decreases |s|
  {
    if |s| >= 10 {
      NoBracketNoStamps(s[1..]);
    }
  }

  /** An entry whose text holds no '[' yields exactly its own clock stamp. */
  lemma EntryStamps(stamp: string, text: string)
    requires IsTimestamp(stamp) && NoBracket(text)
    ensures ExtractTimestamps(Entry(stamp, text)) == [stamp]
    ensures ExtractTimestamps(LogseqLine(stamp, text)) == [stamp]
  {
    var e := Entry(stamp, text);
    assert e[1..9] == stamp;
    assert e[10..] == " " + text;
    NoBracketNoStamps(" " + text);
    var l := LogseqLine(stamp, text);
    assert l == "\n##" + [' '] + e;
    ExtractSplit("\n##", ' ', e);
  }

  /** The entries of a transcript, one per clock stamp and text. */
  function Entries(stamps: seq<string>, texts: seq<string>): (lines: seq<string>)
    requires |stamps| == |texts|
    ensures |lines| == |stamps|
    decreases |stamps|
  {
    if stamps == [] then [] else [Entry(stamps[0], texts[0])] + Entries(stamps[1..], texts[1..])
  }

  lemma {:induction false} EntriesStamps(stamps: seq<string>, texts: seq<string>)
    requires |stamps| == |texts|
    requires forall k | 0 <= k < |stamps| :: IsTimestamp(stamps[k])
    requires forall k | 0 <= k < |texts| :: NoBracket(texts[k])
    ensures StampsOfLines(Entries(stamps, texts)) == stamps
    decreases |stamps|
  {
    if stamps != [] {
      EntryStamps(stamps[0], texts[0]);
      EntriesStamps(stamps[1..], texts[1..]);
    }
  }

  /**
   * A block of transcript entries is labelled with the minutes of its
   * first and last entries' clock stamps.
   */
  lemma TimeRangeOfEntries(stamps: seq<string>, texts: seq<string>)
    requires |stamps| == |texts| >= 1
    requires forall k | 0 <= k < |stamps| :: IsTimestamp(stamps[k])
    requires forall k | 0 <= k < |texts| :: NoBracket(texts[k])
    ensures TimeRange(Join(Entries(stamps, texts), "\n"))
         == "[" + Minutes(stamps[0]) + " - " + Minutes(stamps[|stamps| - 1]) + "]"
  {
    ExtractOfJoinedLines(Entries(stamps, texts));
    EntriesStamps(stamps, texts);
  }

  /** The transcriber's clock stamp, strftime("%H:%M:%S"), is a timestamp the extractor finds. */
  lemma ClockStampIsTimestamp(t: TimeOfDay)
    ensures IsTimestamp(HmsText(t))
  {
    HmsTextShape(t);
  }
}
