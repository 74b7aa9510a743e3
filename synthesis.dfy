/**
 * The text side of meeting-notes synthesis: cutting a transcript into
 * blocks of about a thousand words labelled with their time range, the
 * 6000-word context handed to the summary model, the clean-up of the
 * title the model proposes and the name of the final notes file.
 * The model calls themselves are not part of this module: their answers
 * are parameters.
 */
module Synthesis {
  import opened Text
  import opened Decimal
  import opened Transcript

  /** words_per_block's default. */
  const WordsPerBlock: int := 1000

  /** One entry of the list split_into_blocks_with_timestamps returns. */
  datatype Block = Block(text: string, timeRange: string)

  // ---------------------------------------------------------------------------
  // Splitting the transcript into blocks

  /**
   * The groups of lines the block splitter closes, reading `lines` after a
   * still-open group `current` whose word count is `count`: a line joins
   * the open group, and the group closes as soon as its count reaches
   * `wordsPerBlock`; what is left open at the end is a final group.
   */
  function GroupFrom(lines: seq<string>, current: seq<string>, count: int, wordsPerBlock: int): seq<seq<string>>
    decreases |lines|
  {
    if lines == [] then
      (if current == [] then [] else [current])
    else
      var group := current + [lines[0]];
      var words := count + WordCount(lines[0]);
      if words >= wordsPerBlock then [group] + GroupFrom(lines[1..], [], 0, wordsPerBlock)
      else GroupFrom(lines[1..], group, words, wordsPerBlock)
  }

  function Groups(lines: seq<string>, wordsPerBlock: int): seq<seq<string>> {
    GroupFrom(lines, [], 0, wordsPerBlock)
  }

  function Flatten(groups: seq<seq<string>>): seq<string>
    decreases |groups|
  {
    if groups == [] then [] else groups[0] + Flatten(groups[1..])
  }

  /** A block of lines with the label time_range gives it. */
  function MakeBlock(group: seq<string>): Block {
    var text := Join(group, "\n");
    Block(text, TimeRange(text))
  }

  function BlocksOf(groups: seq<seq<string>>): seq<Block> {
    seq(|groups|, k requires 0 <= k < |groups| => MakeBlock(groups[k]))
  }

  function Texts(blocks: seq<Block>): seq<string> {
    seq(|blocks|, k requires 0 <= k < |blocks| => blocks[k].text)
  }

  /** The word count of every block but its last line stays below the bound: a block closes at the first line that reaches it. */
  predicate ClosesAtFirstReach(group: seq<string>, wordsPerBlock: int) {
    |group| == 1 || (|group| > 1 && LinesWordCount(group[..|group| - 1]) < wordsPerBlock)
  }

  lemma {:induction false} GroupFromFlatten(lines: seq<string>, current: seq<string>, count: int, wordsPerBlock: int)
    ensures Flatten(GroupFrom(lines, current, count, wordsPerBlock)) == current + lines
    decreases |lines|
  {
    if lines == [] {
      assert current + lines == current;
      if current != [] {
        assert Flatten([current]) == current + Flatten([]);
      }
    } else {
      var group := current + [lines[0]];
      var words := count + WordCount(lines[0]);
      assert group + lines[1..] == current + lines;
      if words >= wordsPerBlock {
        GroupFromFlatten(lines[1..], [], 0, wordsPerBlock);
        var rest := GroupFrom(lines[1..], [], 0, wordsPerBlock);
        assert ([group] + rest)[1..] == rest;
        assert [] + lines[1..] == lines[1..];
      } else {
        GroupFromFlatten(lines[1..], group, words, wordsPerBlock);
      }
    }
  }

  lemma {:induction false} GroupFromNonEmpty(lines: seq<string>, current: seq<string>, count: int, wordsPerBlock: int)
    ensures forall k | 0 <= k < |GroupFrom(lines, current, count, wordsPerBlock)| ::
              GroupFrom(lines, current, count, wordsPerBlock)[k] != []
    decreases |lines|
  {
    if lines != [] {
      var group := current + [lines[0]];
      var words := count + WordCount(lines[0]);
      if words >= wordsPerBlock {
        GroupFromNonEmpty(lines[1..], [], 0, wordsPerBlock);
      } else {
        GroupFromNonEmpty(lines[1..], group, words, wordsPerBlock);
      }
    }
  }

  lemma LinesWordCountPrefix(lines: seq<string>)
    requires lines != []
    ensures LinesWordCount(lines[..|lines| - 1]) <= LinesWordCount(lines)
  {
    assert lines == lines[..|lines| - 1] + [lines[|lines| - 1]];
    LinesWordCountAppend(lines[..|lines| - 1], [lines[|lines| - 1]]);
  }

  /** Every group closes at the first line that reaches the bound, and every group but the last reaches it. */
  predicate WellCut(groups: seq<seq<string>>, wordsPerBlock: int) {
    && (forall k | 0 <= k < |groups| :: ClosesAtFirstReach(groups[k], wordsPerBlock))
    && (forall k | 0 <= k < |groups| - 1 :: LinesWordCount(groups[k]) >= wordsPerBlock)
  }

  lemma WellCutCons(group: seq<string>, rest: seq<seq<string>>, wordsPerBlock: int)
    requires ClosesAtFirstReach(group, wordsPerBlock) && LinesWordCount(group) >= wordsPerBlock
    requires WellCut(rest, wordsPerBlock)
    ensures WellCut([group] + rest, wordsPerBlock)
  {
    var groups := [group] + rest;
    assert forall k | 1 <= k < |groups| :: groups[k] == rest[k - 1];
  }

  lemma {:induction false} GroupFromWordBounds(lines: seq<string>, current: seq<string>, count: int, wordsPerBlock: int)
    requires count == LinesWordCount(current)
    requires current != [] ==> count < wordsPerBlock
    ensures WellCut(GroupFrom(lines, current, count, wordsPerBlock), wordsPerBlock)
    decreases |lines|
  {
    if lines == [] {
      if current != [] {
        LinesWordCountPrefix(current);
        assert GroupFrom(lines, current, count, wordsPerBlock) == [current];
      }
    } else {
      var group := current + [lines[0]];
      var words := count + WordCount(lines[0]);
      LinesWordCountAppend(current, [lines[0]]);
      assert LinesWordCount(group) == words;
      assert group[..|group| - 1] == current;
      assert ClosesAtFirstReach(group, wordsPerBlock);
      if words >= wordsPerBlock {
        GroupFromWordBounds(lines[1..], [], 0, wordsPerBlock);
        WellCutCons(group, GroupFrom(lines[1..], [], 0, wordsPerBlock), wordsPerBlock);
      } else {
        GroupFromWordBounds(lines[1..], group, words, wordsPerBlock);
      }
    }
  }

  lemma {:induction false} JoinFlatten(groups: seq<seq<string>>, sep: string)
    requires |groups| >= 1
    requires forall k | 0 <= k < |groups| :: groups[k] != []
    ensures Join(Flatten(groups), sep) == Join(Texts(BlocksWith(groups, sep)), sep)
    decreases |groups|
  {
    if |groups| == 1 {
      assert Flatten(groups) == groups[0] + Flatten(groups[1..]);
      assert Flatten(groups[1..]) == [];
      assert Flatten(groups) == groups[0];
      assert Texts(BlocksWith(groups, sep)) == [Join(groups[0], sep)];
    } else {
      var rest := groups[1..];
      JoinFlatten(rest, sep);
      FlattenNonEmpty(rest);
      JoinAppend(groups[0], Flatten(rest), sep);
      assert Texts(BlocksWith(groups, sep))[1..] == Texts(BlocksWith(rest, sep));
    }
  }

  /** Groups joined with an arbitrary separator, for the induction in JoinFlatten. */
  function BlocksWith(groups: seq<seq<string>>, sep: string): seq<Block> {
    seq(|groups|, k requires 0 <= k < |groups| => Block(Join(groups[k], sep), ""))
  }

  lemma {:induction false} FlattenNonEmpty(groups: seq<seq<string>>)
    requires |groups| >= 1 && groups[0] != []
    ensures |Flatten(groups)| >= 1
  {
  }

  /**
   * split_into_blocks_with_timestamps: text.split('\n') read line by line,
   * a block closed whenever its word count reaches words_per_block and the
   * remaining lines, if any, as a final block; each block is labelled with
   * the time range of its own timestamps.
   */
  method SplitIntoBlocks(text: string, wordsPerBlock: int) returns (blocks: seq<Block>)
    ensures blocks == BlocksOf(Groups(SplitOn(text, '\n'), wordsPerBlock))
    ensures |blocks| >= 1
    ensures Join(Texts(blocks), "\n") == text
    ensures forall k | 0 <= k < |blocks| :: blocks[k].timeRange == TimeRange(blocks[k].text)
    ensures forall k | 0 <= k < |blocks| - 1 :: WordCount(blocks[k].text) >= wordsPerBlock
  {
    blocks := BlockLines(SplitOn(text, '\n'), wordsPerBlock);
    BlocksProperties(text, wordsPerBlock);
  }

  /** The loop of split_into_blocks_with_timestamps: it builds exactly the blocks of the functional grouping. */
  method BlockLines(lines: seq<string>, wordsPerBlock: int) returns (blocks: seq<Block>)
    ensures blocks == BlocksOf(Groups(lines, wordsPerBlock))
  {
    ghost var groups: seq<seq<string>> := [];
    blocks := [];
    var current: seq<string> := [];
    var currentWords := 0;
    for k := 0 to |lines|
      invariant groups + GroupFrom(lines[k..], current, currentWords, wordsPerBlock) == Groups(lines, wordsPerBlock)
      invariant blocks == BlocksOf(groups)
    {
      assert lines[k..][0] == lines[k] && lines[k..][1..] == lines[k + 1..];
      current := current + [lines[k]];
      currentWords := currentWords + WordCount(lines[k]);
      if currentWords >= wordsPerBlock {
        BlocksOfSnoc(groups, current);
        groups := groups + [current];
        blocks := blocks + [MakeBlock(current)];
        current := [];
        currentWords := 0;
      }
    }
    assert lines[|lines|..] == [];
    if current != [] {
      BlocksOfSnoc(groups, current);
      groups := groups + [current];
      blocks := blocks + [MakeBlock(current)];
    } else {
      assert groups + [] == groups;
    }
  }

  lemma BlocksOfSnoc(groups: seq<seq<string>>, group: seq<string>)
    ensures BlocksOf(groups + [group]) == BlocksOf(groups) + [MakeBlock(group)]
  {
  }

  /** What the block split promises about its result, for any text and bound. */
  lemma BlocksProperties(text: string, wordsPerBlock: int)
    ensures var blocks := BlocksOf(Groups(SplitOn(text, '\n'), wordsPerBlock));
      && |blocks| >= 1
      && Join(Texts(blocks), "\n") == text
      && (forall k | 0 <= k < |blocks| - 1 :: WordCount(blocks[k].text) >= wordsPerBlock)
  {
    var lines := SplitOn(text, '\n');
    var groups := Groups(lines, wordsPerBlock);
    var blocks := BlocksOf(groups);
    GroupFromFlatten(lines, [], 0, wordsPerBlock);
    assert [] + lines == lines;
    GroupFromNonEmpty(lines, [], 0, wordsPerBlock);
    GroupFromWordBounds(lines, [], 0, wordsPerBlock);
    assert |groups| >= 1;
    JoinFlatten(groups, "\n");
    assert Texts(BlocksWith(groups, "\n")) == Texts(blocks);
    JoinSplitOn(text, '\n');
    forall k | 0 <= k < |blocks| - 1
      ensures WordCount(blocks[k].text) >= wordsPerBlock
    {
      WordCountOfJoinedLines(groups[k]);
    }
  }

  /** A block closes at the first line that brings it to the bound: without its last line it has fewer words. */
  lemma BlocksCloseAtFirstReach(text: string, wordsPerBlock: int)
    ensures var groups := Groups(SplitOn(text, '\n'), wordsPerBlock);
      forall k | 0 <= k < |groups| ::
        && groups[k] != []
        && (|groups[k]| == 1 || WordCount(Join(groups[k][..|groups[k]| - 1], "\n")) < wordsPerBlock)
  {
    var groups := Groups(SplitOn(text, '\n'), wordsPerBlock);
    GroupFromNonEmpty(SplitOn(text, '\n'), [], 0, wordsPerBlock);
    GroupFromWordBounds(SplitOn(text, '\n'), [], 0, wordsPerBlock);
    forall k | 0 <= k < |groups| && |groups[k]| > 1
      ensures WordCount(Join(groups[k][..|groups[k]| - 1], "\n")) < wordsPerBlock
    {
      assert ClosesAtFirstReach(groups[k], wordsPerBlock);
      WordCountOfJoinedLines(groups[k][..|groups[k]| - 1]);
    }
  }

  /** No timestamp is lost or invented by the split: the blocks' timestamps, in order, are the transcript's. */
  lemma BlocksKeepTimestamps(text: string, wordsPerBlock: int)
    ensures StampsOfLines(Texts(BlocksOf(Groups(SplitOn(text, '\n'), wordsPerBlock)))) == ExtractTimestamps(text)
  {
    BlocksProperties(text, wordsPerBlock);
    ExtractOfJoinedLines(Texts(BlocksOf(Groups(SplitOn(text, '\n'), wordsPerBlock))));
  }

  // ---------------------------------------------------------------------------
  // The summary context

  /** Above this many words the summary model sees only the first ones. */
  const MaxContextWords: nat := 6000

  /** What follows the kept words: "\n\n[... transcript continues ...]". */
  const ContinuationMarker: string := "\n\n" + MarkerText

  const MarkerText: string := "[... transcript continues ...]"

  /** The context generate_summary sends: the transcript, or its first 6000 words joined by spaces and a continuation marker. */
  function SummaryContext(transcript: string): string {
    var words := Words(transcript);
    if |words| > MaxContextWords then Join(words[..MaxContextWords], " ") + ContinuationMarker
    else transcript
  }

  /** The words of the marker text. */
  const MarkerWordList: seq<string> := ["[...", "transcript", "continues", "...]"]

  lemma MarkerJoin()
    ensures Join(MarkerWordList, " ") == MarkerText
  {
    var ws := MarkerWordList;
    assert ws[1..] == ["transcript", "continues", "...]"];
    JoinThree("transcript", "continues", "...]", " ");
    assert Join(ws, " ") == "[..." + " " + Join(ws[1..], " ");
  }

  lemma MarkerWords()
    ensures Words(MarkerText) == MarkerWordList
  {
    var ws := MarkerWordList;
    assert IsWord(ws[0]) && IsWord(ws[1]) && IsWord(ws[2]) && IsWord(ws[3]);
    MarkerJoin();
    WordsOfJoinedWords(ws);
  }

  /**
   * The summary model reads the whole transcript's words when there are at
   * most 6000 of them, and otherwise exactly the first 6000 followed by the
   * marker's four words.
   */
  lemma SummaryContextWords(transcript: string)
    ensures var words := Words(transcript);
      Words(SummaryContext(transcript))
        == if |words| > MaxContextWords then words[..MaxContextWords] + MarkerWordList
           else words
  {
    var words := Words(transcript);
    if |words| > MaxContextWords {
      var kept := words[..MaxContextWords];
      WordsAreWords(transcript);
      assert AllWords(kept);
      WordsOfJoinedWords(kept);
      MarkerContextWords(Join(kept, " "));
    }
  }

  /** The marker adds exactly its four words to whatever precedes it. */
  lemma MarkerContextWords(joined: string)
    ensures Words(joined + ContinuationMarker) == Words(joined) + MarkerWordList
  {
    assert joined + ContinuationMarker == joined + "\n\n" + MarkerText;
    WordsAcrossNewlines(joined, MarkerText);
    MarkerWords();
  }

  // ---------------------------------------------------------------------------
  // Whether there is anything to synthesize

  /** run() stops early when transcript.strip() is empty, which is exactly when the transcript has no word. */
  lemma NothingToSynthesize(transcript: string)
    ensures Strip(transcript) == [] <==> Words(transcript) == []
  {
    WordsFromEmpty(transcript, []);
    var (i, j) := StripRange(transcript);
    StripSlice(transcript);
    if Strip(transcript) != [] {
      assert !IsSpace(transcript[i]);
    }
  }

  // ---------------------------------------------------------------------------
  // The meeting title

  /** \w as an ASCII class: letters, digits and the underscore. */
  predicate IsWordChar(c: char) {
    ('a' <= c <= 'z') || ('A' <= c <= 'Z') || ('0' <= c <= '9') || c == '_'
  }

  /** A character [^\w\s-] does not remove. */
  predicate IsTitleChar(c: char) {
    IsWordChar(c) || IsSpace(c) || c == '-'
  }

  /** A character a cleaned title may hold: safe in a file name. */
  predicate IsSafeChar(c: char) {
    IsWordChar(c) || c == '-'
  }

  predicate IsSafeTitle(t: string) {
    forall i | 0 <= i < |t| :: IsSafeChar(t[i])
  }

  /** re.sub(r'[^\w\s-]', '', s) */
  function KeepTitleChars(s: string): (r: string)
    ensures forall i | 0 <= i < |r| :: IsTitleChar(r[i])
    decreases |s|
  {
    if s == [] then []
    else if IsTitleChar(s[0]) then [s[0]] + KeepTitleChars(s[1..])
    else KeepTitleChars(s[1..])
  }

  /** re.sub(r'\s+', '_', s): each run of whitespace becomes one underscore. */
  function CollapseSpaces(s: string): (r: string)
    ensures NoSpace(r)
    ensures (forall i | 0 <= i < |s| :: IsTitleChar(s[i])) ==> IsSafeTitle(r)
    decreases |s|
  {
    if s == [] then []
    else if IsSpace(s[0]) then "_" + CollapseSpaces(s[LeadingSpaces(s)..])
    else [s[0]] + CollapseSpaces(s[1..])
  }

  const FallbackTitle: string := "Meeting_Notes"

  const MaxTitleLength: nat := 50

  /** generate_meeting_title's clean-up of the model's answer: strip, drop unsafe characters, underscores for whitespace, at most 50 characters, "Meeting_Notes" when nothing is left. */
  function CleanTitle(answer: string): (title: string)
    ensures 0 < |title| <= MaxTitleLength
    ensures IsSafeTitle(title)
  {
    var t := CollapseSpaces(KeepTitleChars(Strip(answer)));
    var cut := if |t| > MaxTitleLength then t[..MaxTitleLength] else t;
    if cut == [] then FallbackTitle else cut
  }

  lemma {:induction false} KeepTitleCharsOfSafe(t: string)
    requires IsSafeTitle(t)
    ensures KeepTitleChars(t) == t
    decreases |t|
  {
    if t != [] {
      KeepTitleCharsOfSafe(t[1..]);
      assert t == [t[0]] + t[1..];
    }
  }

  lemma {:induction false} CollapseSpacesOfNoSpace(t: string)
    requires NoSpace(t)
    ensures CollapseSpaces(t) == t
    decreases |t|
  {
    if t != [] {
      CollapseSpacesOfNoSpace(t[1..]);
      assert t == [t[0]] + t[1..];
    }
  }

  /** A title that is already safe, non-empty and at most 50 characters long passes the clean-up unchanged. */
  lemma CleanTitleKeepsSafe(t: string)
    requires 0 < |t| <= MaxTitleLength && IsSafeTitle(t)
    ensures CleanTitle(t) == t
  {
    SafeTitleHasNoSpace(t);
    StripUnpadded(t);
    KeepTitleCharsOfSafe(t);
    CollapseSpacesOfNoSpace(t);
  }

  /** A safe title holds no whitespace. */
  lemma SafeTitleHasNoSpace(t: string)
    requires IsSafeTitle(t)
    ensures NoSpace(t)
    ensures t == [] || (!IsSpace(t[0]) && !IsSpace(t[|t| - 1]))
  {
  }

  /** Cleaning a cleaned title changes nothing. */
  lemma CleanTitleIdempotent(answer: string)
    ensures CleanTitle(CleanTitle(answer)) == CleanTitle(answer)
  {
    CleanTitleKeepsSafe(CleanTitle(answer));
  }

  /** The fallback is used exactly when the model's answer has no character the clean-up keeps. */
  lemma {:induction false} CleanTitleFallback(answer: string)
    ensures KeepTitleChars(Strip(answer)) == [] ==> CleanTitle(answer) == FallbackTitle
    ensures KeepTitleChars(Strip(answer)) != [] ==> CleanTitle(answer) != [] && CleanTitle(answer)[0] == CollapseSpaces(KeepTitleChars(Strip(answer)))[0]
  {
    var kept := KeepTitleChars(Strip(answer));
    if kept != [] {
      assert |CollapseSpaces(kept)| > 0;
    }
  }

  // ---------------------------------------------------------------------------
  // The final notes file name

  /** The session directory name, strftime("%Y-%m-%d_%H-%M-%S"). */
  function SessionId(year: nat, month: nat, day: nat, hour: nat, minute: nat, second: nat): string {
    DateText(year, month, day) + "_" + ZeroPad(hour, 2) + "-" + ZeroPad(minute, 2) + "-" + ZeroPad(second, 2)
  }

  function DateText(year: nat, month: nat, day: nat): string {
    ZeroPad(year, 4) + "-" + ZeroPad(month, 2) + "-" + ZeroPad(day, 2)
  }

  /** f"{date_prefix}_{title}.md" with date_prefix = basename(session_dir).split('_')[0]. */
  function NotesFileName(sessionName: string, title: string): string {
    SplitOn(sessionName, '_')[0] + "_" + title + ".md"
  }

  /** A date written with digits and dashes has no '_'. */
  lemma DateTextFree(year: nat, month: nat, day: nat)
    ensures Free(DateText(year, month, day), '_')
  {
    ZeroPadRoundTrip(year, 4);
    ZeroPadRoundTrip(month, 2);
    ZeroPadRoundTrip(day, 2);
  }

  /** The notes file of a session named date_time is date_title.md, for any title. */
  lemma NotesFileNameOfSession(year: nat, month: nat, day: nat, hour: nat, minute: nat, second: nat, title: string)
    ensures NotesFileName(SessionId(year, month, day, hour, minute, second), title)
         == DateText(year, month, day) + "_" + title + ".md"
  {
    var date := DateText(year, month, day);
    var time := ZeroPad(hour, 2) + "-" + ZeroPad(minute, 2) + "-" + ZeroPad(second, 2);
    assert SessionId(year, month, day, hour, minute, second) == date + ['_'] + time;
    DateTextFree(year, month, day);
    SplitOnFirst(date, time, '_');
  }
}
