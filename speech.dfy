/**
 * What both live transcribers do with the speech model's answer: join the
 * segments' texts, strip the result and, when anything is left, append a
 * clock-stamped line to the raw transcript and a heading to the Logseq
 * notes.
 */
module Speech {
  import opened Text
  import opened Transcript

  /** The speech model's answer: it raised, or it produced segments with these texts. */
  datatype Reply = Failed | Segments(texts: seq<string>)

  /** The two transcript files of a session, as the text they hold. */
  datatype Logs = Logs(raw: string, logseq: string)

  /** Whether each of the two appends succeeds. */
  datatype Appends = Appends(rawOk: bool, logseqOk: bool)

  /** text_accumulated after the loop: every segment's text followed by one space. */
  function Accumulate(texts: seq<string>): string
    decreases |texts|
  {
    if texts == [] then "" else Accumulate(texts[..|texts| - 1]) + texts[|texts| - 1] + " "
  }

  /** The words of all segments, in order. */
  function WordsOfAll(texts: seq<string>): seq<string>
    decreases |texts|
  {
    if texts == [] then [] else WordsOfAll(texts[..|texts| - 1]) + Words(texts[|texts| - 1])
  }

  /** The text a transcriber writes for one chunk: the accumulated segments, stripped. */
  function SegmentText(texts: seq<string>): (text: string)
    ensures text == [] || (!IsSpace(text[0]) && !IsSpace(text[|text| - 1]))
  {
    Strip(Accumulate(texts))
  }

  /** The segment loop of transcribe_buffer. */
  method AccumulateSegments(texts: seq<string>) returns (text: string)
    ensures text == Accumulate(texts)
  {
    text := "";
    for k := 0 to |texts|
      invariant text == Accumulate(texts[..k])
    {
      assert texts[..k + 1][..k] == texts[..k];
      text := text + texts[k] + " ";
    }
    assert texts[..|texts|] == texts;
  }

  lemma {:induction false} AccumulateAppend(texts: seq<string>, x: string)
    ensures Words(Accumulate(texts) + x) == WordsOfAll(texts) + Words(x)
    decreases |texts|
  {
    if texts == [] {
      assert Accumulate(texts) + x == x;
    } else {
      var init := texts[..|texts| - 1];
      var p := Accumulate(init) + texts[|texts| - 1];
      AccumulateAppend(init, texts[|texts| - 1]);
      assert Accumulate(texts) + x == p + [' '] + x;
      WordsSplit(p, ' ', x);
    }
  }

  /** The accumulated text holds exactly the segments' words, in order. */
  lemma {:induction false} WordsOfAccumulate(texts: seq<string>)
    ensures Words(Accumulate(texts)) == WordsOfAll(texts)
  {
    AccumulateAppend(texts, "");
    assert Accumulate(texts) + "" == Accumulate(texts);
  }

  /** The line a transcriber writes carries the segments' words unchanged and in order, and is empty exactly when they have none. */
  lemma SegmentTextWords(texts: seq<string>)
    ensures Words(SegmentText(texts)) == WordsOfAll(texts)
    ensures SegmentText(texts) == [] <==> WordsOfAll(texts) == []
  {
    WordsOfAccumulate(texts);
    WordsOfStrip(Accumulate(texts));
    var t := SegmentText(texts);
    if t != [] {
      assert Words(t) != [] by {
        WordsFromEmpty(t, []);
      }
    }
  }

  /**
   * The writes after a successful transcription: nothing when the model
   * raised or the text is empty; otherwise the raw line, then the Logseq
   * heading, each append aborting the rest when it fails.
   */
  function Record(logs: Logs, reply: Reply, stamp: string, appends: Appends): Logs {
    match reply
    case Failed => logs
    case Segments(texts) =>
      var text := SegmentText(texts);
      if text == [] || !appends.rawOk then logs
      else if !appends.logseqOk then logs.(raw := logs.raw + RawLine(stamp, text))
      else Logs(logs.raw + RawLine(stamp, text), logs.logseq + LogseqLine(stamp, text))
  }

  /** The raw transcript stays a sequence of complete lines. */
  predicate LineComplete(raw: string) {
    raw == [] || raw[|raw| - 1] == '\n'
  }

  /** Appending a raw line to complete lines adds exactly its stamp to the timestamps the synthesizer reads. */
  lemma AppendLineStamps(raw: string, stamp: string, text: string)
    requires LineComplete(raw) && IsTimestamp(stamp) && NoBracket(text)
    ensures LineComplete(raw + RawLine(stamp, text))
    ensures ExtractTimestamps(raw + RawLine(stamp, text)) == ExtractTimestamps(raw) + [stamp]
  {
    var line := RawLine(stamp, text);
    EntryStamps(stamp, text);
    assert line == Entry(stamp, text) + ['\n'] + [];
    ExtractSplit(Entry(stamp, text), '\n', []);
    if raw == [] {
      assert raw + line == line;
    } else {
      var front := raw[..|raw| - 1];
      assert raw == front + ['\n'] + [];
      assert raw + line == front + ['\n'] + line;
      ExtractSplit(front, '\n', []);
      ExtractSplit(front, '\n', line);
    }
  }

  /** Recording keeps the raw transcript made of whole lines and adds this chunk's stamp, and only it, to what the synthesizer reads from it exactly when it writes a line. */
  lemma RecordStamps(logs: Logs, reply: Reply, stamp: string, appends: Appends)
    requires LineComplete(logs.raw)
    requires IsTimestamp(stamp)
    requires reply.Segments? ==> NoBracket(SegmentText(reply.texts))
    ensures LineComplete(Record(logs, reply, stamp, appends).raw)
    ensures var raw := Record(logs, reply, stamp, appends).raw;
      ExtractTimestamps(raw) == ExtractTimestamps(logs.raw) + (if raw == logs.raw then [] else [stamp])
  {
    var after := Record(logs, reply, stamp, appends);
    if after.raw == logs.raw {
      assert ExtractTimestamps(logs.raw) + [] == ExtractTimestamps(logs.raw);
    } else {
      AppendLineStamps(logs.raw, stamp, SegmentText(reply.texts));
    }
  }
}
