/**
 * The live transcriber's segmentation, as functions of its state: queued
 * audio is drained into a buffer; the buffer is cut once it is at least
 * min_duration long and either reaches max_duration or ends in a quiet
 * stretch; a cut buffer is either dropped as the meeting's silent end
 * (auto-stop) or saved as chunk_NNNN.wav and handed to the speech model,
 * whose text is appended to the transcript files.
 */
module Segmentation {
  import opened Wrappers
  import opened Text
  import opened Decimal
  import opened Clock
  import opened Transcript
  import opened Speech
  import Config

  /** A positive sample rate in samples per second. */
  type Rate = r: int | r > 0 witness 1

  /** One item of the recorder's queue: mono samples, or frames of channel samples that flatten() lays out frame by frame. */
  datatype Chunk = Mono(samples: seq<real>) | Frames(frames: seq<seq<real>>)

  function Concat(frames: seq<seq<real>>): seq<real>
    decreases |frames|
  {
    if frames == [] then [] else frames[0] + Concat(frames[1..])
  }

  /** The samples a queue item adds to the buffer. */
  function Flat(c: Chunk): seq<real> {
    match c
    case Mono(samples) => samples
    case Frames(frames) => Concat(frames)
  }

  function FlattenAll(items: seq<Chunk>): seq<real>
    decreases |items|
  {
    if items == [] then [] else Flat(items[0]) + FlattenAll(items[1..])
  }

  // ---------------------------------------------------------------------------
  // Settings

  /** The segmentation settings, in seconds, amplitudes and chunk counts. */
  datatype Vad = Vad(
    minDuration: real,
    maxDuration: real,
    silenceThreshold: real,
    silenceDuration: real,
    silenceChunkThreshold: real,
    maxSilentChunks: real)

  /** The fallbacks of the vad_config.get calls. */
  const DefaultVad: Vad := Vad(60.0, 90.0, 0.01, 0.5, 0.005, 1.0)

  /** A setting as the comparisons use it: ints, floats and booleans are numbers. */
  function AsNumber(v: Config.Value): Option<real> {
    match v
    case Int(i) => Some(i as real)
    case Real(r) => Some(r)
    case Bool(b) => Some(if b then 1.0 else 0.0)
    case _ => None
  }

  /** vad_config.get(key, fallback) with vad_config = config.get("transcription", {}). */
  function Setting(config: Config.Settings, key: string, fallback: real): Option<real> {
    match Config.GetValue(config, "transcription", key, Config.Real(fallback))
    case Ok(v) => AsNumber(v)
    case Err(_) => None
  }

  /** The settings the transcriber reads; None when one of them is not a number. */
  function VadFromConfig(config: Config.Settings): Option<Vad> {
    var minD := Setting(config, "min_duration", 60.0);
    var maxD := Setting(config, "max_duration", 90.0);
    var thr := Setting(config, "silence_threshold", 0.01);
    var dur := Setting(config, "silence_duration", 0.5);
    var chunkThr := Setting(config, "silence_chunk_threshold", 0.005);
    var maxSilent := Setting(config, "max_silent_chunks", 1.0);
    if minD.Some? && maxD.Some? && thr.Some? && dur.Some? && chunkThr.Some? && maxSilent.Some? then
      Some(Vad(minD.value, maxD.value, thr.value, dur.value, chunkThr.value, maxSilent.value))
    else
      None
  }

  /** Without a settings file the transcriber runs on exactly its built-in fallbacks: the default configuration and the get fallbacks agree. */
  lemma DefaultSettingsAgree()
    ensures VadFromConfig(Config.Load(Config.Missing)) == Some(DefaultVad)
  {
    var config := Config.DefaultConfig();
    var t := Config.TranscriptionDefaults();
    assert config["transcription"] == Config.Dict(t);
    assert Setting(config, "min_duration", 60.0) == Some(60.0);
    assert Setting(config, "max_duration", 90.0) == Some(90.0);
    assert Setting(config, "silence_threshold", 0.01) == Some(0.01);
    assert Setting(config, "silence_duration", 0.5) == Some(0.5);
    assert Setting(config, "silence_chunk_threshold", 0.005) == Some(0.005);
    assert Setting(config, "max_silent_chunks", 1.0) == Some(1.0);
  }

  // ---------------------------------------------------------------------------
  // Amplitudes and the cut rule

  function Abs(x: real): real {
    if x < 0.0 then -x else x
  }

  /** np.max(np.abs(xs)) */
  function Peak(xs: seq<real>): (m: real)
    requires xs != []
    ensures forall i | 0 <= i < |xs| :: Abs(xs[i]) <= m
    ensures exists i | 0 <= i < |xs| :: Abs(xs[i]) == m
    decreases |xs|
  {
    if |xs| == 1 then Abs(xs[0])
    else
      var rest := Peak(xs[1..]);
      assert forall i | 1 <= i < |xs| :: xs[i] == xs[1..][i - 1];
      if Abs(xs[0]) > rest then Abs(xs[0]) else rest
  }

  predicate AllBelow(xs: seq<real>, threshold: real) {
    forall i | 0 <= i < |xs| :: Abs(xs[i]) < threshold
  }

  /** The peak is below a threshold exactly when every sample is. */
  lemma PeakBelow(xs: seq<real>, threshold: real)
    requires xs != []
    ensures Peak(xs) < threshold <==> AllBelow(xs, threshold)
  {
  }

  /** int(x): truncation toward zero. */
  function Trunc(x: real): int {
    if x >= 0.0 then x.Floor else -((-x).Floor)
  }

  /** buffer[-n:] with Python's slice rules: the last n samples, the whole buffer when n is 0 or too large, and buffer[|n|:] when n is negative. */
  function Tail(buffer: seq<real>, n: int): seq<real> {
    if n <= 0 then (if -n <= |buffer| then buffer[-n..] else [])
    else if n >= |buffer| then buffer
    else buffer[|buffer| - n..]
  }

  function Duration(buffer: seq<real>, rate: Rate): real {
    |buffer| as real / rate as real
  }

  /** The number of samples the quiet-stretch test looks at: int(silence_duration * rate). */
  function WindowSize(rate: Rate, vad: Vad): int {
    Trunc(vad.silenceDuration * rate as real)
  }

  /** The buffer is long enough for the window and the window's peak is below silence_threshold (an empty window makes np.max raise, which the loop swallows). */
  predicate QuietEnding(buffer: seq<real>, rate: Rate, vad: Vad) {
    var n := WindowSize(rate, vad);
    |buffer| >= n && Tail(buffer, n) != [] && Peak(Tail(buffer, n)) < vad.silenceThreshold
  }

  /** process_audio's decision to transcribe the buffer. */
  predicate ShouldCut(buffer: seq<real>, rate: Rate, vad: Vad) {
    var d := Duration(buffer, rate);
    d >= vad.minDuration && (d >= vad.maxDuration || QuietEnding(buffer, rate, vad))
  }

  /**
   * The cut rule sample by sample: never before min_duration; always from
   * max_duration on; in between exactly when the last
   * int(silence_duration * rate) samples are all below silence_threshold.
   */
  lemma CutRule(buffer: seq<real>, rate: Rate, vad: Vad)
    ensures var d := Duration(buffer, rate);
      var n := WindowSize(rate, vad);
      (ShouldCut(buffer, rate, vad) <==>
           d >= vad.minDuration
             && (d >= vad.maxDuration
                 || (n <= |buffer| && Tail(buffer, n) != [] && AllBelow(Tail(buffer, n), vad.silenceThreshold))))
  {
    var n := WindowSize(rate, vad);
    if Tail(buffer, n) != [] {
      PeakBelow(Tail(buffer, n), vad.silenceThreshold);
    }
  }

  /** The window is the last n samples for a positive n the buffer can hold, and the whole buffer when n is 0. */
  lemma TailWindow(buffer: seq<real>, n: int)
    ensures 0 < n <= |buffer| ==> Tail(buffer, n) == buffer[|buffer| - n..] && |Tail(buffer, n)| == n
    ensures n == 0 ==> Tail(buffer, n) == buffer
  {
  }

  /** int() truncates toward zero: never further from zero than its argument, and less than one away. */
  lemma TruncBounds(x: real)
    ensures x >= 0.0 ==> 0 <= Trunc(x) && Trunc(x) as real <= x < Trunc(x) as real + 1.0
    ensures x < 0.0 ==> Trunc(x) <= 0 && Trunc(x) as real - 1.0 < x <= Trunc(x) as real
  {
  }

  // ---------------------------------------------------------------------------
  // The jargon prompt

  /** jargon.txt: absent, unreadable, or its text. */
  datatype JargonFile = NoJargon | Unreadable | JargonText(text: string)

  /**
   * The lines of jargon.txt, with every '\r' read as a line end. readlines()
   * in text mode takes "\r\n" as one break where this gives an extra empty
   * line; Terms drops empty lines, so the terms are the same.
   */
  function Lines(text: string): seq<string> {
    SplitOn(seq(|text|, i requires 0 <= i < |text| => if text[i] == '\r' then '\n' else text[i]), '\n')
  }

  /** A stripped line that counts as a term: not empty, not a comment. */
  predicate IsTerm(line: string) {
    line != [] && line[0] != '#'
  }

  /** The stripped lines that are terms, in file order. */
  function Terms(lines: seq<string>): (terms: seq<string>)
    ensures forall k | 0 <= k < |terms| :: IsTerm(terms[k]) && Strip(terms[k]) == terms[k]
    decreases |lines|
  {
    if lines == [] then []
    else
      var line := Strip(lines[0]);
      StripUnpadded(line);
      if IsTerm(line) then [line] + Terms(lines[1..]) else Terms(lines[1..])
  }

  /** A term is kept exactly when some line strips to it. */
  lemma {:induction false} TermsExact(lines: seq<string>, term: string)
    ensures term in Terms(lines) <==> IsTerm(term) && exists k | 0 <= k < |lines| :: Strip(lines[k]) == term
    decreases |lines|
  {
    if lines != [] {
      TermsExact(lines[1..], term);
      if exists k | 0 <= k < |lines[1..]| :: Strip(lines[1..][k]) == term {
        var k :| 0 <= k < |lines[1..]| && Strip(lines[1..][k]) == term;
        assert Strip(lines[k + 1]) == term;
      }
      if exists k | 0 <= k < |lines| :: Strip(lines[k]) == term {
        var k :| 0 <= k < |lines| && Strip(lines[k]) == term;
        if k > 0 {
          assert Strip(lines[1..][k - 1]) == term;
        }
      }
    }
  }

  const VocabularyPrefix: string := "Context: Business meeting. Custom Vocabulary: "

  const FallbackPrompt: string := "Meeting transcript."

  /** load_jargon: "" without a file, on a read error or without terms. */
  function LoadJargon(file: JargonFile): string {
    match file
    case NoJargon => ""
    case Unreadable => ""
    case JargonText(text) =>
      var terms := Terms(Lines(text));
      if terms == [] then "" else VocabularyPrefix + Join(terms, ", ") + "."
  }

  /** The initial_prompt handed to the speech model. */
  function InitialPrompt(file: JargonFile): string {
    var jargon := LoadJargon(file);
    if jargon == [] then FallbackPrompt else jargon
  }

  /** The model falls back to "Meeting transcript." exactly when the file yields no term; otherwise it reads the vocabulary sentence listing the terms. */
  lemma PromptCases(file: JargonFile)
    ensures var noTerms := !file.JargonText? || Terms(Lines(file.text)) == [];
      && (noTerms ==> InitialPrompt(file) == FallbackPrompt)
      && (!noTerms ==> InitialPrompt(file) == VocabularyPrefix + Join(Terms(Lines(file.text)), ", ") + ".")
      && (InitialPrompt(file) == FallbackPrompt <==> noTerms)
  {
    if file.JargonText? && Terms(Lines(file.text)) != [] {
      var rest := Join(Terms(Lines(file.text)), ", ") + ".";
      var p := VocabularyPrefix + rest;
      assert |p| > |FallbackPrompt|;
      assert InitialPrompt(file) == p;
    }
  }

  // ---------------------------------------------------------------------------
  // Chunk files

  /** f"chunk_{n:04d}.wav" */
  function ChunkName(n: nat): string {
    "chunk_" + ZeroPad(n, 4) + ".wav"
  }

  /** Different chunk numbers never share a file name, however large they grow. */
  lemma ChunkNameInjective(n: nat, m: nat)
    requires ChunkName(n) == ChunkName(m)
    ensures n == m
  {
    var a, b := ChunkName(n), ChunkName(m);
    assert a[6..|a| - 4] == ZeroPad(n, 4);
    assert b[6..|b| - 4] == ZeroPad(m, 4);
    ZeroPadInjective(n, m, 4);
  }

  /** The first chunk of a session is chunk_0001.wav. */
  lemma FirstChunkName()
    ensures Initial().chunkCounter + 1 == 1
    ensures ChunkName(1) == "chunk_0001.wav"
  {
    assert Digits(1) == "1";
    assert ZeroPad(1, 4) == "0001";
  }

  /** Below 10000 the name is fourteen characters with four digits; above, the digits grow rather than wrap. */
  lemma ChunkNameLength(n: nat)
    ensures |ChunkName(n)| == 10 + (if |Digits(n)| > 4 then |Digits(n)| else 4)
    ensures ParseDigits(ChunkName(n)[6..|ChunkName(n)| - 4]) == n
  {
    ZeroPadRoundTrip(n, 4);
    var a := ChunkName(n);
    assert a[6..|a| - 4] == ZeroPad(n, 4);
  }

  // ---------------------------------------------------------------------------
  // The transcriber's state and its transitions

  datatype SavedChunk = SavedChunk(number: nat, samples: seq<real>)

  /**
   * The transcriber's state: the recorder queue, the audio buffer, the
   * silent-chunk and chunk counters, the chunk files written, the prompts
   * given to the model, the transcript files and the auto-stop callbacks
   * made.
   */
  datatype TState = TState(
    queue: seq<Chunk>,
    buffer: seq<real>,
    silentCount: nat,
    chunkCounter: nat,
    saved: seq<SavedChunk>,
    prompts: seq<string>,
    logs: Logs,
    autoStops: nat)

  /** What stays fixed for a transcriber: the native sample rate, its settings and whether an auto-stop callback was given. */
  datatype Setup = Setup(rate: Rate, vad: Vad, hasCallback: bool)

  /** The outside world during one transcription: the chunk write, jargon.txt, the model's reply, the two appends and the wall clock. */
  datatype Env = Env(writeOk: bool, jargon: JargonFile, reply: Reply, appends: Appends, clock: TimeOfDay)

  function Initial(): TState {
    TState([], [], 0, 0, [], [], Logs([], []), 0)
  }

  /** Chunk files are numbered in increasing order from 1 up to the counter, and the raw transcript holds whole lines. */
  predicate Valid(s: TState) {
    && (forall i, j | 0 <= i < j < |s.saved| :: s.saved[i].number < s.saved[j].number)
    && (forall i | 0 <= i < |s.saved| :: 1 <= s.saved[i].number <= s.chunkCounter)
    && LineComplete(s.logs.raw)
  }

  lemma InitialValid()
    ensures Valid(Initial())
  {
  }

  /** save_audio_chunk: the counter goes up first; the buffer is kept as that chunk when the write succeeds. */
  function SaveChunk(s: TState, writeOk: bool): TState {
    var n := s.chunkCounter + 1;
    s.(chunkCounter := n, saved := if writeOk then s.saved + [SavedChunk(n, s.buffer)] else s.saved)
  }

  /** The buffer is quiet as a whole: its peak is below silence_chunk_threshold. */
  predicate QuietChunk(s: TState, setup: Setup)
    requires s.buffer != []
  {
    Peak(s.buffer) < setup.vad.silenceChunkThreshold
  }

  /** This quiet chunk is the one that ends the meeting. */
  predicate EndsMeeting(s: TState, setup: Setup)
    requires s.buffer != []
  {
    QuietChunk(s, setup) && (s.silentCount + 1) as real >= setup.vad.maxSilentChunks
  }

  /** The chunk that is kept: numbered and saved, transcribed with the prompt, recorded under the clock. */
  function Commit(s: TState, count: nat, env: Env): TState {
    var afterSave := SaveChunk(s, env.writeOk);
    afterSave.(
      buffer := [],
      silentCount := count,
      prompts := s.prompts + [InitialPrompt(env.jargon)],
      logs := Record(s.logs, env.reply, HmsText(env.clock), env.appends))
  }

  /** transcribe_buffer */
  function Transcribe(s: TState, setup: Setup, env: Env): TState {
    if s.buffer == [] then s
    else if EndsMeeting(s, setup) then
      s.(buffer := [], silentCount := s.silentCount + 1,
         autoStops := if setup.hasCallback then s.autoStops + 1 else s.autoStops)
    else
      Commit(s, if QuietChunk(s, setup) then s.silentCount + 1 else 0, env)
  }

  /** The inner loop of process_audio: everything queued moves to the buffer, in order. */
  function Drain(s: TState): TState {
    s.(queue := [], buffer := s.buffer + FlattenAll(s.queue))
  }

  /** One pass of process_audio's loop. */
  function Step(s: TState, setup: Setup, env: Env): TState {
    var drained := Drain(s);
    if ShouldCut(drained.buffer, setup.rate, setup.vad) then Transcribe(drained, setup, env) else drained
  }

  /** Passes of the loop, with what the recorder queued before each. */
  function Run(s: TState, setup: Setup, arrivals: seq<seq<Chunk>>, envs: seq<Env>): TState
    requires |arrivals| == |envs|
    decreases |envs|
  {
    if envs == [] then s
    else Run(Step(s.(queue := s.queue + arrivals[0]), setup, envs[0]), setup, arrivals[1..], envs[1..])
  }

  // ---------------------------------------------------------------------------
  // What the transitions promise

  /** A transcription always leaves an empty buffer and touches nothing queued; on an empty buffer it changes nothing at all. */
  lemma TranscribeEmptiesBuffer(s: TState, setup: Setup, env: Env)
    ensures s.buffer == [] ==> Transcribe(s, setup, env) == s
    ensures Transcribe(s, setup, env).buffer == []
    ensures Transcribe(s, setup, env).queue == s.queue
  {
  }

  /** The silent end of a meeting: the chunk is dropped without a file, a prompt or a transcript line, and the callback runs when there is one. */
  lemma AutoStopOutcome(s: TState, setup: Setup, env: Env)
    requires s.buffer != [] && EndsMeeting(s, setup)
    ensures var t := Transcribe(s, setup, env);
      && t.saved == s.saved && t.chunkCounter == s.chunkCounter
      && t.prompts == s.prompts && t.logs == s.logs
      && t.autoStops == s.autoStops + (if setup.hasCallback then 1 else 0)
  {
  }

  /** Any other non-empty buffer takes the next chunk number and is saved under it when the write succeeds. */
  lemma ChunkSaved(s: TState, setup: Setup, env: Env)
    requires s.buffer != [] && !EndsMeeting(s, setup)
    ensures var t := Transcribe(s, setup, env);
      && t.chunkCounter == s.chunkCounter + 1
      && t.saved == (if env.writeOk then s.saved + [SavedChunk(s.chunkCounter + 1, s.buffer)] else s.saved)
      && t.autoStops == s.autoStops
  {
    var count := if QuietChunk(s, setup) then s.silentCount + 1 else 0;
    TranscribeCommits(s, setup, env);
    CommitSaves(s, count, env);
  }

  lemma TranscribeCommits(s: TState, setup: Setup, env: Env)
    requires s.buffer != [] && !EndsMeeting(s, setup)
    ensures Transcribe(s, setup, env) == Commit(s, if QuietChunk(s, setup) then s.silentCount + 1 else 0, env)
  {
  }

  /** Commit sets the silent count itself, so the count it starts from does not matter. */
  lemma CommitIgnoresCount(s: TState, before: nat, count: nat, env: Env)
    ensures Commit(s.(silentCount := before), count, env) == Commit(s, count, env)
  {
  }

  /** save_audio_chunk's effect on the saved files. */
  lemma SaveChunkSaved(s: TState, writeOk: bool)
    ensures SaveChunk(s, writeOk).saved == (if writeOk then s.saved + [SavedChunk(s.chunkCounter + 1, s.buffer)] else s.saved)
  {
  }

  lemma CommitSavesOnce(s: TState, count: nat, env: Env)
    ensures Commit(s, count, env).saved == SaveChunk(s, env.writeOk).saved
  {
  }

  lemma CommitSaves(s: TState, count: nat, env: Env)
    ensures Commit(s, count, env).saved == (if env.writeOk then s.saved + [SavedChunk(s.chunkCounter + 1, s.buffer)] else s.saved)
  {
    CommitSavesOnce(s, count, env);
    SaveChunkSaved(s, env.writeOk);
  }

  /** ... and it is transcribed with one prompt, its text recorded under the wall-clock stamp. */
  lemma ChunkTranscribed(s: TState, setup: Setup, env: Env)
    requires s.buffer != [] && !EndsMeeting(s, setup)
    ensures var t := Transcribe(s, setup, env);
      && t.prompts == s.prompts + [InitialPrompt(env.jargon)]
      && t.logs == Record(s.logs, env.reply, HmsText(env.clock), env.appends)
  {
  }

  /** A chunk with sound resets the silent count; a quiet one adds to it, and the count is not reset by an auto-stop. */
  lemma SilentCountRule(s: TState, setup: Setup, env: Env)
    requires s.buffer != []
    ensures Transcribe(s, setup, env).silentCount == if QuietChunk(s, setup) then s.silentCount + 1 else 0
  {
  }

  /** Once the count has reached max_silent_chunks, every further quiet chunk auto-stops again until a chunk with sound arrives. */
  lemma AutoStopRepeats(s: TState, setup: Setup, env: Env)
    requires s.buffer != [] && QuietChunk(s, setup)
    requires s.silentCount as real >= setup.vad.maxSilentChunks
    ensures EndsMeeting(s, setup)
    ensures Transcribe(s, setup, env).silentCount as real >= setup.vad.maxSilentChunks
    ensures Transcribe(s, setup, env).chunkCounter == s.chunkCounter
  {
  }

  lemma TranscribeValid(s: TState, setup: Setup, env: Env)
    requires Valid(s)
    ensures Valid(Transcribe(s, setup, env))
  {
    var t := Transcribe(s, setup, env);
    if s.buffer != [] && !EndsMeeting(s, setup) {
      RecordLines(s.logs, env.reply, HmsText(env.clock), env.appends);
    }
  }

  /** Whatever the model answers, the raw transcript keeps ending in a newline. */
  lemma RecordLines(logs: Logs, reply: Reply, stamp: string, appends: Appends)
    requires LineComplete(logs.raw)
    ensures LineComplete(Record(logs, reply, stamp, appends).raw)
  {
  }

  /** One pass empties the queue; without a cut the buffer grows by exactly the queued samples, in order. */
  lemma StepDrains(s: TState, setup: Setup, env: Env)
    ensures Step(s, setup, env).queue == []
    ensures !ShouldCut(s.buffer + FlattenAll(s.queue), setup.rate, setup.vad)
            ==> Step(s, setup, env) == s.(queue := [], buffer := s.buffer + FlattenAll(s.queue))
    ensures ShouldCut(s.buffer + FlattenAll(s.queue), setup.rate, setup.vad)
            ==> Step(s, setup, env).buffer == []
  {
  }

  lemma StepValid(s: TState, setup: Setup, env: Env)
    requires Valid(s)
    ensures Valid(Step(s, setup, env))
  {
    TranscribeValid(Drain(s), setup, env);
  }

  /** Over any number of passes the chunk numbering stays increasing and the raw transcript whole lines. */
  lemma {:induction false} RunValid(s: TState, setup: Setup, arrivals: seq<seq<Chunk>>, envs: seq<Env>)
    requires |arrivals| == |envs|
    requires Valid(s)
    ensures Valid(Run(s, setup, arrivals, envs))
    decreases |envs|
  {
    if envs != [] {
      var next := s.(queue := s.queue + arrivals[0]);
      StepValid(next, setup, envs[0]);
      RunValid(Step(next, setup, envs[0]), setup, arrivals[1..], envs[1..]);
    }
  }

  /** In a valid state no two saved chunks share a file name. */
  lemma SavedNamesDistinct(s: TState)
    requires Valid(s)
    ensures forall i, j | 0 <= i < j < |s.saved| :: ChunkName(s.saved[i].number) != ChunkName(s.saved[j].number)
  {
    forall i, j | 0 <= i < j < |s.saved|
      ensures ChunkName(s.saved[i].number) != ChunkName(s.saved[j].number)
    {
      if ChunkName(s.saved[i].number) == ChunkName(s.saved[j].number) {
        ChunkNameInjective(s.saved[i].number, s.saved[j].number);
      }
    }
  }
}
