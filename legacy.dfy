/**
 * The standalone transcriber of the original single-file program: fixed
 * segmentation constants, an RMS test on the last quarter second, one
 * queued item per pass, chunk files numbered from 0 with three digits,
 * and a fixed healthcare-finance prompt.
 */
module Legacy {
  import opened Wrappers
  import opened Decimal
  import opened Clock
  import opened Transcript
  import opened Speech
  import Seg = Segmentation

  const MinDuration: real := 60.0
  const MaxDuration: real := 90.0
  /** Compared against the RMS amplitude, not the peak. */
  const SilenceThreshold: real := 0.01
  const SilenceDuration: real := 0.25

  const Prompt: string := "Healthcare finance meeting. Keywords: EBITDA, HEDIS, EHR, ICD-10, Oncology, Utilization Review, CPT-88305, ROI, YoY."

  function SumSquares(xs: seq<real>): real
    decreases |xs|
  {
    if xs == [] then 0.0 else xs[0] * xs[0] + SumSquares(xs[1..])
  }

  /**
   * detect_silence: false when the buffer is shorter than the window;
   * otherwise the window's RMS, sqrt(mean(x^2)), is below the threshold,
   * compared here in squares (both sides are non-negative). An empty window
   * has a NaN mean, which is never below anything.
   */
  predicate QuietTail(buffer: seq<real>, rate: Seg.Rate) {
    var n := Seg.Trunc(SilenceDuration * rate as real);
    if |buffer| < n then false
    else
      var tail := Seg.Tail(buffer, n);
      tail != [] && SumSquares(tail) < SilenceThreshold * SilenceThreshold * |tail| as real
  }

  /** What one pass does with the buffer. */
  datatype Cut = Keep | SmartCut | ForceCut

  /** The three-way rule of process_audio. */
  function Decide(buffer: seq<real>, rate: Seg.Rate): Cut {
    var d := Seg.Duration(buffer, rate);
    if d < MinDuration then Keep
    else if d < MaxDuration then (if QuietTail(buffer, rate) then SmartCut else Keep)
    else ForceCut
  }

  /** f"chunk_{n:03d}.wav" */
  function ChunkName(n: nat): string {
    "chunk_" + ZeroPad(n, 3) + ".wav"
  }

  /** The transcriber's state: buffer, next chunk number, chunk files written and transcript files. */
  datatype LState = LState(buffer: seq<real>, chunkCounter: nat, saved: seq<Seg.SavedChunk>, logs: Logs)

  function Start(): LState {
    LState([], 0, [], Logs([], []))
  }

  /** The chunk files are numbered 0, 1, 2, ... with no gap, the counter names the next one, and the raw transcript holds whole lines. */
  predicate Valid(s: LState) {
    && s.chunkCounter == |s.saved|
    && (forall i | 0 <= i < |s.saved| :: s.saved[i].number == i)
    && LineComplete(s.logs.raw)
  }

  /**
   * transcribe_buffer: nothing for an empty buffer; a failed chunk write
   * raises out of it with the buffer and counter untouched; otherwise the
   * chunk is saved under the current number, the counter moves on, the
   * reply is recorded and the buffer is emptied, whether or not the model
   * raised.
   */
  function Transcribe(s: LState, env: Seg.Env): LState {
    if s.buffer == [] || !env.writeOk then s
    else
      LState([], s.chunkCounter + 1, s.saved + [Seg.SavedChunk(s.chunkCounter, s.buffer)],
             Record(s.logs, env.reply, HmsText(env.clock), env.appends))
  }

  /** One pass of process_audio: queue.get timing out changes nothing; an item is flattened onto the buffer and the rule decides. */
  function Step(s: LState, item: Option<Seg.Chunk>, rate: Seg.Rate, env: Seg.Env): LState {
    match item
    case None => s
    case Some(c) =>
      var grown := s.(buffer := s.buffer + Seg.Flat(c));
      if Decide(grown.buffer, rate) == Keep then grown else Transcribe(grown, env)
  }

  function Run(s: LState, items: seq<Option<Seg.Chunk>>, rate: Seg.Rate, envs: seq<Seg.Env>): LState
    requires |items| == |envs|
    decreases |items|
  {
    if items == [] then s else Run(Step(s, items[0], rate, envs[0]), items[1..], rate, envs[1..])
  }

  // ---------------------------------------------------------------------------
  // What the legacy rules promise

  /**
   * The rule reads: keep buffering below a minute; from a minute and a half
   * always cut; in between cut exactly at an RMS-quiet quarter second.
   */
  lemma DecideRule(buffer: seq<real>, rate: Seg.Rate)
    ensures var d := Seg.Duration(buffer, rate);
      && (Decide(buffer, rate) == ForceCut <==> d >= MaxDuration)
      && (Decide(buffer, rate) == SmartCut <==> MinDuration <= d < MaxDuration && QuietTail(buffer, rate))
      && (Decide(buffer, rate) != Keep <==> d >= MaxDuration || (d >= MinDuration && QuietTail(buffer, rate)))
      && (|buffer| < Seg.Trunc(SilenceDuration * rate as real) ==> !QuietTail(buffer, rate))
  {
  }

  lemma SquareBelow(x: real, t: real)
    requires Seg.Abs(x) < t
    ensures 0.0 <= x * x < t * t
  {
    var a := Seg.Abs(x);
    assert 0.0 <= a * a by {
      assert 0.0 <= a;
    }
    calc {
      x * x;
    ==  { if x < 0.0 { assert a == -x; } }
      a * a;
    <=  { assert 0.0 <= a; }
      a * t;
    <
      t * t;
    }
  }

  lemma {:induction false} SumSquaresBelow(xs: seq<real>, t: real)
    requires t > 0.0
    requires Seg.AllBelow(xs, t)
    ensures xs != [] ==> SumSquares(xs) < t * t * |xs| as real
    ensures SumSquares(xs) >= 0.0
    decreases |xs|
  {
    if xs != [] {
      SquareBelow(xs[0], t);
      assert Seg.AllBelow(xs[1..], t) by {
        forall i | 0 <= i < |xs[1..]| ensures Seg.Abs(xs[1..][i]) < t {
          assert xs[1..][i] == xs[i + 1];
        }
      }
      SumSquaresBelow(xs[1..], t);
      var tt := t * t;
      var m := |xs[1..]| as real;
      assert |xs| as real == m + 1.0;
      assert tt * (m + 1.0) == tt * m + tt;
      if xs[1..] == [] {
        assert m == 0.0;
      }
    }
  }

  /** A quarter second in which every sample is below the threshold is also quiet by the RMS test: the legacy test accepts every window the peak test would. */
  lemma PeakQuietIsRmsQuiet(buffer: seq<real>, rate: Seg.Rate)
    requires var n := Seg.Trunc(SilenceDuration * rate as real);
      n <= |buffer| && Seg.Tail(buffer, n) != [] && Seg.AllBelow(Seg.Tail(buffer, n), SilenceThreshold)
    ensures QuietTail(buffer, rate)
  {
    var n := Seg.Trunc(SilenceDuration * rate as real);
    SumSquaresBelow(Seg.Tail(buffer, n), SilenceThreshold);
  }

  /** The first chunk of a session is chunk_000.wav. */
  lemma FirstChunkName()
    ensures Start().chunkCounter == 0
    ensures ChunkName(0) == "chunk_000.wav"
  {
    assert Digits(0) == "0";
    assert ZeroPad(0, 3) == "000";
  }

  /** A failed chunk write loses no audio and numbers nothing: the pass leaves the state as it found it. */
  lemma FailedWriteKeepsBuffer(s: LState, env: Seg.Env)
    requires !env.writeOk
    ensures Transcribe(s, env) == s
  {
  }

  /** A written chunk takes the current number, carries the whole buffer, and leaves the buffer empty. */
  lemma WrittenChunk(s: LState, env: Seg.Env)
    requires s.buffer != [] && env.writeOk
    ensures var t := Transcribe(s, env);
      && t.buffer == []
      && t.chunkCounter == s.chunkCounter + 1
      && t.saved == s.saved + [Seg.SavedChunk(s.chunkCounter, s.buffer)]
      && t.logs == Record(s.logs, env.reply, HmsText(env.clock), env.appends)
  {
  }

  lemma TranscribeValid(s: LState, env: Seg.Env)
    requires Valid(s)
    ensures Valid(Transcribe(s, env))
  {
  }

  lemma StepValid(s: LState, item: Option<Seg.Chunk>, rate: Seg.Rate, env: Seg.Env)
    requires Valid(s)
    ensures Valid(Step(s, item, rate, env))
  {
    if item.Some? {
      TranscribeValid(s.(buffer := s.buffer + Seg.Flat(item.value)), env);
    }
  }

  /** Over any run the files are chunk_000.wav, chunk_001.wav, ... in order, never two with one name. */
  lemma {:induction false} RunValid(s: LState, items: seq<Option<Seg.Chunk>>, rate: Seg.Rate, envs: seq<Seg.Env>)
    requires |items| == |envs| && Valid(s)
    ensures Valid(Run(s, items, rate, envs))
    decreases |items|
  {
    if items != [] {
      StepValid(s, items[0], rate, envs[0]);
      RunValid(Step(s, items[0], rate, envs[0]), items[1..], rate, envs[1..]);
    }
  }

  lemma SavedNamesDistinct(s: LState)
    requires Valid(s)
    ensures forall i, j | 0 <= i < j < |s.saved| :: ChunkName(s.saved[i].number) != ChunkName(s.saved[j].number)
  {
    forall i, j | 0 <= i < j < |s.saved|
      ensures ChunkName(s.saved[i].number) != ChunkName(s.saved[j].number)
    {
      var a, b := ChunkName(i), ChunkName(j);
      if a == b {
        assert a[6..|a| - 4] == ZeroPad(i, 3);
        assert b[6..|b| - 4] == ZeroPad(j, 3);
        ZeroPadInjective(i, j, 3);
      }
    }
  }

  /** A pass without a cut appends the item's samples to the buffer and changes nothing else. */
  lemma StepKeeps(s: LState, c: Seg.Chunk, rate: Seg.Rate, env: Seg.Env)
    requires Decide(s.buffer + Seg.Flat(c), rate) == Keep
    ensures Step(s, Some(c), rate, env) == s.(buffer := s.buffer + Seg.Flat(c))
  {
  }

  // ---------------------------------------------------------------------------
  // The object

  class Transcriber {
    var buffer: seq<real>
    var chunkCounter: nat
    var saved: seq<Seg.SavedChunk>
    var logs: Logs
    /** The prompts handed to the speech model, one per transcription. */
    var prompts: seq<string>
    const rate: Seg.Rate

    function State(): LState
      reads this
    {
      LState(buffer, chunkCounter, saved, logs)
    }

    constructor(rate: Seg.Rate)
      ensures State() == Start() && prompts == [] && this.rate == rate
    {
      this.rate := rate;
      buffer := [];
      chunkCounter := 0;
      saved := [];
      logs := Logs([], []);
      prompts := [];
    }

    /** save_audio_chunk: the write comes first, so a failure (reported as false) leaves the counter alone. */
    method SaveAudioChunk(writeOk: bool) returns (ok: bool)
      modifies this
      ensures ok == writeOk
      ensures ok ==> State() == old(State()).(chunkCounter := old(chunkCounter) + 1,
                                              saved := old(saved) + [Seg.SavedChunk(old(chunkCounter), old(buffer))])
      ensures !ok ==> State() == old(State())
      ensures prompts == old(prompts)
    {
      if !writeOk {
        return false;
      }
      saved := saved + [Seg.SavedChunk(chunkCounter, buffer)];
      chunkCounter := chunkCounter + 1;
      return true;
    }

    /** transcribe_buffer, with the model always given the fixed prompt. */
    method TranscribeBuffer(env: Seg.Env)
      modifies this
      ensures State() == Transcribe(old(State()), env)
      ensures prompts == old(prompts) + (if old(buffer) != [] && env.writeOk then [Prompt] else [])
    {
      if buffer == [] {
        return;
      }
      var ok := SaveAudioChunk(env.writeOk);
      if !ok {
        return;
      }
      prompts := prompts + [Prompt];
      logs := Record(logs, env.reply, HmsText(env.clock), env.appends);
      buffer := [];
    }

    /** One pass of process_audio. */
    method ProcessAudioStep(item: Option<Seg.Chunk>, env: Seg.Env)
      modifies this
      ensures State() == Step(old(State()), item, rate, env)
    {
      if item.None? {
        return;
      }
      buffer := buffer + Seg.Flat(item.value);
      var cut := Decide(buffer, rate);
      if cut != Keep {
        TranscribeBuffer(env);
      }
    }

    /** process_audio over a sequence of queue reads. */
    method ProcessAudio(items: seq<Option<Seg.Chunk>>, envs: seq<Seg.Env>)
      requires |items| == |envs|
      modifies this
      ensures State() == Run(old(State()), items, rate, envs)
    {
      for k := 0 to |items|
        invariant Run(old(State()), items, rate, envs) == Run(State(), items[k..], rate, envs[k..])
      {
        ProcessAudioStep(items[k], envs[k]);
        assert items[k..][1..] == items[k + 1..];
        assert envs[k..][1..] == envs[k + 1..];
      }
    }
  }
}
