/**
 * The live transcriber as an object: its buffer, counters and output files
 * are fields that save_audio_chunk, transcribe_buffer and process_audio
 * update in place, each proved to move the state exactly as the functions
 * of module Segmentation say.
 */
module CoreTranscriber {
  import opened Text
  import opened Clock
  import opened Transcript
  import opened Speech
  import opened Segmentation

  class Transcriber {
    var queue: seq<Chunk>
    var buffer: seq<real>
    var silentCount: nat
    var chunkCounter: nat
    /** The chunk files written to the session's audio directory. */
    var saved: seq<SavedChunk>
    /** The initial prompts handed to the speech model, one per transcription. */
    var prompts: seq<string>
    var logs: Logs
    /** How many times the auto-stop callback ran. */
    var autoStops: nat
    const setup: Setup

    function State(): TState
      reads this
    {
      TState(queue, buffer, silentCount, chunkCounter, saved, prompts, logs, autoStops)
    }

    constructor(setup: Setup)
      ensures State() == Initial() && this.setup == setup
    {
      this.setup := setup;
      queue := [];
      buffer := [];
      silentCount := 0;
      chunkCounter := 0;
      saved := [];
      prompts := [];
      logs := Logs([], []);
      autoStops := 0;
    }

    /** save_audio_chunk: the counter goes up whether or not the write succeeds. */
    method SaveAudioChunk(writeOk: bool)
      modifies this
      ensures State() == SaveChunk(old(State()), writeOk)
    {
      chunkCounter := chunkCounter + 1;
      if writeOk {
        saved := saved + [SavedChunk(chunkCounter, buffer)];
      }
    }

    /** transcribe_buffer */
    method TranscribeBuffer(env: Env)
      modifies this
      ensures State() == Transcribe(old(State()), setup, env)
    {
      if buffer == [] {
        return;
      }
      ghost var before := State();
      var maxAmp := Peak(buffer);
      if maxAmp < setup.vad.silenceChunkThreshold {
        silentCount := silentCount + 1;
        if silentCount as real >= setup.vad.maxSilentChunks {
          buffer := [];
          if setup.hasCallback {
            autoStops := autoStops + 1;
          }
          return;
        }
      } else {
        silentCount := 0;
      }
      CommitIgnoresCount(before, silentCount, silentCount, env);
      CommitBuffer(env);
      TranscribeCommits(before, setup, env);
    }

    /** The rest of transcribe_buffer once the chunk is kept: save it, transcribe it, write the text, clear the buffer. */
    method CommitBuffer(env: Env)
      modifies this
      ensures State() == Commit(old(State()), old(silentCount), env)
    {
      SaveAudioChunk(env.writeOk);
      var prompt := InitialPrompt(env.jargon);
      prompts := prompts + [prompt];
      WriteTranscript(env.reply, HmsText(env.clock), env.appends);
      buffer := [];
    }

    /** The model's answer goes to the two transcript files; a failed append skips what follows it. */
    method WriteTranscript(reply: Reply, stamp: string, appends: Appends)
      modifies this
      ensures State() == old(State()).(logs := Record(old(logs), reply, stamp, appends))
    {
      match reply {
        case Failed =>
        case Segments(texts) =>
          var accumulated := AccumulateSegments(texts);
          var text := Strip(accumulated);
          if text != [] && appends.rawOk {
            logs := logs.(raw := logs.raw + RawLine(stamp, text));
            if appends.logseqOk {
              logs := logs.(logseq := logs.logseq + LogseqLine(stamp, text));
            }
          }
      }
    }

    /** One pass of process_audio's loop: drain the queue, then transcribe when the cut rule says so. */
    method ProcessAudioStep(env: Env)
      modifies this
      ensures State() == Step(old(State()), setup, env)
    {
      ghost var start := buffer + FlattenAll(queue);
      while queue != []
        invariant buffer + FlattenAll(queue) == start
        invariant State() == old(State()).(queue := queue, buffer := buffer)
        decreases |queue|
      {
        var data := queue[0];
        queue := queue[1..];
        buffer := buffer + Flat(data);
      }
      assert State() == Drain(old(State()));
      if ShouldCut(buffer, setup.rate, setup.vad) {
        TranscribeBuffer(env);
      }
    }

    /** process_audio over several passes; before each, the recorder has queued the matching arrivals. */
    method ProcessAudio(arrivals: seq<seq<Chunk>>, envs: seq<Env>)
      requires |arrivals| == |envs|
      modifies this
      ensures State() == Run(old(State()), setup, arrivals, envs)
    {
      for k := 0 to |envs|
        invariant Run(old(State()), setup, arrivals, envs) == Run(State(), setup, arrivals[k..], envs[k..])
      {
        queue := queue + arrivals[k];
        ProcessAudioStep(envs[k]);
        assert arrivals[k..][1..] == arrivals[k + 1..];
        assert envs[k..][1..] == envs[k + 1..];
      }
    }
  }
}
