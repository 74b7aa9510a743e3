# Scribe meeting recorder — a Dafny model of its transcription and note-making rules

Scribe records a meeting's audio and transcribes it live with a speech
model. It cuts the audio at natural pauses, writes clock-stamped transcript
lines, and stops by itself when the meeting falls silent. Afterwards it
turns the transcript into Logseq notes. This project models the parts of
Scribe that decide what happens to the text and the audio. Each is written
as Dafny functions over the program's own data, and the imperative code
becomes classes whose methods are proved to move their state exactly as
those functions say.

- **Transcript format** (`Transcript`, `Speech`, `Clock`, `Decimal`, `Text`)
  - The `[HH:MM:SS] text` raw line and the `\n## [HH:MM:SS] text` Logseq line.
  - How the segments the speech model returns are joined and stripped.
  - When each of the two appends happens.
  - The bracketed-timestamp extractor, modelled as `re.findall` scans.
  - The `[HH:MM - HH:MM]` block label.
  - The `H:MM:SS` timer split.
  - Python's `str.split()`, `split('\n')`, `join` and `strip`, modelled exactly.
- **Note synthesis** (`Synthesis`)
  - The 1000-word block splitter. It is an imperative loop proved against a functional grouping.
  - The 6000-word summary context.
  - The file-name-safe title clean-up.
  - The `date_title.md` notes file name.
- **Settings** (`Config`)
  - The built-in defaults.
  - The section-wise merge of the user's YAML document over the defaults. It is a loop proved against a map comprehension.
  - The error fallbacks.
  - The two-level `get`.
- **Live transcriber** (`Segmentation` as the specification, `CoreTranscriber.Transcriber` as the object)
  - Draining the recorder queue into the buffer.
  - The cut rule: min/max duration plus a quiet window at the end.
  - The silent-chunk counter that triggers auto-stop.
  - `chunk_NNNN.wav` numbering.
  - The jargon prompt and its fallback.
  - Buffer reset.
- **Original single-file transcriber** (`Legacy`)
  - Its three-way cut rule with an RMS quiet test.
  - `chunk_NNN.wav` numbering from 0. The counter moves only after a successful write.
- **Desktop window** (`Gui`)
  - The record, pause, resume and stop flags.
  - The auto-stop hook.
  - The timer label.
  - How a synthesis run ends and what its notes file is called.

Audio samples, amplitudes and durations are exact `real`s. The outside
world during a transcription is one `Env` value:
- whether the chunk write succeeds;
- the jargon file;
- the speech model's reply, or its failure;
- whether each append succeeds;
- the wall clock.

The recorder's concurrent arrivals are a parameter of each pass of the
processing loop.

The elapsed time on the window's timer counts from the start of the
recording, paused stretches included. The label freezes while paused and
jumps on resume (`Gui.TickShowsElapsed`).

## Model

| member | source | states |
|---|---|---|
| Clock.SplitElapsed | src/scribe/gui/app_pro.py:300-303 | hours*3600 + minutes*60 + seconds equals the elapsed seconds, with minutes and seconds below 60 and non-negative hours for non-negative input |
| Clock.SplitElapsedUnique | src/scribe/gui/app_pro.py:300-303 | the floor-division split is the only hours/minutes/seconds triple with minutes and seconds below 60 that sums to the elapsed time |
| Clock.TimerTextRoundTrip | src/scribe/gui/app_pro.py:304 | the `{h:02d}:{m:02d}:{s:02d}` label reads back to exactly the elapsed seconds, for every non-negative elapsed time |
| Clock.HmsTextShape | src/scribe/core/transcriber.py:162 | a clock time below 100 hours renders as eight characters, digits around colons at positions 2 and 5 |
| Decimal.ZeroPadRoundTrip | src/scribe/core/transcriber.py:100 | zero-padding to a width reads back to the number, for numbers wider than the width as well |
| Decimal.ZeroPadInjective | src/scribe/core/transcriber.py:100 | two numbers with the same zero-padded text are equal |
| Text.JoinSplitOn | src/scribe/synthesis.py:49 | joining the pieces of `split('\n')` with newlines gives back the text |
| Text.WordsOfStrip | src/scribe/core/transcriber.py:159 | stripping a text does not change its whitespace-separated words |
| Transcript.ExtractTimestamps | src/scribe/synthesis.py:41-45 | every extracted item is a `dd:dd:dd` timestamp |
| Transcript.ExtractedStampsOccur | src/scribe/synthesis.py:41-45 | every extracted timestamp stands between brackets somewhere in the text |
| Transcript.ExtractFindsEveryPosition | src/scribe/synthesis.py:41-45 | the scan that resumes behind each match returns the same list as taking the match at every position of the text in position order, because two matches never overlap |
| Transcript.StampFound | src/scribe/synthesis.py:41-45 | every bracketed `dd:dd:dd` timestamp anywhere in the text is extracted |
| Transcript.ExtractedIffOccurs | src/scribe/synthesis.py:41-45 | a string is extracted exactly when it is a `dd:dd:dd` timestamp standing between brackets in the text |
| Transcript.ExtractKeepsTextOrder | src/scribe/synthesis.py:41-45 | of two bracketed timestamps, the one earlier in the text comes earlier in the result |
| Transcript.ExtractSplit | src/scribe/synthesis.py:43-44 | a character the pattern cannot match separates matches: the timestamps of a+c+b are those of a followed by those of b |
| Transcript.ExtractOfJoinedLines | src/scribe/synthesis.py:60-61 | the timestamps of lines joined by newlines are the lines' timestamps in line order |
| Transcript.TimeRangeShape | src/scribe/synthesis.py:61-68 | the label is "[Unknown Time]" exactly when there is no timestamp, otherwise the fifteen characters "[dd:dd - dd:dd]" |
| Transcript.RangeLabelShape | src/scribe/synthesis.py:61-68 | the label built from two timestamps is "[" + the first's HH:MM + " - " + the last's HH:MM + "]", fifteen characters with digits and colons in place |
| Transcript.EntryStamps | src/scribe/core/transcriber.py:167-174 | a raw line and a Logseq line whose text has no '[' each yield exactly their own clock stamp |
| Transcript.TimeRangeOfEntries | src/scribe/synthesis.py:61-68 | a block of transcript entries is labelled with the minutes of its first and last clock stamps |
| Transcript.ClockStampIsTimestamp | src/scribe/core/transcriber.py:162 | the transcriber's `%H:%M:%S` stamp of a time of day is a timestamp the extractor recognises |
| Speech.AccumulateSegments | src/scribe/core/transcriber.py:155-157 | the segment loop builds every segment's text followed by one space, in order |
| Speech.SegmentText | src/scribe/core/transcriber.py:159 | the text written is empty or starts and ends with a non-space |
| Speech.SegmentTextWords | src/scribe/core/transcriber.py:155-161 | the written text holds exactly the segments' words in order, and is empty exactly when they have none |
| Speech.AppendLineStamps | src/scribe/core/transcriber.py:167-171 | appending a raw line to whole lines keeps whole lines and adds exactly its stamp to what the synthesizer extracts |
| Speech.RecordStamps | src/scribe/core/transcriber.py:161-178 | recording keeps the raw transcript in whole lines and adds this chunk's stamp exactly when a line is written |
| Synthesis.SplitIntoBlocks | src/scribe/synthesis.py:47-94 | the loop yields the functional grouping; at least one block; block texts joined by newlines rebuild the text; each label is its block's time range; every block but the last has at least the bound's words |
| Synthesis.BlockLines | src/scribe/synthesis.py:54-92 | the line loop, with its running word count and final remainder, builds exactly the blocks of the functional grouping |
| Synthesis.BlocksProperties | src/scribe/synthesis.py:49-92 | for any text and bound: at least one block, the blocks rejoin to the text, and every closed block reaches the bound |
| Synthesis.BlocksCloseAtFirstReach | src/scribe/synthesis.py:54-75 | no block is empty, and a block without its last line stays below the bound |
| Synthesis.BlocksKeepTimestamps | src/scribe/synthesis.py:47-94 | the blocks' timestamps, in order, are exactly the transcript's |
| Synthesis.MarkerWords | src/scribe/synthesis.py:120 | splitting the marker text "[... transcript continues ...]" at whitespace gives exactly the four words "[...", "transcript", "continues" and "...]" |
| Synthesis.MarkerContextWords | src/scribe/synthesis.py:120-122 | the continuation marker adds exactly its four words after the kept words |
| Synthesis.SummaryContextWords | src/scribe/synthesis.py:117-122 | the context has the transcript's words when there are at most 6000, otherwise exactly the first 6000 followed by the marker's words |
| Synthesis.NothingToSynthesize | src/scribe/synthesis.py:182-184 | a transcript strips to nothing exactly when it has no word |
| Synthesis.KeepTitleChars | src/scribe/synthesis.py:141 | after removal only word characters, whitespace and '-' remain |
| Synthesis.CollapseSpaces | src/scribe/synthesis.py:142 | the result has no whitespace, and is file-name safe when its input held only kept characters |
| Synthesis.CleanTitle | src/scribe/synthesis.py:138-145 | the title is never empty, at most 50 characters, and made only of letters, digits, '_' and '-' |
| Synthesis.CleanTitleKeepsSafe | src/scribe/synthesis.py:138-145 | a safe, non-empty title of at most 50 characters passes unchanged |
| Synthesis.CleanTitleIdempotent | src/scribe/synthesis.py:138-145 | cleaning a cleaned title changes nothing |
| Synthesis.CleanTitleFallback | src/scribe/synthesis.py:145 | "Meeting_Notes" is used when the answer has no kept character; otherwise the title is non-empty and starts with the first character of the kept text once each whitespace run in it is turned into '_' |
| Synthesis.NotesFileNameOfSession | src/scribe/synthesis.py:195-196 | for a session directory named date_time the notes file is date_title.md, for any title |
| Config.UpdateSection | src/scribe/utils/config.py:52 | a successful update of a default section keeps all its keys |
| Config.UpdatePairs | src/scribe/utils/config.py:52 | applying key/value pairs keeps all keys already present |
| Config.UpdatePairsLastWins | src/scribe/utils/config.py:52 | when an update by pairs succeeds, a key takes the value of the last pair that sets it |
| Config.UpdatePairsUnset | src/scribe/utils/config.py:52 | when an update by pairs succeeds, a key that no pair sets keeps its old value, or stays absent |
| Config.MergeSection | src/scribe/utils/config.py:50-54 | one loop step either finds the section's update raising or overlays exactly that section |
| Config.MergeUserConfig | src/scribe/utils/config.py:47-56 | the loop over user sections yields the section-wise merge, or reports the raising update |
| Config.MergeNext | src/scribe/utils/config.py:47-56 | one pass either meets a raising section, and then the whole merge fails, or keeps the loop invariant: the sections read so far do not clash and the result is their overlay on the defaults |
| Config.ClashFails | src/scribe/utils/config.py:52-60 | one section whose update raises makes the whole merge fail |
| Config.NoClashMerges | src/scribe/utils/config.py:47-56 | when no update raises, the merge is every user section laid over the defaults |
| Config.LoadConfig | src/scribe/utils/config.py:36-60 | the defaults for a missing, unreadable, non-mapping or clashing document, the merge otherwise |
| Config.ConfigManager.constructor | src/scribe/utils/config.py:31-34 | the manager holds the loaded configuration |
| Config.ConfigManager.Get | src/scribe/utils/config.py:74-76 | the stored value, the fallback for a missing section or key, an error for a section that is not a mapping |
| Config.LoadKeepsDefaultKeys | src/scribe/utils/config.py:47-56 | every default section survives as a mapping holding all its default keys |
| Config.LoadUserValueWins | src/scribe/utils/config.py:50-52 | a key the user sets in a default section overrides the default |
| Config.LoadUnmentionedKeepsDefault | src/scribe/utils/config.py:50-52 | a default key the user leaves out keeps its default value |
| Config.LoadStoresOtherSections | src/scribe/utils/config.py:53-54 | a user section with no mapping default is stored as written |
| Config.LoadEmptyDocument | src/scribe/utils/config.py:44 | an empty or null document yields exactly the defaults |
| Config.LoadErrorGivesDefaults | src/scribe/utils/config.py:58-60 | a non-mapping document or a raising section update falls back to the defaults |
| Config.MergeOfMerged | src/scribe/utils/config.py:47-56 | merging a configuration that already holds the default sections and keys gives it back |
| Config.ReloadIsIdentity | src/scribe/utils/config.py:36-60 | loading a loaded configuration again changes nothing |
| Config.GetDefaultSetting | src/scribe/utils/config.py:74-76 | every default setting reads back from any loaded configuration without falling back, and as its default when there is no file |
| Segmentation.DefaultSettingsAgree | src/scribe/core/transcriber.py:33-45 | without a settings file the transcriber runs on exactly its built-in fallbacks 60, 90, 0.01, 0.5, 0.005 and 1 |
| Segmentation.Peak | src/scribe/core/transcriber.py:114 | the peak bounds every sample's magnitude and is attained by one |
| Segmentation.PeakBelow | src/scribe/core/transcriber.py:118 | the peak is below a threshold exactly when every sample is |
| Segmentation.CutRule | src/scribe/core/transcriber.py:203-225 | no cut below min_duration, always a cut from max_duration, in between a cut exactly when the window holds samples and all are below silence_threshold |
| Segmentation.TailWindow | src/scribe/core/transcriber.py:219 | the window is the last n samples when the buffer holds them, and the whole buffer for n = 0 |
| Segmentation.TruncBounds | src/scribe/core/transcriber.py:216 | int() truncates toward zero, less than one away from its argument |
| Segmentation.Terms | src/scribe/core/transcriber.py:79-82 | every kept term is stripped, non-empty and not a comment |
| Segmentation.TermsExact | src/scribe/core/transcriber.py:79-82 | a term is kept exactly when some line strips to it and it is neither empty nor a comment |
| Segmentation.PromptCases | src/scribe/core/transcriber.py:142-145 | "Meeting transcript." exactly when the jargon file yields no term, otherwise the vocabulary sentence listing the terms joined by ", " |
| Segmentation.ChunkNameInjective | src/scribe/core/transcriber.py:100 | different chunk numbers never share a file name |
| Segmentation.ChunkNameLength | src/scribe/core/transcriber.py:100 | the name holds at least four digits that read back to the chunk number |
| Segmentation.FirstChunkName | src/scribe/core/transcriber.py:99-100 | the first chunk of a session is chunk_0001.wav |
| Segmentation.InitialValid | src/scribe/core/transcriber.py:26-50 | a fresh transcriber satisfies the numbering and whole-line invariant |
| Segmentation.TranscribeEmptiesBuffer | src/scribe/core/transcriber.py:109-186 | every transcription leaves the buffer empty, and on an empty buffer it changes nothing |
| Segmentation.AutoStopOutcome | src/scribe/core/transcriber.py:122-128 | the meeting-ending chunk saves nothing, keeps the counter, prompts and transcripts, and runs the callback when there is one |
| Segmentation.ChunkSaved | src/scribe/core/transcriber.py:96-107 | any other chunk takes the next number and is saved under it when the write succeeds, counter advancing either way |
| Segmentation.SaveChunkSaved | src/scribe/core/transcriber.py:96-107 | the saved files grow by the buffer under the next number exactly when the write succeeds |
| Segmentation.ChunkTranscribed | src/scribe/core/transcriber.py:141-178 | it is transcribed with one prompt and its text recorded under the wall-clock stamp |
| Segmentation.SilentCountRule | src/scribe/core/transcriber.py:118-131 | a quiet chunk adds one to the silent count, a chunk with sound resets it to 0 |
| Segmentation.AutoStopRepeats | src/scribe/core/transcriber.py:118-128 | once the count has reached max_silent_chunks, every further quiet chunk auto-stops again without a chunk number |
| Segmentation.TranscribeValid | src/scribe/core/transcriber.py:109-186 | a transcription keeps chunk numbers increasing, within the counter, and the raw transcript in whole lines |
| Segmentation.RecordLines | src/scribe/core/transcriber.py:167-171 | whatever the model answers, the raw transcript keeps ending in a newline |
| Segmentation.StepDrains | src/scribe/core/transcriber.py:195-225 | a pass empties the queue; without a cut the buffer grows by exactly the queued samples in order; with a cut it is emptied |
| Segmentation.StepValid | src/scribe/core/transcriber.py:192-227 | a pass of the loop keeps the invariant |
| Segmentation.RunValid | src/scribe/core/transcriber.py:188-232 | any number of passes keep the invariant |
| Segmentation.SavedNamesDistinct | src/scribe/core/transcriber.py:99-104 | no two saved chunk files of a session share a name |
| CoreTranscriber.Transcriber.constructor | src/scribe/core/transcriber.py:26-50 | a new transcriber has an empty buffer, zero counters and empty outputs |
| CoreTranscriber.Transcriber.SaveAudioChunk | src/scribe/core/transcriber.py:96-107 | the counter goes up and the buffer is saved under it when the write succeeds |
| CoreTranscriber.Transcriber.TranscribeBuffer | src/scribe/core/transcriber.py:109-186 | the object moves exactly as the transcription specification says |
| CoreTranscriber.Transcriber.WriteTranscript | src/scribe/core/transcriber.py:155-178 | only the transcript files change, as the recording rule says |
| CoreTranscriber.Transcriber.CommitBuffer | src/scribe/core/transcriber.py:133-186 | saving, prompting, writing the text and clearing the buffer move the object exactly as the commit step of the specification |
| CoreTranscriber.Transcriber.ProcessAudioStep | src/scribe/core/transcriber.py:192-227 | the drain loop and cut decision move the object exactly as one specified pass |
| CoreTranscriber.Transcriber.ProcessAudio | src/scribe/core/transcriber.py:188-232 | several passes move the object exactly as the specified run |
| Legacy.DecideRule | scribe.py:205-219 | forced cut exactly from 90 s, smart cut exactly between 60 and 90 s at an RMS-quiet window, no cut otherwise, and never quiet when the buffer is shorter than the window |
| Legacy.PeakQuietIsRmsQuiet | scribe.py:182-195 | a window whose every sample is below 0.01 also passes the RMS test |
| Legacy.FirstChunkName | scribe.py:229 | the first chunk of a session is chunk_000.wav |
| Legacy.FailedWriteKeepsBuffer | scribe.py:227-242 | a failed chunk write leaves buffer, counter and transcripts untouched |
| Legacy.WrittenChunk | scribe.py:234-290 | a written chunk takes the current number and the whole buffer, the counter advances, the reply is recorded and the buffer emptied |
| Legacy.TranscribeValid | scribe.py:227-290 | files stay numbered 0, 1, 2, ... with no gap and the raw transcript in whole lines |
| Legacy.StepValid | scribe.py:199-225 | one pass keeps that invariant |
| Legacy.RunValid | scribe.py:197-225 | any number of passes keep that invariant |
| Legacy.SavedNamesDistinct | scribe.py:229 | no two saved chunk files share a name |
| Legacy.StepKeeps | scribe.py:201-210 | a pass without a cut appends the item's samples and changes nothing else |
| Legacy.Transcriber.constructor | scribe.py:150-165 | a new transcriber has an empty buffer, counter 0 and empty outputs |
| Legacy.Transcriber.SaveAudioChunk | scribe.py:227-232 | the chunk is saved under the current number, then the counter advances; a failed write changes nothing |
| Legacy.Transcriber.TranscribeBuffer | scribe.py:234-290 | the object moves as the legacy transcription says, and the fixed prompt is used once per written chunk |
| Legacy.Transcriber.ProcessAudioStep | scribe.py:199-225 | one queue read moves the object as one specified pass |
| Legacy.Transcriber.ProcessAudio | scribe.py:197-225 | several queue reads move the object as the specified run |
| Gui.OpenedValid | src/scribe/gui/app_pro.py:53-61 | the window opens idle with consistent flags |
| Gui.ControlsKeepValid | src/scribe/gui/app_pro.py:298-491 | every control keeps pause and timer within a recording, and the recorder's state in step with the window's |
| Gui.StartShowsZero | src/scribe/gui/app_pro.py:356-366 | a successful start is recording, unpaused, timed, with the pause button live and the label at 00:00:00 |
| Gui.FailedStartChangesNoFlag | src/scribe/gui/app_pro.py:321-371 | a start without a device or with an error leaves the window's recording, pause and timer flags and the synthesis count as they were; an error before the recorder is replaced changes nothing at all, and otherwise the recorder is a new one, neither running nor paused |
| Gui.PauseResumeRoundTrip | src/scribe/gui/app_pro.py:374-386 | pausing then resuming a running recording returns the window to where it was |
| Gui.PauseNeedsRecording | src/scribe/gui/app_pro.py:315-319 | the pause toggle does nothing without a recording |
| Gui.StopOnce | src/scribe/gui/app_pro.py:388-406 | stopping ends recording, pause and timer, starts exactly one synthesis run when recording, and a second stop changes nothing |
| Gui.TickShowsElapsed | src/scribe/gui/app_pro.py:298-307 | the label reads back to the whole seconds since the start, freezes while paused, and the timer reschedules exactly while running or paused |
| Gui.SynthesisNotes | src/scribe/gui/app_pro.py:428-460 | notes are written exactly when the transcript has a word, and are named date_title.md with the cleaned title |
| Gui.Window.constructor | src/scribe/gui/app_pro.py:53-61 | the window's initial flags |
| Gui.Window.UpdateTimer | src/scribe/gui/app_pro.py:298-307 | the label and rescheduling follow the timer rule |
| Gui.Window.StartRecording | src/scribe/gui/app_pro.py:321-372 | the flags move as the start rule for each outcome |
| Gui.Window.PauseRecording | src/scribe/gui/app_pro.py:374-379 | pauses only a running, unpaused recording |
| Gui.Window.ResumeRecording | src/scribe/gui/app_pro.py:381-386 | resumes only a paused recording |
| Gui.Window.StopRecording | src/scribe/gui/app_pro.py:388-409 | stops only a recording, locking the controls and starting synthesis |
| Gui.Window.AutoStopRecording | src/scribe/gui/app_pro.py:411-413 | the auto-stop callback has the effect of a stop |
| Gui.Window.ToggleRecordingButton | src/scribe/gui/app_pro.py:309-313 | start when idle, stop when recording |
| Gui.Window.TogglePauseButton | src/scribe/gui/app_pro.py:315-319 | resume when paused, pause otherwise |
| Gui.Window.SynthesisComplete | src/scribe/gui/app_pro.py:471-481 | the label reads "Complete!" and the record button is live again |
| Gui.Window.Reset | src/scribe/gui/app_pro.py:485-491 | the label returns to 00:00:00, record live, pause disabled, timer stopped |

## Left out

- Speech and language models: loading the model (`load_model`, including its SystemExit), transcription itself, `call_ollama` and the text the language model writes. The model's reply is an input (`Speech.Reply`); the title clean-up takes the model's answer as its argument.
- Resampling to 16 kHz (`scipy.signal.resample`): its result only feeds the speech model, which is not modelled.
- File and OS I/O: the chunk WAV write, the two transcript appends, the settings file read and `save_config`, the notes rename and the Logseq export. Each is a success flag or an optional value, and the file contents are strings.
- Audio capture, device selection and the recorder thread: the recorder queue's contents before each pass are a parameter. recorder.py's pause flag is the window's `recorderPaused`.
- Concurrency and scheduling: the transcriber thread, `root.after`, the tray thread and `queue.get` timeouts. Each is modelled as direct calls in sequence; the auto-stop callback is a counter in the transcriber and a stop in the window.
- Floating point: samples and thresholds are exact reals, with no rounding, infinities or NaNs.
- Legacy.QuietTail: compares the sum of squares with threshold² × length instead of taking a square root. This is equivalent for the positive threshold 0.01.
- Segmentation.VadFromConfig: a setting that is not a number gives None, and `Setup` holds a numeric `Vad`, so a configuration with such a setting cannot be represented; `VadFromConfig` is used only by `DefaultSettingsAgree`. In the source the effect depends on the key. A non-numeric `min_duration` or `max_duration` raises at the comparison in src/scribe/core/transcriber.py:206 or :210 on every pass, so no cut ever happens. A non-numeric `silence_chunk_threshold` raises at :118 inside every cut, before `save_audio_chunk`, so no chunk is ever saved. A non-numeric `silence_threshold` or `silence_duration` only breaks the cut at a pause (:216-223); the forced cut at `max_duration` (:210-212) still happens. A non-numeric `max_silent_chunks` raises at :122 only for a quiet chunk; chunks with sound are still saved and transcribed.
- Synthesis.IsWordChar: `\w` is ASCII here. Python's `\w` also takes non-ASCII letters and digits.
- Transcript.ExtractTimestamps: `\d` is ASCII here (`Decimal.IsDigit`). Python's `\d` also matches other Unicode decimal digits, so the source extracts a stamp such as "[١٢:٣٤:٥٦]" and the model does not.
- Config.UpdatePairs: an update given as a list of pairs counts as a raising update when an item is a mapping, a list that is not two long, some other iterable, or a pair whose key is not a string, although Python accepts several of these. A YAML mapping with a non-string key cannot be represented at all, because `Value.Dict` has string keys; the source stores such a key.
- Speech.RecordStamps: stated only for texts without a '['. A transcribed '[' could add more timestamps than the clock stamp.
- Synthesis.CleanTitleFallback: for a non-fallback title it states only the first character, which is the first character of the kept text once each whitespace run in it is turned into '_'. The other properties of the result are in CleanTitle.
- Gui.Start: required not to be recording, because start_recording is reached only from the record toggle when idle. An exception raised after `self.recorder.start_recording()` (src/scribe/gui/app_pro.py:351-354) is taken as `FailedAfterRecorder`, so the model's new recorder is idle where the source's is running.
- Gui.Window.StartRecording: enables the pause button just before the first timer tick, where start_recording does it just after. The two steps touch different widgets.
- Gui.Window.StopRecording: the except branch that re-enables the record button is left out, because stopping the recorder does not raise here.
- Window rendering: the waveform, icons, tray menu, progress bar, opening files and quitting.
- The writing of the notes body after the file name is chosen (header, block headings, detailed notes) is left out: it is language-model text.
- The copies of the synthesis helpers in scribe.py (lines 313-417) match src/scribe/synthesis.py and are modelled once, in `Synthesis`.
- src/scribe/core.py, app_simple_backup.py, src/scribe/utils/instance.py, paths.py, logging.py, cli.py, the scripts and list_devices.py are not part of this model. They are a stale duplicate, a broken backup, OS plumbing and launchers.
