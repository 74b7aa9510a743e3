/**
 * The desktop window's recording controls: the record and pause toggles,
 * the stop that hands the session to synthesis (also reached from the
 * transcriber's auto-stop), the once-a-second timer label and the name of
 * the notes file that synthesis leaves behind.
 */
module Gui {
  import opened Wrappers
  import opened Text
  import opened Clock
  import Segmentation
  import Synthesis

  /**
   * What start_recording finds: no loopback device; an exception raised
   * before self.recorder is replaced (app_pro.py:327), or one raised after
   * it, when a new, idle recorder is in place; or a running session.
   */
  datatype StartOutcome = NoDevice | FailedBeforeRecorder | FailedAfterRecorder | Started

  /**
   * The window's flags and the parts of the recorder, timer label, buttons
   * and synthesis threads they drive.
   */
  datatype Ui = Ui(
    isRecording: bool,
    isPaused: bool,
    timerRunning: bool,
    startTime: Option<real>,
    timerText: string,
    recorderRunning: bool,
    recorderPaused: bool,
    recordEnabled: bool,
    pauseEnabled: bool,
    synthesisRuns: nat)

  const ZeroText: string := "00:00:00"

  function Opened(): Ui {
    Ui(false, false, false, None, ZeroText, false, false, true, false, 0)
  }

  /**
   * Pausing needs a recording, the timer runs only while recording, and
   * while recording the recorder runs and is paused exactly when the
   * window says so.
   */
  predicate Valid(u: Ui) {
    && (u.isPaused ==> u.isRecording)
    && (u.timerRunning ==> u.isRecording)
    && (u.isRecording ==> u.recorderRunning && u.recorderPaused == u.isPaused && u.startTime.Some?)
  }

  /** update_timer: the label and whether the timer schedules itself again. */
  function Tick(u: Ui, now: real): (Ui, bool) {
    if u.timerRunning && u.startTime.Some? && !u.isPaused then
      (u.(timerText := TimerText(Segmentation.Trunc(now - u.startTime.value))), true)
    else
      (u, u.isPaused || u.timerRunning)
  }

  /** start_recording, reached only through the record toggle while not recording. */
  function Start(u: Ui, outcome: StartOutcome, now: real): Ui
    requires !u.isRecording
  {
    match outcome
    case FailedBeforeRecorder => u
    case NoDevice | FailedAfterRecorder => u.(recorderRunning := false, recorderPaused := false)
    case Started =>
      var started := u.(isRecording := true, startTime := Some(now), timerRunning := true,
                        recorderRunning := true, recorderPaused := false, pauseEnabled := true);
      Tick(started, now).0
  }

  function Pause(u: Ui): Ui {
    if !u.isRecording || u.isPaused then u else u.(isPaused := true, recorderPaused := true)
  }

  function Resume(u: Ui): Ui {
    if !u.isRecording || !u.isPaused then u else u.(isPaused := false, recorderPaused := false)
  }

  /** stop_recording: the recorder stops, the controls lock and one synthesis run starts. */
  function Stop(u: Ui): Ui {
    if !u.isRecording then u
    else
      u.(recorderRunning := false, isRecording := false, isPaused := false, timerRunning := false,
         timerText := "Processing...", recordEnabled := false, pauseEnabled := false,
         synthesisRuns := u.synthesisRuns + 1)
  }

  function ToggleRecording(u: Ui, outcome: StartOutcome, now: real): Ui {
    if !u.isRecording then Start(u, outcome, now) else Stop(u)
  }

  function TogglePause(u: Ui): Ui {
    if u.isPaused then Resume(u) else Pause(u)
  }

  function Complete(u: Ui): Ui {
    u.(timerText := "Complete!", recordEnabled := true)
  }

  function ResetUi(u: Ui): Ui {
    u.(timerText := ZeroText, recordEnabled := true, pauseEnabled := false, timerRunning := false)
  }

  // ---------------------------------------------------------------------------
  // What the controls promise

  lemma OpenedValid()
    ensures Valid(Opened())
  {
  }

  /** Every control keeps the flags consistent. */
  lemma ControlsKeepValid(u: Ui, outcome: StartOutcome, now: real)
    requires Valid(u)
    ensures Valid(ToggleRecording(u, outcome, now))
    ensures Valid(TogglePause(u))
    ensures Valid(Stop(u))
    ensures Valid(Tick(u, now).0)
    ensures Valid(Complete(u)) && Valid(ResetUi(u))
  {
  }

  /** A successful start shows 00:00:00 and leaves the window recording, unpaused and with the pause button live. */
  lemma StartShowsZero(u: Ui, now: real)
    requires Valid(u) && !u.isRecording
    ensures var v := Start(u, Started, now);
      v.isRecording && !v.isPaused && v.timerRunning && v.pauseEnabled && v.timerText == ZeroText
  {
    assert Segmentation.Trunc(now - now) == 0;
    assert TimerText(0) == ZeroText by {
      assert SplitElapsed(0) == Hms(0, 0, 0) by {
        SplitElapsedUnique(0, Hms(0, 0, 0));
      }
    }
  }

  /**
   * A start that does not get going leaves the window's recording, pause and
   * timer flags and the synthesis count as they were; once the recorder has
   * been replaced, the recorder is a new one, neither running nor paused.
   */
  lemma FailedStartChangesNoFlag(u: Ui, outcome: StartOutcome, now: real)
    requires !u.isRecording && outcome != Started
    ensures var v := Start(u, outcome, now);
      v.isRecording == u.isRecording && v.isPaused == u.isPaused && v.timerRunning == u.timerRunning
      && v.synthesisRuns == u.synthesisRuns
    ensures outcome == FailedBeforeRecorder ==> Start(u, outcome, now) == u
    ensures outcome != FailedBeforeRecorder ==>
      !Start(u, outcome, now).recorderRunning && !Start(u, outcome, now).recorderPaused
  {
  }

  /** Pausing then resuming a running recording returns the window to where it was. */
  lemma PauseResumeRoundTrip(u: Ui)
    requires u.isRecording && !u.isPaused && !u.recorderPaused
    ensures Resume(Pause(u)) == u
    ensures TogglePause(TogglePause(u)) == u
  {
  }

  /** The pause toggle does nothing without a recording. */
  lemma PauseNeedsRecording(u: Ui)
    requires Valid(u) && !u.isRecording
    ensures TogglePause(u) == u
  {
  }

  /** Stopping ends the recording and starts exactly one synthesis run; stopping again changes nothing. */
  lemma StopOnce(u: Ui)
    requires Valid(u)
    ensures !Stop(u).isRecording && !Stop(u).isPaused && !Stop(u).timerRunning
    ensures Stop(u).synthesisRuns == u.synthesisRuns + (if u.isRecording then 1 else 0)
    ensures Stop(Stop(u)) == Stop(u)
  {
  }

  /**
   * The label shows the whole seconds since the start, H:MM:SS from which
   * the elapsed seconds read back; it freezes while paused; the timer stops
   * rescheduling exactly when it is neither running nor paused.
   */
  lemma TickShowsElapsed(u: Ui, now: real)
    requires Valid(u)
    ensures var (v, again) := Tick(u, now);
      && (u.timerRunning && !u.isPaused && now >= u.startTime.value ==>
            ParseHms(v.timerText) == Some(Segmentation.Trunc(now - u.startTime.value)))
      && (u.isPaused ==> v.timerText == u.timerText)
      && (again <==> u.timerRunning || u.isPaused)
  {
    if u.timerRunning && !u.isPaused && now >= u.startTime.value {
      var elapsed := Segmentation.Trunc(now - u.startTime.value);
      Segmentation.TruncBounds(now - u.startTime.value);
      TimerTextRoundTrip(elapsed);
    }
  }

  // ---------------------------------------------------------------------------
  // The end of synthesis

  /** How run_synthesis ends: an error resets the window; otherwise it completes, with the notes file it wrote, if any. */
  datatype SynthesisEnd = ResetAfterError | Completed(notes: Option<string>)

  /**
   * run_synthesis: a missing transcript is an error; a blank one completes
   * without notes; otherwise the notes are named after the session's date
   * and the cleaned title, or keep the working name when the rename fails.
   * For a blank transcript the source leaves final_notes_path at whatever an
   * earlier session set, so open_notes_file can still open that older file; the
   * window's notes path is not part of this model.
   */
  function RunSynthesis(transcript: Option<string>, sessionName: string, answer: string, renameOk: bool): SynthesisEnd {
    match transcript
    case None => ResetAfterError
    case Some(text) =>
      if Strip(text) == [] then Completed(None)
      else if renameOk then Completed(Some(Synthesis.NotesFileName(sessionName, Synthesis.CleanTitle(answer))))
      else Completed(Some("notes_logseq.md"))
  }

  /**
   * Notes are written exactly when the transcript has a word, and after a
   * successful rename of a session directory named by its clock they are
   * "YYYY-MM-DD_" followed by a safe title and ".md".
   */
  lemma SynthesisNotes(text: string, year: nat, month: nat, day: nat, hour: nat, minute: nat, second: nat, answer: string)
    ensures var session := Synthesis.SessionId(year, month, day, hour, minute, second);
      && (RunSynthesis(Some(text), session, answer, true).Completed?)
      && (RunSynthesis(Some(text), session, answer, true).notes.Some? <==> Words(text) != [])
      && (Words(text) != [] ==>
            RunSynthesis(Some(text), session, answer, true).notes.value
              == Synthesis.DateText(year, month, day) + "_" + Synthesis.CleanTitle(answer) + ".md")
  {
    Synthesis.NothingToSynthesize(text);
    Synthesis.NotesFileNameOfSession(year, month, day, hour, minute, second, Synthesis.CleanTitle(answer));
  }

  // ---------------------------------------------------------------------------
  // The window

  class Window {
    var isRecording: bool
    var isPaused: bool
    var timerRunning: bool
    var startTime: Option<real>
    var timerText: string
    var recorderRunning: bool
    var recorderPaused: bool
    var recordEnabled: bool
    var pauseEnabled: bool
    var synthesisRuns: nat

    function State(): Ui
      reads this
    {
      Ui(isRecording, isPaused, timerRunning, startTime, timerText, recorderRunning, recorderPaused,
         recordEnabled, pauseEnabled, synthesisRuns)
    }

    constructor()
      ensures State() == Opened()
    {
      isRecording, isPaused, timerRunning := false, false, false;
      startTime := None;
      timerText := ZeroText;
      recorderRunning, recorderPaused := false, false;
      recordEnabled, pauseEnabled := true, false;
      synthesisRuns := 0;
    }

    method UpdateTimer(now: real) returns (again: bool)
      modifies this
      ensures (State(), again) == Tick(old(State()), now)
    {
      if timerRunning && startTime.Some? && !isPaused {
        timerText := TimerText(Segmentation.Trunc(now - startTime.value));
        again := true;
      } else {
        again := isPaused || timerRunning;
      }
    }

    method StartRecording(outcome: StartOutcome, now: real)
      requires !isRecording
      modifies this
      ensures State() == Start(old(State()), outcome, now)
    {
      if outcome == FailedBeforeRecorder {
        return;
      }
      recorderRunning, recorderPaused := false, false;
      if outcome != Started {
        return;
      }
      ghost var started := old(State()).(isRecording := true, startTime := Some(now), timerRunning := true,
                                         recorderRunning := true, recorderPaused := false, pauseEnabled := true);
      recorderRunning := true;
      isRecording := true;
      startTime := Some(now);
      timerRunning := true;
      pauseEnabled := true;
      assert State() == started;
      var _ := UpdateTimer(now);
    }

    method PauseRecording()
      modifies this
      ensures State() == Pause(old(State()))
    {
      if !isRecording || isPaused {
        return;
      }
      isPaused := true;
      recorderPaused := true;
    }

    method ResumeRecording()
      modifies this
      ensures State() == Resume(old(State()))
    {
      if !isRecording || !isPaused {
        return;
      }
      isPaused := false;
      recorderPaused := false;
    }

    method StopRecording()
      modifies this
      ensures State() == Stop(old(State()))
    {
      if !isRecording {
        return;
      }
      recorderRunning := false;
      isRecording, isPaused, timerRunning := false, false, false;
      timerText := "Processing...";
      recordEnabled, pauseEnabled := false, false;
      synthesisRuns := synthesisRuns + 1;
    }

    /** The transcriber's auto-stop callback schedules the same stop. */
    method AutoStopRecording()
      modifies this
      ensures State() == Stop(old(State()))
    {
      StopRecording();
    }

    method ToggleRecordingButton(outcome: StartOutcome, now: real)
      modifies this
      ensures State() == ToggleRecording(old(State()), outcome, now)
    {
      if !isRecording {
        StartRecording(outcome, now);
      } else {
        StopRecording();
      }
    }

    method TogglePauseButton()
      modifies this
      ensures State() == TogglePause(old(State()))
    {
      if isPaused {
        ResumeRecording();
      } else {
        PauseRecording();
      }
    }

    method SynthesisComplete()
      modifies this
      ensures State() == Complete(old(State()))
    {
      timerText := "Complete!";
      recordEnabled := true;
    }

    method Reset()
      modifies this
      ensures State() == ResetUi(old(State()))
    {
      timerText := ZeroText;
      recordEnabled, pauseEnabled := true, false;
      timerRunning := false;
    }
  }
}
