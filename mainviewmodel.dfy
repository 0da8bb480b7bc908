/**
 * The recording state machine of the main view-model (MainViewModel.cs):
 * the record, pause and power-suspend handlers, the guards of
 * StartRecording, the recorder it constructs, the duration timer, the
 * availability of the record and screenshot commands, and AfterRecording.
 *
 * The recorder, the timer and the stopwatch are represented only by the
 * calls the view-model makes on them. Message boxes are inputs (the user's
 * answer) or outcomes; settings persistence, notifications, file naming
 * and the screenshot commands are not part of this model.
 */
module MainView {
  import opened Wrappers

  // ---------------------------------------------------------------------------
  // State

  datatype RecorderState = NotRecording | Recording | Paused

  datatype VideoSourceKind = NoVideo | Screen | Window | Region | DesktopDuplication

  datatype VideoWriterKind = FFMpegWriter | StreamingAlpha | GifWriter | OtherWriter

  /** Which IRecorder the view-model holds. */
  datatype RecorderKind =
    | VideoRecorder   // Recorder over a video writer, image provider and audio
    | AudioRecorder   // Recorder over an audio file writer
    | VfrGifRecorder  // the variable-frame-rate GIF recorder

  /** The recorder object and whether it was last told to Start (true) or Stop (false). */
  datatype RecorderObj = RecorderObj(kind: RecorderKind, running: bool)

  /** The stopwatch (_timing). */
  datatype Timing = TimingStopped | TimingRunning | TimingPaused

  datatype ViewState = ViewState(
    state: RecorderState,
    recorder: Option<RecorderObj>,
    timing: Timing,
    /** Init was asked for a timer (_timer is not null). */
    hasTimer: bool,
    timerRunning: bool,
    /** The elapsed time shown, in whole seconds (TimeSpan). */
    elapsed: int,
    /** The capture duration in seconds; 0 means no limit. */
    duration: int,
    /** The start delay in milliseconds. */
    startDelay: int,
    sourceKind: VideoSourceKind,
    isVideo: bool,
    recordEnabled: bool,
    screenShotEnabled: bool)

  /** A call that dereferences the missing recorder. */
  datatype Fault = NullReferenceException

  /**
   * The relations the handlers keep between the recording state, the
   * recorder and the clocks.
   */
  predicate Valid(s: ViewState) {
    (s.state == NotRecording ==> s.recorder.None? && !s.timerRunning) &&
    (s.state == Paused ==> s.recorder.Some? && !s.recorder.value.running && !s.timerRunning && s.timing == TimingPaused) &&
    (s.state == Recording && s.recorder.Some? ==> s.timing == TimingRunning && s.timerRunning == s.hasTimer) &&
    (!s.hasTimer ==> !s.timerRunning)
  }

  /** The view-model after Init. */
  function Initial(hasTimer: bool, duration: int, startDelay: int, sourceKind: VideoSourceKind): (s: ViewState)
    ensures Valid(s) && s.state == NotRecording
  {
    ViewState(NotRecording, None, TimingStopped, hasTimer, false, 0, duration, startDelay, sourceKind,
              false, false, false)
  }

  // ---------------------------------------------------------------------------
  // Pause and power events

  /**
   * OnPauseExecute: a paused recording is restarted (recorder, stopwatch and
   * timer started); any other state is paused (recorder and timer stopped,
   * stopwatch paused). Without a recorder the first call on it throws
   * before anything changes.
   */
  function PauseToggle(s: ViewState): (r: Result<ViewState, Fault>)
    ensures r.Err? <==> s.recorder.None?
    ensures r.Ok? && s.state == Paused ==> r.value.state == Recording && r.value.recorder == Some(RecorderObj(s.recorder.value.kind, true))
    ensures r.Ok? && s.state != Paused ==> r.value.state == Paused && r.value.recorder == Some(RecorderObj(s.recorder.value.kind, false))
    ensures r.Ok? ==> r.value.elapsed == s.elapsed && r.value.sourceKind == s.sourceKind
  {
    match s.recorder
    case None => Err(NullReferenceException)
    case Some(rec) =>
      if s.state == Paused then
        Ok(s.(recorder := Some(rec.(running := true)), timing := TimingRunning, timerRunning := s.hasTimer,
              state := Recording))
      else
        Ok(s.(recorder := Some(rec.(running := false)), timerRunning := false, timing := TimingPaused,
              state := Paused))
  }

  /** Pausing twice returns to the recording state it started from. */
  lemma PauseTwiceRestores(s: ViewState)
    requires Valid(s) && s.state != NotRecording && s.recorder.Some?
    ensures PauseToggle(s).Ok? && PauseToggle(PauseToggle(s).value).Ok?
    ensures var t := PauseToggle(PauseToggle(s).value).value;
      t.state == s.state && t.recorder.value.kind == s.recorder.value.kind && t.timing == s.timing &&
      t.timerRunning == s.timerRunning
  {
  }

  /** SystemEvents_PowerModeChanged: only a suspend while recording pauses. */
  function PowerModeChanged(s: ViewState, suspend: bool): (r: Result<ViewState, Fault>)
    ensures !(suspend && s.state == Recording) ==> r == Ok(s)
    ensures suspend && s.state == Recording ==> r == PauseToggle(s)
  {
    if suspend && s.state == Recording then PauseToggle(s) else Ok(s)
  }

  /** A suspend never resumes a paused recording and never touches an idle one. */
  lemma SuspendNeverResumes(s: ViewState, suspend: bool)
    requires Valid(s)
    ensures s.state != Recording || s.recorder.Some? ==> PowerModeChanged(s, suspend).Ok?
    ensures PowerModeChanged(s, suspend).Ok? ==>
      PowerModeChanged(s, suspend).value.state == (if suspend && s.state == Recording then Paused else s.state)
  {
  }

  // ---------------------------------------------------------------------------
  // Starting

  /** What the environment answers while StartRecording runs. */
  datatype ProviderOutcome =
    | ProviderOk
    | ProviderNotSupported(turnOffDuplication: bool)  // and the user's answer to the offer
    | ProviderFails

  /** The selections and answers StartRecording consults. */
  datatype Selection = Selection(
    writer: VideoWriterKind,
    /** The selected source is the FFmpeg audio item. */
    sourceIsFFmpegAudio: bool,
    /** The selected source is a NoVideoItem (audio-only writer). */
    sourceIsNoVideoItem: bool,
    ffmpegExists: bool,
    gifVariable: bool,
    /** A loopback or recording source other than "no sound" is selected. */
    audioSelected: bool,
    /** The answer to "Audio won't be included in the recording. Do you want to record?" */
    recordGifWithoutAudio: bool,
    provider: ProviderOutcome)

  /** Why StartRecording returned without recording. */
  datatype Refusal =
    | FFmpegUnavailable
    | VfrGifWithDuplication
    | GifAudioDeclined
    | DelayExceedsDuration
    | DuplicationUnsupported(switchedToScreen: bool)
    | ProviderError

  predicate NeedsFFmpeg(kind: VideoSourceKind, sel: Selection) {
    sel.writer == FFMpegWriter || sel.writer == StreamingAlpha || (kind == NoVideo && sel.sourceIsFFmpegAudio)
  }

  /** The early returns of StartRecording, in the order the code checks them. */
  function StartGuard(s: ViewState, sel: Selection): (r: Option<Refusal>)
    ensures NeedsFFmpeg(s.sourceKind, sel) && !sel.ffmpegExists ==> r == Some(FFmpegUnavailable)
    ensures sel.writer == GifWriter && sel.gifVariable && s.sourceKind == DesktopDuplication ==> r.Some?
    ensures sel.writer == GifWriter && sel.audioSelected && !sel.recordGifWithoutAudio ==> r.Some?
    ensures s.duration != 0 && s.startDelay > s.duration * 1000 ==> r.Some?
    ensures sel.provider != ProviderOk ==> r.Some?
    ensures r.None? <==>
      (!NeedsFFmpeg(s.sourceKind, sel) || sel.ffmpegExists) &&
      !(sel.writer == GifWriter && sel.gifVariable && s.sourceKind == DesktopDuplication) &&
      !(sel.writer == GifWriter && sel.audioSelected && !sel.recordGifWithoutAudio) &&
      !(s.duration != 0 && s.startDelay > s.duration * 1000) &&
      sel.provider == ProviderOk
    ensures r.Some? && r.value.DuplicationUnsupported? ==> s.sourceKind == DesktopDuplication
  {
    if NeedsFFmpeg(s.sourceKind, sel) && !sel.ffmpegExists then Some(FFmpegUnavailable)
    else if sel.writer == GifWriter && sel.gifVariable && s.sourceKind == DesktopDuplication then Some(VfrGifWithDuplication)
    else if sel.writer == GifWriter && sel.audioSelected && !sel.recordGifWithoutAudio then Some(GifAudioDeclined)
    else if s.duration != 0 && s.startDelay > s.duration * 1000 then Some(DelayExceedsDuration)
    else match sel.provider
      case ProviderOk => None
      case ProviderNotSupported(yes) =>
        if s.sourceKind == DesktopDuplication then Some(DuplicationUnsupported(yes)) else Some(ProviderError)
      case ProviderFails => Some(ProviderError)
  }

  /** GetVideoFileWriter creates the variable-rate GIF recorder: a video source and a variable GIF writer. */
  predicate VfrBranch(kind: VideoSourceKind, sel: Selection) {
    kind != NoVideo && sel.writer == GifWriter && sel.gifVariable
  }

  /**
   * The recorder after GetVideoFileWriter and the construction in
   * StartRecording: a variable-rate GIF writer installs its own recorder,
   * which then stands in for the generic one; an existing recorder is
   * kept; otherwise a video recorder, or an audio recorder for an
   * audio-only item, and none for any other source.
   */
  function NewRecorder(existing: Option<RecorderKind>, kind: VideoSourceKind, sel: Selection): (r: Option<RecorderKind>)
    ensures kind != NoVideo && sel.writer == GifWriter && sel.gifVariable ==> r == Some(VfrGifRecorder)
    ensures r == Some(VfrGifRecorder) ==> (kind != NoVideo && sel.writer == GifWriter && sel.gifVariable) || existing == r
    ensures r.None? <==> existing.None? && kind == NoVideo && !sel.sourceIsNoVideoItem
    ensures r == Some(VideoRecorder) ==> kind != NoVideo || existing == r
  {
    if VfrBranch(kind, sel) then Some(VfrGifRecorder)
    else if existing.Some? then existing
    else if kind != NoVideo then Some(VideoRecorder)
    else if sel.sourceIsNoVideoItem then Some(AudioRecorder)
    else None
  }

  /** How a call of StartRecording ends. */
  datatype StartOutcome =
    | Started
    | Refused(reason: Refusal)
    | NoRecorder   // the handler subscription dereferences the missing recorder

  /**
   * StartRecording. A refusal changes nothing, except that declining
   * Desktop Duplication after it proved unsupported switches the source to
   * the screen. Otherwise the state becomes Recording and the shown time 0;
   * the new recorder is started at once when there is no start delay, and
   * the stopwatch and the timer (if any) are started.
   */
  function Start(s: ViewState, sel: Selection): (r: (ViewState, StartOutcome))
    ensures r.1.Refused? <==> StartGuard(s, sel).Some?
    ensures r.1.Refused? && r.1.reason == DuplicationUnsupported(true) ==> r.0 == s.(sourceKind := Screen)
    ensures r.1.Refused? && r.1.reason != DuplicationUnsupported(true) ==> r.0 == s
    ensures !r.1.Refused? ==> r.0.state == Recording && r.0.elapsed == 0 && r.0.isVideo == (s.sourceKind != NoVideo)
    ensures r.1 == Started <==>
      StartGuard(s, sel).None? && NewRecorder(KindOf(s.recorder), s.sourceKind, sel).Some?
    ensures r.1 == Started ==> r.0.timing == TimingRunning && r.0.timerRunning == s.hasTimer
    ensures r.1 == Started ==>
      r.0.recorder.Some? && r.0.recorder.value.kind == NewRecorder(KindOf(s.recorder), s.sourceKind, sel).value
    ensures r.1 == Started && s.startDelay <= 0 ==> r.0.recorder.value.running
    ensures r.1 == Started && s.recorder.None? ==> r.0.recorder.value.running == (s.startDelay <= 0)
  {
    match StartGuard(s, sel)
    case Some(reason) =>
      (if reason == DuplicationUnsupported(true) then s.(sourceKind := Screen) else s, Refused(reason))
    case None =>
      var entered := s.(state := Recording, isVideo := s.sourceKind != NoVideo, timerRunning := false, elapsed := 0);
      match NewRecorder(KindOf(s.recorder), s.sourceKind, sel)
      case None => (entered, NoRecorder)
      case Some(kind) =>
        var kept := s.recorder.Some? && !VfrBranch(s.sourceKind, sel);
        var recorder := RecorderObj(kind, s.startDelay <= 0 || (kept && s.recorder.value.running));
        (entered.(recorder := Some(recorder), timing := TimingRunning, timerRunning := s.hasTimer), Started)
  }

  function KindOf(rec: Option<RecorderObj>): Option<RecorderKind> {
    if rec.Some? then Some(rec.value.kind) else None
  }

  // ---------------------------------------------------------------------------
  // Stopping

  /** AfterRecording: not recording, no recorder, timer and stopwatch stopped. */
  function AfterRecording(s: ViewState): (r: ViewState)
    ensures r.state == NotRecording && r.recorder.None?
    ensures !r.timerRunning && r.timing == TimingStopped
    ensures r.elapsed == s.elapsed && r.sourceKind == s.sourceKind && r.isVideo == s.isVideo
  {
    s.(state := NotRecording, recorder := None, timerRunning := false, timing := TimingStopped)
  }

  /** How the record command ended. */
  datatype RecordOutcome = StartAttempt(outcome: StartOutcome) | StoppedRecording

  /** RecordCommand: start when not recording, stop otherwise. */
  function RecordCommand(s: ViewState, sel: Selection): (r: (ViewState, RecordOutcome))
    ensures s.state == NotRecording ==> r == (Start(s, sel).0, StartAttempt(Start(s, sel).1))
    ensures s.state != NotRecording ==> r == (AfterRecording(s), StoppedRecording)
  {
    if s.state == NotRecording then
      var (t, outcome) := Start(s, sel);
      (t, StartAttempt(outcome))
    else (AfterRecording(s), StoppedRecording)
  }

  /** Pressing record while recording or paused always ends the recording. */
  lemma RecordWhileRecordingStops(s: ViewState, sel: Selection)
    requires s.state != NotRecording
    ensures RecordCommand(s, sel).0.state == NotRecording && RecordCommand(s, sel).0.recorder.None?
  {
  }

  /** From an idle view-model, pressing record records exactly when no guard refuses and a recorder exists. */
  lemma RecordFromIdle(s: ViewState, sel: Selection)
    requires Valid(s) && s.state == NotRecording
    ensures RecordCommand(s, sel).0.state == Recording <==> StartGuard(s, sel).None?
    ensures RecordCommand(s, sel).1 == StartAttempt(Started) <==>
      StartGuard(s, sel).None? && (s.sourceKind != NoVideo || sel.sourceIsNoVideoItem)
  {
  }

  /** The variable-rate GIF recorder is the one recording whenever it is selected with a video source. */
  lemma VfrGifTakesOver(s: ViewState, sel: Selection)
    requires StartGuard(s, sel).None? && s.sourceKind != NoVideo && sel.writer == GifWriter && sel.gifVariable
    ensures Start(s, sel).1 == Started && Start(s, sel).0.recorder.value.kind == VfrGifRecorder
  {
  }

  // ---------------------------------------------------------------------------
  // Timer and command availability

  /**
   * TimerOnElapsed: the shown time becomes the stopwatch's whole seconds,
   * and a stop is requested once a duration is set and reached.
   */
  function TimerElapsed(s: ViewState, elapsedMilliseconds: nat): (r: (ViewState, bool))
    ensures r.0 == s.(elapsed := r.0.elapsed)
    ensures r.0.elapsed * 1000 <= elapsedMilliseconds < (r.0.elapsed + 1) * 1000
    ensures r.1 <==> s.duration > 0 && elapsedMilliseconds >= s.duration * 1000
  {
    var seconds := elapsedMilliseconds / 1000;
    (s.(elapsed := seconds), s.duration > 0 && seconds >= s.duration)
  }

  /** CheckFunctionalityAvailability. */
  function CheckAvailability(s: ViewState, audioAvailable: bool): (r: ViewState)
    ensures r == s.(recordEnabled := r.recordEnabled, screenShotEnabled := r.screenShotEnabled)
    ensures r.recordEnabled <==> audioAvailable || s.sourceKind != NoVideo
    ensures r.screenShotEnabled <==> s.sourceKind != NoVideo
  {
    var videoAvailable := s.sourceKind != NoVideo;
    s.(recordEnabled := audioAvailable || videoAvailable, screenShotEnabled := videoAvailable)
  }

  /** Whenever a screenshot can be taken a recording can be started. */
  lemma ScreenShotImpliesRecord(s: ViewState, audioAvailable: bool)
    ensures CheckAvailability(s, audioAvailable).screenShotEnabled ==> CheckAvailability(s, audioAvailable).recordEnabled
  {
  }

  // ---------------------------------------------------------------------------
  // The invariant

  /** Every handler keeps Valid. */
  lemma HandlersKeepValid(s: ViewState, sel: Selection, suspend: bool, ms: nat, audioAvailable: bool)
    requires Valid(s)
    ensures PauseToggle(s).Ok? ==> Valid(PauseToggle(s).value)
    ensures PowerModeChanged(s, suspend).Ok? ==> Valid(PowerModeChanged(s, suspend).value)
    ensures Valid(Start(s, sel).0)
    ensures Valid(AfterRecording(s))
    ensures Valid(RecordCommand(s, sel).0)
    ensures Valid(TimerElapsed(s, ms).0)
    ensures Valid(CheckAvailability(s, audioAvailable))
  {
    PauseKeepsValid(s);
    PowerKeepsValid(s, suspend);
    StartKeepsValid(s, sel);
    RecordCommandKeepsValid(s, sel);
  }

  lemma PauseKeepsValid(s: ViewState)
    requires Valid(s)
    ensures PauseToggle(s).Ok? ==> Valid(PauseToggle(s).value)
  {
  }

  lemma PowerKeepsValid(s: ViewState, suspend: bool)
    requires Valid(s)
    ensures PowerModeChanged(s, suspend).Ok? ==> Valid(PowerModeChanged(s, suspend).value)
  {
  }

  lemma StartKeepsValid(s: ViewState, sel: Selection)
    requires Valid(s)
    ensures Valid(Start(s, sel).0)
  {
  }

  lemma RecordCommandKeepsValid(s: ViewState, sel: Selection)
    requires Valid(s)
    ensures Valid(RecordCommand(s, sel).0)
  {
  }

  // ---------------------------------------------------------------------------
  // The view-model object

  class MainViewModel {
    var state: RecorderState
    var recorder: Option<RecorderObj>
    var timing: Timing
    const hasTimer: bool
    var timerRunning: bool
    var elapsed: int
    var duration: int
    var startDelay: int
    var sourceKind: VideoSourceKind
    var isVideo: bool
    var recordEnabled: bool
    var screenShotEnabled: bool

    function View(): ViewState
      reads this
    {
      ViewState(state, recorder, timing, hasTimer, timerRunning, elapsed, duration, startDelay, sourceKind,
                isVideo, recordEnabled, screenShotEnabled)
    }

    constructor (hasTimer: bool, duration: int, startDelay: int, sourceKind: VideoSourceKind)
      ensures View() == Initial(hasTimer, duration, startDelay, sourceKind)
    {
      state, recorder, timing := NotRecording, None, TimingStopped;
      this.hasTimer, timerRunning, elapsed := hasTimer, false, 0;
      this.duration, this.startDelay, this.sourceKind := duration, startDelay, sourceKind;
      isVideo, recordEnabled, screenShotEnabled := false, false, false;
    }

    method OnPauseExecute() returns (r: Result<(), Fault>)
      modifies this
      ensures PauseToggle(old(View())).Ok? ==> r.Ok? && View() == PauseToggle(old(View())).value
      ensures PauseToggle(old(View())).Err? ==> r.Err? && View() == old(View())
    {
      if recorder.None? {
        return Err(NullReferenceException);
      }
      var rec := recorder.value;
      if state == Paused {
        recorder := Some(rec.(running := true));
        timing := TimingRunning;
        timerRunning := hasTimer;
        state := Recording;
      } else {
        recorder := Some(rec.(running := false));
        timerRunning := false;
        timing := TimingPaused;
        state := Paused;
      }
      return Ok(());
    }

    method PowerModeChangedHandler(suspend: bool) returns (r: Result<(), Fault>)
      modifies this
      ensures PowerModeChanged(old(View()), suspend).Ok? ==> r.Ok? && View() == PowerModeChanged(old(View()), suspend).value
      ensures PowerModeChanged(old(View()), suspend).Err? ==> r.Err? && View() == old(View())
    {
      r := Ok(());
      if suspend && state == Recording {
        r := OnPauseExecute();
      }
    }

    method AfterRecordingStep()
      modifies this
      ensures View() == AfterRecording(old(View()))
    {
      state := NotRecording;
      recorder := None;
      timerRunning := false;
      timing := TimingStopped;
    }

    method StartRecording(sel: Selection) returns (outcome: StartOutcome)
      modifies this
      ensures (View(), outcome) == Start(old(View()), sel)
    {
      var refusal := StartGuard(View(), sel);
      if refusal.Some? {
        if refusal.value == DuplicationUnsupported(true) {
          sourceKind := Screen;
        }
        return Refused(refusal.value);
      }
      outcome := EnterRecording(sel);
    }

    /** The part of StartRecording after its guards: Recording, then the recorder, stopwatch and timer. */
    method EnterRecording(sel: Selection) returns (outcome: StartOutcome)
      requires StartGuard(View(), sel).None?
      modifies this
      ensures (View(), outcome) == Start(old(View()), sel)
    {
      // RecorderState, isVideo, _timer?.Stop() and TimeSpan, in this order
      state, isVideo, timerRunning, elapsed := Recording, sourceKind != NoVideo, false, 0;
      var kind := NewRecorder(KindOf(recorder), sourceKind, sel);
      if kind.None? {
        return NoRecorder;
      }
      // a recorder that is kept and whose start is delayed keeps its last Start/Stop
      var kept := recorder.Some? && !VfrBranch(sourceKind, sel);
      var running := startDelay <= 0 || (kept && recorder.value.running);
      recorder, timing, timerRunning := Some(RecorderObj(kind.value, running)), TimingRunning, hasTimer;
      return Started;
    }

    method Record(sel: Selection) returns (outcome: RecordOutcome)
      modifies this
      ensures (View(), outcome) == RecordCommand(old(View()), sel)
    {
      if state == NotRecording {
        var started := StartRecording(sel);
        outcome := StartAttempt(started);
      } else {
        AfterRecordingStep();
        outcome := StoppedRecording;
      }
    }

    method TimerOnElapsed(elapsedMilliseconds: nat) returns (stopRequested: bool)
      modifies this
      ensures (View(), stopRequested) == TimerElapsed(old(View()), elapsedMilliseconds)
    {
      elapsed := elapsedMilliseconds / 1000;
      stopRequested := duration > 0 && elapsed >= duration;
    }

    method CheckFunctionalityAvailability(audioAvailable: bool)
      modifies this
      ensures View() == CheckAvailability(old(View()), audioAvailable)
    {
      var videoAvailable := sourceKind != NoVideo;
      recordEnabled := audioAvailable || videoAvailable;
      screenShotEnabled := videoAvailable;
    }
  }
}
