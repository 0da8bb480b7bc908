/**
 * The sequential control logic of the screen-and-audio recorder (Recorder.cs):
 * audio-device configuration in the constructor, the Pause/Resume/Dispose flag
 * machine, the frame-pacing rule of the video loop and the two-signal handshake
 * between the video loop and the audio callback.
 *
 * The two threads are not modelled as threads. Each piece of code that runs
 * between two blocking points is one atomic step; a step whose wait cannot
 * complete yet reports that it is blocked and changes nothing, so the caller
 * (the scheduler of the environment) may try it again later. The clock is an
 * input of the steps that read it.
 */
module Recording {
  import opened Wrappers

  // ---------------------------------------------------------------------------
  // Configuration

  /** What the recorder is constructed from (RecorderParams). */
  datatype RecorderParams = RecorderParams(
    captureVideo: bool,
    isLoopback: bool,
    /** The parsed audio source id; None when int.Parse throws. */
    audioSourceId: Option<int>,
    /** The writer's frame rate, taken as a whole number. */
    framesPerSecond: nat,
    /** Creating the voice audio stream throws. */
    audioStreamFails: bool,
    /** The frame interval 1/fps, in clock ticks. */
    frameInterval: nat)

  /** The audio source the constructor ends up with. */
  datatype AudioInput =
    | NoAudio
    | Microphone(device: int, bufferMilliseconds: nat, numberOfBuffers: nat)
    | LoopbackCapture

  /** The parts of the recorder that are fixed at construction. */
  datatype Config = Config(
    captureVideo: bool,
    isLoopback: bool,
    input: AudioInput,
    hasAudioStream: bool,
    frameInterval: nat)

  /** Number of device buffers of the microphone input. */
  const InputBufferCount: nat := 3

  /** Integer division rounding up: the least r with r * d >= n. */
  function CeilDiv(n: nat, d: nat): (r: nat)
    requires d > 0
    ensures r * d >= n
    ensures r == 0 || (r - 1) * d < n
  {
    var q := (n + d - 1) / d;
    var m := (n + d - 1) % d;
    assert n + d - 1 == q * d + m && 0 <= m < d;
    assert q * d >= n;
    if q == 0 then 0
    else
      assert (q - 1) * d == q * d - d;
      q
  }

  /**
   * The microphone buffer holds one frame's worth of audio:
   * ceil(1000 / fps) milliseconds.
   */
  function BufferMilliseconds(framesPerSecond: nat): (ms: nat)
    requires framesPerSecond > 0
    ensures ms * framesPerSecond >= 1000
    ensures (ms - 1) * framesPerSecond < 1000
  {
    CeilDiv(1000, framesPerSecond)
  }

  /**
   * The audio source chosen by the constructor as the code is written. Any
   * exception inside the try block falls back to loopback capture: a source
   * id that does not parse, a failing stream creation, a zero frame rate
   * (division by zero) and, when no video is captured, the null AVI writer
   * whose frame rate is read for the buffer size.
   */
  function AudioSetupAsWritten(p: RecorderParams): (input: AudioInput)
    ensures p.audioSourceId == Some(-1) <==> input == NoAudio
    ensures input.Microphone? ==> p.captureVideo
  {
    match p.audioSourceId
    case None => LoopbackCapture
    case Some(id) =>
      if id == -1 then NoAudio
      else if !p.captureVideo then LoopbackCapture
      else if p.audioStreamFails || p.framesPerSecond == 0 then LoopbackCapture
      else Microphone(id, BufferMilliseconds(p.framesPerSecond), InputBufferCount)
  }

  /** An audio-only recording of microphone 0 is turned into loopback capture. */
  lemma AudioOnlyMicrophoneFallsBackToLoopback()
    ensures AudioSetupAsWritten(RecorderParams(false, false, Some(0), 30, false, 33)) == LoopbackCapture
  {
  }

  /**
   * The audio source chosen by the constructor with the frame rate taken
   * from the parameters, so that an audio-only recording uses the requested
   * input device.
   */
  function AudioSetup(p: RecorderParams): (input: AudioInput)
    ensures p.audioSourceId == Some(-1) <==> input == NoAudio
    ensures input.Microphone? <==>
      (exists id :: p.audioSourceId == Some(id) && id != -1) &&
      p.framesPerSecond > 0 && !(p.captureVideo && p.audioStreamFails)
    ensures input.Microphone? ==>
      Some(input.device) == p.audioSourceId &&
      input.numberOfBuffers == InputBufferCount &&
      input.bufferMilliseconds * p.framesPerSecond >= 1000 &&
      (input.bufferMilliseconds - 1) * p.framesPerSecond < 1000
    ensures input == LoopbackCapture <==>
      p.audioSourceId != Some(-1) && !input.Microphone?
  {
    match p.audioSourceId
    case None => LoopbackCapture
    case Some(id) =>
      if id == -1 then NoAudio
      else if (p.captureVideo && p.audioStreamFails) || p.framesPerSecond == 0 then LoopbackCapture
      else Microphone(id, BufferMilliseconds(p.framesPerSecond), InputBufferCount)
  }

  /** Whenever the video is captured the two setups agree. */
  lemma AudioSetupAgreesWithVideo(p: RecorderParams)
    requires p.captureVideo
    ensures AudioSetup(p) == AudioSetupAsWritten(p)
  {
  }

  /**
   * The configuration the constructor sets up, as the code is written: an
   * audio stream is added to the AVI file exactly when video is captured
   * and there is an audio source.
   */
  function ConfigOf(p: RecorderParams): (c: Config)
    ensures c.input == AudioSetupAsWritten(p)
    ensures c.captureVideo == p.captureVideo && c.isLoopback == p.isLoopback && c.frameInterval == p.frameInterval
    ensures c.hasAudioStream <==> p.captureVideo && c.input != NoAudio
  {
    var input := AudioSetupAsWritten(p);
    Config(p.captureVideo, p.isLoopback, input, p.captureVideo && input != NoAudio, p.frameInterval)
  }

  /** The configuration with the corrected audio setup. */
  function CorrectedConfigOf(p: RecorderParams): (c: Config)
    ensures c.input == AudioSetup(p)
    ensures c.captureVideo == p.captureVideo && c.isLoopback == p.isLoopback && c.frameInterval == p.frameInterval
    ensures c.hasAudioStream <==> p.captureVideo && c.input != NoAudio
  {
    var input := AudioSetup(p);
    Config(p.captureVideo, p.isLoopback, input, p.captureVideo && input != NoAudio, p.frameInterval)
  }

  /**
   * The correction changes audio-only recordings only: whenever video is
   * captured (as in every configuration with the audio/video handshake) the
   * two configurations are the same.
   */
  lemma CorrectionOnlyWithoutVideo(p: RecorderParams)
    ensures p.captureVideo ==> CorrectedConfigOf(p) == ConfigOf(p)
    ensures ConfigOf(p) != CorrectedConfigOf(p) ==>
      !p.captureVideo && ConfigOf(p).input == LoopbackCapture && CorrectedConfigOf(p).input.Microphone?
  {
    if p.captureVideo {
      AudioSetupAgreesWithVideo(p);
    }
  }

  // ---------------------------------------------------------------------------
  // Frame pacing

  /**
   * The time the video loop sleeps before the next capture: the cycle began
   * at timestamp, the next one is due at timestamp + interval; a cycle that
   * overran its interval is followed at once.
   */
  function FrameWait(timestamp: int, interval: nat, now: int): (wait: nat)
    ensures now + wait >= timestamp + interval
    ensures wait == 0 || now + wait == timestamp + interval
  {
    var t := timestamp + interval - now;
    if t < 0 then 0 else t
  }

  /**
   * The start times of successive capture cycles, from a first start t,
   * when cycle k takes work[k] ticks from its timestamp to the end of its
   * submission and the loop then sleeps for FrameWait.
   */
  function StartTimes(t: int, interval: nat, work: seq<nat>): (r: seq<int>)
    ensures |r| == |work| + 1 && r[0] == t
    decreases |work|
  {
    if work == [] then [t]
    else [t] + StartTimes(t + work[0] + FrameWait(t, interval, t + work[0]), interval, work[1..])
  }

  /**
   * No catch-up bursts: a cycle never starts less than one interval after
   * the previous one, nor before the previous one's work is done; it starts
   * at the later of these two times.
   */
  lemma {:induction false} StartsAreSpaced(t: int, interval: nat, work: seq<nat>, k: nat)
    requires k < |work|
    ensures StartTimes(t, interval, work)[k + 1] ==
      StartTimes(t, interval, work)[k] + (if work[k] > interval then work[k] else interval)
    decreases k
  {
    var next := t + work[0] + FrameWait(t, interval, t + work[0]);
    if k > 0 {
      StartsAreSpaced(next, interval, work[1..], k - 1);
    }
  }

  /** When no cycle overruns the interval, cycle k starts exactly k intervals after the first. */
  lemma {:induction false} ConstantRateWhenNotOverloaded(t: int, interval: nat, work: seq<nat>, k: nat)
    requires k <= |work|
    requires forall i :: 0 <= i < |work| ==> work[i] <= interval
    ensures StartTimes(t, interval, work)[k] == t + k * interval
    decreases k
  {
    if k > 0 {
      var next := t + work[0] + FrameWait(t, interval, t + work[0]);
      assert next == t + interval;
      ConstantRateWhenNotOverloaded(next, interval, work[1..], k - 1);
      assert StartTimes(t, interval, work)[k] == StartTimes(next, interval, work[1..])[k - 1];
      assert t + interval + (k - 1) * interval == t + k * interval;
    }
  }

  // ---------------------------------------------------------------------------
  // Recorder state

  /** The silence player that keeps a loopback device's clock running. */
  datatype Player = NoPlayer | Playing | PausedPlayer

  /** Where the video thread is: not created, before the loop test, at the rendezvous, returned. */
  datatype VideoPc = NoThread | AtLoopTop | AtRendezvous | Finished

  /** One write observed by the container writer or the wave writer. */
  datatype Write = Frame | Block(bytes: nat) | WaveBlock(bytes: nat)

  /** The three wait handles: two auto-reset events and the manual-reset stop event. */
  datatype Signals = Signals(
    videoFrameWritten: bool,
    audioBlockWritten: bool,
    stopRequested: bool,
    stopClosed: bool)

  /** The video thread: where it is and the locals of RecordScreen. */
  datatype VideoThread = VideoThread(
    pc: VideoPc,
    suspended: bool,
    isFirstFrame: bool,
    /** The last asynchronous frame write has been started and not yet awaited. */
    writePending: bool,
    timestamp: int,
    timeTillNextFrame: int,
    /** Some capture refilled the frame buffer while a write of it was pending. */
    fillDuringWrite: bool)

  datatype RecState = RecState(
    cfg: Config,
    silence: Player,
    isPaused: bool,
    sig: Signals,
    vt: VideoThread,
    audioRecording: bool,
    handlerAttached: bool,
    writerClosed: bool,
    log: seq<Write>)

  /** The state right after the constructor. */
  function Init(p: RecorderParams): (s: RecState)
    ensures s.cfg == ConfigOf(p) && s.log == [] && !s.isPaused && !s.sig.stopRequested
    ensures s.cfg.captureVideo && s.cfg.input != NoAudio ==> s.sig.videoFrameWritten && !s.sig.audioBlockWritten
    ensures s.silence == Playing <==> s.cfg.input == LoopbackCapture
    ensures s.audioRecording <==> s.cfg.input != NoAudio
  {
    var c := ConfigOf(p);
    var hasSource := c.input != NoAudio;
    RecState(
      cfg := c,
      silence := if c.input == LoopbackCapture then Playing else NoPlayer,
      isPaused := false,
      sig := Signals(hasSource && c.captureVideo, false, false, false),
      vt := VideoThread(if c.captureVideo then AtLoopTop else NoThread, false, true, false, 0, 0, false),
      audioRecording := hasSource,
      handlerAttached := hasSource,
      writerClosed := false,
      log := [])
  }

  /**
   * As the code is written, an audio-only recording of microphone 0 starts
   * the silence player and records the loopback device.
   */
  lemma AudioOnlyMicrophoneRecordsLoopback()
    ensures var s := Init(RecorderParams(false, false, Some(0), 30, false, 33));
      s.cfg.input == LoopbackCapture && s.silence == Playing && s.audioRecording && !s.cfg.hasAudioStream
  {
    AudioOnlyMicrophoneFallsBackToLoopback();
  }

  /** Pause: silence player paused, video thread suspended, audio stopped. */
  function PauseStep(s: RecState): (r: RecState)
    ensures r.isPaused && r.log == s.log
    ensures s.isPaused ==> r == s
    ensures !s.isPaused ==> !r.audioRecording
    ensures !s.isPaused ==>
      r.vt.suspended == (s.cfg.captureVideo || s.vt.suspended) &&
      r.(silence := s.silence, vt := s.vt, audioRecording := s.audioRecording, isPaused := false) == s
  {
    if s.isPaused then s
    else s.(silence := if s.silence == NoPlayer then NoPlayer else PausedPlayer,
            vt := if s.cfg.captureVideo then s.vt.(suspended := true) else s.vt,
            audioRecording := false,
            isPaused := true)
  }

  /** The handshake back to its initial signals. */
  function ResetHandshake(sig: Signals): (r: Signals)
    ensures r.videoFrameWritten && !r.audioBlockWritten
    ensures r.stopRequested == sig.stopRequested && r.stopClosed == sig.stopClosed
  {
    sig.(videoFrameWritten := true, audioBlockWritten := false)
  }

  /** The audio side of Resume: silence player playing, audio restarted when there is a source, no longer paused. */
  function ResumeAudio(s: RecState): (r: RecState)
    ensures !r.isPaused && (s.cfg.input != NoAudio ==> r.audioRecording)
    ensures r.(silence := s.silence, audioRecording := s.audioRecording, isPaused := s.isPaused) == s
  {
    s.(silence := if s.silence == NoPlayer then NoPlayer else Playing,
       audioRecording := s.cfg.input != NoAudio || s.audioRecording,
       isPaused := false)
  }

  /** The video side of Resume: the thread resumed and, with an audio source, the handshake reset. */
  function ResumeVideo(s: RecState): (r: RecState)
    ensures !r.vt.suspended && r.vt.(suspended := s.vt.suspended) == s.vt
    ensures s.cfg.input != NoAudio ==> r.sig == ResetHandshake(s.sig)
    ensures s.cfg.input == NoAudio ==> r.sig == s.sig
    ensures r.(vt := s.vt, sig := s.sig) == s
  {
    s.(vt := s.vt.(suspended := false),
       sig := if s.cfg.input != NoAudio then ResetHandshake(s.sig) else s.sig)
  }

  /**
   * Resume: silence player playing, video thread resumed, audio restarted,
   * and with video and an audio source the handshake back to its initial
   * signals.
   */
  function ResumeStep(s: RecState): (r: RecState)
    ensures !r.isPaused && r.log == s.log && r.cfg == s.cfg
    ensures !s.isPaused ==> r == s
    ensures s.isPaused && s.cfg.input != NoAudio ==> r.audioRecording
    ensures s.isPaused && s.cfg.captureVideo ==> !r.vt.suspended
    ensures s.isPaused && s.cfg.captureVideo && s.cfg.input != NoAudio ==>
      r.sig.videoFrameWritten && !r.sig.audioBlockWritten
  {
    if !s.isPaused then s
    else
      var audio := ResumeAudio(s);
      if s.cfg.captureVideo then ResumeVideo(audio) else audio
  }

  /** Signalling stop (unless the stop event is already closed), aborting the video thread, closing the stop event. */
  function StopVideoThread(s: RecState): (r: RecState)
    ensures r.sig.stopClosed && r.vt.pc == Finished && (r.sig.stopRequested || s.sig.stopClosed)
    ensures r.(sig := s.sig, vt := s.vt) == s
  {
    s.(sig := s.sig.(stopRequested := s.sig.stopRequested || !s.sig.stopClosed, stopClosed := true),
       vt := s.vt.(pc := Finished))
  }

  /** Stopping and dropping the silence player, stopping and detaching the audio source, closing the writer. */
  function ReleaseResources(s: RecState): (r: RecState)
    ensures r.silence == NoPlayer && r.writerClosed && !r.audioRecording && !r.handlerAttached
    ensures r.(silence := s.silence, audioRecording := s.audioRecording,
               handlerAttached := s.handlerAttached, writerClosed := s.writerClosed) == s
  {
    s.(silence := NoPlayer, audioRecording := false, handlerAttached := false, writerClosed := true)
  }

  /** What Dispose does after the resume: the video thread (with video), then the resources. */
  function ShutdownStep(s: RecState): (r: RecState)
    ensures r.silence == NoPlayer && r.writerClosed && !r.audioRecording && !r.handlerAttached
    ensures r.isPaused == s.isPaused && r.log == s.log && r.cfg == s.cfg
    ensures s.cfg.captureVideo ==>
      r.sig.stopClosed && r.vt.pc == Finished && (r.sig.stopRequested || s.sig.stopClosed)
    ensures !s.cfg.captureVideo ==> r.sig == s.sig && r.vt == s.vt
  {
    ReleaseResources(if s.cfg.captureVideo then StopVideoThread(s) else s)
  }

  /** Dispose: resume if paused, then shut down. */
  function DisposeStep(s: RecState): (r: RecState)
    ensures !r.isPaused && r.silence == NoPlayer && r.writerClosed
    ensures !r.audioRecording && !r.handlerAttached && r.log == s.log && r.cfg == s.cfg
    ensures s.cfg.captureVideo ==>
      r.sig.stopClosed && r.vt.pc == Finished && (r.sig.stopRequested || s.sig.stopClosed)
  {
    ShutdownStep(ResumeStep(s))
  }

  /** A second Dispose changes nothing. */
  lemma DisposeIdempotent(s: RecState)
    ensures DisposeStep(DisposeStep(s)) == DisposeStep(s)
  {
  }

  // ---------------------------------------------------------------------------
  // The video loop and the audio callback as atomic steps

  /** The video loop waits for the audio side only with an audio stream and without loopback. */
  predicate MustRendezvous(c: Config) {
    c.hasAudioStream && !c.isLoopback
  }

  datatype VideoOutcome = VideoIdle | VideoBlocked | Captured | FrameSubmitted | VideoExited

  /** Leaving the loop: the last write, if any, is awaited. */
  function ExitLoop(s: RecState): (r: RecState)
    ensures r.vt.pc == Finished && !r.vt.writePending && r.log == s.log
  {
    s.(vt := s.vt.(writePending := false, pc := Finished))
  }

  /** Starting the asynchronous write of the buffer. */
  function WriteFrame(s: RecState): (r: RecState)
    ensures r.log == s.log + [Frame] && r.vt.writePending
    ensures r.(log := s.log, vt := s.vt) == s && r.vt.(writePending := s.vt.writePending) == s.vt
  {
    s.(log := s.log + [Frame], vt := s.vt.(writePending := true))
  }

  /** Computing the sleep and going back to the loop test. */
  function ScheduleNext(s: RecState, now: int): (r: RecState)
    ensures !r.vt.isFirstFrame && r.vt.pc == AtLoopTop && r.vt.timeTillNextFrame >= 0
    ensures r.(vt := s.vt) == s
    ensures r.vt.(timeTillNextFrame := s.vt.timeTillNextFrame, isFirstFrame := s.vt.isFirstFrame, pc := s.vt.pc) == s.vt
  {
    s.(vt := s.vt.(timeTillNextFrame := FrameWait(s.vt.timestamp, s.cfg.frameInterval, now),
                   isFirstFrame := false,
                   pc := AtLoopTop))
  }

  /** Starting the asynchronous write of the buffer, then computing the sleep. */
  function Submit(s: RecState, now: int): (r: RecState)
    ensures r.log == s.log + [Frame] && r.vt.writePending && !r.vt.isFirstFrame && r.vt.pc == AtLoopTop
    ensures r.vt.timeTillNextFrame >= 0
  {
    ScheduleNext(WriteFrame(s), now)
  }

  /** Taking the timestamp and filling the buffer, while the previous write may be pending. */
  function FillBuffer(s: RecState, now: int): (r: RecState)
    ensures r.vt.timestamp == now && r.vt.fillDuringWrite == (s.vt.fillDuringWrite || s.vt.writePending)
    ensures r.(vt := s.vt) == s && r.vt.(timestamp := s.vt.timestamp, fillDuringWrite := s.vt.fillDuringWrite) == s.vt
  {
    s.(vt := s.vt.(timestamp := now, fillDuringWrite := s.vt.fillDuringWrite || s.vt.writePending))
  }

  /** Awaiting the previous write and setting videoFrameWritten. */
  function AwaitWrite(s: RecState): (r: RecState)
    ensures !r.vt.writePending && r.sig.videoFrameWritten
    ensures r.(vt := s.vt, sig := s.sig) == s
    ensures r.vt.(writePending := s.vt.writePending) == s.vt && r.sig.(videoFrameWritten := s.sig.videoFrameWritten) == s.sig
  {
    s.(vt := s.vt.(writePending := false), sig := s.sig.(videoFrameWritten := true))
  }

  /** Taking the timestamp, filling the buffer, awaiting the previous write (not on the first frame). */
  function Capture(s: RecState, now: int): (r: RecState)
    ensures r.vt.pc == AtRendezvous && r.log == s.log
  {
    var filled := FillBuffer(s, now);
    var awaited := if s.vt.isFirstFrame then filled else AwaitWrite(filled);
    awaited.(vt := awaited.vt.(pc := AtRendezvous))
  }

  /**
   * One step of RecordScreen. At the loop test: exit on stop, otherwise take
   * the timestamp, fill the buffer, await the previous write (not on the
   * first frame) and set videoFrameWritten. At the rendezvous: wait for
   * audioBlockWritten or stop (WaitAny prefers audioBlockWritten and resets
   * it), then submit the frame.
   */
  function VideoStep(s: RecState, now: int): (r: (RecState, VideoOutcome))
    ensures r.0.cfg == s.cfg
    ensures r.1 == VideoIdle <==> s.vt.suspended || !(s.vt.pc == AtLoopTop || s.vt.pc == AtRendezvous)
    ensures r.1 == VideoIdle || r.1 == VideoBlocked ==> r.0 == s
    ensures r.1 == FrameSubmitted <==> r.0.log == s.log + [Frame]
    ensures r.1 != FrameSubmitted ==> r.0.log == s.log
    ensures r.1 == FrameSubmitted ==>
      s.vt.pc == AtRendezvous && (MustRendezvous(s.cfg) ==> s.sig.audioBlockWritten)
    ensures r.1 == VideoExited ==> s.sig.stopRequested && r.0.vt.pc == Finished
  {
    if s.vt.suspended || !(s.vt.pc == AtLoopTop || s.vt.pc == AtRendezvous) then (s, VideoIdle)
    else if s.vt.pc == AtLoopTop then
      if s.sig.stopRequested then (ExitLoop(s), VideoExited)
      else (Capture(s, now), Captured)
    else if !MustRendezvous(s.cfg) then (Submit(s, now), FrameSubmitted)
    else if s.sig.audioBlockWritten then
      (Submit(s.(sig := s.sig.(audioBlockWritten := false)), now), FrameSubmitted)
    else if s.sig.stopRequested then (ExitLoop(s), VideoExited)
    else (s, VideoBlocked)
  }

  /** Where an audio block goes. */
  datatype Route = ToWaveWriter | Immediate | Rendezvous

  function AudioRoute(c: Config): (r: Route)
    ensures r == ToWaveWriter <==> !c.captureVideo
    ensures r == Immediate <==> c.captureVideo && c.isLoopback
  {
    if !c.captureVideo then ToWaveWriter
    else if c.isLoopback then Immediate
    else Rendezvous
  }

  datatype AudioOutcome = NotDelivered | WrittenToWave | WrittenImmediately | WrittenAfterRendezvous | Dropped | AudioBlocked

  /**
   * One call of AudioDataAvailable with a block of the given size. In the
   * rendezvous route WaitAny prefers videoFrameWritten (and resets it); the
   * block is dropped only when stop is signalled and videoFrameWritten is not.
   */
  function AudioStep(s: RecState, bytes: nat): (r: (RecState, AudioOutcome))
    ensures r.0.cfg == s.cfg && r.0.vt == s.vt
    ensures r.1 == NotDelivered <==> !s.handlerAttached || !s.audioRecording
    ensures r.1 == WrittenToWave ==> r.0.log == s.log + [WaveBlock(bytes)]
    ensures r.1 == WrittenImmediately || r.1 == WrittenAfterRendezvous ==> r.0.log == s.log + [Block(bytes)]
    ensures r.1 == NotDelivered || r.1 == Dropped || r.1 == AudioBlocked ==> r.0 == s
    ensures r.1 == Dropped ==> s.sig.stopRequested && !s.sig.videoFrameWritten
    ensures r.1 == WrittenAfterRendezvous ==>
      s.sig.videoFrameWritten && !r.0.sig.videoFrameWritten && r.0.sig.audioBlockWritten
  {
    if !s.handlerAttached || !s.audioRecording then (s, NotDelivered)
    else match AudioRoute(s.cfg)
      case ToWaveWriter => (s.(log := s.log + [WaveBlock(bytes)]), WrittenToWave)
      case Immediate => (s.(log := s.log + [Block(bytes)]), WrittenImmediately)
      case Rendezvous =>
        if s.sig.videoFrameWritten then
          (s.(sig := s.sig.(videoFrameWritten := false, audioBlockWritten := true), log := s.log + [Block(bytes)]),
           WrittenAfterRendezvous)
        else if s.sig.stopRequested then (s, Dropped)
        else (s, AudioBlocked)
  }

  /** The routing rule of the audio callback, stated for every state. */
  lemma AudioRouting(s: RecState, bytes: nat)
    requires s.handlerAttached && s.audioRecording
    ensures !s.cfg.captureVideo ==> AudioStep(s, bytes).0.log == s.log + [WaveBlock(bytes)]
    ensures s.cfg.captureVideo && s.cfg.isLoopback ==> AudioStep(s, bytes).0.log == s.log + [Block(bytes)]
    ensures s.cfg.captureVideo && !s.cfg.isLoopback ==>
      (AudioStep(s, bytes).0.log == s.log + [Block(bytes)] <==> s.sig.videoFrameWritten) &&
      (!s.sig.videoFrameWritten ==> AudioStep(s, bytes).0 == s) &&
      (s.sig.videoFrameWritten ==>
        AudioStep(s, bytes).0.sig.audioBlockWritten && !AudioStep(s, bytes).0.sig.videoFrameWritten)
  {
    if s.cfg.captureVideo && !s.cfg.isLoopback && !s.sig.videoFrameWritten {
      assert |s.log + [Block(bytes)]| != |s.log|;
    }
  }

  /** The video loop waits for audio exactly when MustRendezvous, and on stop leaves without a frame. */
  lemma VideoRendezvous(s: RecState, now: int)
    requires s.vt.pc == AtRendezvous && !s.vt.suspended
    ensures !MustRendezvous(s.cfg) ==> VideoStep(s, now).1 == FrameSubmitted
    ensures MustRendezvous(s.cfg) ==>
      (VideoStep(s, now).1 == FrameSubmitted <==> s.sig.audioBlockWritten)
    ensures MustRendezvous(s.cfg) && !s.sig.audioBlockWritten && s.sig.stopRequested ==>
      VideoStep(s, now).1 == VideoExited && VideoStep(s, now).0.log == s.log
    ensures MustRendezvous(s.cfg) && !s.sig.audioBlockWritten && !s.sig.stopRequested ==>
      VideoStep(s, now).0 == s
  {
  }

  /** The video loop is running: started, not finished and not suspended. */
  predicate VideoRunning(s: RecState) {
    s.cfg.captureVideo && (s.vt.pc == AtLoopTop || s.vt.pc == AtRendezvous) && !s.vt.suspended
  }

  /**
   * A capture or a frame write of RecordScreen throws. Its catch calls
   * Dispose on the video thread itself: the silence player is stopped and
   * dropped and stop is signalled (unless the stop event is closed), and
   * then screenThread.Abort() aborts the current thread at once. The rest
   * of Dispose does not run: the audio source keeps recording with its
   * handler attached, the writer stays open and the stop event open.
   */
  function VideoFault(s: RecState): (r: RecState)
    ensures !VideoRunning(s) ==> r == s
    ensures VideoRunning(s) ==> r.vt.pc == Finished && r.silence == NoPlayer && r.log == s.log && r.cfg == s.cfg
    ensures VideoRunning(s) ==>
      r.sig.stopRequested == (s.sig.stopRequested || !s.sig.stopClosed) && r.sig.stopClosed == s.sig.stopClosed
    ensures VideoRunning(s) ==>
      r.audioRecording == s.audioRecording && r.handlerAttached == s.handlerAttached && r.writerClosed == s.writerClosed
    ensures VideoRunning(s) ==> r.isPaused == s.isPaused && r.sig.videoFrameWritten == s.sig.videoFrameWritten
  {
    if !VideoRunning(s) then s
    else
      s.(silence := NoPlayer,
         sig := s.sig.(stopRequested := s.sig.stopRequested || !s.sig.stopClosed),
         vt := s.vt.(pc := Finished))
  }

  /** A later Dispose (the user stopping the recording) completes what the failed one left undone. */
  lemma DisposeAfterFault(s: RecState)
    ensures DisposeStep(VideoFault(s)) == DisposeStep(s)
  {
  }

  // ---------------------------------------------------------------------------
  // Runs of events

  datatype Event = VideoTick(now: int) | AudioArrives(bytes: nat) | PauseEvent | ResumeEvent | DisposeEvent | VideoFails

  function Step(s: RecState, e: Event): RecState {
    match e
    case VideoTick(now) => VideoStep(s, now).0
    case AudioArrives(bytes) => AudioStep(s, bytes).0
    case PauseEvent => PauseStep(s)
    case ResumeEvent => ResumeStep(s)
    case DisposeEvent => DisposeStep(s)
    case VideoFails => VideoFault(s)
  }

  function Run(s: RecState, evs: seq<Event>): RecState
    decreases |evs|
  {
    if evs == [] then s else Run(Step(s, evs[0]), evs[1..])
  }

  /** Writes alternate block, frame, block, frame, ... starting with an audio block. */
  ghost predicate Alternates(log: seq<Write>) {
    forall i :: 0 <= i < |log| ==> if i % 2 == 0 then log[i].Block? else log[i] == Frame
  }

  predicate DualStream(c: Config) {
    c.captureVideo && MustRendezvous(c)
  }

  /** Video thread gone and audio handler detached: no step writes any more. */
  predicate Frozen(s: RecState) {
    s.vt.pc == Finished && !s.handlerAttached
  }

  /** The handshake invariant of the two signals while both producers may still run. */
  ghost predicate Handshake(s: RecState) {
    var n := |s.log|;
    (s.sig.audioBlockWritten <==> n % 2 == 1) &&
    !(s.sig.videoFrameWritten && s.sig.audioBlockWritten) &&
    (s.vt.isFirstFrame <==> n <= 1) &&
    (s.vt.pc == AtLoopTop && !s.vt.isFirstFrame ==> n % 2 == 0 && !s.sig.videoFrameWritten) &&
    (s.vt.pc == AtLoopTop && s.vt.isFirstFrame ==> (s.sig.videoFrameWritten <==> n == 0)) &&
    (s.vt.pc == AtRendezvous && n % 2 == 0 ==> s.sig.videoFrameWritten) &&
    s.vt.pc != NoThread
  }

  ghost predicate Lockstep(s: RecState) {
    Alternates(s.log) && (Frozen(s) || Handshake(s))
  }

  lemma AlternatesAppend(log: seq<Write>, w: Write)
    requires Alternates(log)
    requires if |log| % 2 == 0 then w.Block? else w == Frame
    ensures Alternates(log + [w])
  {
    forall i | 0 <= i < |log + [w]|
      ensures if i % 2 == 0 then (log + [w])[i].Block? else (log + [w])[i] == Frame
    {
      if i < |log| { assert (log + [w])[i] == log[i]; }
    }
  }

  lemma InitLockstep(p: RecorderParams)
    requires DualStream(ConfigOf(p))
    ensures Lockstep(Init(p))
  {
  }

  lemma CaptureKeepsLockstep(s: RecState, now: int)
    requires DualStream(s.cfg) && Lockstep(s) && !Frozen(s) && s.vt.pc == AtLoopTop
    ensures Lockstep(Capture(s, now))
  {
  }

  lemma SubmitKeepsLockstep(s: RecState, now: int)
    requires DualStream(s.cfg) && Lockstep(s) && !Frozen(s) && s.vt.pc == AtRendezvous && s.sig.audioBlockWritten
    ensures Lockstep(Submit(s.(sig := s.sig.(audioBlockWritten := false)), now))
  {
    AlternatesAppend(s.log, Frame);
  }

  lemma VideoStepKeepsLockstep(s: RecState, now: int)
    requires DualStream(s.cfg) && Lockstep(s)
    ensures Lockstep(VideoStep(s, now).0) && VideoStep(s, now).0.cfg == s.cfg
  {
    if Frozen(s) {
      assert VideoStep(s, now).0 == s;
    } else if s.vt.suspended || !(s.vt.pc == AtLoopTop || s.vt.pc == AtRendezvous) {
    } else if s.vt.pc == AtLoopTop {
      if !s.sig.stopRequested { CaptureKeepsLockstep(s, now); }
    } else if s.sig.audioBlockWritten {
      SubmitKeepsLockstep(s, now);
    }
  }

  lemma AudioStepKeepsLockstep(s: RecState, bytes: nat)
    requires DualStream(s.cfg) && Lockstep(s)
    ensures Lockstep(AudioStep(s, bytes).0) && AudioStep(s, bytes).0.cfg == s.cfg
  {
    if s.handlerAttached && s.audioRecording && s.sig.videoFrameWritten {
      AlternatesAppend(s.log, Block(bytes));
    }
  }

  lemma ControlStepKeepsLockstep(s: RecState, e: Event)
    requires DualStream(s.cfg) && Lockstep(s) && (e.PauseEvent? || e.DisposeEvent? || e.VideoFails?)
    ensures Lockstep(Step(s, e)) && Step(s, e).cfg == s.cfg
  {
  }

  lemma {:induction false} StepKeepsLockstep(s: RecState, e: Event)
    requires DualStream(s.cfg) && Lockstep(s) && !e.ResumeEvent?
    ensures Lockstep(Step(s, e)) && Step(s, e).cfg == s.cfg
  {
    match e
    case VideoTick(now) => VideoStepKeepsLockstep(s, now);
    case AudioArrives(bytes) => AudioStepKeepsLockstep(s, bytes);
    case _ => ControlStepKeepsLockstep(s, e);
  }

  lemma {:induction false} RunKeepsLockstep(s: RecState, evs: seq<Event>)
    requires DualStream(s.cfg) && Lockstep(s)
    requires forall i :: 0 <= i < |evs| ==> !evs[i].ResumeEvent?
    ensures Lockstep(Run(s, evs)) && Run(s, evs).cfg == s.cfg
    decreases |evs|
  {
    if evs != [] {
      StepKeepsLockstep(s, evs[0]);
      RunKeepsLockstep(Step(s, evs[0]), evs[1..]);
    }
  }

  /**
   * With video and a non-loopback audio stream, any interleaving of video
   * steps, audio blocks, pauses, video failures and a dispose, with no resume, makes the
   * writer see block, frame, block, frame, ... starting with a block.
   */
  lemma AlternationFromStart(p: RecorderParams, evs: seq<Event>)
    requires DualStream(ConfigOf(p))
    requires forall i :: 0 <= i < |evs| ==> !evs[i].ResumeEvent?
    ensures Alternates(Run(Init(p), evs).log)
    ensures |Run(Init(p), evs).log| > 0 ==> Run(Init(p), evs).log[0].Block?
  {
    InitLockstep(p);
    RunKeepsLockstep(Init(p), evs);
  }

  /** A pause and resume after the first audio block lets two blocks in a row through. */
  lemma ResumeCanBreakAlternation()
    ensures Run(Init(RecorderParams(true, false, Some(0), 30, false, 33)),
                [AudioArrives(1), PauseEvent, ResumeEvent, AudioArrives(2)]).log == [Block(1), Block(2)]
  {
  }

  /** Buffer discipline that holds in every mode: writes are awaited before the rendezvous. */
  ghost predicate Paced(s: RecState) {
    (s.vt.pc == AtRendezvous ==> !s.vt.writePending) &&
    (s.vt.writePending ==> !s.vt.isFirstFrame)
  }

  lemma {:induction false} StepKeepsPaced(s: RecState, e: Event)
    requires Paced(s)
    ensures Paced(Step(s, e))
  {
    match e
    case VideoTick(now) =>
    case AudioArrives(bytes) =>
    case PauseEvent =>
    case ResumeEvent =>
    case DisposeEvent =>
    case VideoFails =>
  }

  /**
   * Except on the first frame, the previous write is awaited before
   * videoFrameWritten is set; a frame is submitted only when no write is
   * pending; the loop leaves with no write pending.
   */
  lemma AwaitBeforeSubmit(s: RecState, now: int)
    requires Paced(s)
    ensures VideoStep(s, now).1 == Captured && !s.vt.isFirstFrame ==>
      !VideoStep(s, now).0.vt.writePending && VideoStep(s, now).0.sig.videoFrameWritten
    ensures VideoStep(s, now).1 == FrameSubmitted ==> !s.vt.writePending
    ensures VideoStep(s, now).1 == VideoExited ==> !VideoStep(s, now).0.vt.writePending
  {
  }

  /**
   * The loop fills the frame buffer before awaiting the write started in the
   * previous cycle, so the second capture overwrites a buffer whose write
   * may still be in progress.
   */
  lemma CaptureOverlapsPendingWrite()
    ensures Run(Init(RecorderParams(true, false, Some(0), 30, false, 33)),
                [VideoTick(0), AudioArrives(4), VideoTick(5), VideoTick(33)]).vt.fillDuringWrite
  {
  }

  // ---------------------------------------------------------------------------
  // The recorder object

  class Recorder {
    const cfg: Config
    var silence: Player
    var isPaused: bool
    var videoFrameWritten: bool
    var audioBlockWritten: bool
    var stopRequested: bool
    var stopClosed: bool
    var video: VideoPc
    var suspended: bool
    var isFirstFrame: bool
    var writePending: bool
    var timestamp: int
    var timeTillNextFrame: int
    var audioRecording: bool
    var handlerAttached: bool
    var writerClosed: bool
    var fillDuringWrite: bool
    var log: seq<Write>

    function State(): RecState
      reads this
    {
      RecState(cfg, silence, isPaused,
               Signals(videoFrameWritten, audioBlockWritten, stopRequested, stopClosed),
               VideoThread(video, suspended, isFirstFrame, writePending, timestamp, timeTillNextFrame, fillDuringWrite),
               audioRecording, handlerAttached, writerClosed, log)
    }

    constructor (p: RecorderParams)
      ensures State() == Init(p)
    {
      var input := AudioSetupAsWritten(p);
      cfg := Config(p.captureVideo, p.isLoopback, input, p.captureVideo && input != NoAudio, p.frameInterval);
      silence := if input == LoopbackCapture then Playing else NoPlayer;
      isPaused := false;
      stopRequested, stopClosed := false, false;
      videoFrameWritten, audioBlockWritten := false, false;
      video := if p.captureVideo then AtLoopTop else NoThread;
      suspended, isFirstFrame, writePending := false, true, false;
      timestamp, timeTillNextFrame := 0, 0;
      writerClosed, fillDuringWrite, log := false, false, [];
      audioRecording, handlerAttached := false, false;
      if input != NoAudio {
        handlerAttached := true;
        if p.captureVideo {
          videoFrameWritten := true;
          audioBlockWritten := false;
        }
        audioRecording := true;
      }
    }

    method Pause()
      modifies this
      ensures State() == PauseStep(old(State()))
    {
      if !isPaused {
        if silence != NoPlayer { silence := PausedPlayer; }
        if cfg.captureVideo { suspended := true; }
        audioRecording := false;
        isPaused := true;
      }
    }

    method Resume()
      modifies this
      ensures State() == ResumeStep(old(State()))
    {
      if isPaused {
        ResumeAudioSide();
        if cfg.captureVideo { ResumeVideoSide(); }
      }
    }

    /** Player, audio source and the paused flag. */
    method ResumeAudioSide()
      modifies this
      ensures State() == ResumeAudio(old(State()))
    {
      if silence != NoPlayer { silence := Playing; }
      if cfg.input != NoAudio { audioRecording := true; }
      isPaused := false;
    }

    /** Video thread and handshake. */
    method ResumeVideoSide()
      modifies this
      ensures State() == ResumeVideo(old(State()))
    {
      suspended := false;
      if cfg.input != NoAudio {
        videoFrameWritten := true;
        audioBlockWritten := false;
      }
    }

    method Dispose()
      modifies this
      ensures State() == DisposeStep(old(State()))
    {
      if isPaused { Resume(); }
      Shutdown();
    }

    /** Dispose after the resume: stop the thread (with video), the player, the audio source and the writer. */
    method Shutdown()
      modifies this
      ensures State() == ShutdownStep(old(State()))
    {
      if cfg.captureVideo { StopThread(); }
      Release();
    }

    /** The video thread's part of Shutdown. */
    method StopThread()
      modifies this
      ensures State() == StopVideoThread(old(State()))
    {
      if !stopClosed { stopRequested := true; }
      video := Finished;
      stopClosed := true;
    }

    /** The player, audio source and writer part of Shutdown. */
    method Release()
      modifies this
      ensures State() == ReleaseResources(old(State()))
    {
      silence := NoPlayer;
      audioRecording := false;
      handlerAttached := false;
      writerClosed := true;
    }

    /** Runs the video thread up to its next blocking point. */
    method RecordScreenStep(now: int) returns (outcome: VideoOutcome)
      modifies this
      ensures (State(), outcome) == VideoStep(old(State()), now)
    {
      if suspended || !(video == AtLoopTop || video == AtRendezvous) {
        return VideoIdle;
      }
      if video == AtLoopTop {
        if stopRequested {
          LeaveLoop();
          return VideoExited;
        }
        CaptureFrame(now);
        return Captured;
      }
      if MustRendezvous(cfg) {
        if audioBlockWritten {
          audioBlockWritten := false;
        } else if stopRequested {
          LeaveLoop();
          return VideoExited;
        } else {
          return VideoBlocked;
        }
      }
      SubmitFrame(now);
      outcome := FrameSubmitted;
    }

    /** The loop ends: the last write is awaited. */
    method LeaveLoop()
      modifies this
      ensures State() == ExitLoop(old(State()))
    {
      writePending := false;
      video := Finished;
    }

    /** A capture or a write throws: the catch disposes until the video thread aborts itself. */
    method RecordScreenFails()
      modifies this
      ensures State() == VideoFault(old(State()))
    {
      if cfg.captureVideo && (video == AtLoopTop || video == AtRendezvous) && !suspended {
        silence := NoPlayer;
        if !stopClosed { stopRequested := true; }
        video := Finished;
      }
    }

    /** Timestamp, screenshot into the buffer, and the await of the previous write. */
    method CaptureFrame(now: int)
      modifies this
      ensures State() == Capture(old(State()), now)
    {
      Fill(now);
      if !isFirstFrame { AwaitPrevious(); }
      video := AtRendezvous;
    }

    /** The timestamp and the screenshot. */
    method Fill(now: int)
      modifies this
      ensures State() == FillBuffer(old(State()), now)
    {
      timestamp := now;
      fillDuringWrite := fillDuringWrite || writePending;
    }

    /** The await of the previous write. */
    method AwaitPrevious()
      modifies this
      ensures State() == AwaitWrite(old(State()))
    {
      writePending := false;
      videoFrameWritten := true;
    }

    /** The asynchronous write of the buffer is started and the sleep computed. */
    method SubmitFrame(now: int)
      modifies this
      ensures State() == Submit(old(State()), now)
    {
      StartWrite();
      ComputeSleep(now);
    }

    /** The write of the buffer. */
    method StartWrite()
      modifies this
      ensures State() == WriteFrame(old(State()))
    {
      log := log + [Frame];
      writePending := true;
    }

    /** The sleep until the next frame. */
    method ComputeSleep(now: int)
      modifies this
      ensures State() == ScheduleNext(old(State()), now)
    {
      timeTillNextFrame := FrameWait(timestamp, cfg.frameInterval, now);
      isFirstFrame := false;
      video := AtLoopTop;
    }

    /** The audio device delivers a block of the given size. */
    method AudioDataAvailable(bytes: nat) returns (outcome: AudioOutcome)
      modifies this
      ensures (State(), outcome) == AudioStep(old(State()), bytes)
    {
      if !handlerAttached || !audioRecording {
        return NotDelivered;
      }
      if !cfg.captureVideo {
        log := log + [WaveBlock(bytes)];
        outcome := WrittenToWave;
      } else if cfg.isLoopback {
        log := log + [Block(bytes)];
        outcome := WrittenImmediately;
      } else if videoFrameWritten {
        videoFrameWritten := false;
        log := log + [Block(bytes)];
        audioBlockWritten := true;
        outcome := WrittenAfterRendezvous;
      } else if stopRequested {
        outcome := Dropped;
      } else {
        outcome := AudioBlocked;
      }
    }
  }
}
