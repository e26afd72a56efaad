/**
 * The browser audio-recorder hook. The microphone, the media recorder and
 * the clock are outside the model: the outcome of the microphone request,
 * the recorder's stop and error events, the object URL of the finished
 * recording and the time of each timer tick are event parameters, and the
 * calls the hook makes on them are returned as effects.
 *
 * The hook's timer callback is a memoised closure. It is rebuilt only when
 * `isPaused` changes, and the interval keeps the closure that was current
 * when the interval was started; the stop it calls sees `isRecording` as it
 * was when the closure was built. `TickView` records those two captured
 * values; `Step` is the hook with the callbacks reading the current state,
 * `StepAsWritten` the hook with the captured values.
 */
module AudioRecorder {
  import opened Base

  /** Five minutes, in seconds. */
  const DefaultMaxDuration: int := 300

  function MaxDurationOf(option: Option<int>): (m: int)
    ensures option.Some? ==> m == option.value
    ensures option.None? ==> m == DefaultMaxDuration
  {
    option.GetOr(DefaultMaxDuration)
  }

  /** What a timer closure saw when it was built. */
  datatype TickView = TickView(isPaused: bool, stopSeesRecording: bool)

  datatype Recorder = Recorder(
    isRecording: bool,
    isPaused: bool,
    recordingTime: int,
    audioUrl: Option<string>,
    error: Option<string>,
    /** The recorder reference: set by the first successful start and never cleared. */
    hasRecorder: bool,
    /** Whether the recorder's stop handler is still attached; cancelling detaches it. */
    onstopAttached: bool,
    /** The clock reading when recording started, in milliseconds. */
    startTime: Option<int>,
    /** The running interval, with the closure it calls. */
    timer: Option<TickView>,
    /** The memoised timer closure the current render holds. */
    tickMemo: TickView,
    /** `recordingTime` as the stop handler captured it when recording started. */
    startRecordingTime: int)

  const Initial := Recorder(false, false, 0, None, None, false, false, None, None, TickView(false, false), 0)

  /** How the microphone request ended: granted, or refused with the thrown value's message if it was an error. */
  datatype MicOutcome = Granted | Refused(message: Option<string>)

  datatype Event =
    | Start(now: int, mic: MicOutcome)
    | StopClicked
    | PauseClicked
    | ResumeClicked
    | CancelClicked
    | ClearClicked
    | Tick(now: int)
    | RecorderStopped(url: string)
    | RecorderFailed(message: Option<string>)

  datatype Effect =
    | RevokeUrl(url: string)
    | StartRecorder
    | StopRecorder
    | PauseRecorder
    | ResumeRecorder
    /** `onRecordingComplete`, when the caller gave one, with the duration it is told. */
    | Completed(url: string, duration: int)

  datatype Transition = Transition(state: Recorder, effects: seq<Effect>)

  const StartFailedMessage := "Failed to start recording"

  /** The render after a state change: the timer closure is rebuilt when `isPaused` changed. */
  function Rendered(s: Recorder): (r: Recorder)
    ensures r == s.(tickMemo := r.tickMemo) && r.tickMemo.isPaused == s.isPaused
    ensures s.isPaused == s.tickMemo.isPaused ==> r == s
  {
    if s.isPaused != s.tickMemo.isPaused then s.(tickMemo := TickView(s.isPaused, s.isRecording)) else s
  }

  /** Seconds since `start`, rounded down, for a clock reading in milliseconds. */
  function ElapsedSeconds(start: int, now: int): (e: int)
    ensures e * 1000 <= now - start < e * 1000 + 1000
  {
    (now - start) / 1000
  }

  /**
   * A timer tick run by a closure that sees `view`: unless it sees a pause,
   * the time is set to the elapsed seconds, and at the limit the stop it
   * calls stops the recorder if it sees a recording.
   */
  function TickWith(maxDuration: int, s: Recorder, now: int, view: TickView): (t: Transition)
    requires s.timer.Some?
  {
    if s.startTime.None? || view.isPaused then Transition(s, [])
    else
      var elapsed := ElapsedSeconds(s.startTime.value, now);
      var timed := s.(recordingTime := elapsed);
      if elapsed >= maxDuration && s.hasRecorder && view.stopSeesRecording
      then Transition(timed.(timer := None), [StopRecorder])
      else Transition(timed, [])
  }

  /** The recorder's stop handler: the recording is kept and the caller told its duration. */
  function StoppedWith(s: Recorder, url: string, duration: int): (t: Transition) {
    if !s.onstopAttached then Transition(s, [])
    else Transition(Rendered(s.(isRecording := false, isPaused := false, audioUrl := Some(url), timer := None)),
                    [Completed(url, duration)])
  }

  /** Every event except the timer tick and the stop handler, which read captured state. */
  function Act(s: Recorder, e: Event): (t: Transition)
    requires !e.Tick? && !e.RecorderStopped?
  {
    match e
    case Start(now, mic) =>
      var revoke := if Given(s.audioUrl) then [RevokeUrl(s.audioUrl.value)] else [];
      var reset := s.(error := None, audioUrl := None);
      (match mic
       case Granted =>
         Transition(Rendered(reset.(isRecording := true, isPaused := false, recordingTime := 0,
                                    hasRecorder := true, onstopAttached := true, startTime := Some(now),
                                    timer := Some(s.tickMemo), startRecordingTime := s.recordingTime)),
                    revoke + [StartRecorder])
       case Refused(message) =>
         Transition(reset.(error := Some(message.GetOr(StartFailedMessage)), isRecording := false), revoke))
    case StopClicked =>
      if s.hasRecorder && s.isRecording then Transition(s.(timer := None), [StopRecorder]) else Transition(s, [])
    case PauseClicked =>
      if s.hasRecorder && s.isRecording && !s.isPaused
      then Transition(Rendered(s.(isPaused := true, timer := None)), [PauseRecorder])
      else Transition(s, [])
    case ResumeClicked =>
      if s.hasRecorder && s.isRecording && s.isPaused
      then Transition(Rendered(s.(isPaused := false, timer := Some(s.tickMemo))), [ResumeRecorder])
      else Transition(s, [])
    case CancelClicked =>
      var cleared := Rendered(s.(isRecording := false, isPaused := false, recordingTime := 0, audioUrl := None,
                                 error := None, timer := None, onstopAttached := false));
      if s.hasRecorder then Transition(cleared, [StopRecorder]) else Transition(cleared, [])
    case ClearClicked =>
      var cleared := s.(audioUrl := None, recordingTime := 0);
      if Given(s.audioUrl) then Transition(cleared, [RevokeUrl(s.audioUrl.value)]) else Transition(cleared, [])
    case RecorderFailed(message) =>
      if !s.hasRecorder then Transition(s, [])
      else Transition(Rendered(s.(error := Some("Recording error: " + OrElse(message, "Unknown error")),
                                  isRecording := false, isPaused := false, timer := None)), [])
  }

  /**
   * The hook as its callbacks evidently intend: the timer and the stop
   * handler read the state current when they run.
   */
  function Step(maxDuration: int, s: Recorder, e: Event): (t: Transition)
    ensures e.Tick? && s.timer.Some? && s.startTime.Some? && s.isRecording && !s.isPaused ==>
      && t.state.recordingTime * 1000 <= e.now - s.startTime.value < t.state.recordingTime * 1000 + 1000
      && (t.state.recordingTime >= maxDuration && s.hasRecorder <==> StopRecorder in t.effects)
      && (StopRecorder in t.effects <==> t.state.timer.None?)
    ensures e.Tick? && s.timer.None? ==> t == Transition(s, [])
    ensures e.RecorderStopped? && s.onstopAttached ==>
      && !t.state.isRecording && !t.state.isPaused && t.state.audioUrl == Some(e.url) && t.state.timer.None?
      && t.effects == [Completed(e.url, s.recordingTime)]
    ensures e.Start? && e.mic.Granted? ==>
      && t.state.isRecording && !t.state.isPaused && t.state.recordingTime == 0 && t.state.timer.Some?
      && t.state.error.None? && t.state.audioUrl.None? && t.state.startTime == Some(e.now)
      && StartRecorder in t.effects
    ensures e.StopClicked? ==>
      && (StopRecorder in t.effects <==> s.hasRecorder && s.isRecording)
      && (s.hasRecorder && s.isRecording ==> t.state.timer.None?)
      && (!(s.hasRecorder && s.isRecording) ==> t == Transition(s, []))
    ensures e.PauseClicked? ==>
      && (s.hasRecorder && s.isRecording && !s.isPaused ==>
            t.state.isPaused && t.state.isRecording && t.state.timer.None? && t.effects == [PauseRecorder])
      && (!(s.hasRecorder && s.isRecording && !s.isPaused) ==> t == Transition(s, []))
    ensures e.ResumeClicked? ==>
      && (s.hasRecorder && s.isRecording && s.isPaused ==>
            !t.state.isPaused && t.state.isRecording && t.state.timer.Some? && t.effects == [ResumeRecorder])
      && (!(s.hasRecorder && s.isRecording && s.isPaused) ==> t == Transition(s, []))
    ensures e.ClearClicked? ==>
      && t.state == s.(audioUrl := None, recordingTime := 0)
      && (t.effects == [] <==> !Given(s.audioUrl))
    ensures e.CancelClicked? ==>
      && !t.state.isRecording && !t.state.isPaused && t.state.recordingTime == 0
      && t.state.audioUrl.None? && t.state.error.None? && t.state.timer.None? && !t.state.onstopAttached
    ensures e.RecorderFailed? && s.hasRecorder ==>
      && t.state.error.Some? && !t.state.isRecording && t.state.timer.None?
      && IsPrefix("Recording error: ", t.state.error.value)
    ensures e.Start? && e.mic.Refused? ==>
      && t.state.error == Some(if e.mic.message.Some? then e.mic.message.value else StartFailedMessage)
      && !t.state.isRecording
  {
    match e
    case Tick(now) =>
      if s.timer.None? then Transition(s, [])
      else TickWith(maxDuration, s, now, TickView(s.isPaused, s.isRecording))
    case RecorderStopped(url) => StoppedWith(s, url, s.recordingTime)
    case _ => Act(s, e)
  }

  /** The hook as written: the interval's closure and the stop handler use what they captured. */
  function StepAsWritten(maxDuration: int, s: Recorder, e: Event): (t: Transition)
    ensures !e.Tick? && !e.RecorderStopped? ==> t == Step(maxDuration, s, e)
    ensures e.Tick? && s.timer.Some? && s.startTime.Some? && !s.timer.value.isPaused ==>
      && t.state.recordingTime * 1000 <= e.now - s.startTime.value < t.state.recordingTime * 1000 + 1000
      && (StopRecorder in t.effects <==> t.state.recordingTime >= maxDuration && s.hasRecorder && s.timer.value.stopSeesRecording)
    ensures e.Tick? && s.timer.Some? && s.timer.value.isPaused ==> t.state == s && t.effects == []
    ensures e.RecorderStopped? && s.onstopAttached ==> t.effects == [Completed(e.url, s.startRecordingTime)]
  {
    match e
    case Tick(now) =>
      if s.timer.None? then Transition(s, []) else TickWith(maxDuration, s, now, s.timer.value)
    case RecorderStopped(url) => StoppedWith(s, url, s.startRecordingTime)
    case _ => Act(s, e)
  }

  // ---------------------------------------------------------------------
  // The invariant the hook keeps
  // ---------------------------------------------------------------------

  /** A pause only while recording; the timer runs only while recording unpaused. */
  predicate Coherent(s: Recorder) {
    && (s.isPaused ==> s.isRecording)
    && (s.timer.Some? ==> s.isRecording && !s.isPaused)
    && (s.isRecording ==> s.hasRecorder && s.startTime.Some?)
  }

  lemma InitialCoherent()
    ensures Coherent(Initial)
  {
  }

  /** Every event keeps the state coherent, given that recording is only started when not recording. */
  lemma StepKeepsCoherent(maxDuration: int, s: Recorder, e: Event)
    requires Coherent(s)
    requires e.Start? ==> !s.isRecording
    ensures Coherent(Step(maxDuration, s, e).state)
    ensures Coherent(StepAsWritten(maxDuration, s, e).state)
  {
  }

  /** Pausing and then resuming a running recording leaves it running with the timer on. */
  lemma PauseThenResume(maxDuration: int, s: Recorder)
    requires Coherent(s) && s.isRecording && !s.isPaused
    ensures var r := Step(maxDuration, Step(maxDuration, s, PauseClicked).state, ResumeClicked);
      && r.state.isRecording && !r.state.isPaused && r.state.timer.Some?
      && r.state.recordingTime == s.recordingTime
      && r.effects == [ResumeRecorder]
  {
  }

  // ---------------------------------------------------------------------
  // What the captured state does
  // ---------------------------------------------------------------------

  /** Recording, started from the initial state, with a tick at the limit: the corrected hook stops. */
  lemma TickStopsAtMax(t0: int, maxDuration: int)
    ensures var started := Step(maxDuration, Initial, Start(t0, Granted)).state;
      var ticked := Step(maxDuration, started, Tick(t0 + 1000 * maxDuration));
      ticked.effects == [StopRecorder] && ticked.state.timer.None?
  {
    var started := Step(maxDuration, Initial, Start(t0, Granted)).state;
    assert ElapsedSeconds(t0, t0 + 1000 * maxDuration) == maxDuration;
  }

  /** The same as written: the stop the interval calls saw no recording, so nothing stops and the timer runs on. */
  lemma AsWrittenNeverAutoStops(t0: int, maxDuration: int)
    ensures var started := StepAsWritten(maxDuration, Initial, Start(t0, Granted)).state;
      var ticked := StepAsWritten(maxDuration, started, Tick(t0 + 1000 * maxDuration));
      && ticked.effects == [] && ticked.state.timer.Some? && ticked.state.isRecording
      && ticked.state.recordingTime == maxDuration
  {
    assert ElapsedSeconds(t0, t0 + 1000 * maxDuration) == maxDuration;
  }

  /** After a pause and a resume the corrected hook's clock moves on. */
  lemma ResumedTimeAdvances(t0: int, later: int)
    requires later >= t0 + 1000
    ensures var s1 := Step(DefaultMaxDuration, Initial, Start(t0, Granted)).state;
      var s2 := Step(DefaultMaxDuration, s1, PauseClicked).state;
      var s3 := Step(DefaultMaxDuration, s2, ResumeClicked).state;
      Step(DefaultMaxDuration, s3, Tick(later)).state.recordingTime >= 1
  {
  }

  /** As written, the resumed interval runs the closure built while paused, and the clock stays put. */
  lemma AsWrittenResumeFreezesTime(t0: int, later: int)
    ensures var s1 := StepAsWritten(DefaultMaxDuration, Initial, Start(t0, Granted)).state;
      var s2 := StepAsWritten(DefaultMaxDuration, s1, PauseClicked).state;
      var s3 := StepAsWritten(DefaultMaxDuration, s2, ResumeClicked).state;
      && s3.isRecording && !s3.isPaused && s3.timer.Some?
      && StepAsWritten(DefaultMaxDuration, s3, Tick(later)).state.recordingTime == 0
  {
  }

  /** The corrected stop handler reports the time recorded. */
  lemma CompletionReportsDuration(t0: int, later: int, url: string)
    requires later >= t0
    ensures var s1 := Step(DefaultMaxDuration, Initial, Start(t0, Granted)).state;
      var s2 := Step(DefaultMaxDuration, s1, Tick(later)).state;
      Step(DefaultMaxDuration, s2, RecorderStopped(url)).effects == [Completed(url, (later - t0) / 1000)]
  {
  }

  /** As written the stop handler reports the time shown when recording started, here zero. */
  lemma AsWrittenReportsStartDuration(t0: int, later: int, url: string)
    ensures var s1 := StepAsWritten(DefaultMaxDuration, Initial, Start(t0, Granted)).state;
      var s2 := StepAsWritten(DefaultMaxDuration, s1, Tick(later)).state;
      StepAsWritten(DefaultMaxDuration, s2, RecorderStopped(url)).effects == [Completed(url, 0)]
  {
  }

  // ---------------------------------------------------------------------
  // The time display
  // ---------------------------------------------------------------------

  /** A number rendered with at least two digits, a leading zero added if needed. */
  function PadTwo(n: nat): (r: string)
    ensures |r| >= 2 && (n < 100 ==> |r| == 2)
    ensures forall i :: 0 <= i < |r| ==> IsDigit(r[i])
    ensures ParseDigits(r) == n
  {
    var t := NatToString(n);
    ParseNatToString(n);
    NatToStringShort(n);
    if |t| < 2 then
      LeadingZero(t);
      "0" + t
    else t
  }

  lemma {:induction false} NatToStringShort(n: nat)
    ensures n < 10 ==> |NatToString(n)| == 1
    ensures n < 100 ==> |NatToString(n)| <= 2
  {
    if n >= 10 {
      NatToStringShort(n / 10);
    }
  }

  /** A leading zero does not change the value of a digit string. */
  lemma {:induction false} LeadingZero(d: string)
    requires forall i :: 0 <= i < |d| ==> IsDigit(d[i])
    ensures ParseDigits("0" + d) == ParseDigits(d)
  {
    if d != [] {
      var z := "0" + d;
      assert z[..|z| - 1] == "0" + d[..|d| - 1];
      LeadingZero(d[..|d| - 1]);
    }
  }

  /**
   * `formatTime`: minutes and seconds, each with at least two digits,
   * separated by a colon. Read back, the two fields give the seconds.
   */
  function FormatTime(seconds: nat): (r: string)
    ensures |r| >= 5 && (seconds < 6000 ==> |r| == 5)
    ensures r[|r| - 3] == ':'
    ensures forall i :: 0 <= i < |r| && i != |r| - 3 ==> IsDigit(r[i])
    ensures ParseDigits(r[|r| - 2..]) < 60
    ensures 60 * ParseDigits(r[..|r| - 3]) + ParseDigits(r[|r| - 2..]) == seconds
  {
    var mins := PadTwo(seconds / 60);
    var secs := PadTwo(seconds % 60);
    var r := mins + ":" + secs;
    assert r[..|r| - 3] == mins && r[|r| - 2..] == secs;
    r
  }
}
