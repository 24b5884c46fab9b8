/** The speech recognition manager, of which the repository holds two copies:
  * Smarteller/Smarteller/SpeechRecognitionManager.swift and
  * Smarteller/Smarteller/Controllers/SpeechRecognitionManager.swift. The
  * second runs the body of `stopRecording` and of the rate gate as blocks on
  * a serial queue (and publishes `isRecording = false` and each emitted
  * rate from a further main-queue block), and stops recording on deinit;
  * the first runs both synchronously. With each queued block taken as one
  * atomic step, the two behave alike and this class models both. In the
  * recognition callback, the main-queue block that stores the transcript
  * and computes the rate is taken to run after the callback's own
  * `stopRecording`, so a final result emits no rate. The audio engine, the
  * recognizer and the clock are inputs: whether the engine starts, the
  * transcript of each result, and the current time `now`. */
module Speech {
  import opened Wrappers
  import SpeechRate

  /** The authorization statuses the recognizer reports. */
  datatype AuthStatus = Authorized | Denied | Restricted | NotDetermined | Unknown

  datatype ManagerState = ManagerState(
    isRecording: bool,
    recognizedText: string,
    isAuthorized: bool,
    lastWordCount: nat,
    startTime: Option<real>,
    engineRunning: bool)

  class SpeechRecognitionManager {
    var isRecording: bool
    var recognizedText: string
    var isAuthorized: bool
    var lastWordCount: nat
    var startTime: Option<real>
    var engineRunning: bool

    function State(): ManagerState
      reads this
    {
      ManagerState(isRecording, recognizedText, isAuthorized, lastWordCount, startTime, engineRunning)
    }

    /** Recording, a start time and a running engine go together. */
    ghost predicate Valid()
      reads this
    {
      isRecording == startTime.Some? && isRecording == engineRunning
    }

    /** A new manager; the authorization request's answer arrives later
      * through `RequestAuthorization`. */
    constructor ()
      ensures Valid()
      ensures State() == ManagerState(false, "", false, 0, None, false)
    {
      isRecording := false;
      recognizedText := "";
      isAuthorized := false;
      lastWordCount := 0;
      startTime := None;
      engineRunning := false;
    }

    /** The authorization callback: only `.authorized` authorizes. */
    method RequestAuthorization(status: AuthStatus)
      requires Valid()
      modifies this
      ensures Valid()
      ensures State() == old(State()).(isAuthorized := status == Authorized)
    {
      match status
      case Authorized => isAuthorized := true;
      case Denied => isAuthorized := false;
      case Restricted => isAuthorized := false;
      case NotDetermined => isAuthorized := false;
      case Unknown => isAuthorized := false;
    }

    /** Does nothing unless authorized. Otherwise stops a running engine,
      * then, if the engine starts, records from `now` with the count of
      * emitted characters back at 0; if it fails to start, only the
      * preceding stop has taken effect. */
    method StartRecording(now: real, engineStarts: bool)
      requires Valid()
      modifies this
      ensures Valid()
      ensures !old(isAuthorized) ==> State() == old(State())
      ensures old(isAuthorized) && engineStarts ==>
        State() == old(State()).(isRecording := true, startTime := Some(now), lastWordCount := 0, engineRunning := true)
      ensures old(isAuthorized) && !engineStarts ==>
        State() == old(State()).(isRecording := false, startTime := None, engineRunning := false)
    {
      if !isAuthorized {
        return;
      }
      if engineRunning {
        StopRecording();
      }
      if engineStarts {
        engineRunning := true;
        isRecording := true;
        startTime := Some(now);
        lastWordCount := 0;
      }
    }

    /** Stops the engine and clears the start time; the transcript and the
      * count of emitted characters stay. */
    method StopRecording()
      modifies this
      ensures Valid()
      ensures State() == old(State()).(isRecording := false, startTime := None, engineRunning := false)
    {
      engineRunning := false;
      isRecording := false;
      startTime := None;
    }

    /** The rate gate (`calculateSpeechRate`): nothing without a start time;
      * otherwise the gate's multiplier for the transcript length and the
      * seconds since the start, and on an emission the length becomes the
      * new `lastWordCount`. */
    method CalculateSpeechRate(now: real) returns (emitted: Option<real>)
      requires Valid()
      modifies this
      ensures Valid()
      ensures old(startTime).None? ==> emitted.None?
      ensures old(startTime).Some? ==>
        emitted == SpeechRate.Gate(|recognizedText|, old(lastWordCount), now - old(startTime).value)
      ensures emitted.Some? ==> SpeechRate.MinMultiplier <= emitted.value <= SpeechRate.MaxMultiplier
      ensures emitted.Some? ==> lastWordCount == |recognizedText| > old(lastWordCount)
      ensures emitted.None? ==> lastWordCount == old(lastWordCount)
      ensures State() == old(State()).(lastWordCount := lastWordCount)
    {
      emitted := None;
      if startTime.None? {
        return;
      }
      var currentWordCount := |recognizedText|;
      var timeElapsed := now - startTime.value;
      if timeElapsed > SpeechRate.Warmup && currentWordCount > lastWordCount {
        var speedMultiplier := SpeechRate.RawMultiplier(currentWordCount, timeElapsed);
        emitted := Some(if speedMultiplier < SpeechRate.MinMultiplier then SpeechRate.MinMultiplier
                        else if speedMultiplier > SpeechRate.MaxMultiplier then SpeechRate.MaxMultiplier
                        else speedMultiplier);
        lastWordCount := currentWordCount;
      }
    }

    /** The recognition task's callback for one result. A final result or an
      * error stops recording in the callback itself, before the queued
      * block that stores the transcript and runs the gate, so that gate
      * emits nothing. */
    method OnRecognitionResult(transcript: Option<string>, finished: bool, now: real)
      returns (emitted: Option<real>)
      requires Valid()
      modifies this
      ensures Valid()
      ensures finished ==> emitted.None? && !isRecording
      ensures transcript.Some? ==> recognizedText == transcript.value
      ensures transcript.None? ==> emitted.None? && recognizedText == old(recognizedText)
      ensures emitted.Some? ==> lastWordCount == |recognizedText| > old(lastWordCount)
      ensures emitted.Some? ==> SpeechRate.MinMultiplier <= emitted.value <= SpeechRate.MaxMultiplier
      ensures emitted.None? ==> lastWordCount == old(lastWordCount)
      ensures !finished && transcript.Some? && old(startTime).Some? ==>
        emitted == SpeechRate.Gate(|transcript.value|, old(lastWordCount), now - old(startTime).value)
      ensures !finished && old(startTime).None? ==> emitted.None?
      ensures finished ==>
        State() == old(State()).(isRecording := false, startTime := None, engineRunning := false,
                                 recognizedText := recognizedText)
      ensures !finished ==>
        State() == old(State()).(recognizedText := recognizedText, lastWordCount := lastWordCount)
    {
      emitted := None;
      if finished {
        StopRecording();
      }
      if transcript.Some? {
        recognizedText := transcript.value;
        emitted := CalculateSpeechRate(now);
      }
    }
  }
}
