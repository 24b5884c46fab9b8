/** The original teleprompter model of TeleprompterModel.swift: a position
  * in [0, 100] that a 0.1 s timer advances by half the scroll speed, a time
  * counter, a total time estimated from the text length with a 30 s floor,
  * font size steps within [12, 72], display toggles and the speech hook that
  * sets the scroll speed. */
module Teleprompter {
  import opened Wrappers
  import opened Numeric
  import ClockText
  import FileSource
  import FileImport
  import TextUtil

  /** The reading rate the total time assumes, in characters per minute. */
  const ReadingRate: real := 150.0
  /** The floor on the total time, in seconds. */
  const MinTotalTime: real := 30.0
  const EndPosition: real := 100.0
  const TickSeconds: real := 0.1
  const MinFontSize: real := 12.0
  const MaxFontSize: real := 72.0
  const FontStep: real := 2.0
  const MinOpacity: real := 0.1
  const MinScrollSpeed: real := 0.1
  const MaxScrollSpeed: real := 3.0

  /** `calculateTotalTime`: the reading time of `count` characters at 150
    * per minute, never below 30 s. */
  function TotalTimeFor(count: nat): (t: real)
    ensures t >= MinTotalTime
    ensures t >= count as real * 60.0 / ReadingRate
    ensures t == MinTotalTime || t == count as real * 60.0 / ReadingRate
  {
    var estimate := count as real / ReadingRate * 60.0;
    if estimate < MinTotalTime then MinTotalTime else estimate
  }

  /** Texts up to 75 characters get the 30 s floor; longer ones 0.4 s per
    * character, so a longer text never gets less time. */
  lemma TotalTimeShape(c1: nat, c2: nat)
    ensures c1 <= 75 ==> TotalTimeFor(c1) == MinTotalTime
    ensures c1 >= 75 ==> TotalTimeFor(c1) == c1 as real * 0.4
    ensures c1 <= c2 ==> TotalTimeFor(c1) <= TotalTimeFor(c2)
  {
  }

  /** The time at a fraction of the total: within [0, total], and the same
    * fraction of it again. */
  function TimeAt(fraction: real, total: real): (t: real)
    requires 0.0 <= fraction <= 1.0 && total > 0.0
    ensures 0.0 <= t <= total
    ensures t / total == fraction
  {
    ScaleBack(fraction, total);
    FractionWithin(fraction, total);
    fraction * total
  }

  /** `calculateSpeechRate`: a placeholder that reports 1.0 for any text. */
  function CalculateSpeechRate(recognizedText: string): real {
    1.0
  }

  /** The scroll speed `adjustScrollSpeedBasedOnSpeech` sets: the reported
    * rate over 150, clamped to [0.1, 3.0]. */
  function SpeechScrollSpeed(recognizedText: string): real {
    Clamp(CalculateSpeechRate(recognizedText) / ReadingRate, MinScrollSpeed, MaxScrollSpeed)
  }

  /** Because the reported rate is always 1.0, every recognized text drives
    * the scroll speed to the 0.1 floor. */
  lemma SpeechAlwaysSetsSlowest(recognizedText: string)
    ensures SpeechScrollSpeed(recognizedText) == MinScrollSpeed
    ensures CalculateSpeechRate(recognizedText) / ReadingRate < MinScrollSpeed
  {
  }

  /** The model's observable state (colors aside). */
  datatype ModelState = ModelState(
    text: string,
    position: real,
    scrollSpeed: real,
    isPlaying: bool,
    time: real,
    totalTime: real,
    fontSize: real,
    opacity: real,
    isMirrored: bool,
    isInvisibleMode: bool,
    speechActive: bool,
    speechText: string)

  class TeleprompterModel {
    var text: string
    var currentPosition: real
    var scrollSpeed: real
    var isPlaying: bool
    var currentTime: real
    var totalTime: real
    var fontSize: real
    var opacity: real
    var isMirrored: bool
    var isInvisibleMode: bool
    var isSpeechRecognitionActive: bool
    var speechRecognitionText: string
    /** Whether `scrollTimer` holds a scheduled timer. */
    ghost var timerActive: bool

    function State(): ModelState
      reads this
    {
      ModelState(text, currentPosition, scrollSpeed, isPlaying, currentTime, totalTime,
                 fontSize, opacity, isMirrored, isInvisibleMode,
                 isSpeechRecognitionActive, speechRecognitionText)
    }

    /** The total time follows the text, position stays in [0, 100], time is
      * never negative, the scroll speed stays where its only writer puts it,
      * the font size within the range every writer keeps, and the timer runs
      * exactly while playing. */
    ghost predicate Valid()
      reads this
    {
      && totalTime == TotalTimeFor(|text|)
      && 0.0 <= currentPosition <= EndPosition
      && currentTime >= 0.0
      && MinScrollSpeed <= scrollSpeed <= MaxScrollSpeed
      && MinFontSize <= fontSize <= MaxFontSize
      && MinOpacity <= opacity <= 1.0
      && timerActive == isPlaying
    }

    /** `init()`: the empty text, so a total time of 30 s. */
    constructor ()
      ensures Valid()
      ensures State() == ModelState("", 0.0, 1.0, false, 0.0, MinTotalTime, 24.0, 1.0,
                                    false, false, false, "")
    {
      text := "";
      currentPosition := 0.0;
      scrollSpeed := 1.0;
      isPlaying := false;
      currentTime := 0.0;
      totalTime := 180.0;
      fontSize := 24.0;
      opacity := 1.0;
      isMirrored, isInvisibleMode := false, false;
      isSpeechRecognitionActive, speechRecognitionText := false, "";
      timerActive := false;
      new;
      CalculateTotalTime();
    }

    /** Replaces the text and rewinds the position; time and playing state
      * are left as they were. */
    method SetText(newText: string)
      requires Valid()
      modifies this
      ensures Valid()
      ensures State() == old(State()).(text := newText, position := 0.0, totalTime := TotalTimeFor(|newText|))
    {
      text := newText;
      currentPosition := 0.0;
      CalculateTotalTime();
    }

    /** `importText(from:)`: on success the imported text replaces the
      * current one; on failure (which the source only logs) nothing
      * changes. The outcome is returned in place of the log line. */
    method ImportText(f: FileSource.File) returns (r: Result<string, FileImport.Failure>)
      requires Valid()
      modifies this
      ensures Valid()
      ensures r.Ok? ==> State() == old(State()).(text := r.value, position := 0.0,
                                                totalTime := TotalTimeFor(|r.value|))
      ensures r.Err? ==> State() == old(State())
      ensures r.Ok? ==> TextUtil.IsTrimmed(text)
    {
      r := FileImport.ImportText(f);
      if r.Ok? {
        SetText(r.value);
      }
    }

    method CalculateTotalTime()
      modifies this`totalTime
      ensures totalTime == TotalTimeFor(|text|)
    {
      var wordCount := |text|;
      totalTime := wordCount as real / ReadingRate * 60.0;
      if totalTime < MinTotalTime {
        totalTime := MinTotalTime;
      }
    }

    method TogglePlayback()
      requires Valid()
      modifies this
      ensures Valid()
      ensures State() == old(State()).(isPlaying := !old(isPlaying))
    {
      if isPlaying {
        PausePlayback();
      } else {
        StartPlayback();
      }
    }

    /** Starts playing; unlike the controllers, no text is required. */
    method StartPlayback()
      requires Valid()
      modifies this
      ensures Valid()
      ensures State() == old(State()).(isPlaying := true)
    {
      isPlaying := true;
      timerActive := true;
    }

    method PausePlayback()
      requires Valid()
      modifies this
      ensures Valid()
      ensures State() == old(State()).(isPlaying := false)
    {
      isPlaying := false;
      timerActive := false;
    }

    /** Stops and rewinds position and time to zero. */
    method StopPlayback()
      requires Valid()
      modifies this
      ensures Valid()
      ensures State() == old(State()).(isPlaying := false, position := 0.0, time := 0.0)
    {
      isPlaying := false;
      timerActive := false;
      currentPosition := 0.0;
      currentTime := 0.0;
    }

    /** Rewinds position and time; playback keeps going if it was. */
    method ResetPosition()
      requires Valid()
      modifies this
      ensures Valid()
      ensures State() == old(State()).(position := 0.0, time := 0.0)
    {
      currentPosition := 0.0;
      currentTime := 0.0;
    }

    /** One timer firing (`updateScrollPosition`): position gains half the
      * scroll speed and time 0.1 s. Reaching position 100 stops playback at
      * position 100 with time 0; otherwise reaching the total time stops it
      * at position 0 with time equal to the total. */
    method Tick()
      requires Valid()
      modifies this
      ensures Valid()
      ensures var pos := old(currentPosition) + scrollSpeed * 0.5;
              var time := old(currentTime) + TickSeconds;
        && (pos >= EndPosition ==>
              State() == old(State()).(isPlaying := false, position := EndPosition, time := 0.0))
        && (pos < EndPosition && time >= totalTime ==>
              State() == old(State()).(isPlaying := false, position := 0.0, time := totalTime))
        && (pos < EndPosition && time < totalTime ==>
              State() == old(State()).(position := pos, time := time))
      ensures currentPosition >= old(currentPosition) || !isPlaying
    {
      var increment := scrollSpeed * 0.5;
      currentPosition := currentPosition + increment;
      currentTime := currentTime + TickSeconds;
      if currentPosition >= EndPosition {
        isPlaying := false;
        timerActive := false;
        currentPosition := 0.0;
        currentTime := 0.0;
        currentPosition := EndPosition;
      }
      if currentTime >= totalTime {
        isPlaying := false;
        timerActive := false;
        currentPosition := 0.0;
        currentTime := 0.0;
        currentTime := totalTime;
      }
    }

    /** Moves to `position` clamped into [0, 100], with the time at the same
      * fraction of the total. */
    method SetPosition(position: real)
      requires Valid()
      modifies this
      ensures Valid()
      ensures currentPosition == Clamp(position, 0.0, EndPosition)
      ensures currentTime / totalTime == currentPosition / EndPosition
      ensures 0.0 <= currentTime <= totalTime
      ensures State() == old(State()).(position := currentPosition, time := currentTime)
    {
      currentPosition := Max(0.0, Min(EndPosition, position));
      currentTime := TimeAt(currentPosition / EndPosition, totalTime);
    }

    method IncreaseFontSize()
      requires Valid()
      modifies this
      ensures Valid()
      ensures fontSize == Min(MaxFontSize, old(fontSize) + FontStep)
      ensures old(fontSize) < MaxFontSize ==> fontSize > old(fontSize)
      ensures State() == old(State()).(fontSize := fontSize)
    {
      fontSize := Min(MaxFontSize, fontSize + FontStep);
    }

    method DecreaseFontSize()
      requires Valid()
      modifies this
      ensures Valid()
      ensures fontSize == Max(MinFontSize, old(fontSize) - FontStep)
      ensures old(fontSize) > MinFontSize ==> fontSize < old(fontSize)
      ensures State() == old(State()).(fontSize := fontSize)
    {
      fontSize := Max(MinFontSize, fontSize - FontStep);
    }

    method ToggleMirror()
      requires Valid()
      modifies this
      ensures Valid()
      ensures State() == old(State()).(isMirrored := !old(isMirrored))
    {
      isMirrored := !isMirrored;
    }

    method ToggleInvisibleMode()
      requires Valid()
      modifies this
      ensures Valid()
      ensures State() == old(State()).(isInvisibleMode := !old(isInvisibleMode))
    {
      isInvisibleMode := !isInvisibleMode;
    }

    /** Stops recognition when active; otherwise starts it if the recognizer
      * is available. Start errors are swallowed (`try?`), so recognition is
      * marked active whenever the recognizer is available. */
    method ToggleSpeechRecognition(recognizerAvailable: bool)
      requires Valid()
      modifies this
      ensures Valid()
      ensures old(isSpeechRecognitionActive) ==> State() == old(State()).(speechActive := false)
      ensures !old(isSpeechRecognitionActive) ==>
        State() == old(State()).(speechActive := recognizerAvailable)
    {
      if isSpeechRecognitionActive {
        isSpeechRecognitionActive := false;
      } else if recognizerAvailable {
        isSpeechRecognitionActive := true;
      }
    }

    /** The recognition callback: a result updates the transcript and the
      * scroll speed; an error stops recognition. */
    method OnRecognition(transcript: Option<string>, failed: bool)
      requires Valid()
      modifies this
      ensures Valid()
      ensures transcript.Some? ==> speechRecognitionText == transcript.value && scrollSpeed == MinScrollSpeed
      ensures transcript.None? ==> speechRecognitionText == old(speechRecognitionText) && scrollSpeed == old(scrollSpeed)
      ensures isSpeechRecognitionActive == (old(isSpeechRecognitionActive) && !failed)
      ensures State().(speechText := old(speechRecognitionText), scrollSpeed := old(scrollSpeed),
                       speechActive := old(isSpeechRecognitionActive)) == old(State())
    {
      if transcript.Some? {
        speechRecognitionText := transcript.value;
        AdjustScrollSpeedBasedOnSpeech(transcript.value);
      }
      if failed {
        isSpeechRecognitionActive := false;
      }
    }

    method AdjustScrollSpeedBasedOnSpeech(recognizedText: string)
      requires Valid()
      modifies this
      ensures Valid()
      ensures State() == old(State()).(scrollSpeed := SpeechScrollSpeed(recognizedText))
      ensures scrollSpeed == MinScrollSpeed
    {
      var wordsPerMinute := CalculateSpeechRate(recognizedText);
      var targetSpeed := wordsPerMinute / ReadingRate;
      scrollSpeed := Max(MinScrollSpeed, Min(MaxScrollSpeed, targetSpeed));
    }

  }

  /** `formattedTime`: whole minutes, a colon and two-digit seconds. */
  function FormattedTime(time: real): string
  {
    ClockText.Clock(time)
  }
}
