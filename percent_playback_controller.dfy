/** The playback controller of
  * Smarteller/Smarteller/Controllers/PlaybackController.swift. It adds a
  * public `speed` in percent (playback runs at `speed / 100`), a content
  * height with a floor of 1000 that the scroll offset scales with, `stop()`,
  * and a `startTimer` that invalidates any running timer before scheduling
  * a new one. The blocks it queues on its dispatch queues are taken as
  * atomic steps run at the call. */
module ControllersPlayback {
  import opened Numeric
  import Playback
  import SpeechRate

  /** The smallest content height the controller scrolls over. */
  const MinContentHeight: real := 1000.0

  /** The observable state of a controller. */
  datatype PlaybackState = PlaybackState(
    isPlaying: bool,
    progress: real,       // playbackProgress
    position: real,       // currentPosition
    time: real,           // currentTime
    offset: real,         // scrollOffset
    speed: real,          // speed, in percent
    text: string,         // textContent
    duration: real,       // totalDuration
    rate: real,           // playbackSpeed = speed / 100
    contentHeight: real)

  class PlaybackController {
    var isPlaying: bool
    var currentPosition: real
    var playbackProgress: real
    var currentTime: real
    var scrollOffset: real
    var speed: real
    var textContent: string
    var totalDuration: real
    var playbackSpeed: real
    var contentHeight: real
    /** The number of scheduled timers that have not been invalidated. */
    ghost var liveTimers: nat

    function State(): PlaybackState
      reads this
    {
      PlaybackState(isPlaying, playbackProgress, currentPosition, currentTime, scrollOffset,
                    speed, textContent, totalDuration, playbackSpeed, contentHeight)
    }

    /** Position and time follow progress, the rate is the percentage over
      * 100, the content height keeps its floor, at most one timer is live
      * and it is live exactly while playing, and only a non-empty text
      * plays. */
    ghost predicate Valid()
      reads this
    {
      && Calibrated()
      && currentPosition == playbackProgress
      && currentTime == totalDuration * playbackProgress
      && liveTimers <= 1
      && (liveTimers == 1 <==> isPlaying)
      && (isPlaying ==> textContent != [])
    }

    /** The rate is the percentage over 100 and the content height keeps
      * its floor. */
    ghost predicate Calibrated()
      reads this
    {
      playbackSpeed == speed / 100.0 && contentHeight >= MinContentHeight
    }

    ghost predicate InRange()
      reads this
    {
      0.0 <= playbackProgress <= 1.0
    }

    constructor ()
      ensures Valid() && InRange()
      ensures State() == PlaybackState(false, 0.0, 0.0, 0.0, 0.0, 100.0, "", 0.0, 1.0, MinContentHeight)
      ensures liveTimers == 0
    {
      isPlaying := false;
      currentPosition, playbackProgress, currentTime, scrollOffset := 0.0, 0.0, 0.0, 0.0;
      speed := 100.0;
      textContent, totalDuration, playbackSpeed := "", 0.0, 1.0;
      contentHeight := MinContentHeight;
      liveTimers := 0;
    }

    /** Stores text and duration and resets playback. The `speed` argument is
      * ignored: the rate comes from the stored percentage. */
    method SetupText(content: string, duration: real, speed: real := 1.0)
      requires Valid()
      modifies this
      ensures Valid() && InRange()
      ensures State() == old(State()).(isPlaying := false, progress := 0.0, position := 0.0,
                                       time := 0.0, offset := 0.0, text := content,
                                       duration := duration)
      ensures playbackSpeed == this.speed / 100.0
    {
      textContent := content;
      totalDuration := duration;
      playbackSpeed := this.speed / 100.0;
      ResetPlayback();
    }

    method Stop()
      requires Valid()
      modifies this
      ensures Valid() && InRange()
      ensures State() == old(State()).(isPlaying := false, progress := 0.0, position := 0.0,
                                       time := 0.0, offset := 0.0)
    {
      ResetPlayback();
    }

    /** Starts playing unless there is no text. */
    method Play()
      requires Valid()
      modifies this
      ensures Valid()
      ensures textContent == [] ==> State() == old(State())
      ensures textContent != [] ==> State() == old(State()).(isPlaying := true)
    {
      if textContent == [] {
        return;
      }
      isPlaying := true;
      StartTimer();
    }

    method Pause()
      requires Valid()
      modifies this
      ensures Valid() && liveTimers == 0
      ensures State() == old(State()).(isPlaying := false)
    {
      isPlaying := false;
      StopTimer();
    }

    method TogglePlayback()
      requires Valid()
      modifies this
      ensures Valid()
      ensures old(isPlaying) ==> State() == old(State()).(isPlaying := false)
      ensures !old(isPlaying) ==> State() == old(State()).(isPlaying := textContent != [])
    {
      if isPlaying {
        Pause();
      } else {
        Play();
      }
    }

    /** Pauses and zeroes progress, position, time and scroll offset. */
    method ResetPlayback()
      requires Calibrated()
      modifies this
      ensures Valid() && InRange() && liveTimers == 0
      ensures State() == old(State()).(isPlaying := false, progress := 0.0, position := 0.0,
                                       time := 0.0, offset := 0.0)
    {
      isPlaying := false;
      StopTimer();
      currentPosition := 0.0;
      playbackProgress := 0.0;
      currentTime := 0.0;
      scrollOffset := 0.0;
    }

    /** Jumps to `progress` clamped into [0, 1]; the offset scales with the
      * content height. */
    method SeekTo(progress: real)
      requires Valid()
      modifies this
      ensures Valid() && InRange()
      ensures playbackProgress == Clamp(progress, 0.0, 1.0)
      ensures State() == old(State()).(progress := playbackProgress, position := playbackProgress,
                                       time := totalDuration * playbackProgress,
                                       offset := playbackProgress * contentHeight)
    {
      var clamped := Max(0.0, Min(1.0, progress));
      playbackProgress := clamped;
      currentTime := totalDuration * clamped;
      currentPosition := clamped;
      scrollOffset := clamped * contentHeight;
    }

    /** Takes a percentage: the rate becomes `speed / 100`. A running timer
      * is replaced by a new one. */
    method UpdateSpeed(speed: real)
      requires Valid()
      modifies this
      ensures Valid()
      ensures State() == old(State()).(speed := speed, rate := speed / 100.0)
    {
      playbackSpeed := speed / 100.0;
      this.speed := speed;
      if isPlaying {
        StopTimer();
        StartTimer();
      }
    }

    /** Invalidates any running timer first, so exactly one is live after. */
    method StartTimer()
      modifies this
      ensures State() == old(State()) && liveTimers == 1
    {
      StopTimer();
      liveTimers := liveTimers + 1;
    }

    method StopTimer()
      modifies this
      ensures State() == old(State()) && liveTimers == 0
    {
      liveTimers := 0;
    }

    /** One timer firing (`updatePlayback`): nothing without a positive
      * duration; otherwise progress advances, the offset follows the content
      * height and playback pauses at 1. */
    method Tick()
      requires Valid()
      modifies this
      ensures Valid()
      ensures old(totalDuration) <= 0.0 ==> State() == old(State())
      ensures old(totalDuration) > 0.0 ==>
        var p := Playback.Advance(old(playbackProgress), old(playbackSpeed), old(totalDuration));
        State() == old(State()).(isPlaying := old(isPlaying) && p < 1.0, progress := p,
                                 position := p, time := totalDuration * p,
                                 offset := p * contentHeight)
      ensures old(InRange()) && playbackSpeed >= 0.0 ==>
        InRange() && old(playbackProgress) <= playbackProgress
      ensures old(totalDuration) > 0.0 && playbackProgress >= 1.0 ==> !isPlaying && liveTimers == 0
    {
      if totalDuration <= 0.0 {
        return;
      }
      var increment := Playback.TickInterval * playbackSpeed / totalDuration;
      var newProgress := Min(1.0, playbackProgress + increment);
      var newTime := totalDuration * newProgress;
      var newOffset := newProgress * contentHeight;
      playbackProgress := newProgress;
      currentTime := newTime;
      currentPosition := newProgress;
      scrollOffset := newOffset;
      if playbackProgress >= 1.0 {
        Pause();
      }
    }

    /** Sets the content height, never below 1000. */
    method SetContentHeight(height: real)
      requires Valid()
      modifies this
      ensures Valid()
      ensures contentHeight == Max(height, MinContentHeight)
      ensures height >= MinContentHeight ==> contentHeight == height
      ensures State() == old(State()).(contentHeight := contentHeight)
    {
      contentHeight := Max(height, MinContentHeight);
    }
  }

  /** The control panel passes the speech multiplier, a value in [0.5, 2.0],
    * to `updateSpeed`, which reads it as a percentage: the rate lands in
    * [0.005, 0.02], and a tick at that rate advances progress by at most 2%
    * of what a tick at the nominal rate 1.0 does. */
  lemma SpeechMultiplierReadAsPercent(chars: nat, lastCount: int, elapsed: real, progress: real, duration: real)
    requires SpeechRate.Gate(chars, lastCount, elapsed).Some?
    requires duration > 0.0 && 0.0 <= progress <= 1.0
    ensures var rate := SpeechRate.Gate(chars, lastCount, elapsed).value / 100.0;
      && 0.005 <= rate <= 0.02
      && Playback.Advance(progress, rate, duration) - progress
         <= 0.02 * (Playback.TickInterval * 1.0 / duration)
  {
    var rate := SpeechRate.Gate(chars, lastCount, elapsed).value / 100.0;
    assert Playback.TickInterval * rate / duration <= 0.02 * (Playback.TickInterval * 1.0 / duration);
  }
}
