/** The playback controller of Smarteller/Smarteller/PlaybackController.swift:
  * progress is a fraction in [0, 1] that a 0.1 s timer advances in
  * proportion to the playback speed, and the scroll offset is progress times
  * a fixed 1000 points. */
module Playback {
  import opened Numeric

  /** The timer's period, in seconds. */
  const TickInterval: real := 0.1

  /** The scroll distance that a progress of 1 maps to. */
  const MaxScroll: real := 1000.0

  /** The share of the text one tick covers: `0.1 * speed / duration`. */
  function Increment(speed: real, duration: real): (inc: real)
    requires duration > 0.0
    ensures inc * duration == TickInterval * speed
    ensures speed >= 0.0 ==> inc >= 0.0
    ensures speed < 0.0 ==> inc < 0.0
  {
    TickInterval * speed / duration
  }

  /** The progress after one tick: the increment added to the old progress
    * and capped at 1. */
  function Advance(progress: real, speed: real, duration: real): (r: real)
    requires duration > 0.0
    ensures r <= 1.0
    ensures r < 1.0 ==> r == progress + Increment(speed, duration)
    ensures progress + Increment(speed, duration) < 1.0 ==> r == progress + Increment(speed, duration)
    ensures progress + Increment(speed, duration) >= 1.0 ==> r == 1.0
    ensures speed >= 0.0 && progress <= 1.0 ==> progress <= r
    ensures speed < 0.0 ==> r < progress || r == 1.0
  {
    Min(1.0, progress + Increment(speed, duration))
  }

  /** The progress after `n` ticks from `progress` at a constant speed. */
  function ProgressAfter(n: nat, progress: real, speed: real, duration: real): real
    requires duration > 0.0
  {
    if n == 0 then progress else Advance(ProgressAfter(n - 1, progress, speed, duration), speed, duration)
  }

  /** With a non-negative speed, ticks never move progress backwards and
    * never take it out of [0, 1]. */
  lemma {:induction false} TicksMonotoneAndBounded(m: nat, n: nat, progress: real, speed: real, duration: real)
    requires duration > 0.0 && speed >= 0.0
    requires 0.0 <= progress <= 1.0
    requires m <= n
    ensures 0.0 <= ProgressAfter(m, progress, speed, duration)
    ensures ProgressAfter(m, progress, speed, duration) <= ProgressAfter(n, progress, speed, duration) <= 1.0
  {
    if m < n {
      TicksMonotoneAndBounded(m, n - 1, progress, speed, duration);
    } else if n > 0 {
      TicksMonotoneAndBounded(n - 1, n - 1, progress, speed, duration);
    }
  }

  /** With a non-negative speed, `n` ticks advance progress by at least
    * `n` increments of `0.1 * speed / duration` unless it has reached 1. */
  lemma {:induction false} TicksAdvanceLinearly(n: nat, progress: real, speed: real, duration: real)
    requires duration > 0.0 && speed >= 0.0
    requires 0.0 <= progress <= 1.0
    ensures ProgressAfter(n, progress, speed, duration)
            >= Min(1.0, progress + n as real * Increment(speed, duration))
  {
    if n > 0 {
      TicksAdvanceLinearly(n - 1, progress, speed, duration);
      CappedStep(n, progress, speed, duration, ProgressAfter(n - 1, progress, speed, duration));
    }
  }

  /** One capped tick keeps the linear lower bound: from at least
    * `min(1, progress + (n - 1) * inc)`, one `Advance` gives at least
    * `min(1, progress + n * inc)`. */
  lemma CappedStep(n: nat, progress: real, speed: real, duration: real, before: real)
    requires n > 0 && duration > 0.0 && speed >= 0.0
    requires before >= Min(1.0, progress + (n - 1) as real * Increment(speed, duration))
    ensures Advance(before, speed, duration) >= Min(1.0, progress + n as real * Increment(speed, duration))
  {
    CountStep(n, Increment(speed, duration));
  }

  /** With a non-negative speed, `n` ticks advance progress by at most `n`
    * increments: the cap at 1 only ever holds progress back. */
  lemma {:induction false} TicksAtMostLinear(n: nat, progress: real, speed: real, duration: real)
    requires duration > 0.0 && speed >= 0.0
    ensures ProgressAfter(n, progress, speed, duration)
            <= progress + n as real * Increment(speed, duration)
  {
    if n > 0 {
      var inc := Increment(speed, duration);
      TicksAtMostLinear(n - 1, progress, speed, duration);
      var before := ProgressAfter(n - 1, progress, speed, duration);
      assert ProgressAfter(n, progress, speed, duration) == Advance(before, speed, duration);
      assert Advance(before, speed, duration) <= before + inc;
      CountStep(n, inc);
    }
  }

  /** Once `n * 0.1 * speed >= duration`, `n` ticks have taken progress to
    * exactly 1, the point where a tick pauses playback. */
  lemma ReachesEnd(n: nat, progress: real, speed: real, duration: real)
    requires duration > 0.0 && speed >= 0.0
    requires 0.0 <= progress <= 1.0
    requires n as real * (TickInterval * speed) >= duration
    ensures ProgressAfter(n, progress, speed, duration) == 1.0
  {
    IncrementsCoverDuration(n, speed, duration);
    TicksAdvanceLinearly(n, progress, speed, duration);
    TicksMonotoneAndBounded(n, n, progress, speed, duration);
  }

  lemma IncrementsCoverDuration(n: nat, speed: real, duration: real)
    requires duration > 0.0
    requires n as real * (TickInterval * speed) >= duration
    ensures n as real * Increment(speed, duration) >= 1.0
  {
    MulDiv(n as real, TickInterval * speed, duration);
    QuotientAtLeastOne(n as real * (TickInterval * speed), duration);
  }

  /** The observable state of a controller. */
  datatype PlaybackState = PlaybackState(
    isPlaying: bool,
    progress: real,     // playbackProgress
    position: real,     // currentPosition
    time: real,         // currentTime
    offset: real,       // scrollOffset
    text: string,       // textContent
    duration: real,     // totalDuration
    speed: real)        // playbackSpeed

  class PlaybackController {
    var isPlaying: bool
    var currentPosition: real
    var playbackProgress: real
    var currentTime: real
    var scrollOffset: real
    var textContent: string
    var totalDuration: real
    var playbackSpeed: real
    /** Whether the `timer` field holds a scheduled timer. */
    ghost var timerActive: bool

    function State(): PlaybackState
      reads this
    {
      PlaybackState(isPlaying, playbackProgress, currentPosition, currentTime, scrollOffset,
            textContent, totalDuration, playbackSpeed)
    }

    /** The derived fields follow progress, the timer runs exactly while
      * playing, and only a non-empty text plays. */
    ghost predicate Valid()
      reads this
    {
      && currentPosition == playbackProgress
      && currentTime == totalDuration * playbackProgress
      && scrollOffset == playbackProgress * MaxScroll
      && timerActive == isPlaying
      && (isPlaying ==> textContent != [])
    }

    ghost predicate InRange()
      reads this
    {
      0.0 <= playbackProgress <= 1.0
    }

    constructor ()
      ensures Valid() && InRange()
      ensures State() == PlaybackState(false, 0.0, 0.0, 0.0, 0.0, "", 0.0, 1.0)
    {
      isPlaying := false;
      currentPosition, playbackProgress, currentTime, scrollOffset := 0.0, 0.0, 0.0, 0.0;
      textContent, totalDuration, playbackSpeed := "", 0.0, 1.0;
      timerActive := false;
    }

    /** Stores the text, its duration and the speed, then resets playback. */
    method SetupText(content: string, duration: real, speed: real := 1.0)
      modifies this
      ensures Valid() && InRange()
      ensures State() == PlaybackState(false, 0.0, 0.0, 0.0, 0.0, content, duration, speed)
    {
      textContent := content;
      totalDuration := duration;
      playbackSpeed := speed;
      ResetPlayback();
    }

    /** Starts playing unless there is no text. */
    method Play()
      requires Valid()
      modifies this
      ensures Valid()
      ensures textContent == [] ==> State() == old(State())
      ensures textContent != [] ==> State() == old(State()).(isPlaying := true)
    {
      if textContent == [] {
        return;
      }
      isPlaying := true;
      StartTimer();
    }

    method Pause()
      requires Valid()
      modifies this
      ensures Valid()
      ensures State() == old(State()).(isPlaying := false)
    {
      isPlaying := false;
      StopTimer();
    }

    method TogglePlayback()
      requires Valid()
      modifies this
      ensures Valid()
      ensures old(isPlaying) ==> State() == old(State()).(isPlaying := false)
      ensures !old(isPlaying) ==> State() == old(State()).(isPlaying := textContent != [])
    {
      if isPlaying {
        Pause();
      } else {
        Play();
      }
    }

    /** Pauses and zeroes progress, position, time and scroll offset. */
    method ResetPlayback()
      modifies this
      ensures Valid() && InRange()
      ensures State() == old(State()).(isPlaying := false, progress := 0.0, position := 0.0,
                                       time := 0.0, offset := 0.0)
    {
      isPlaying := false;
      StopTimer();
      currentPosition := 0.0;
      playbackProgress := 0.0;
      currentTime := 0.0;
      scrollOffset := 0.0;
    }

    /** Jumps to `progress` clamped into [0, 1]. */
    method SeekTo(progress: real)
      requires Valid()
      modifies this
      ensures Valid() && InRange()
      ensures playbackProgress == Clamp(progress, 0.0, 1.0)
      ensures State() == old(State()).(progress := playbackProgress, position := playbackProgress,
                                       time := totalDuration * playbackProgress,
                                       offset := playbackProgress * MaxScroll)
    {
      var clamped := Max(0.0, Min(1.0, progress));
      playbackProgress := clamped;
      currentTime := totalDuration * clamped;
      currentPosition := clamped;
      scrollOffset := clamped * MaxScroll;
    }

    /** Stores the new speed; a running timer is replaced by a new one. */
    method UpdateSpeed(speed: real)
      requires Valid()
      modifies this
      ensures Valid()
      ensures State() == old(State()).(speed := speed)
    {
      playbackSpeed := speed;
      if isPlaying {
        StopTimer();
        StartTimer();
      }
    }

    method StartTimer()
      modifies this
      ensures State() == old(State()) && timerActive
    {
      timerActive := true;
    }

    method StopTimer()
      modifies this
      ensures State() == old(State()) && !timerActive
    {
      timerActive := false;
    }

    /** One timer firing (`updatePlayback`): nothing without a positive
      * duration; otherwise progress advances and playback pauses at 1. */
    method Tick()
      requires Valid()
      modifies this
      ensures Valid()
      ensures old(totalDuration) <= 0.0 ==> State() == old(State())
      ensures old(totalDuration) > 0.0 ==>
        var p := Advance(old(playbackProgress), old(playbackSpeed), old(totalDuration));
        State() == old(State()).(isPlaying := old(isPlaying) && p < 1.0, progress := p,
                                 position := p, time := totalDuration * p, offset := p * MaxScroll)
      ensures old(InRange()) && playbackSpeed >= 0.0 ==>
        InRange() && old(playbackProgress) <= playbackProgress
      ensures old(totalDuration) > 0.0 && playbackProgress >= 1.0 ==> !isPlaying
    {
      if totalDuration <= 0.0 {
        return;
      }
      var increment := TickInterval * playbackSpeed / totalDuration;
      playbackProgress := Min(1.0, playbackProgress + increment);
      currentTime := totalDuration * playbackProgress;
      currentPosition := playbackProgress;
      scrollOffset := playbackProgress * MaxScroll;
      if playbackProgress >= 1.0 {
        Pause();
      }
    }
  }

  /** Pausing twice leaves the same state as pausing once. */
  method PauseTwice(c: PlaybackController)
    requires c.Valid()
    modifies c
    ensures c.Valid()
    ensures c.State() == old(c.State()).(isPlaying := false)
  {
    c.Pause();
    var once := c.State();
    c.Pause();
    assert c.State() == once;
  }

  /** With no text loaded, toggling or playing never starts playback. */
  method EmptyTextNeverPlays(c: PlaybackController, duration: real)
    modifies c
    ensures c.Valid() && !c.isPlaying
  {
    c.SetupText("", duration);
    c.Play();
    c.TogglePlayback();
    c.TogglePlayback();
  }
}
