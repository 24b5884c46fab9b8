/** The display and playback settings object of
  * Models/TeleprompterSettings.swift: defaults, the font size and
  * transparency ranges, `resetPlayback` and the `formatTime` clock text. */
module Settings {
  import ClockText

  const MinFontSize: real := 12.0
  const MaxFontSize: real := 72.0
  const MinTransparency: real := 0.1
  const MaxTransparency: real := 1.0
  /** The bounds the settings tests accept for the scroll speed. */
  const TestedMinScrollSpeed: real := 0.1
  const TestedMaxScrollSpeed: real := 10.0

  /** The settings' observable state (colors aside). */
  datatype SettingsState = SettingsState(
    fontSize: real,
    transparency: real,
    isMirrored: bool,
    isFullscreen: bool,
    isInvisibleMode: bool,
    playbackSpeed: real,
    scrollSpeed: real,
    isSmartFollowEnabled: bool,
    isPlaying: bool,
    position: real,
    progress: real,
    time: real,
    totalTime: real)

  /** Whether a settings state has its font size and transparency within the
    * declared ranges and a scroll speed within the tested one. */
  predicate InRange(s: SettingsState) {
    && MinFontSize <= s.fontSize <= MaxFontSize
    && MinTransparency <= s.transparency <= MaxTransparency
    && TestedMinScrollSpeed <= s.scrollSpeed <= TestedMaxScrollSpeed
  }

  /** The defaults of a fresh settings object. */
  function Defaults(): (s: SettingsState)
    ensures InRange(s)
    ensures !s.isPlaying && s.position == 0.0 && s.progress == 0.0 && s.time == 0.0
  {
    SettingsState(24.0, 1.0, false, false, false, 1.0, 5.0, false, false, 0.0, 0.0, 0.0, 0.0)
  }

  class TeleprompterSettings {
    var fontSize: real
    var transparency: real
    var isMirrored: bool
    var isFullscreen: bool
    var isInvisibleMode: bool
    var playbackSpeed: real
    var scrollSpeed: real
    var isSmartFollowEnabled: bool
    var isPlaying: bool
    var currentPosition: real
    var playbackProgress: real
    var currentTime: real
    var totalTime: real

    function State(): SettingsState
      reads this
    {
      SettingsState(fontSize, transparency, isMirrored, isFullscreen, isInvisibleMode,
                    playbackSpeed, scrollSpeed, isSmartFollowEnabled,
                    isPlaying, currentPosition, playbackProgress, currentTime, totalTime)
    }

    constructor ()
      ensures State() == Defaults()
      ensures InRange(State())
    {
      fontSize := 24.0;
      transparency := 1.0;
      isMirrored, isFullscreen, isInvisibleMode := false, false, false;
      playbackSpeed := 1.0;
      scrollSpeed := 5.0;
      isSmartFollowEnabled := false;
      isPlaying := false;
      currentPosition, playbackProgress := 0.0, 0.0;
      currentTime, totalTime := 0.0, 0.0;
    }

    /** Zeroes position, progress and time and stops playing; every display
      * setting and the total time stay as they were. */
    method ResetPlayback()
      modifies this
      ensures State() == old(State()).(isPlaying := false, position := 0.0, progress := 0.0, time := 0.0)
      ensures InRange(old(State())) ==> InRange(State())
    {
      currentPosition := 0.0;
      playbackProgress := 0.0;
      currentTime := 0.0;
      isPlaying := false;
    }
  }

  /** `formatTime`, the same "m:ss" clock text as the teleprompter model's. */
  function FormatTime(time: real): string {
    ClockText.Clock(time)
  }
}
