# Smarteller teleprompter core, modelled in Dafny

Smarteller is a SwiftUI teleprompter for iPad and macOS. This project models
the logic under its views and proves properties of it:

- the two playback controllers (a progress fraction advanced by a 0.1 s
  timer, with a scroll offset derived from it) and the older
  `TeleprompterModel` (a position in [0, 100], total time estimated from the
  text length, font size steps, display and speech toggles);
- the settings object and the stored script (`TeleprompterText`) with its
  derived character count and reading estimate;
- the speech recognition manager's speech-rate gate, which turns a growing
  transcript into a speed multiplier clamped to [0.5, 2.0];
- the three document importers: content sniffing by magic numbers (`%PDF`,
  and the ZIP local file header signature of PKWARE APPNOTE.TXT section
  4.3.7), text clean-up, the encoding fallback list, and the PDF page loops;
- the text-input views' reading-time estimate, reading-difficulty buckets,
  quick-insert snippets and confirm rule.

Every object whose fields the Swift code assigns is a Dafny `class` whose
methods state the whole new state (`State() == old(State()).(...)`, or the
model's `State()` for the input views' confirm actions); where the Swift
code keeps an invariant over those fields (the playback controllers, the
teleprompter model, the script and the speech manager), a `Valid()`
predicate states it and every method keeps it; the loops of the importers
are `method`s proved equal to a recursive specification function; pure computations are functions with
lemmas. `Double` is `real`, `Int(x)` is truncation toward zero (`Trunc`),
Swift's `/` and `%` on negative integers are written out (`Quot`, `Rem`), and
a string's `count` is its length as a sequence of characters. Each timer
firing and each queued block is one atomic step (`Tick`, the callback
methods); whether a timer is scheduled is a ghost field. File system,
PDFKit, RTF and string decoders, the audio engine, the recognizer and the
clock are inputs: a `FileSource.File` value carries what each foreign call
would return, and the current time is a parameter `now`.

Modules: `Wrappers`, `Numeric` (clamping, truncation, decimal text),
`TextUtil` (Foundation's whitespace-and-newlines trimming, NUL removal,
lower-casing), `ClockText` (the shared "m:ss" format), `FileSource` (what
the foreign readers return, and the page-joining function), `SpeechRate`
(the shared gate), then one module per Swift file: `Playback`,
`ControllersPlayback`, `Teleprompter`, `Settings`, `Script`, `Speech`,
`UtilsImporter`, `Importer`, `FileImport`, `TextInput`, `IPadTextInput`.

## Model

| member | source | states |
|---|---|---|
| Playback.Increment | Smarteller/Smarteller/PlaybackController.swift:91 | one tick's increment times the duration is exactly 0.1·speed (a tenth of a second of reading at that speed); it has the sign of the speed |
| Playback.Advance | Smarteller/Smarteller/PlaybackController.swift:88-92 | one tick's progress is old progress plus 0.1·speed/duration when that sum is below 1 and exactly 1 otherwise (both directions); it never exceeds 1, never decreases for a non-negative speed and decreases (or hits 1) for a negative one |
| Playback.TicksMonotoneAndBounded | Smarteller/Smarteller/PlaybackController.swift:91-92 | with speed ≥ 0 and progress in [0, 1], progress over successive ticks is non-decreasing and stays in [0, 1] |
| Playback.TicksAdvanceLinearly | Smarteller/Smarteller/PlaybackController.swift:91-92 | after n ticks progress is at least min(1, start + n·0.1·speed/duration) |
| Playback.TicksAtMostLinear | Smarteller/Smarteller/PlaybackController.swift:91-92 | with speed ≥ 0, after n ticks progress is at most start + n·0.1·speed/duration |
| Playback.ReachesEnd | Smarteller/Smarteller/PlaybackController.swift:91-96 | once n·0.1·speed covers the duration, progress after n ticks is exactly 1 |
| Playback.IncrementsCoverDuration | Smarteller/Smarteller/PlaybackController.swift:91 | n ticks whose total advance covers the duration add up to at least the whole fraction 1 |
| Playback.PlaybackController.constructor | Smarteller/Smarteller/PlaybackController.swift:11-21 | stopped, empty text, all progress fields 0, speed 1.0, no timer |
| Playback.PlaybackController.SetupText | Smarteller/Smarteller/PlaybackController.swift:23-28 | stores content, duration and speed, then not playing with progress, position, time and offset 0 and no timer |
| Playback.PlaybackController.Play | Smarteller/Smarteller/PlaybackController.swift:30-35 | no change on empty text; otherwise playing with a timer, nothing else changed |
| Playback.PlaybackController.Pause | Smarteller/Smarteller/PlaybackController.swift:37-40 | not playing, timer gone, nothing else changed |
| Playback.PlaybackController.TogglePlayback | Smarteller/Smarteller/PlaybackController.swift:42-48 | dispatches on `isPlaying`; with empty text playback stays off |
| Playback.PlaybackController.ResetPlayback | Smarteller/Smarteller/PlaybackController.swift:50-56 | not playing, progress, position, time and offset 0 |
| Playback.PlaybackController.SeekTo | Smarteller/Smarteller/PlaybackController.swift:58-66 | progress = position = clamp(p, 0, 1), time = duration·progress, offset = progress·1000 |
| Playback.PlaybackController.UpdateSpeed | Smarteller/Smarteller/PlaybackController.swift:68-75 | only the speed changes |
| Playback.PlaybackController.StartTimer | Smarteller/Smarteller/PlaybackController.swift:77-81 | a timer is scheduled |
| Playback.PlaybackController.StopTimer | Smarteller/Smarteller/PlaybackController.swift:83-86 | no timer, nothing else changed |
| Playback.PlaybackController.Tick | Smarteller/Smarteller/PlaybackController.swift:88-103 | no-op for duration ≤ 0; otherwise progress = `Advance(...)`, time and offset follow, paused at 1; progress monotone and in [0, 1] for speed ≥ 0 |
| Playback.PauseTwice | Smarteller/Smarteller/PlaybackController.swift:37-40 | pausing twice leaves the same state as pausing once |
| Playback.EmptyTextNeverPlays | Smarteller/Smarteller/PlaybackController.swift:30-48 | after setting up empty text, play and toggle leave playback off |
| ControllersPlayback.PlaybackController.constructor | Smarteller/Smarteller/Controllers/PlaybackController.swift:11-26 | stopped, speed 100 %, rate 1.0, content height 1000, no timer |
| ControllersPlayback.PlaybackController.SetupText | Smarteller/Smarteller/Controllers/PlaybackController.swift:28-33 | stores content and duration, ignores the speed argument (rate = stored percentage / 100), then resets |
| ControllersPlayback.PlaybackController.Stop | Smarteller/Smarteller/Controllers/PlaybackController.swift:35-37 | not playing, no timer, progress, position, time and offset 0 |
| ControllersPlayback.PlaybackController.Play | Smarteller/Smarteller/Controllers/PlaybackController.swift:39-44 | no change on empty content; otherwise playing with exactly one timer |
| ControllersPlayback.PlaybackController.Pause | Smarteller/Smarteller/Controllers/PlaybackController.swift:46-49 | not playing, no timer, nothing else changed |
| ControllersPlayback.PlaybackController.TogglePlayback | Smarteller/Smarteller/Controllers/PlaybackController.swift:51-57 | dispatches on `isPlaying` |
| ControllersPlayback.PlaybackController.ResetPlayback | Smarteller/Smarteller/Controllers/PlaybackController.swift:59-65 | not playing, no timer, progress, position, time and offset 0 |
| ControllersPlayback.PlaybackController.SeekTo | Smarteller/Smarteller/Controllers/PlaybackController.swift:67-80 | progress = position = clamp(p, 0, 1), time = duration·progress, offset = progress·contentHeight |
| ControllersPlayback.PlaybackController.UpdateSpeed | Smarteller/Smarteller/Controllers/PlaybackController.swift:82-90 | speed = s and rate = s/100; no progress field changes |
| ControllersPlayback.PlaybackController.StartTimer | Smarteller/Smarteller/Controllers/PlaybackController.swift:92-103 | stops any timer first, so exactly one timer runs afterwards |
| ControllersPlayback.PlaybackController.StopTimer | Smarteller/Smarteller/Controllers/PlaybackController.swift:105-108 | no timer, nothing else changed |
| ControllersPlayback.PlaybackController.Tick | Smarteller/Smarteller/Controllers/PlaybackController.swift:110-132 | no-op for duration ≤ 0; otherwise progress = `Playback.Advance` at the rate, offset = progress·contentHeight, paused at 1 |
| ControllersPlayback.PlaybackController.SetContentHeight | Smarteller/Smarteller/Controllers/PlaybackController.swift:141-143 | height = max(h, 1000) ≥ 1000 |
| ControllersPlayback.SpeechMultiplierReadAsPercent | Smarteller/Smarteller/Views/ControlPanelComponents.swift:126-128 | a speech multiplier passed to `updateSpeed` becomes a rate in [0.005, 0.02], so a tick advances at most 2 % of a nominal tick |
| Teleprompter.TotalTimeFor | TeleprompterModel.swift:57-62 | total time is at least 30 s and at least count·60/150, and is one of the two |
| Teleprompter.TotalTimeShape | TeleprompterModel.swift:57-62 | up to 75 characters the total is 30 s, from 75 on 0.4 s per character; it never decreases with length |
| Teleprompter.SpeechAlwaysSetsSlowest | TeleprompterModel.swift:221-234 | the rate placeholder reports 1.0, so every recognized text sets the scroll speed to the 0.1 floor |
| Teleprompter.TeleprompterModel.constructor | TeleprompterModel.swift:8-39 | empty text, total time 30 s, speed 1.0, font 24, all flags off |
| Teleprompter.TeleprompterModel.SetText | TeleprompterModel.swift:42-46 | new text, position 0, total time recomputed; time and playing state unchanged |
| Teleprompter.TeleprompterModel.ImportText | TeleprompterModel.swift:48-55 | on success the imported (trimmed) text is set as by `SetText`; on failure nothing changes |
| Teleprompter.TeleprompterModel.CalculateTotalTime | TeleprompterModel.swift:57-62 | total time becomes `TotalTimeFor` of the text length |
| Teleprompter.TeleprompterModel.TogglePlayback | TeleprompterModel.swift:65-71 | flips `isPlaying`, nothing else |
| Teleprompter.TeleprompterModel.StartPlayback | TeleprompterModel.swift:73-76 | playing with a timer, nothing else changed |
| Teleprompter.TeleprompterModel.PausePlayback | TeleprompterModel.swift:78-81 | not playing, no timer, nothing else changed |
| Teleprompter.TeleprompterModel.StopPlayback | TeleprompterModel.swift:83-88 | not playing, position and time 0 |
| Teleprompter.TeleprompterModel.ResetPosition | TeleprompterModel.swift:90-93 | position and time 0, playing state unchanged |
| Teleprompter.TeleprompterModel.Tick | TeleprompterModel.swift:106-120 | position += 0.5·speed, time += 0.1; at position 100 playback stops with position 100 and time 0; else at the total time it stops with position 0 and time = total |
| Teleprompter.TeleprompterModel.SetPosition | TeleprompterModel.swift:122-125 | position = clamp(x, 0, 100), time at the same fraction of the total, within [0, total] |
| Teleprompter.TimeAt | TeleprompterModel.swift:124 | the time at a fraction of the total lies in [0, total] and divides back to the same fraction |
| Teleprompter.TeleprompterModel.IncreaseFontSize | TeleprompterModel.swift:128-130 | font = min(72, font + 2), larger unless already at 72, kept in [12, 72] |
| Teleprompter.TeleprompterModel.DecreaseFontSize | TeleprompterModel.swift:132-134 | font = max(12, font − 2), smaller unless already at 12, kept in [12, 72] |
| Teleprompter.TeleprompterModel.ToggleMirror | TeleprompterModel.swift:136-138 | flips mirroring only |
| Teleprompter.TeleprompterModel.ToggleInvisibleMode | TeleprompterModel.swift:140-142 | flips invisible mode only |
| Teleprompter.TeleprompterModel.ToggleSpeechRecognition | TeleprompterModel.swift:155-180 | stops when active; otherwise active exactly when the recognizer is available (start errors swallowed) |
| Teleprompter.TeleprompterModel.OnRecognition | TeleprompterModel.swift:199-210 | a result stores the transcript and sets speed 0.1; an error deactivates recognition |
| Teleprompter.TeleprompterModel.AdjustScrollSpeedBasedOnSpeech | TeleprompterModel.swift:221-229 | scroll speed = clamp(rate/150, 0.1, 3.0), which is 0.1 |
| ClockText.SplitWholeSeconds | TeleprompterModel.swift:237-241 | for t ≥ 0 the seconds lie in [0, 59], minutes ≥ 0, minutes·60 + seconds = Int(t) |
| ClockText.ClockRoundTrip | Smarteller/Smarteller/Models/TeleprompterSettings.swift:51-55 | for t ≥ 0 the text is minutes, a colon and exactly two digits, and reads back as Int(t) |
| ClockText.NegativeTimeIsNoClockText | Smarteller/Smarteller/Models/TeleprompterSettings.swift:52-54 | at t ≤ −1 the minutes or the seconds field carries a minus sign, so the text is not a clock text |
| Settings.Defaults | Smarteller/Smarteller/Models/TeleprompterSettings.swift:16-42 | font 24 in [12, 72], transparency 1.0 in [0.1, 1.0], scroll speed 5.0 in the tested [0.1, 10.0], playback at rest |
| Settings.TeleprompterSettings.constructor | Smarteller/Smarteller/Models/TeleprompterSettings.swift:15-34 | the state is the defaults |
| Settings.TeleprompterSettings.ResetPlayback | Smarteller/Smarteller/Models/TeleprompterSettings.swift:44-49 | position, progress and time 0, not playing; display settings and total time unchanged |
| Script.ReadingSecondsShape | Smarteller/Smarteller/TeleprompterText.swift:27 | the estimate is 0 exactly for empty content, has no floor, and is 0.3 s per character |
| Script.TeleprompterText.constructor | Smarteller/Smarteller/TeleprompterText.swift:20-28 | count = content length, estimate = length·60/200, both timestamps `now` |
| Script.TeleprompterText.UpdateContent | Smarteller/Smarteller/TeleprompterText.swift:30-35 | new content with count and estimate re-derived; title and creation time unchanged |
| Script.TeleprompterText.UpdateTitle | Smarteller/Smarteller/TeleprompterText.swift:37-40 | only title and modification time change |
| SpeechRate.Multiplier | Smarteller/Smarteller/SpeechRecognitionManager.swift:119-126 | the multiplier is the raw rate ratio clamped into [0.5, 2.0] |
| SpeechRate.Gate | Smarteller/Smarteller/SpeechRecognitionManager.swift:114-128 | emits exactly when more than 1 s has elapsed and the transcript grew, always in [0.5, 2.0] |
| SpeechRate.MultiplierMonotoneInChars | Smarteller/Smarteller/SpeechRecognitionManager.swift:119-126 | more characters in the same time never lower the multiplier |
| SpeechRate.EmissionsIncrease | Smarteller/Smarteller/Controllers/SpeechRecognitionManager.swift:147-162 | over any sample sequence the emitted lengths strictly increase from the starting count and every value is in [0.5, 2.0] |
| Speech.SpeechRecognitionManager.constructor | Smarteller/Smarteller/SpeechRecognitionManager.swift:18-28 | not recording, not authorized, no start time |
| Speech.SpeechRecognitionManager.RequestAuthorization | Smarteller/Smarteller/SpeechRecognitionManager.swift:30-43 | authorized exactly for the `.authorized` status |
| Speech.SpeechRecognitionManager.StartRecording | Smarteller/Smarteller/SpeechRecognitionManager.swift:45-95 | no-op unless authorized; a running engine is stopped first; a successful start records from `now` with the count reset to 0 |
| Speech.SpeechRecognitionManager.StopRecording | Smarteller/Smarteller/SpeechRecognitionManager.swift:97-109 | not recording, start time cleared |
| Speech.SpeechRecognitionManager.CalculateSpeechRate | Smarteller/Smarteller/SpeechRecognitionManager.swift:111-131 | nothing without a start time; otherwise the `Gate` value, and after an emission the count is the transcript length, strictly larger than before |
| Speech.SpeechRecognitionManager.OnRecognitionResult | Smarteller/Smarteller/Controllers/SpeechRecognitionManager.swift:84-95 | a final result or error stops recording (nothing else but the transcript changes) and emits nothing; otherwise a transcript is stored and the emission is `Gate` of its length, the old count and the time since the start, nothing without a start time, and only the transcript and count change |
| UtilsImporter.MagicTests | Smarteller/Smarteller/Utils/DocumentImporter.swift:91-99 | PDF iff the first four bytes are 25 50 44 46, DOCX iff 50 4B 03 04, never both |
| UtilsImporter.ClassifiedByContent | Smarteller/Smarteller/Utils/DocumentImporter.swift:70-89 | nil under 4 bytes; PDF, then ZIP, then UTF-8 text without a 0x00 byte, each class exactly characterised |
| UtilsImporter.SanitizeClean | Smarteller/Smarteller/Utils/DocumentImporter.swift:151-156 | no NUL, no surrounding whitespace or newline, idempotent |
| UtilsImporter.PdfImportMeaning | Smarteller/Smarteller/Utils/DocumentImporter.swift:121-140 | at most 1000 pages read; nil iff no read page has text; otherwise the in-order join of sanitized pages each plus "\n" |
| UtilsImporter.ImportPdfFile | Smarteller/Smarteller/Utils/DocumentImporter.swift:127-139 | the page loop computes `PdfImport` |
| UtilsImporter.ImportDocument | Smarteller/Smarteller/Utils/DocumentImporter.swift:22-56 | nil without scope, with unknown size or over 50 MiB, or unclassified; otherwise the class's importer; DOCX always nil |
| UtilsImporter.ImportedTextIsClean | Smarteller/Smarteller/Utils/DocumentImporter.swift:108-118 | imported plain text has no NUL and no surrounding whitespace, and a file classified as plain text always imports |
| UtilsImporter.DocxRefused | Smarteller/Smarteller/Utils/DocumentImporter.swift:143-163 | DOCX content is recognised by its ZIP signature but is not a supported type |
| Importer.ImportTextFile | Smarteller/Smarteller/DocumentImporter.swift:41-49 | succeeds exactly when the file decodes as UTF-8, and returns that decoding unmodified |
| Importer.PdfImportMeaning | Smarteller/Smarteller/DocumentImporter.swift:51-66 | nil iff no page has text; otherwise the in-order join of each page plus "\n" |
| Importer.ImportPdfFile | Smarteller/Smarteller/DocumentImporter.swift:56-65 | the page loop computes `PdfImport` |
| Importer.DocxIsRawText | Smarteller/Smarteller/DocumentImporter.swift:68-83 | DOCX import is the whole file decoded as UTF-8, without parsing |
| Importer.ImportDocument | Smarteller/Smarteller/DocumentImporter.swift:18-39 | nil without scope or for any other extension; `txt`, `pdf`, `docx` (lower-cased) go to their handlers |
| FileSource.ConcatAppend | Smarteller/Smarteller/DocumentImporter.swift:58-63 | joining pages distributes over splitting the page list |
| FileSource.ConcatEmptyIff | Smarteller/Smarteller/DocumentImporter.swift:65 | with non-empty pieces the join is empty iff no page has text |
| FileImport.FirstDecodingMeaning | FileImporter.swift:24-38 | no decoding iff no encoding in the list decodes; otherwise the first one in list order that does |
| FileImport.ImportTextFile | FileImporter.swift:24-38 | the encoding loop returns the first decoding trimmed, or `encodingError` |
| FileImport.ImportRtfFile | FileImporter.swift:40-50 | succeeds exactly when the file reads and parses as RTF, with trimmed text; any failure is a system error, not one of the importer's own errors |
| FileImport.ImportPdfFile | FileImporter.swift:52-67 | `pdfReadError` for an unopenable document; otherwise the trimmed join of pages plus "\n\n", which is empty when no page has text |
| FileImport.ImportDocxFile | FileImporter.swift:69-82 | never succeeds; `docxReadError` iff the file cannot be read, else `docxNotSupported` |
| FileImport.ImportText | FileImporter.swift:7-22 | dispatch on the lower-cased extension, `unsupportedFormat` otherwise; every success is trimmed |
| FileImport.DescriptionsDistinct | FileImporter.swift:92-105 | every error has a non-empty description and different errors have different ones |
| TextUtil.TrimIsInnerPiece | FileImporter.swift:31 | trimming yields a contiguous piece of the input with no whitespace or newline at either end |
| TextUtil.TrimIdempotent | FileImporter.swift:66 | trimming a trimmed string changes nothing |
| TextUtil.TrimEmptyIffBlank | TextInputView.swift:81 | trimming gives the empty string exactly for input made only of whitespace and newlines |
| TextInput.EstimateMeaning | TextInputView.swift:108-124 | below 150 characters seconds only, (2·count)/5; from 150 on minutes count/150 and seconds 2·(count mod 150)/5, shown only when positive; seconds < 60; together the whole seconds of count·0.4 |
| TextInput.EstimatedDurationUnits | TextInputView.swift:112-122 | the text ends in "秒" with no "分" below 150 characters and contains "分" from 150 on |
| TextInput.ConfirmEnabledIffNotBlank | TextInputView.swift:75-81 | confirm is enabled exactly when the input is not all whitespace and newlines |
| TextInput.Confirm | TextInputView.swift:99-103 | the model's text becomes the untrimmed input, position 0 and the total recomputed; every other model field is unchanged |
| IPadTextInput.ReadingDifficultyMonotone | iPadTextInputView.swift:169-180 | the bucket is chosen by the thresholds 100, 500, 1000 and never falls as the count grows |
| IPadTextInput.IPadTextInputView.OnAppear | iPadTextInputView.swift:141-142 | the input is loaded from the model's text |
| IPadTextInput.IPadTextInputView.QuickInsert | iPadTextInputView.swift:82-96 | the snippet is appended; the earlier input stays a prefix |
| IPadTextInput.IPadTextInputView.Clear | iPadTextInputView.swift:48-51 | the input is empty and confirm is disabled |
| IPadTextInput.IPadTextInputView.Confirm | iPadTextInputView.swift:115-131 | enabled only for non-blank input; the model receives it untrimmed, position 0 and total recomputed, every other field unchanged |

## Left out

- SwiftUI layout, styling, colors, focus and animations; the views' gesture
  and arrow-key handlers only call `setPosition`, which is modelled.
- Timer scheduling, run loops and dispatch queues: every timer firing and
  every queued block is one atomic step.
- The second speech manager runs `stopRecording` as a queued block; a
  restart while the engine runs could let that block clear the new start
  time after the restart. With queued blocks taken as atomic steps, both
  managers are modelled by one class and this interleaving is not captured.
  In the recognition callback the main-queue block that stores the
  transcript and calls `calculateSpeechRate` is taken to run after the
  callback's own `stopRecording` (it is enqueued first but runs later), so
  a final result emits no rate.
- The first playback controller's `startTimer` does not invalidate an
  existing timer; the ghost flag records only whether a timer exists, not
  how many.
- Foreign frameworks: speech recognition and audio engine, authorization
  callbacks, PDFKit, RTF parsing, the String decoders (whether each
  encoding decodes is an input), SwiftData persistence and `Date()`. One
  `decoded` map stands for both `String(data:encoding:)` and
  `String(contentsOf:encoding:)`, so the model assumes the two agree; that is
  why a file classified as plain text always imports in
  `UtilsImporter.ImportedTextIsClean`.
- IEEE-754 rounding: `Double` is `real`; 64-bit overflow of `Int(...)` is
  not modelled.
- `count` is the number of characters as Dafny sees them (code points),
  not Swift's grapheme clusters; `lowercased()` is modelled for ASCII only.
- The repository's tests are not a specification (they call missing APIs);
  only the settings scroll-speed range they assert is used.
- Teleprompter.TeleprompterModel.ImportText: the failure is returned rather
  than printed.
- Teleprompter.FormattedTime and Settings.FormatTime: both are
  `ClockText.Clock`, whose properties are the `ClockText` lemmas above.
