# Pomodoro timer and lo-fi player: a verified model

The application is a single React component (`src/App.tsx`). It combines a
Pomodoro countdown with a background music player. This project models the
state machine inside that component:

- **PomodoroTimer** (`pomodoro_timer.dfy`) covers the state cells `timeLeft`,
  `isRunning`, `isWorkTime` and the timer settings (work and break minutes).
  It models the countdown effect: one second off while running, and a phase
  flip with the end sound at zero. It also models `toggleTimer` (start/pause,
  with the start sound on a fresh start), `resetTimer` and the two settings
  inputs. The transition functions on the `TimerState` value are the
  specification. The class `Timer` holds the same cells as fields, and each
  handler is a method proved to follow its transition function.
- **MusicPlayer** (`music_player.dfy`) covers the fixed six-song playlist,
  `currentSong`, `isPlaying` and `volume`. It models `nextSong`, `prevSong`,
  `togglePlay`, the volume slider and `toggleMute`. Volume is an integer
  number of hundredths in 0..100, because the slider moves in steps of 0.01
  over [0, 1]; 0.5 is 50.
- **TimeFormat** (`time_format.dfy`) models `formatTime`, which shows the
  countdown as `mm:ss`. `ParseTime` reads such a display back. It accepts
  only canonical displays (no leading zero in the minutes beyond the
  padding), and it is proved to be the inverse of `FormatTime` in both
  directions: reading back any display gives its seconds, and every text it
  accepts is exactly the display of the seconds it returns.

Sounds and audio-element commands are returned as values (`Sound`,
`AudioCommand`) and are not played.

One `Timer.Tick` is one run of the countdown effect (`src/App.tsx:80-95`)
together with one firing of the interval it arms. In the code, the last
decrement and the phase flip are two separate steps. The decrement brings
`timeLeft` to 0, and the display shows 00:00. The re-render then re-runs
the effect, which sees 0 and flips. The model keeps them as two
consecutive ticks. The code also flips whenever `timeLeft` is 0, whether
the timer is running or not (the `else if` at line 87), and the model does
the same.

Editing the settings (`src/App.tsx:207-210`, `221-224`) does not rescale
`timeLeft`, so an edit can leave the countdown above its phase's new full
length. `EditDoesNotRescale` exhibits this, and `WithinPhase` is proved
only for ticks, toggles and resets. What every tick, toggle, reset and
in-bounds edit preserves is the invariant `Valid`: settings within the
input bounds, and `0 <= timeLeft <= 3600`. As a result, every countdown
value displays as exactly five characters.

`handleVolumeChange` (`src/App.tsx:146-150`) neither clamps nor rejects a
value: it stores what the slider gives. The model takes the slider's own
range, 0..100 hundredths, as the precondition.

## Model

| member | source | states |
|---|---|---|
| `TimeFormat.ToDecimal` | src/App.tsx:120 | `toString` of a non-negative integer: at least one digit, only digits, its value is the input, no leading zero, one digit exactly below 10, at most two below 100 |
| `TimeFormat.PadStart` | src/App.tsx:120 | `padStart` with a one-character pad: the length is the larger of the width and the input length, the input is a suffix, and everything before it is the pad character |
| `TimeFormat.Field` | src/App.tsx:120 | a padded field has at least two characters, all digits, with the number's value, and no leading zero beyond the padding; its length is 2 below 10 and the number of decimal digits otherwise |
| `TimeFormat.PadKeepsValue` | src/App.tsx:120 | padding a digit string with '0' keeps it all digits and keeps its value |
| `TimeFormat.FormatTime` | src/App.tsx:117-121 | the display is at least 5 characters with ':' third from the end and digits on both sides; below 6000 seconds it is exactly 5 characters with ':' at index 2 |
| `TimeFormat.FormatTimeFields` | src/App.tsx:117-121 | the minutes field shows `floor(s / 60)` with no leading zero beyond the padding, and the two-digit seconds field shows `s % 60` |
| `TimeFormat.FormatParseRoundTrip` | src/App.tsx:117-121 | reading a display back gives the seconds it was made from: minutes * 60 + seconds == s |
| `TimeFormat.ParseFormatRoundTrip` | src/App.tsx:117-121 | every text that is read back as `s` seconds is exactly the display of `s` |
| `TimeFormat.FieldOfValue` | src/App.tsx:120 | a canonical padded field is the padded field of its own value |
| `TimeFormat.CanonicalDecimal` | src/App.tsx:120 | a digit string without a leading zero is the `toString` of its value |
| `TimeFormat.ShownIsFields` | src/App.tsx:117-121 | a text that shows `m` minutes and `s` seconds canonically is the minutes field, ':', and the seconds field |
| `TimeFormat.FormatTimeInjective` | src/App.tsx:117-121 | two different numbers of seconds never produce the same display |
| `PomodoroTimer.AfterTick` | src/App.tsx:83-92 | a tick keeps the settings and never plays the start sound; the end sound plays if and only if `timeLeft` is 0, and then the phase flips, the timer stops and `timeLeft` is the new phase's full length; a silent tick keeps the phase and never raises `timeLeft`; validity is kept |
| `PomodoroTimer.AfterToggle` | src/App.tsx:105-110 | toggling negates running and keeps `timeLeft`, phase and settings; it never plays the end sound, and the start sound only when it starts at the phase's full length |
| `PomodoroTimer.AfterReset` | src/App.tsx:112-115 | reset sets `timeLeft` to the current phase's full length and stops, keeping phase and settings |
| `PomodoroTimer.AfterWorkEdit` | src/App.tsx:207-210 | only the work minutes change; `timeLeft`, running and phase are kept; the phase length changes only during work |
| `PomodoroTimer.AfterBreakEdit` | src/App.tsx:221-224 | only the break minutes change; `timeLeft`, running and phase are kept; the phase length changes only during a break |
| `PomodoroTimer.Run` | src/App.tsx:80-95 | any number of uninterrupted ticks keeps the settings and keeps a valid state valid |
| `PomodoroTimer.InitialIsValid` | src/App.tsx:56-67 | the initial state (25:00, work, stopped, 25/5 minutes) is valid and sits at its phase's full length |
| `PomodoroTimer.TickCountsDown` | src/App.tsx:83-86 | a tick while running with time left takes exactly one second off, never below 0, changes phase, running and settings not at all, and is silent |
| `PomodoroTimer.TickAtZeroFlips` | src/App.tsx:87-92 | at zero the phase flips, running stops, the end sound plays, and `timeLeft` becomes the new phase's full length (break minutes * 60 after work, work minutes * 60 after a break), with the settings kept |
| `PomodoroTimer.TickWhilePausedIsIdle` | src/App.tsx:83-92 | while paused with time left the effect changes nothing and is silent |
| `PomodoroTimer.TransitionsKeepValid` | src/App.tsx:80-115 | tick, toggle, reset and in-bounds settings edits keep the settings in bounds and `timeLeft` in 0..3600, so it never goes negative |
| `PomodoroTimer.TransitionsKeepWithinPhase` | src/App.tsx:83-115 | ticks and toggles keep `timeLeft` within the phase's full length; a flip and a reset establish it from any state |
| `PomodoroTimer.EditDoesNotRescale` | src/App.tsx:207-210 | a concrete edit (work 25 to 10 minutes at 25:00) leaves `timeLeft` at 1500, above the new 600-second phase |
| `PomodoroTimer.ToggleFlipsRunning` | src/App.tsx:105-110 | `toggleTimer` negates running and leaves all else unchanged; the start sound plays if and only if the timer was stopped at its phase's full length |
| `PomodoroTimer.ToggleTwiceRestores` | src/App.tsx:105-110 | starting and immediately pausing restores the exact state; pausing is always silent |
| `PomodoroTimer.ResetIdempotent` | src/App.tsx:112-115 | resetting twice equals resetting once |
| `PomodoroTimer.Countdown` | src/App.tsx:84-86 | `k` uninterrupted ticks of a running timer with at least `k` seconds left take exactly `k` seconds off and change nothing else |
| `PomodoroTimer.PhaseEndsAfterTimeLeft` | src/App.tsx:83-92 | a running timer with `n` seconds left reaches zero after `n` ticks, still running; the next tick flips to the other phase at its full length, stopped, with the end sound |
| `PomodoroTimer.RunOneMore` | src/App.tsx:84-86 | `k + 1` ticks are `k` ticks followed by one more |
| `PomodoroTimer.DefaultWorkSession` | src/App.tsx:56-92 | from the initial state: start (with the start sound), 1500 ticks reach 00:00 still running, one more flips to a stopped 300-second break |
| `PomodoroTimer.DisplayIsFiveCharacters` | src/App.tsx:315-317 | every countdown value of a valid timer displays as 5 characters `mm:ss` that read back as `timeLeft` |
| `PomodoroTimer.Timer.constructor` | src/App.tsx:56-67 | the cells start at 25:00, stopped, work phase, 25 and 5 minutes |
| `PomodoroTimer.Timer.Tick` | src/App.tsx:80-95 | the new cells and the sound are exactly `AfterTick` of the old cells; validity is kept |
| `PomodoroTimer.Timer.ToggleTimer` | src/App.tsx:105-110 | the new cells and the sound are exactly `AfterToggle` of the old cells; validity is kept |
| `PomodoroTimer.Timer.ResetTimer` | src/App.tsx:112-115 | the new cells are exactly `AfterReset` of the old cells; validity is kept |
| `PomodoroTimer.Timer.SetWorkMinutes` | src/App.tsx:207-210 | only `workMinutes` changes, to the value entered; validity is kept |
| `PomodoroTimer.Timer.SetBreakMinutes` | src/App.tsx:221-224 | only `breakMinutes` changes, to the value entered; validity is kept |
| `PomodoroTimer.Timer.Display` | src/App.tsx:315-317 | the shown text is 5 characters with ':' at index 2 and reads back as `timeLeft` |
| `MusicPlayer.NextIndex` | src/App.tsx:133 | the next index is in range; it is 0 after the last song and `i + 1` otherwise |
| `MusicPlayer.PrevIndex` | src/App.tsx:140 | the previous index is in range and equals `(i + length - 1) mod length` |
| `MusicPlayer.PrevUndoesNext` | src/App.tsx:132-144 | previous after next returns to the same song |
| `MusicPlayer.NextUndoesPrev` | src/App.tsx:132-144 | next after previous returns to the same song |
| `MusicPlayer.NavigationWraps` | src/App.tsx:132-144 | next from the last song gives the first; previous from the first gives the last |
| `MusicPlayer.SkipForward` | src/App.tsx:132-137 | any number of next presses stays within the playlist |
| `MusicPlayer.SkipForwardIsModular` | src/App.tsx:132-137 | `k` next presses from song `i` land on `(i + k) mod length` |
| `MusicPlayer.FullCycleReturns` | src/App.tsx:132-137 | pressing next once per song comes back to the starting song |
| `MusicPlayer.MuteToggleTwice` | src/App.tsx:152-160 | two mute toggles give 0.5 from any audible volume and 0 from silence, so any audible volume other than 0.5 is not restored |
| `MusicPlayer.MuteToggled` | src/App.tsx:152-160 | the toggle gives 0 if and only if the volume was above 0, 0.5 otherwise, and always lands in the slider's range |
| `MusicPlayer.Player.constructor` | src/App.tsx:59-62 | the player starts on the first song, paused, at volume 0.5 |
| `MusicPlayer.Player.NowPlaying` | src/App.tsx:341-346 | the title and artist shown are those of the current song |
| `MusicPlayer.Player.TogglePlay` | src/App.tsx:123-130 | playing flips, the command is pause when it was playing and play otherwise, and song and volume are unchanged |
| `MusicPlayer.Player.NextSong` | src/App.tsx:132-137 | the current song becomes `NextIndex` of the old one, the new song is loaded and resumed exactly when playing, and playing and volume are unchanged |
| `MusicPlayer.Player.PrevSong` | src/App.tsx:139-144 | the current song becomes `PrevIndex` of the old one, the new song is loaded and resumed exactly when playing, and playing and volume are unchanged |
| `MusicPlayer.Player.ChangeVolume` | src/App.tsx:146-150 | the volume becomes the slider's value and is applied to the output, with nothing else changed |
| `MusicPlayer.Player.ToggleMute` | src/App.tsx:152-160 | the volume becomes 0 if it was above 0 and 0.5 otherwise, is applied to the output, and song and playing are unchanged |

## Left out

- Audio output: the `Audio` objects, `play`/`pause`, `audio.src` and `audio.volume` writes. They appear only as returned `Sound` and `AudioCommand` values. Whether playback actually starts or fails is not modelled.
- Real time: `setInterval`/`clearInterval` and the 1000 ms period. One tick is one atomic step. Re-arming the interval when a dependency changes affects timing only and is not modelled.
- The `'ended'` listener (src/App.tsx:97-103): it calls the `nextSong` captured when it was last subscribed, and it re-subscribes only when `volume` changes. Which index it moves to therefore depends on React's closure semantics. The model makes no claim that it equals `NextSong` on the current state.
- React's asynchronous, batched state updates: each handler is modelled as acting on the current state, atomically.
- PomodoroTimer.Timer.SetWorkMinutes: requires 1..60 minutes. `parseInt` can yield NaN or any number, and the input's `min`/`max` attributes do not stop typed values; such values are not modelled.
- PomodoroTimer.Timer.SetBreakMinutes: requires 1..30 minutes, for the same reason.
- MusicPlayer.Player.ChangeVolume: requires 0..100 hundredths, the slider's range. `parseFloat` of other text is not modelled.
- Floating-point volume: volume is whole hundredths, the slider's step.
- TimeFormat.FormatTime: defined for non-negative seconds only. JavaScript's result for a negative number (floored minutes, truncated remainder with a sign) is not modelled. `timeLeft` is proved never negative.
- TimeFormat.ToDecimal: JavaScript's number-to-text conversion switches to exponent form from 10^21 and is not exact above 2^53; neither is modelled, and every countdown value stays at or below 3600.
- Theme and gradient selection, `getBackgroundClasses`, `getCustomGradientStyle`, the settings-panel visibility and all rendering other than the countdown text and the song title/artist: styling with no state-machine behaviour.
