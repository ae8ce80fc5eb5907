# Music player transport: a Dafny model

This project models the core of a small Electron music player (`renderer.js`).
It covers the playlist and transport state behind the player's buttons and the
`m:ss` time label.

- `player.dfy`, module `Player`: class `MusicPlayer`. It holds the renderer's
  module state (`playlist`, `currentTrackIndex`, `isPlaying`,
  `isDraggingProgress`, and whether `progressInterval` holds a pending frame).
  It also holds the parts of the `<audio>` element that the handlers read and
  write: `paused`, `src` and the shown title.
  Each event handler is a method. Every handler keeps the object invariant
  `Valid()`, and the selection handlers also keep `Synced()`:
  - the index is a playlist position, or 0 while the playlist is empty;
  - `src` and the title show the loaded entry;
  - the element only plays while `isPlaying` is set;
  - the loaded entry is the selected one.
- `navigation.dfy`, module `Navigation`: the wrap-around index arithmetic of
  Prev, Next and the `ended` auto-advance. It proves the index stays in range,
  that Prev and Next undo each other, and that `k` presses of Next move `k`
  places modulo the playlist length.
- `tracks.dfy`, module `Tracks`: the playlist entry built from a chosen file.
  The entry holds the path and its POSIX `path.basename`.
- `time_format.dfy`, module `TimeFormat`: `formatTime`. The label is proved equal
  to a reference rendering `Clock` of the whole seconds. `Clock` is proved to
  read back through a parser `ParseClock`. So the seconds field is always two
  digits below 60, and two times share a label exactly when they share their
  whole seconds.
- `wrappers.dfy`, module `Wrappers`: `Option`.

Inputs from outside become parameters:
- The file dialog's answer is `selection`. It is `None` when the dialog call
  fails.
- Whether `audio.play()` resolves is `playStarts`.

Behaviour of the player that the model keeps:
- There is no clear or remove operation. The index starts at 0 on the empty
  playlist and stays a valid position once the playlist has entries.
- Play/pause looks at the audio element's `paused` flag, not at `isPlaying`.
- A newly loaded track starts playing only when `isPlaying` is set.
- Play order is always sequential: Prev and Next step by one with wrap-around.
  There is no shuffle or loop mode.

## Model

| member | source | states |
|---|---|---|
| Player.MusicPlayer.constructor | renderer.js:5-10 | Start state: empty playlist, index 0, not playing, not dragging, no frame pending, element paused with no source |
| Player.MusicPlayer.AppendSelection | renderer.js:31-57 | A failed or empty selection changes nothing. Otherwise the playlist becomes the old playlist followed by one entry per file, in order. If the playlist was empty, index 0 is selected and the first file is loaded. If not, the index and the loaded track are unchanged. The invariants are kept |
| Player.MusicPlayer.SelectItem | renderer.js:86-89 | Clicking an existing entry selects that index and loads its file; the playlist is unchanged |
| Player.MusicPlayer.LoadTrack | renderer.js:95-116 | An out-of-range index changes nothing. An in-range index loads that entry's `file://` source and name. The element is left paused unless the player is playing and `play()` succeeds. `isPlaying` and the playlist are unchanged |
| Player.MusicPlayer.TogglePlay | renderer.js:118-138 | A playing element is paused, `isPlaying` is cleared and the progress loop stopped. A paused element starts only when `play()` succeeds, which sets `isPlaying` and starts the loop. On failure nothing changes |
| Player.MusicPlayer.Prev | renderer.js:175-180 | On a non-empty playlist the index becomes `PrevIndex` of the old one and that track is loaded. On an empty playlist nothing changes |
| Player.MusicPlayer.Next | renderer.js:181-186 | On a non-empty playlist the index becomes `NextIndex` of the old one and that track is loaded. On an empty playlist nothing changes |
| Player.MusicPlayer.TrackEnded | renderer.js:236-242 | The element is paused and the progress loop stopped. On a non-empty playlist the handler advances exactly as Next does, so playback continues if the player was playing |
| Player.MusicPlayer.ProgressMouseDown | renderer.js:189-192 | A drag starts and the progress loop stops |
| Player.MusicPlayer.ProgressMouseUp | renderer.js:210-217 | The drag ends. The progress loop is pending afterwards exactly when it was before or the element is playing |
| Player.MusicPlayer.ProgressMouseLeave | renderer.js:219-226 | Inside a drag: the drag ends and the loop restarts if the element is playing. Outside a drag: nothing changes |
| Player.WrapAroundScenario | renderer.js:181-186 | Three files chosen into an empty player, then Next three times: the selection goes 0, 1, 2, 0, and each time that file's source is loaded |
| Navigation.NextIndex | renderer.js:183 | `(i + 1) % n` is in range: the following position, or 0 after the last |
| Navigation.PrevIndex | renderer.js:177 | `(i - 1 + n) % n` is in range: the preceding position, or the last one before the first |
| Navigation.PrevNextInverse | renderer.js:175-186 | Next after Prev, and Prev after Next, give back the original index |
| Navigation.AdvanceIsModular | renderer.js:236-242 | `k` successive advances from `i` land on `(i + k) % n` |
| Navigation.FullCycle | renderer.js:181-186 | After `n` advances the same track is selected again, and not before |
| Tracks.TrackOf | renderer.js:38-41 | A chosen file becomes an entry with that path and a separator-free name |
| Tracks.TracksOf | renderer.js:38-44 | The new entries correspond one to one, in order, to the chosen files |
| Tracks.Basename | renderer.js:40 | `path.basename(file)`: a separator-free suffix of the path once its trailing separators are dropped |
| Tracks.SourceUrl | renderer.js:99 | The source is `file://` followed by exactly the entry's path |
| Tracks.SourceUrlInjective | renderer.js:99 | Two entries get the same source exactly when their paths are equal |
| Tracks.AfterLastSlash | renderer.js:40 | The basename is the longest suffix free of `/` |
| Tracks.BasenameOfJoin | renderer.js:40 | The name of `dir/name` (with any trailing slashes) is `name` |
| Tracks.BasenameOfName | renderer.js:40 | A bare file name is its own display name |
| TimeFormat.NatToString | renderer.js:144 | Whole minutes and seconds render as decimal digits with no leading zero |
| TimeFormat.NatToStringRoundTrip | renderer.js:144 | The decimal rendering reads back as the same number |
| TimeFormat.PadStart2 | renderer.js:144 | `padStart(2, '0')`: at least two characters, the input at the end, zeros before it |
| TimeFormat.PaddedValue | renderer.js:143-144 | Padded seconds keep their value and are exactly two digits below 100 |
| TimeFormat.FloorOfMinutes | renderer.js:142-143 | For `s >= 0`: `floor(s / 60)` is the whole minutes of `floor(s)`, and `floor(s % 60)` is its remaining seconds |
| TimeFormat.Minutes | renderer.js:142 | `Math.floor(s / 60)` equals `floor(s) / 60` |
| TimeFormat.SecondsOfMinute | renderer.js:143 | `Math.floor(s % 60)` equals `floor(s) % 60`, so it is always below 60 |
| TimeFormat.FormatTime | renderer.js:140-145 | `formatTime` equals the `m:ss` rendering `Clock` of the whole seconds of its input; NaN and zero render as `0:00`. FormatTimeRoundTrip and FormatTimeSameLabel build on this |
| TimeFormat.ClockRoundTrip | renderer.js:142-144 | Every `m:ss` label reads back as its number of seconds |
| TimeFormat.FormatTimeRoundTrip | renderer.js:140-145 | The label of any time parses: two-digit seconds below 60, reading back as the whole seconds of the input |
| TimeFormat.FormatTimeSameLabel | renderer.js:140-145 | Two times get the same label exactly when their whole seconds are equal |
| TimeFormat.FormatTimeExamples | renderer.js:140-145 | NaN gives `0:00`, 0 gives `0:00`, and 65 gives `1:05` |

## Left out

- main.js: window creation, IPC and the native file dialog. The dialog's answer is the `selection` parameter of `AppendSelection`.
- Display updates: the DOM built by `updatePlaylistDisplay` (renderer.js:59-93), the button glyphs, the slider fill and the time display text. `SelectItem` stands for the click listener attached there.
- The progress loop's body (renderer.js:147-170). Only whether a frame is pending is modelled, as `progressScheduled`.
- The slider's `mousemove` and `input` handlers (renderer.js:194-208). They only rewrite the slider fill and the time text from floating-point arithmetic, so they change no modelled state.
- Seeking in `mouseup` (renderer.js:212-213) and the volume slider (renderer.js:229-233). Both are floating-point arithmetic over the element's duration.
- The `loadedmetadata` handler (renderer.js:245-261). It resets the sliders and the time text, and restarts the progress loop if the element is playing; that restart is not modelled.
- The `error` handler (renderer.js:264-271). It logs the error and also stops the progress loop; that stop is not modelled.
- Promise timing: each `play()` promise settles inside the handler that called it. Events that arrive before it settles are not modelled.
- The legacy case where `play()` returns `undefined` is not modelled.
- Player.MusicPlayer.TogglePlay: a rejected `play()` is taken to leave the element paused. A browser can leave `paused` false after some rejections.
- Player.MusicPlayer.LoadTrack: same assumption. Assigning `src` is taken to pause the element, following the media element load algorithm of the HTML standard.
- Player.MusicPlayer.SelectItem: requires an index inside the playlist. An item exists only for an existing entry, and entries are never removed.
- TimeFormat.FormatTime: takes NaN or a non-negative finite number of seconds. Infinite durations, negative times, and minute counts large enough for JavaScript's exponent notation are not modelled.
- Tracks.TrackOf: the name uses POSIX `path.basename`. Windows `\` separators are not modelled.
- The title text that the page shows before any track is loaded comes from the HTML. It is modelled as the empty string.
