# Playlist and playback state machine of a browser media player

This project models the playlist and playback logic of a small browser MP3/MP4 player. All of that logic is in one script, `script.js`. The model has three modules:

- `TimeFormat` (`time_format.dfy`) covers `formatTime`, the pure function that renders a number of seconds as `M:SS`. It also has a parser for that text and proofs that formatting can be undone.
- `Playback` (`playback.dfy`) works on values:
  - the track records that `handleFiles` appends;
  - the cyclic index steps of `nextTrack`, `prevTrack` and `handleTrackEnd`;
  - the one-element `splice` that `removeTrack` performs.

  Lemmas prove that prev undoes next, next undoes prev, and `n` steps on a list of `n` tracks come back to the start.
- `MediaPlayer` (`player.dfy`) has a `Player` class. Its fields are the script's module-level state:
  - `playlist`, `currentTrackIndex`, `autoplay`, `randomPlay`;
  - an abstract audio element `{src, paused}`;
  - an abstract video popup `{visible, src}`;
  - the text of the page elements the handlers write (`Labels`).

  Each handler is a method with a `modifies` clause whose `ensures` give the whole new state.

Two twostate predicates describe the effects shared by several handlers:
- `PlayedTrack(k, audioOnEntry)`: what `playTrack(k)` leaves behind.
- `ToggledPlayback()`: what `playOrPauseAudio` does.

`Valid()` is kept by every handler. It says:
- every track has a non-empty URL;
- the audio element is never playing without a source;
- the popup is shown exactly when it holds a video URL;
- the autoplay and shuffle buttons show their flags.

It does *not* say that `currentTrackIndex < |playlist|`. `removeTrack` and `clearPlaylist` never touch the index, so it can point past the end. The client method `StaleIndexAfterRemove` builds such a state and shows that `nextTrack` still lands on a track, because of the modulo. The client method `AutoplayTraversal` runs the player with two audio tracks and one video, autoplay on and shuffle off. From track 0, three ends of track visit 1, then 2 (in the popup), then 0. While the video plays, the audio element still holds the previous audio track.

Foreign calls are taken as parameters:
- `URL.createObjectURL(file)` is the `urls` argument of `HandleFiles`.
- `Math.floor(Math.random() * playlist.length)` is the `r` argument of `HandleTrackEnd`, with `r < |playlist|` whenever shuffle is used.
- the `audioContext.resume()` promise in `togglePlayPause` is treated as resolving at once.

Behaviours of the code that are easy to miss, kept by the model:
- `playTrack` on a `video/mp4` track does not stop or unload the audio element. Only `nextTrack`/`prevTrack` pause it first, and playback can go on under the popup.
- `removeTrack` resets the display texts only when the playlist becomes empty, not when the removed track is the current one. It never stops the audio and never adjusts the index.
- `clearPlaylist` pauses and unloads the audio but leaves the video popup as it was, along with the index and the flags.
- The play/pause toggle treats "paused with an empty `src`" as idle and plays track 0. With autoplay off, the end of a track only writes "Play".

## Model

| member | source | states |
|---|---|---|
| `TimeFormat.Decimal` | script.js:274 | the positional decimal numeral of a whole number (as a template literal writes it below 10^21): non-empty, digits only, one digit exactly below 10, no leading zero |
| `TimeFormat.FormatTime` | script.js:271-275 | the minutes numeral of `s / 60`, then a colon, then exactly two digits; FormatTimeShape and FormatTimeRoundTrip give the value of the field and the inverse |
| `TimeFormat.ParseDecimalOfDecimal` | script.js:274 | reading the numeral back gives the number |
| `TimeFormat.FormatTimeShape` | script.js:271-275 | the text is the minutes numeral of `s / 60`, a colon, then a two-digit seconds field whose value is `s % 60` |
| `TimeFormat.FormatTimeRoundTrip` | script.js:271-275 | parsing minutes and seconds field recovers `s` as `m * 60 + sec` |
| `TimeFormat.FormatTimeInjective` | script.js:271-275 | different whole-second times are displayed differently |
| `TimeFormat.FormatTimeExamples` | script.js:271-275 | 0 gives "0:00", 65 gives "1:05", 3599 gives "59:59" |
| `Playback.Records` | script.js:62-69 | one record `{url, name, type}` per file, in file order, with that file's URL, name and type |
| `Playback.NextIndex` | script.js:185 | the result is in `[0, n)` for any index, including a stale one; for an index in range, it is the successor or 0 after the last |
| `Playback.PrevIndex` | script.js:177 | the result is in `[0, n)` for any index, including a stale one; for an index in range, it is the predecessor or `n - 1` before the first |
| `Playback.PrevAfterNext` | script.js:174-188 | for `i < n`, prevTrack's step after nextTrack's step restores `i` |
| `Playback.NextAfterPrev` | script.js:174-188 | for `i < n`, nextTrack's step after prevTrack's step restores `i` |
| `Playback.AdvanceFullCycle` | script.js:182-188 | `n` successive nextTrack steps on a playlist of length `n` return to `i` |
| `Playback.Removed` | script.js:211 | one element shorter; earlier elements kept, later ones shifted down by one, the removed one is the only element lost (as multisets) |
| `Playback.SpliceOne` | script.js:211 | `splice(start, 1)`: in range removes `start`; negative counts from the end and clamps to 0; at or past the end changes nothing; never adds elements |
| `MediaPlayer.Player.constructor` | script.js:4-7 | empty playlist, index 0, both flags off, audio paused with no source, popup hidden |
| `MediaPlayer.Player.HandleFiles` | script.js:62-71 | the old playlist is a prefix and one record per file is appended in order; nothing else changes |
| `MediaPlayer.Player.ShowPopup` | script.js:105-123 | the popup is shown with the video URL; nothing else changes |
| `MediaPlayer.Player.ClosePopup` | script.js:125-134 | the popup is hidden and its source cleared; nothing else changes |
| `MediaPlayer.Player.PlayTrack` | script.js:85-103 | the index becomes `index`; a video opens the popup on its URL and leaves audio and labels alone; otherwise the popup closes, audio gets the URL and plays, labels read "Pause" and "Now playing: " + name |
| `MediaPlayer.Player.PlayOrPauseAudio` | script.js:158-172 | empty playlist: no change; paused with empty src: exactly playTrack(0); paused with a src: resume and "Pause"; playing: pause and "Play" |
| `MediaPlayer.Player.TogglePlayPause` | script.js:148-156 | the same effect as playOrPauseAudio |
| `MediaPlayer.Player.PrevTrack` | script.js:174-180 | empty playlist: no change; otherwise the audio is paused and track `(i - 1 + n) % n` is played |
| `MediaPlayer.Player.NextTrack` | script.js:182-188 | empty playlist: no change; otherwise the audio is paused and track `(i + 1) % n` is played |
| `MediaPlayer.Player.ToggleAutoplay` | script.js:190-193 | autoplay flips and its button reads "Autoplay: On"/"Off"; nothing else changes |
| `MediaPlayer.Player.ToggleRandom` | script.js:195-198 | shuffle flips and its button reads "Shuffle: On"/"Off"; nothing else changes |
| `MediaPlayer.Player.ClearPlaylist` | script.js:200-208 | empty playlist, audio paused with src "", the three texts reset; index, flags and popup unchanged |
| `MediaPlayer.Player.RemoveTrack` | script.js:210-218 | the playlist becomes `splice(index, 1)` of the old one; the three texts reset exactly when it is now empty; index, flags, audio and popup unchanged |
| `MediaPlayer.Player.HandleTrackEnd` | script.js:284-304 | autoplay off: only the label becomes "Play"; autoplay on: track `r` (shuffle) or `(i + 1) % n` is played on its video or audio branch, as playTrack would |
| `MediaPlayer.PauseThenResume` | script.js:158-172 | two presses of play/pause on a playing track give back the audio element and the "Pause" label |
| `MediaPlayer.NextThenPrev` | script.js:174-188 | with the index in range, nextTrack then prevTrack returns to the same index and playlist |

## Left out

- Web Audio graph construction (script.js:14-46), `setVolume` (script.js:220-222) and `changeEqualizer` (script.js:248-261): they set gain parameters of a platform audio graph from floating-point values.
- `drawVisualizer` (script.js:224-246): canvas drawing in a self-rescheduling animation loop, with fractional bar geometry.
- `updateProgressBar` and `seekTrack` (script.js:263-269, 277-282): floating-point division by a duration that can be unknown (NaN). The time-update and `loadedmetadata` writes of the time labels are platform event wiring.
- `updatePlaylist` (script.js:73-83): it only re-renders the playlist as HTML.
- The `ended` and `loadedmetadata` listener setup (script.js:54-59) and `videoPlayer.onended = handleTrackEnd` (script.js:113). `HandleTrackEnd` is modelled as the handler itself. The model does not include the platform setting the audio element to paused just before it fires `ended`.
- Fullscreen: the vendor-prefixed request and exit branches (script.js:116-122, 136-146) are folded into the popup's visibility.
- The `audioContext.resume()` promise (script.js:149-152) is taken as resolving immediately. A rejected `audio.play()` promise (autoplay policy) is not modelled: `play()` always unpauses.
- The audio element's `src` is an abstract string, with "" meaning no source. The browser resolves an assigned "" against the page URL when `src` is read back. That platform behaviour is not modelled.
- `FormatTime`: takes whole non-negative seconds with unbounded integers. A fractional time is covered through its floor. The model matches the source only for seconds below 2^53, where the double arithmetic of `Math.floor(seconds / 60)` and `seconds % 60` is exact. A minute count of 10^21 or more is printed by JavaScript in exponent form ("1e+21"), while the model prints all the digits. Negative, infinite or NaN inputs (e.g. an unknown duration) are not covered.
- `HandleTrackEnd`: with autoplay on and an empty playlist the source throws a TypeError (`playlist[NaN]` or `playlist[0]` is undefined). The precondition excludes this case instead of modelling the exception. This is a known defect of the source, and the case is reached in normal use:
  - Add one file, turn autoplay on, play it, then remove it. `removeTrack` does not stop the audio (script.js:210-218), so the playlist is empty while the audio still plays. Its `ended` event (script.js:54) then calls `handleTrackEnd`.
  - Before the throw, the sequential branch stores `(i + 1) % 0`, which is NaN, in `currentTrackIndex` (script.js:289). From then on `nextTrack` and `prevTrack` compute NaN (script.js:185, 177). `playTrack` stores it (script.js:87) and throws (script.js:89). This lasts until a playlist entry is clicked, which calls `playTrack` with a valid index.
  - The model's index is a `nat` and cannot hold NaN, so none of this is modelled. The client method `EmptiedWhilePlaying` reaches the excluded state.
- `PlayTrack`: an index outside the playlist throws in the source. The precondition excludes it.
- `HandleFiles`: the URLs must be non-empty, as object URLs are. The order of the `push` calls is kept, but the File objects themselves are reduced to their name and type.
- The page markup is not part of this model. The constructor assumes the initial texts "Play", "No track playing", "0:00", "0:00", "Autoplay: Off" and "Shuffle: Off".
