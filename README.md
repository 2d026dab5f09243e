# MusicPlayer playlist and transport controller, in Dafny

This project models the controller of the Swing `MusicPlayer`. The controller loads the `.wav` files of a songs
folder into a playlist. It then drives one `javax.sound` clip through play/pause, stop, previous and next.
The model is the object's four controller fields, `audioClip`, `songFiles`, `currentSongIndex` and
`pausedPosition`. Each private method that updates them is modelled as it is written, including its quirks. The one exception
is the backward index step of `playPreviousSong`: the model evaluates it without `int` overflow (see
"## Findings").

Modules:

- `JavaInt`: Java `int` wrap-around and Java's truncating `%`. They are used to show where the index
  arithmetic overflows.
- `SongFiles`: the folder listing as a value, the lower-cased `.wav` suffix test, and the filter that
  `loadSongFiles` performs.
- `Cursor`: forward and backward cursor steps, with both the `int` evaluation and the evaluation on
  unbounded integers.
- `Transport`: each operation as a function from the player state before it to the state after it. The
  lemmas relating several operations live here.
- `Controller`: the class `MusicPlayer`. Its fields are updated in place by methods with `modifies this`.
  Each method is proved to produce exactly the state its `Transport` function gives, and to keep the
  object invariant `Transport.Valid`.

The clip is reduced to a value `Clip(track, running, position)`. What the audio system does during a
call is an input parameter:

- `clipPosition` is what `getMicrosecondPosition` reports at that moment.
- `outcome` says how far `playMusic` got before an exception was swallowed:
  - `StreamFailed`: the stream or clip could not be obtained, so `audioClip` is untouched.
  - `OpenFailed`: `open` threw, so the new clip stays in `audioClip`, not running.
  - `Started`: the clip was opened and started.

Quirks of the code that the model keeps:

- The cursor starts at 0, and the first Next (or Play/Pause with no clip) plays index `1 % n`. With
  listing `a.wav, b.wav, notes.txt` that is `b.wav`, not `a.wav`.
- Stop neither releases nor rewinds the clip. A later Play/Pause resumes that same clip from where it was
  halted.
- A failed play does not return to an idle state. `audioClip` keeps the previous, now stopped, clip, or
  holds the new unopened clip.
- Navigation always resets `pausedPosition` before it plays. So the seek in `playMusic` never runs, and an
  offset recorded on one track is never applied to another.
- A clip that reaches the end of its data stops by itself (`Transport.ClipEnds`). Nothing then moves on to
  the next song: Play/Pause takes the resume branch and restarts the ended clip.

## Model

| member | source | states |
|---|---|---|
| SongFiles.SongList | MusicPlayer.java:110-123 | A missing folder, a non-directory or a null listing gives an empty list. Otherwise the list holds only songs and is no longer than the listing. |
| SongFiles.LowerCase | MusicPlayer.java:117 | The lower-cased name has the same length, and each character is the lower-case form of the original one. |
| SongFiles.EndsWith | MusicPlayer.java:117 | A string ends with a suffix iff the suffix is no longer and each of its characters matches the corresponding one at the end of the string. |
| SongFiles.WavNameByCharacters | MusicPlayer.java:117 | The lower-cased name ends in ".wav" iff the name ends in '.', then w, a, v, each letter in either case. |
| SongFiles.IsSong | MusicPlayer.java:117 | An entry is kept iff it is a regular file whose name ends in '.', then w, a, v, each letter in either case. |
| SongFiles.Filter | MusicPlayer.java:116-120 | The loop's result is no longer than the listing, and holds only entries of the listing that pass the test. |
| SongFiles.FilterMembers | MusicPlayer.java:116-120 | An entry is in the playlist iff it is in the listing and passes the test. |
| SongFiles.FilterCounts | MusicPlayer.java:116-120 | Each song occurs in the playlist as often as in the listing, and every other entry occurs zero times. |
| SongFiles.FilterConcat | MusicPlayer.java:116-120 | Filtering a concatenation gives the concatenated results, so the listing order is kept. |
| SongFiles.FilterKeepsSongs | MusicPlayer.java:116-120 | A listing made only of songs is kept whole. |
| SongFiles.FilterIdempotent | MusicPlayer.java:116-120 | Filtering the playlist again changes nothing. |
| Controller.MusicPlayer.LoadSongFiles | MusicPlayer.java:110-123 | The loop leaves `songFiles` equal to SongList of the folder, and leaves the other fields unchanged. |
| Controller.MusicPlayer.constructor | MusicPlayer.java:24-27 | Fields start at their Java defaults, the songs are loaded, and the invariant holds. |
| Cursor.Next | MusicPlayer.java:142 | The forward step stays in [0, n) and wraps from the last index to 0. |
| Cursor.Previous | MusicPlayer.java:131 | The backward step stays in [0, n) and wraps from 0 to the last index. |
| Cursor.NextAsWritten | MusicPlayer.java:142 | The forward step evaluated on Java `int` lies in (-n, n). It is not negative while `i + 1` fits in an `int`. |
| Cursor.PreviousAsWritten | MusicPlayer.java:131 | The backward step evaluated on Java `int`, left to right, lies in (-n, n). It is not negative while `i - 1 + n` fits in an `int`. |
| Cursor.NextAsWrittenAgrees | MusicPlayer.java:142 | On `int`, the forward step never overflows for any index of a Java list. |
| Cursor.PreviousAsWrittenAgrees | MusicPlayer.java:131 | On `int`, the backward step is correct whenever `i - 1 + n` fits in an `int`. |
| Cursor.PreviousAsWrittenOverflows | MusicPlayer.java:131 | On a list of 2^30 + 2 songs, stepping back from the last index yields a negative index. |
| Cursor.NextPreviousInverse | MusicPlayer.java:128-145 | A backward step and a forward step undo each other, in either order. |
| Cursor.Advance | MusicPlayer.java:142 | Any number of forward steps stays in [0, n). |
| Cursor.AdvanceAdds | MusicPlayer.java:142 | a forward steps followed by b more are a + b forward steps. |
| Cursor.AdvanceWithinList | MusicPlayer.java:142 | As long as the end of the list is not passed, k forward steps add k to the index. |
| Cursor.FullCycle | MusicPlayer.java:142 | n forward steps return to the starting index. |
| Transport.Valid | MusicPlayer.java:18-21 | The controller invariant: at most 2^31-1 songs, the cursor is an index of the list (or 0 while it is empty), and a clip is always on a listed song. It implies the cursor fits an `int`. |
| Transport.Initial | MusicPlayer.java:18-27 | The start-up state satisfies the controller invariant. |
| Transport.StopMusic | MusicPlayer.java:186-191 | Afterwards `pausedPosition` is 0 and no clip runs. A running clip is halted on its track at the reported position. A clip is present iff it was before, on the same track. A clip that was not running is left exactly as it was. The playlist and the cursor are unchanged. |
| Transport.PauseMusic | MusicPlayer.java:170-175 | A running clip is halted at the reported position, which becomes `pausedPosition`. Otherwise nothing changes. |
| Transport.ResumeMusic | MusicPlayer.java:180-184 | A present, halted clip runs again on the same track from the same position. Otherwise nothing changes. `pausedPosition` is never touched. |
| Transport.PlayMusic | MusicPlayer.java:150-165 | A stream or clip failure changes nothing. An open failure leaves a new halted clip at 0. Success leaves a running clip on the file at the paused offset. Index and offset are unchanged. |
| Transport.PlayNextSong | MusicPlayer.java:139-145 | An empty list changes nothing. Otherwise the index becomes (i+1) mod n and the offset is 0. A successful play runs the selected song from 0. An open failure leaves a halted clip on that song at 0. A stream failure leaves the stopped previous clip. The invariant is kept. |
| Transport.PlayPreviousSong | MusicPlayer.java:128-134 | An empty list changes nothing. Otherwise the index becomes (i-1+n) mod n and the offset is 0. A successful play runs the selected song from 0. An open failure leaves a halted clip on that song at 0. A stream failure leaves the stopped previous clip. The invariant is kept. |
| Transport.TogglePlayback | MusicPlayer.java:95-105 | A running clip is paused at the reported position. A halted clip is resumed with the offset unchanged. With no clip this is PlayNextSong. |
| Transport.ActionPerformed | MusicPlayer.java:73-83 | Every button keeps the controller invariant and the playlist. |
| Transport.ClipEnds | MusicPlayer.java:97 | A running clip that runs out halts by itself at its end position, so `isRunning` reads false. Nothing else changes, and a halted clip is left as it is. |
| Transport.Step | MusicPlayer.java:73-83 | A button press, or a clip running out, keeps the controller invariant and the playlist. |
| Transport.Run | MusicPlayer.java:73-83 | Every sequence of button presses and clip endings keeps the controller invariant and the playlist. |
| Transport.StopMusicIdempotent | MusicPlayer.java:186-191 | Stopping twice is the same as stopping once. |
| Transport.PauseMusicIdempotent | MusicPlayer.java:170-175 | Pausing twice is the same as pausing once. |
| Transport.ResumeMusicIdempotent | MusicPlayer.java:180-184 | Resuming twice is the same as resuming once. |
| Transport.NavigationRestoresIndex | MusicPlayer.java:128-145 | Previous then Next, or Next then Previous, restores the cursor. |
| Transport.RunNextAdvances | MusicPlayer.java:139-145 | k Next presses move the cursor k steps forward. |
| Transport.NextRoundTheList | MusicPlayer.java:139-145 | n Next presses on a list of n songs return the cursor to its start. |
| Transport.ToggleFromInitialPlaysSecondSong | MusicPlayer.java:95-105 | From start-up, Play/Pause equals Next and selects index 1 mod n. |
| Transport.StopThenToggleResumes | MusicPlayer.java:186-191 | After Stop, Play/Pause resumes the same clip: at the stop position if it was running, otherwise where it already stood. It does not play the next song. |
| Transport.EndedTrackIsResumedNotAdvanced | MusicPlayer.java:96-100 | After a track plays to its end, Play/Pause restarts that clip at its end position and the cursor stays put. |
| Transport.PauseThenResume | MusicPlayer.java:95-101 | Play/Pause twice on a running clip halts it at a and restarts the same track from a, keeping offset a. |
| Transport.NavigationNeverSeeks | MusicPlayer.java:156-158 | Every successful Next or Previous starts its clip at position 0, so the seek never fires. |
| Transport.FirstNextOpensSecondFile | MusicPlayer.java:110-145 | Listing a.wav, b.wav, notes.txt gives [a.wav, b.wav], and the first Next opens b.wav. |
| Transport.TwoSongsThenOther | MusicPlayer.java:116-120 | Two songs followed by a non-song filter to the two songs, in order. |
| Transport.ExampleNames | MusicPlayer.java:117 | "a.wav" and "b.wav" pass the suffix test, and "notes.txt" does not. |
| JavaInt.Wrap | MusicPlayer.java:131 | Two's-complement wrap-around: the result is an `int`, equals the input when that fits, and differs from it by a multiple of 2^32. |
| JavaInt.Rem | MusicPlayer.java:131 | Java's `%`: the result has the sign of the dividend, is smaller in magnitude than the divisor, and equals Dafny's `%` for non-negative operands. |
| Controller.MusicPlayer.StopMusic | MusicPlayer.java:186-191 | The fields change exactly as Transport.StopMusic says. |
| Controller.MusicPlayer.PauseMusic | MusicPlayer.java:170-175 | The fields change exactly as Transport.PauseMusic says. |
| Controller.MusicPlayer.ResumeMusic | MusicPlayer.java:180-184 | The fields change exactly as Transport.ResumeMusic says. |
| Controller.MusicPlayer.PlayMusic | MusicPlayer.java:150-165 | The fields change exactly as Transport.PlayMusic says. The new clip is stored before it is opened. |
| Controller.MusicPlayer.PlayNextSong | MusicPlayer.java:139-145 | The fields change as Transport.PlayNextSong says, and the invariant is kept. An assertion in the body, not the contract, checks that the offset is 0 when playMusic is entered. |
| Controller.MusicPlayer.PlayPreviousSong | MusicPlayer.java:128-134 | The fields change as Transport.PlayPreviousSong says, and the invariant is kept. The backward step is the corrected one. An assertion in the body, not the contract, checks that the offset is 0 when playMusic is entered. |
| Controller.MusicPlayer.TogglePlayback | MusicPlayer.java:95-105 | The fields change as Transport.TogglePlayback says, and the invariant is kept. |
| Controller.MusicPlayer.ActionPerformed | MusicPlayer.java:73-83 | The fields change as Transport.ActionPerformed says, and the invariant is kept. |

## Findings

| source | as written | input that shows it | evidently intended | confidence | as-written member | corrected member |
|---|---|---|---|---|---|---|
| MusicPlayer.java:131 | The backward index step is computed as `int`. The sum `currentSongIndex - 1 + size` overflows once the list has more than 2^30 songs. | 1073741826 songs, cursor at 1073741825: the expression gives -1073741820, and `songFiles.get` throws. | A wrap-around step that lands in [0, n) for every list a Java `List` can hold. | Overflow certain on that input. Such a folder is unrealistic. Not executed. | Cursor.PreviousAsWrittenOverflows | Cursor.Previous |

`Cursor.PreviousAsWritten` is the `int` evaluation. `Cursor.PreviousAsWrittenAgrees` shows that it equals
`Cursor.Previous` up to 2^30 songs. `Transport.PlayPreviousSong` and `Controller.MusicPlayer.PlayPreviousSong`
use the corrected step.

## Left out

- Swing: window construction, layout, `stateChanged`, `main` and the event thread. `actionPerformed` is
  kept, with the four buttons as the `Command` datatype.
- Cover art: `displayCoverArt` and `getCoverImagePath`. These are presentation only, and the lookup always
  yields no image.
- The real filesystem: the hard-coded path, `exists`, `isDirectory` and `listFiles`. The folder is the
  input value `Folder`.
- `javax.sound` internals: decoding, device access and the position advancing while a clip plays.
  - The position a running clip has reached is the `clipPosition` parameter.
  - A clip is a value held only by `audioClip`, so aliasing of the clip object is not modelled.
  - Closing or releasing clips is not modelled, and the code never does it.
- An exception thrown at the seek or at `start` (lines 156-161) is not a separate outcome. Because the
  offset is always 0 on entry, it would leave the same state as `OpenFailed`.
- Transport.ResumeMusic: starting a clip whose `open` failed is modelled as making it run. What
  `javax.sound` does with a line that was never opened is not modelled.
- SongFiles.LowerCase: `toLowerCase` is modelled for 'A'..'Z' only. No other character lower-cases into
  '.', 'w', 'a' or 'v', so the `.wav` test does not depend on it.
- Transport.Player: `pausedPosition` is a `nat` rather than a 64-bit `long`. Microsecond positions do not
  approach 2^63.
- Controller.MusicPlayer.LoadSongFiles: requires that no clip exists and the cursor is 0, as at its only
  call in the constructor.
- Exception reporting (`printStackTrace`): only the state after a failure is modelled.
- Transport.PlayPreviousSong: uses the backward step evaluated without `int` overflow. With more than 2^30
  songs and the cursor near the end, the code as written computes a negative index, and `songFiles.get`
  throws `IndexOutOfBoundsException` with `currentSongIndex` left negative. The model instead lands in
  [0, n). Controller.MusicPlayer.PlayPreviousSong does the same. The as-written step is Cursor.PreviousAsWritten.
- Transport.ClipEnds: a clip running out is an event of the audio system, not a method of the player, so
  the class `MusicPlayer` has no counterpart for it. It appears only in Transport.Step and Transport.Run.
