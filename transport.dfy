/**
 * The transport controller of MusicPlayer as functions from the player's
 * state before an operation to its state after it. The state is the four
 * fields `audioClip`, `songFiles`, `currentSongIndex` and `pausedPosition`;
 * the `javax.sound` clip is reduced to the track it was opened on, whether it
 * is running, and the position it holds.
 *
 * What the audio system does is an input: `clipPosition` is what
 * `getMicrosecondPosition` reports at the moment of the call (it only matters
 * while the clip runs), and `outcome` is how far `playMusic` gets before an
 * exception, if any, is swallowed.
 */
module Transport {
  import opened Wrappers
  import opened SongFiles
  import JavaInt
  import Cursor

  /** The `Clip` held in `audioClip`; `position` is where it stands while not running. */
  datatype Clip = Clip(track: Entry, running: bool, position: nat)

  /**
   * How a call of `playMusic` ends: the audio stream or the clip could not be
   * obtained (nothing was assigned); the clip was obtained but `open` failed;
   * or the clip was opened and started.
   */
  datatype PlayOutcome = StreamFailed | OpenFailed | Started

  datatype Player = Player(
    audioClip: Option<Clip>,
    songFiles: seq<Entry>,
    currentSongIndex: int,
    pausedPosition: nat)

  /** The four buttons of the window. */
  datatype Command = PlayPause | Stop | Previous | Next

  /**
   * What holds in every reachable state: the list fits a Java list, the
   * cursor is an index of it (or 0 while it is empty), and a clip is always
   * one of the listed songs.
   */
  predicate Valid(p: Player)
    ensures Valid(p) ==> JavaInt.InRange(p.currentSongIndex)
  {
    |p.songFiles| <= JavaInt.MaxInt &&
    0 <= p.currentSongIndex &&
    (p.currentSongIndex < |p.songFiles| || p.currentSongIndex == 0) &&
    (p.audioClip.Some? ==> p.audioClip.value.track in p.songFiles)
  }

  predicate IsRunning(p: Player) {
    p.audioClip.Some? && p.audioClip.value.running
  }

  /** The state right after construction: fields at their Java defaults, songs loaded. */
  function Initial(folder: Folder): (p: Player)
    requires FitsJavaArray(folder)
    ensures Valid(p)
  {
    Player(None, SongList(folder), 0, 0)
  }

  /** `stopMusic`: halt a running clip where it stands and forget the paused offset. */
  function StopMusic(p: Player, clipPosition: nat): (q: Player)
    ensures q.pausedPosition == 0 && !IsRunning(q)
    ensures IsRunning(p) ==> q.audioClip == Some(Clip(p.audioClip.value.track, false, clipPosition))
    ensures q.audioClip.Some? <==> p.audioClip.Some?
    ensures q.audioClip.Some? ==> q.audioClip.value.track == p.audioClip.value.track
    ensures !IsRunning(p) ==> q.audioClip == p.audioClip
    ensures q.songFiles == p.songFiles && q.currentSongIndex == p.currentSongIndex
    ensures Valid(p) ==> Valid(q)
  {
    var clip :=
      if IsRunning(p) then Some(p.audioClip.value.(running := false, position := clipPosition))
      else p.audioClip;
    p.(audioClip := clip, pausedPosition := 0)
  }

  /** `pauseMusic`: record where a running clip stands, then halt it. */
  function PauseMusic(p: Player, clipPosition: nat): (q: Player)
    ensures !IsRunning(p) ==> q == p
    ensures IsRunning(p) ==>
      !IsRunning(q) && q.pausedPosition == clipPosition &&
      q.audioClip == Some(Clip(p.audioClip.value.track, false, clipPosition))
    ensures q.songFiles == p.songFiles && q.currentSongIndex == p.currentSongIndex
    ensures Valid(p) ==> Valid(q)
  {
    if IsRunning(p) then
      p.(pausedPosition := clipPosition,
         audioClip := Some(p.audioClip.value.(running := false, position := clipPosition)))
    else p
  }

  /** `resumeMusic`: start a clip that is present and halted. */
  function ResumeMusic(p: Player): (q: Player)
    ensures p.audioClip.None? || IsRunning(p) ==> q == p
    ensures p.audioClip.Some? && !IsRunning(p) ==>
      IsRunning(q) &&
      q.audioClip.value.track == p.audioClip.value.track &&
      q.audioClip.value.position == p.audioClip.value.position
    ensures q.pausedPosition == p.pausedPosition
    ensures q.songFiles == p.songFiles && q.currentSongIndex == p.currentSongIndex
    ensures Valid(p) ==> Valid(q)
  {
    if p.audioClip.Some? && !p.audioClip.value.running then
      p.(audioClip := Some(p.audioClip.value.(running := true)))
    else p
  }

  /**
   * `playMusic(file)`: open a fresh clip on `file`, seek it to the paused
   * offset when that is positive, and start it. A failure while obtaining the
   * stream or the clip leaves `audioClip` as it was; a failure in `open`
   * leaves the new clip in `audioClip`, not running.
   */
  function PlayMusic(p: Player, file: Entry, outcome: PlayOutcome): (q: Player)
    ensures outcome == StreamFailed ==> q == p
    ensures outcome == OpenFailed ==> q.audioClip == Some(Clip(file, false, 0))
    ensures outcome == Started ==> q.audioClip == Some(Clip(file, true, p.pausedPosition))
    ensures q.pausedPosition == p.pausedPosition
    ensures q.songFiles == p.songFiles && q.currentSongIndex == p.currentSongIndex
    ensures Valid(p) && file in p.songFiles ==> Valid(q)
  {
    match outcome
    case StreamFailed => p
    case OpenFailed => p.(audioClip := Some(Clip(file, false, 0)))
    case Started =>
      var newClip := Clip(file, false, 0);
      var sought := if p.pausedPosition > 0 then newClip.(position := p.pausedPosition) else newClip;
      p.(audioClip := Some(sought.(running := true)))
  }

  /** `playNextSong`: stop, step the cursor forward, play the song under it. */
  function PlayNextSong(p: Player, clipPosition: nat, outcome: PlayOutcome): (q: Player)
    requires Valid(p)
    ensures Valid(q) && q.songFiles == p.songFiles
    ensures p.songFiles == [] ==> q == p
    ensures p.songFiles != [] ==>
      q.currentSongIndex == (p.currentSongIndex + 1) % |p.songFiles| && q.pausedPosition == 0
    ensures p.songFiles != [] && outcome == Started ==>
      q.audioClip == Some(Clip(p.songFiles[q.currentSongIndex], true, 0))
    ensures p.songFiles != [] && outcome == OpenFailed ==>
      q.audioClip == Some(Clip(p.songFiles[q.currentSongIndex], false, 0))
    ensures p.songFiles != [] && outcome == StreamFailed ==>
      q.audioClip == StopMusic(p, clipPosition).audioClip
  {
    if p.songFiles == [] then p
    else
      var stopped := StopMusic(p, clipPosition);
      var moved := stopped.(currentSongIndex := Cursor.Next(stopped.currentSongIndex, |p.songFiles|));
      PlayMusic(moved, moved.songFiles[moved.currentSongIndex], outcome)
  }

  /** `playPreviousSong`: stop, step the cursor backward, play the song under it. */
  function PlayPreviousSong(p: Player, clipPosition: nat, outcome: PlayOutcome): (q: Player)
    requires Valid(p)
    ensures Valid(q) && q.songFiles == p.songFiles
    ensures p.songFiles == [] ==> q == p
    ensures p.songFiles != [] ==>
      q.currentSongIndex == (p.currentSongIndex - 1 + |p.songFiles|) % |p.songFiles| &&
      q.pausedPosition == 0
    ensures p.songFiles != [] && outcome == Started ==>
      q.audioClip == Some(Clip(p.songFiles[q.currentSongIndex], true, 0))
    ensures p.songFiles != [] && outcome == OpenFailed ==>
      q.audioClip == Some(Clip(p.songFiles[q.currentSongIndex], false, 0))
    ensures p.songFiles != [] && outcome == StreamFailed ==>
      q.audioClip == StopMusic(p, clipPosition).audioClip
  {
    if p.songFiles == [] then p
    else
      var stopped := StopMusic(p, clipPosition);
      var moved := stopped.(currentSongIndex := Cursor.Previous(stopped.currentSongIndex, |p.songFiles|));
      PlayMusic(moved, moved.songFiles[moved.currentSongIndex], outcome)
  }

  /** `togglePlayback`: pause a running clip, resume a halted one, or play the next song when there is none. */
  function TogglePlayback(p: Player, clipPosition: nat, outcome: PlayOutcome): (q: Player)
    requires Valid(p)
    ensures Valid(q) && q.songFiles == p.songFiles
    ensures IsRunning(p) ==>
      !IsRunning(q) && q.pausedPosition == clipPosition &&
      q.audioClip.Some? && q.audioClip.value.track == p.audioClip.value.track &&
      q.currentSongIndex == p.currentSongIndex
    ensures p.audioClip.Some? && !IsRunning(p) ==>
      IsRunning(q) && q.pausedPosition == p.pausedPosition &&
      q.audioClip.value.track == p.audioClip.value.track &&
      q.currentSongIndex == p.currentSongIndex
    ensures p.audioClip.None? ==> q == PlayNextSong(p, clipPosition, outcome)
  {
    if p.audioClip.Some? then
      if p.audioClip.value.running then PauseMusic(p, clipPosition) else ResumeMusic(p)
    else PlayNextSong(p, clipPosition, outcome)
  }

  /** `actionPerformed`: each button runs its operation. */
  function ActionPerformed(p: Player, command: Command, clipPosition: nat, outcome: PlayOutcome): (q: Player)
    requires Valid(p)
    ensures Valid(q) && q.songFiles == p.songFiles
  {
    match command
    case PlayPause => TogglePlayback(p, clipPosition, outcome)
    case Stop => StopMusic(p, clipPosition)
    case Previous => PlayPreviousSong(p, clipPosition, outcome)
    case Next => PlayNextSong(p, clipPosition, outcome)
  }

  /**
   * A running clip that reaches the end of its data stops by itself:
   * afterwards `isRunning` reads false although the controller called
   * nothing. `endPosition` is where it stopped.
   */
  function ClipEnds(p: Player, endPosition: nat): (q: Player)
    ensures !IsRunning(p) ==> q == p
    ensures IsRunning(p) ==> q.audioClip == Some(Clip(p.audioClip.value.track, false, endPosition))
    ensures q.pausedPosition == p.pausedPosition
    ensures q.songFiles == p.songFiles && q.currentSongIndex == p.currentSongIndex
    ensures Valid(p) ==> Valid(q)
  {
    if IsRunning(p) then p.(audioClip := Some(p.audioClip.value.(running := false, position := endPosition)))
    else p
  }

  /**
   * What can happen to the player: a button press, together with what the
   * audio system does during it, or the clip running out by itself.
   */
  datatype Event =
    | Press(command: Command, clipPosition: nat, outcome: PlayOutcome)
    | ClipEnded(endPosition: nat)

  function Step(p: Player, event: Event): (q: Player)
    requires Valid(p)
    ensures Valid(q) && q.songFiles == p.songFiles
  {
    match event
    case Press(command, clipPosition, outcome) => ActionPerformed(p, command, clipPosition, outcome)
    case ClipEnded(endPosition) => ClipEnds(p, endPosition)
  }

  /** The state after a sequence of events. */
  function Run(p: Player, events: seq<Event>): (q: Player)
    requires Valid(p)
    ensures Valid(q) && q.songFiles == p.songFiles
  {
    if events == [] then p
    else Step(Run(p, events[..|events| - 1]), events[|events| - 1])
  }

  predicate AllNext(events: seq<Event>) {
    forall k :: 0 <= k < |events| ==> events[k].Press? && events[k].command == Next
  }

  /** Stopping twice is stopping once. */
  lemma StopMusicIdempotent(p: Player, a: nat, b: nat)
    ensures StopMusic(StopMusic(p, a), b) == StopMusic(p, a)
  {
  }

  /** Pausing twice is pausing once: the second press finds the guard false. */
  lemma PauseMusicIdempotent(p: Player, a: nat, b: nat)
    ensures PauseMusic(PauseMusic(p, a), b) == PauseMusic(p, a)
  {
  }

  /** Resuming twice is resuming once. */
  lemma ResumeMusicIdempotent(p: Player)
    ensures ResumeMusic(ResumeMusic(p)) == ResumeMusic(p)
  {
  }

  /** Back then forward, or forward then back, restores the cursor. */
  lemma NavigationRestoresIndex(p: Player, a: nat, o: PlayOutcome, b: nat, o': PlayOutcome)
    requires Valid(p)
    ensures PlayNextSong(PlayPreviousSong(p, a, o), b, o').currentSongIndex == p.currentSongIndex
    ensures PlayPreviousSong(PlayNextSong(p, a, o), b, o').currentSongIndex == p.currentSongIndex
  {
    if p.songFiles != [] {
      Cursor.NextPreviousInverse(p.currentSongIndex, |p.songFiles|);
    }
  }

  /** A run of Next presses moves the cursor as many steps forward. */
  lemma {:induction false} RunNextAdvances(p: Player, events: seq<Event>)
    requires Valid(p) && p.songFiles != [] && AllNext(events)
    ensures Run(p, events).currentSongIndex ==
      Cursor.Advance(p.currentSongIndex, |p.songFiles|, |events|)
  {
    if events != [] {
      var init := events[..|events| - 1];
      assert AllNext(init) by {
        forall k | 0 <= k < |init| ensures init[k].Press? && init[k].command == Next {
          assert init[k] == events[k];
        }
      }
      RunNextAdvances(p, init);
    }
  }

  /** As many Next presses as there are songs bring the cursor back where it was. */
  lemma NextRoundTheList(p: Player, events: seq<Event>)
    requires Valid(p) && p.songFiles != [] && AllNext(events)
    requires |events| == |p.songFiles|
    ensures Run(p, events).currentSongIndex == p.currentSongIndex
  {
    RunNextAdvances(p, events);
    Cursor.FullCycle(p.currentSongIndex, |p.songFiles|);
  }

  /**
   * From the start-up state, Play/Pause is Next, which selects index `1 % n`:
   * the second song, not the first, when there are at least two.
   */
  lemma ToggleFromInitialPlaysSecondSong(folder: Folder, a: nat, o: PlayOutcome)
    requires FitsJavaArray(folder)
    ensures TogglePlayback(Initial(folder), a, o) == PlayNextSong(Initial(folder), a, o)
    ensures SongList(folder) != [] ==>
      TogglePlayback(Initial(folder), a, o).currentSongIndex == 1 % |SongList(folder)|
  {
  }

  /**
   * Stop never drops or rewinds the clip, so a later Play/Pause resumes the
   * same track from where it was halted instead of playing the next song.
   */
  lemma StopThenToggleResumes(p: Player, a: nat, b: nat, o: PlayOutcome)
    requires Valid(p) && p.audioClip.Some?
    ensures var q := TogglePlayback(StopMusic(p, a), b, o);
      IsRunning(q) && q.pausedPosition == 0 &&
      q.audioClip.value.track == p.audioClip.value.track &&
      q.audioClip.value.position == (if IsRunning(p) then a else p.audioClip.value.position) &&
      q.currentSongIndex == p.currentSongIndex
  {
    var s := StopMusic(p, a);
    assert s.audioClip.Some? && !IsRunning(s);
  }

  /**
   * When a track plays to its end, nothing moves on to the next song: the
   * clip reads as halted, so Play/Pause takes the resume branch and restarts
   * the same clip at its end position, with the cursor where it was.
   */
  lemma EndedTrackIsResumedNotAdvanced(p: Player, e: nat, b: nat, o: PlayOutcome)
    requires Valid(p) && IsRunning(p)
    ensures var q := TogglePlayback(ClipEnds(p, e), b, o);
      q.audioClip == Some(Clip(p.audioClip.value.track, true, e)) &&
      q.pausedPosition == p.pausedPosition &&
      q.currentSongIndex == p.currentSongIndex
  {
  }

  /** Play/Pause twice on a running clip halts it at `a` and then restarts it from `a`. */
  lemma PauseThenResume(p: Player, a: nat, b: nat, o: PlayOutcome, o': PlayOutcome)
    requires Valid(p) && IsRunning(p)
    ensures var q := TogglePlayback(TogglePlayback(p, a, o), b, o');
      q.audioClip == Some(Clip(p.audioClip.value.track, true, a)) &&
      q.pausedPosition == a && q.currentSongIndex == p.currentSongIndex
  {
  }

  /**
   * Navigation stops before it plays, so `playMusic` is always entered with
   * `pausedPosition == 0` and its seek branch never runs: every song
   * navigation starts plays from position 0.
   */
  lemma NavigationNeverSeeks(p: Player, a: nat)
    requires Valid(p) && p.songFiles != []
    ensures PlayNextSong(p, a, Started).audioClip.value.position == 0
    ensures PlayPreviousSong(p, a, Started).audioClip.value.position == 0
  {
  }

  /**
   * A folder listing a.wav, b.wav and notes.txt gives the playlist
   * [a.wav, b.wav], and the first Next opens b.wav.
   */
  lemma FirstNextOpensSecondFile()
    ensures var a, b, t := Entry("a.wav", true), Entry("b.wav", true), Entry("notes.txt", true);
      var folder := Folder(true, true, Some([a, b, t]));
      SongList(folder) == [a, b] &&
      PlayNextSong(Initial(folder), 0, Started).audioClip == Some(Clip(b, true, 0))
  {
    var a, b, t := Entry("a.wav", true), Entry("b.wav", true), Entry("notes.txt", true);
    ExampleNames(a, b, t);
    TwoSongsThenOther(a, b, t);
    var folder := Folder(true, true, Some([a, b, t]));
    assert SongList(folder) == [a, b];
    var q := PlayNextSong(Initial(folder), 0, Started);
    assert q.currentSongIndex == 1;
  }

  /** Two songs followed by an entry that is not one filter to the two songs. */
  lemma TwoSongsThenOther(a: Entry, b: Entry, t: Entry)
    requires IsSong(a) && IsSong(b) && !IsSong(t)
    ensures Filter([a, b, t]) == [a, b]
  {
    assert [a][..0] == [];
    assert Filter([a]) == [a];
    assert [a, b][..1] == [a];
    assert Filter([a, b]) == [a, b];
    assert [a, b, t][..2] == [a, b];
  }

  lemma ExampleNames(a: Entry, b: Entry, t: Entry)
    requires a == Entry("a.wav", true) && b == Entry("b.wav", true) && t == Entry("notes.txt", true)
    ensures IsSong(a) && IsSong(b) && !IsSong(t)
  {
    assert WavByCharacters(a.name) by { assert |a.name| == 5 && a.name[1] == '.'; }
    assert WavByCharacters(b.name) by { assert |b.name| == 5 && b.name[1] == '.'; }
    assert !WavByCharacters(t.name) by { assert |t.name| == 9 && t.name[5] == '.'; }
  }
}
