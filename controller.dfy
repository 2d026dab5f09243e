/**
 * The `MusicPlayer` object: its four controller fields and the private
 * methods that update them in place. Each method is proved to move the
 * fields exactly as the matching function of module Transport says, and the
 * object invariant Transport.Valid is kept throughout.
 */
module Controller {
  import opened Wrappers
  import opened SongFiles
  import Transport

  class MusicPlayer {
    var audioClip: Option<Transport.Clip>
    var songFiles: seq<Entry>
    var currentSongIndex: int
    var pausedPosition: nat

    /** The fields as one value. */
    function State(): Transport.Player
      reads this
    {
      Transport.Player(audioClip, songFiles, currentSongIndex, pausedPosition)
    }

    ghost predicate Valid()
      reads this
    {
      Transport.Valid(State())
    }

    /** The constructor: fields at their Java defaults, then `loadSongFiles`. */
    constructor (folder: Folder)
      requires FitsJavaArray(folder)
      ensures Valid() && State() == Transport.Initial(folder)
    {
      audioClip := None;
      songFiles := [];
      currentSongIndex := 0;
      pausedPosition := 0;
      new;
      LoadSongFiles(folder);
    }

    /** `loadSongFiles`: rebuild `songFiles` from the folder listing, one entry at a time. */
    method LoadSongFiles(folder: Folder)
      requires audioClip.None? && currentSongIndex == 0 && FitsJavaArray(folder)
      modifies this
      ensures songFiles == SongList(folder)
      ensures audioClip == old(audioClip) && currentSongIndex == old(currentSongIndex)
      ensures pausedPosition == old(pausedPosition)
      ensures Valid()
    {
      songFiles := [];
      if folder.found && folder.isDirectory {
        match folder.listing
        case None =>
        case Some(files) =>
          for k := 0 to |files|
            invariant songFiles == Filter(files[..k])
            invariant audioClip == old(audioClip) && currentSongIndex == old(currentSongIndex)
            invariant pausedPosition == old(pausedPosition)
          {
            var file := files[k];
            assert files[..k + 1] == files[..k] + [file];
            if file.isFile && EndsWith(LowerCase(file.name), WavSuffix) {
              songFiles := songFiles + [file];
            }
          }
          assert files[..|files|] == files;
      }
    }

    /** `stopMusic`. */
    method StopMusic(clipPosition: nat)
      modifies this
      ensures State() == Transport.StopMusic(old(State()), clipPosition)
    {
      if audioClip.Some? && audioClip.value.running {
        audioClip := Some(audioClip.value.(running := false, position := clipPosition));
      }
      pausedPosition := 0;
    }

    /** `pauseMusic`. */
    method PauseMusic(clipPosition: nat)
      modifies this
      ensures State() == Transport.PauseMusic(old(State()), clipPosition)
    {
      if audioClip.Some? && audioClip.value.running {
        pausedPosition := clipPosition;
        audioClip := Some(audioClip.value.(running := false, position := clipPosition));
      }
    }

    /** `resumeMusic`. */
    method ResumeMusic()
      modifies this
      ensures State() == Transport.ResumeMusic(old(State()))
    {
      if audioClip.Some? && !audioClip.value.running {
        audioClip := Some(audioClip.value.(running := true));
      }
    }

    /**
     * `playMusic`: the new clip is stored before it is opened, so an `open`
     * failure leaves it in `audioClip`; an earlier failure stores nothing.
     */
    method PlayMusic(file: Entry, outcome: Transport.PlayOutcome)
      modifies this
      ensures State() == Transport.PlayMusic(old(State()), file, outcome)
    {
      if outcome == Transport.StreamFailed {
        return;
      }
      audioClip := Some(Transport.Clip(file, false, 0));
      if outcome == Transport.OpenFailed {
        return;
      }
      if pausedPosition > 0 {
        audioClip := Some(audioClip.value.(position := pausedPosition));
      }
      audioClip := Some(audioClip.value.(running := true));
    }

    /** `playNextSong`. */
    method PlayNextSong(clipPosition: nat, outcome: Transport.PlayOutcome)
      requires Valid()
      modifies this
      ensures Valid()
      ensures State() == Transport.PlayNextSong(old(State()), clipPosition, outcome)
    {
      if songFiles != [] {
        StopMusic(clipPosition);
        currentSongIndex := (currentSongIndex + 1) % |songFiles|;
        assert pausedPosition == 0;
        PlayMusic(songFiles[currentSongIndex], outcome);
      }
    }

    /** `playPreviousSong`, with the index expression evaluated without `int` overflow. */
    method PlayPreviousSong(clipPosition: nat, outcome: Transport.PlayOutcome)
      requires Valid()
      modifies this
      ensures Valid()
      ensures State() == Transport.PlayPreviousSong(old(State()), clipPosition, outcome)
    {
      if songFiles != [] {
        StopMusic(clipPosition);
        currentSongIndex := (currentSongIndex - 1 + |songFiles|) % |songFiles|;
        assert pausedPosition == 0;
        PlayMusic(songFiles[currentSongIndex], outcome);
      }
    }

    /** `togglePlayback`. */
    method TogglePlayback(clipPosition: nat, outcome: Transport.PlayOutcome)
      requires Valid()
      modifies this
      ensures Valid()
      ensures State() == Transport.TogglePlayback(old(State()), clipPosition, outcome)
    {
      if audioClip.Some? {
        if audioClip.value.running {
          PauseMusic(clipPosition);
        } else {
          ResumeMusic();
        }
      } else {
        PlayNextSong(clipPosition, outcome);
      }
    }

    /** `actionPerformed`: dispatch a button press. */
    method ActionPerformed(command: Transport.Command, clipPosition: nat, outcome: Transport.PlayOutcome)
      requires Valid()
      modifies this
      ensures Valid()
      ensures State() == Transport.ActionPerformed(old(State()), command, clipPosition, outcome)
    {
      match command
      case PlayPause => TogglePlayback(clipPosition, outcome);
      case Stop => StopMusic(clipPosition);
      case Previous => PlayPreviousSong(clipPosition, outcome);
      case Next => PlayNextSong(clipPosition, outcome);
    }
  }
}
