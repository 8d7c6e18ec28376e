/**
 * The background music player of the app: a fixed playlist, the index of the
 * current song, play/pause, and the volume with its mute toggle.
 *
 * Volume is kept in hundredths (the slider's step is 0.01 over [0, 1]), so
 * 0.5 is 50. The commands the handlers give the audio element are returned
 * as AudioCommand values instead of being carried out.
 */
module MusicPlayer {

  datatype Song = Song(title: string, artist: string, url: string)

  const PIXABAY := "https://cdn.pixabay.com/download/audio/"

  /** The bundled lo-fi playlist, in playing order. */
  const PLAYLIST: seq<Song> := [
    Song("Coding Night", "LoFi Dreamer", PIXABAY + "2022/05/27/audio_1808fbf07a.mp3"),
    Song("Lofi Beats", "arbrasbeats", PIXABAY + "2023/09/07/audio_f8443307ae.mp3"),
    Song("Happy Thoughtful Song", "SUNRIZISH", PIXABAY + "2022/01/20/audio_f8d39752db.mp3"),
    Song("Good Night - Lofi Cozy Chill", "FASSounds", PIXABAY + "2023/07/30/audio_e0908e8569.mp3"),
    Song("Lofi Beats", "arbrasbeats", PIXABAY + "2023/09/07/audio_f8443307ae.mp3"),
    Song("Happy Thoughtful Song", "SUNRIZISH", PIXABAY + "2022/01/20/audio_f8d39752db.mp3")
  ]

  /** Volume, in hundredths, that un-muting restores (0.5). */
  const UNMUTED_VOLUME := 50
  const MAX_VOLUME := 100

  /** What a handler asks of the audio element. */
  datatype AudioCommand =
    | PlayAudio
    | PauseAudio
      /** Switch the source to song `index`, and play it if `resume`. */
    | LoadSong(index: nat, resume: bool)
      /** Set the output volume, in hundredths. */
    | ApplyVolume(level: int)

  /** The song after `i`, wrapping from the last to the first. */
  function NextIndex(i: nat): (r: nat)
    requires i < |PLAYLIST|
    ensures r < |PLAYLIST|
    ensures r == if i == |PLAYLIST| - 1 then 0 else i + 1
  {
    (i + 1) % |PLAYLIST|
  }

  /** The song before `i`, wrapping from the first to the last. */
  function PrevIndex(i: nat): (r: nat)
    requires i < |PLAYLIST|
    ensures r < |PLAYLIST|
    ensures r == (i + |PLAYLIST| - 1) % |PLAYLIST|
  {
    if i == 0 then |PLAYLIST| - 1 else i - 1
  }

  /** `toggleMute`: any audible volume goes to 0, silence goes to 0.5. */
  function MuteToggled(volume: int): (r: int)
    ensures r == 0 <==> volume > 0
    ensures r != 0 ==> r == UNMUTED_VOLUME
    ensures 0 <= r <= MAX_VOLUME
  {
    if volume > 0 then 0 else UNMUTED_VOLUME
  }

  /** `k` presses of the next button from song `i`. */
  function SkipForward(i: nat, k: nat): (r: nat)
    requires i < |PLAYLIST|
    ensures r < |PLAYLIST|
    decreases k
  {
    if k == 0 then i else SkipForward(NextIndex(i), k - 1)
  }

  // ---------------------------------------------------------------------
  // Properties of the navigation and the mute toggle

  /** Previous undoes next. */
  lemma PrevUndoesNext(i: nat)
    requires i < |PLAYLIST|
    ensures PrevIndex(NextIndex(i)) == i
  {
  }

  /** Next undoes previous. */
  lemma NextUndoesPrev(i: nat)
    requires i < |PLAYLIST|
    ensures NextIndex(PrevIndex(i)) == i
  {
  }

  /** The last song is followed by the first, and the first is preceded by the last. */
  lemma NavigationWraps()
    ensures NextIndex(|PLAYLIST| - 1) == 0
    ensures PrevIndex(0) == |PLAYLIST| - 1
  {
  }

  /** `k` presses of next from song `i` land on song `(i + k) mod length`. */
  lemma {:induction false} SkipForwardIsModular(i: nat, k: nat)
    requires i < |PLAYLIST|
    ensures SkipForward(i, k) == (i + k) % |PLAYLIST|
    decreases k
  {
    if k > 0 {
      SkipForwardIsModular(NextIndex(i), k - 1);
    }
  }

  /** Pressing next once per song brings the playlist back to the song it started on. */
  lemma FullCycleReturns(i: nat)
    requires i < |PLAYLIST|
    ensures SkipForward(i, |PLAYLIST|) == i
  {
    SkipForwardIsModular(i, |PLAYLIST|);
  }

  /**
   * Muting then un-muting does not remember the volume: two toggles from an
   * audible volume give 0.5, from silence give silence again.
   */
  lemma MuteToggleTwice(volume: int)
    ensures volume > 0 ==> MuteToggled(MuteToggled(volume)) == UNMUTED_VOLUME
    ensures volume <= 0 ==> MuteToggled(MuteToggled(volume)) == 0
    ensures 0 < volume && volume != UNMUTED_VOLUME ==> MuteToggled(MuteToggled(volume)) != volume
  {
  }

  // ---------------------------------------------------------------------
  // The component's playback state cells

  class Player {
    var currentSong: nat
    var isPlaying: bool
    var volume: int

    predicate Valid()
      reads this
    {
      currentSong < |PLAYLIST| && 0 <= volume <= MAX_VOLUME
    }

    /** The first song, paused, at half volume. */
    constructor()
      ensures Valid()
      ensures currentSong == 0 && !isPlaying && volume == UNMUTED_VOLUME
    {
      currentSong, isPlaying, volume := 0, false, UNMUTED_VOLUME;
    }

    /** Title and artist shown for the current song. */
    method NowPlaying() returns (title: string, artist: string)
      requires Valid()
      ensures title == PLAYLIST[currentSong].title && artist == PLAYLIST[currentSong].artist
    {
      title, artist := PLAYLIST[currentSong].title, PLAYLIST[currentSong].artist;
    }

    /** `togglePlay`: pause if playing, play otherwise. */
    method TogglePlay() returns (cmd: AudioCommand)
      requires Valid()
      modifies this
      ensures Valid()
      ensures isPlaying == !old(isPlaying)
      ensures cmd == if old(isPlaying) then PauseAudio else PlayAudio
      ensures currentSong == old(currentSong) && volume == old(volume)
    {
      cmd := if isPlaying then PauseAudio else PlayAudio;
      isPlaying := !isPlaying;
    }

    /** `nextSong`: load the following song, wrapping, and keep playing if playing. */
    method NextSong() returns (cmd: AudioCommand)
      requires Valid()
      modifies this
      ensures Valid()
      ensures currentSong == NextIndex(old(currentSong))
      ensures cmd == LoadSong(currentSong, isPlaying)
      ensures isPlaying == old(isPlaying) && volume == old(volume)
    {
      var next := (currentSong + 1) % |PLAYLIST|;
      currentSong := next;
      cmd := LoadSong(next, isPlaying);
    }

    /** `prevSong`: load the preceding song, wrapping, and keep playing if playing. */
    method PrevSong() returns (cmd: AudioCommand)
      requires Valid()
      modifies this
      ensures Valid()
      ensures currentSong == PrevIndex(old(currentSong))
      ensures cmd == LoadSong(currentSong, isPlaying)
      ensures isPlaying == old(isPlaying) && volume == old(volume)
    {
      var prev := if currentSong == 0 then |PLAYLIST| - 1 else currentSong - 1;
      currentSong := prev;
      cmd := LoadSong(prev, isPlaying);
    }

    /** The volume slider's change handler, for a value the slider can produce. */
    method ChangeVolume(level: int) returns (cmd: AudioCommand)
      requires Valid() && 0 <= level <= MAX_VOLUME
      modifies this
      ensures Valid()
      ensures volume == level && cmd == ApplyVolume(level)
      ensures currentSong == old(currentSong) && isPlaying == old(isPlaying)
    {
      volume := level;
      cmd := ApplyVolume(level);
    }

    /** `toggleMute`. */
    method ToggleMute() returns (cmd: AudioCommand)
      requires Valid()
      modifies this
      ensures Valid()
      ensures volume == MuteToggled(old(volume)) && cmd == ApplyVolume(volume)
      ensures currentSong == old(currentSong) && isPlaying == old(isPlaying)
    {
      if volume > 0 {
        volume := 0;
      } else {
        volume := UNMUTED_VOLUME;
      }
      cmd := ApplyVolume(volume);
    }
  }
}
