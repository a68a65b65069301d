/** The playback state of frontend/src/contexts/PlayerContext.jsx: the React state
    the provider shares and the `<audio>` element its handlers drive. Times are
    whole seconds; volumes are reals between 0 and 1. */
module PlayerContext {
  import opened Wrappers
  import opened Catalog

  /** The `<audio>` element, as far as the handlers touch it. */
  class AudioElement {
    var src: string
    var volume: real
    var currentTime: nat
    var paused: bool

    /** A freshly mounted element: nothing loaded, full volume, paused. */
    constructor ()
      ensures src == "" && volume == 1.0 && currentTime == 0 && paused
    {
      src, volume, currentTime, paused := "", 1.0, 0, true;
    }
  }

  /** What the player shows as the volume: nothing while muted (`isMuted ? 0 : volume`). */
  function AudibleVolume(isMuted: bool, volume: real): real
  {
    if isMuted then 0.0 else volume
  }

  /** The values the provider hands to its consumers. */
  datatype Snapshot = Snapshot(
    currentSong: Option<Song>, isPlaying: bool, currentTime: nat, duration: nat,
    volume: real, isMuted: bool, isRepeat: bool, isShuffle: bool)

  class PlayerProvider {
    var currentSong: Option<Song>
    var isPlaying: bool
    var currentTime: nat
    var duration: nat
    var volume: real
    var isMuted: bool
    var isRepeat: bool
    var isShuffle: bool
    /** `audioRef.current`: null until the element is mounted. */
    const audio: AudioElement?

    function State(): Snapshot
      reads this
    {
      Snapshot(currentSong, isPlaying, currentTime, duration, volume, isMuted, isRepeat, isShuffle)
    }

    /** What every handler keeps: the stored volume is a legal element volume, the
        element plays at exactly the volume shown, and nothing plays without a song. */
    ghost predicate Valid()
      reads this, audio
    {
      && 0.0 <= volume <= 1.0
      && (audio != null ==> audio.volume == AudibleVolume(isMuted, volume))
      && (isPlaying ==> currentSong.Some?)
    }

    /** The initial state: no song, not playing, time and duration 0, full volume,
        neither muted nor repeating nor shuffling. */
    constructor (audio: AudioElement?)
      requires audio != null ==> audio.volume == 1.0
      ensures State() == Snapshot(None, false, 0, 0, 1.0, false, false, false)
      ensures this.audio == audio
      ensures Valid()
    {
      currentSong, isPlaying, currentTime, duration := None, false, 0, 0;
      volume, isMuted, isRepeat, isShuffle := 1.0, false, false, false;
      this.audio := audio;
    }

    /** `playSong`: the song becomes current in any case; only with an element is it
        loaded from the start and played. */
    method PlaySong(song: Song)
      requires Valid()
      modifies this, audio
      ensures Valid()
      ensures State() == old(State()).(currentSong := Some(song),
                                       isPlaying := if audio != null then true else old(isPlaying))
      ensures audio != null ==> audio.src == song.audio && audio.currentTime == 0 && !audio.paused
      ensures audio != null ==> audio.volume == old(audio.volume)
    {
      currentSong := Some(song);
      if audio != null {
        audio.src := song.audio;
        audio.currentTime := 0;
        audio.paused := false;
        isPlaying := true;
      }
    }

    /** `togglePlay`: without an element or a song nothing happens; otherwise the
        element is paused or played and `isPlaying` flips. */
    method TogglePlay()
      requires Valid()
      modifies this, audio
      ensures Valid()
      ensures audio == null || old(currentSong).None? ==>
        State() == old(State()) && (audio != null ==> audio.paused == old(audio.paused))
      ensures audio != null && old(currentSong).Some? ==>
        && State() == old(State()).(isPlaying := !old(isPlaying))
        && audio.paused == old(isPlaying)
    ensures audio != null ==>
      audio.src == old(audio.src) && audio.currentTime == old(audio.currentTime) && audio.volume == old(audio.volume)
    {
      if audio == null || currentSong.None? {
        return;
      }
      if isPlaying {
        audio.paused := true;
      } else {
        audio.paused := false;
      }
      isPlaying := !isPlaying;
    }

    /** `handleSeek`: element and state move to the new time; nothing else changes. */
    method HandleSeek(newTime: nat)
      requires Valid()
      modifies this, audio
      ensures Valid()
      ensures audio == null ==> State() == old(State())
      ensures audio != null ==>
        State() == old(State()).(currentTime := newTime) && audio.currentTime == newTime
      ensures audio != null ==>
      audio.src == old(audio.src) && audio.volume == old(audio.volume) && audio.paused == old(audio.paused)
    {
      if audio == null {
        return;
      }
      audio.currentTime := newTime;
      currentTime := newTime;
    }

    /** `handleVolumeChange`: the element's volume setter rejects a value outside
        0..1 (an `IndexSizeError`), in which case nothing changes and `ok` is false;
        otherwise volume and element take the value and the player is muted exactly
        when it is 0. */
    method HandleVolumeChange(newVolume: real) returns (ok: bool)
      requires Valid()
      modifies this, audio
      ensures Valid()
      ensures ok <==> audio != null && 0.0 <= newVolume <= 1.0
      ensures !ok ==> State() == old(State()) && (audio != null ==> audio.volume == old(audio.volume))
      ensures ok ==>
        && State() == old(State()).(volume := newVolume, isMuted := newVolume == 0.0)
        && audio.volume == newVolume
    ensures audio != null ==>
      audio.src == old(audio.src) && audio.currentTime == old(audio.currentTime) && audio.paused == old(audio.paused)
    {
      if audio == null {
        return false;
      }
      if !(0.0 <= newVolume <= 1.0) {
        return false;
      }
      audio.volume := newVolume;
      volume := newVolume;
      isMuted := newVolume == 0.0;
      ok := true;
    }

    /** `toggleMute`: flips `isMuted` and never touches the stored volume; unmuting
        gives the element the stored volume back, muting gives it 0. */
    method ToggleMute()
      requires Valid()
      modifies this, audio
      ensures Valid()
      ensures audio == null ==> State() == old(State())
      ensures audio != null ==>
        && State() == old(State()).(isMuted := !old(isMuted))
        && audio.volume == (if old(isMuted) then volume else 0.0)
    ensures audio != null ==>
      audio.src == old(audio.src) && audio.currentTime == old(audio.currentTime) && audio.paused == old(audio.paused)
    {
      if audio == null {
        return;
      }
      if isMuted {
        audio.volume := volume;
        isMuted := false;
      } else {
        audio.volume := 0.0;
        isMuted := true;
      }
    }

    /** The `ended` listener, attached only to a mounted element: with repeat on the
        element restarts from 0 and keeps playing; otherwise playback stops. */
    method Ended()
      requires Valid() && audio != null
      modifies this, audio
      ensures Valid()
      ensures old(isRepeat) ==> State() == old(State()) && audio.currentTime == 0 && !audio.paused
      ensures !old(isRepeat) ==> State() == old(State()).(isPlaying := false)
      ensures !old(isRepeat) ==> audio.currentTime == old(audio.currentTime) && audio.paused == old(audio.paused)
    ensures audio.src == old(audio.src) && audio.volume == old(audio.volume)
    {
      if isRepeat {
        audio.currentTime := 0;
        audio.paused := false;
      } else {
        isPlaying := false;
      }
    }

    /** The `timeupdate` listener copies the element's position into the state. */
    method TimeUpdate()
      requires Valid() && audio != null
      modifies this
      ensures Valid()
      ensures State() == old(State()).(currentTime := audio.currentTime)
    {
      currentTime := audio.currentTime;
    }

    /** The `loadedmetadata` listener copies the element's duration into the state. */
    method LoadedMetadata(elementDuration: nat)
      requires Valid() && audio != null
      modifies this
      ensures Valid()
      ensures State() == old(State()).(duration := elementDuration)
    {
      duration := elementDuration;
    }

    /** The repeat and shuffle buttons: `setIsRepeat(!isRepeat)`, `setIsShuffle(!isShuffle)`. */
    method ToggleRepeat()
      requires Valid()
      modifies this
      ensures Valid()
      ensures State() == old(State()).(isRepeat := !old(isRepeat))
    {
      isRepeat := !isRepeat;
    }

    method ToggleShuffle()
      requires Valid()
      modifies this
      ensures Valid()
      ensures State() == old(State()).(isShuffle := !old(isShuffle))
    {
      isShuffle := !isShuffle;
    }
  }
}
