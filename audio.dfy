/**
 * AudioManager.cs: the music layer. The manager remembers the track it was
 * asked to play (`currentTrack`) and the clip the audio source held before
 * the last switch (`previousTrack`), so that a switch can be undone.
 */
module Audio {

  /** A Unity AudioClip asset; clips are compared by reference, as in the source. */
  class AudioClip {
  }

  /** The AudioSource component: its clip, whether it loops, whether it plays, and how often `Play` was called. */
  datatype AudioSource = AudioSource(clip: AudioClip?, loop: bool, playing: bool, starts: nat)

  /** The state of an AudioManager. */
  datatype Mixer = Mixer(currentTrack: AudioClip?, previousTrack: AudioClip?, source: AudioSource)

  /** `ChangeTrack(clip)`: stop, switch the source to `clip` (remembering the old clip if it differs), loop, play. */
  function AfterChangeTrack(m: Mixer, clip: AudioClip?): Mixer
  {
    var previous := if m.source.clip != clip then m.source.clip else m.previousTrack;
    Mixer(m.currentTrack, previous, AudioSource(clip, true, true, m.source.starts + 1))
  }

  /** `PlayRoamingMusic`, `PlayPlayingMusic` and `PlayFleeingMusic`: make `clip` the current track and switch to it. */
  function AfterPlay(m: Mixer, clip: AudioClip?): Mixer
  {
    AfterChangeTrack(m.(currentTrack := clip), clip)
  }

  /** `PlayPreviousTrack`: nothing when there is no previous track, else play it. */
  function AfterPlayPreviousTrack(m: Mixer): Mixer
  {
    if m.previousTrack == null then m else AfterPlay(m, m.previousTrack)
  }

  /** `OnEnable`: default the current track to the roaming music when unset, then switch to it. */
  function AfterOnEnable(m: Mixer, roamingMusic: AudioClip?): Mixer
  {
    var track := if m.currentTrack == null then roamingMusic else m.currentTrack;
    AfterChangeTrack(m.(currentTrack := track), track)
  }

  /** The remembered clip is never the one the source holds. */
  ghost predicate Coherent(m: Mixer)
  {
    m.previousTrack == null || m.previousTrack != m.source.clip
  }

  /**
   * After a switch the source holds `clip`, loops and plays; the old clip is
   * remembered exactly when it differs from `clip`, and asking for the clip
   * already loaded leaves the remembered one alone. The switch keeps Coherent.
   */
  lemma ChangeTrackRemembersOnlyADifferentClip(m: Mixer, clip: AudioClip?)
    requires Coherent(m)
    ensures var r := AfterChangeTrack(m, clip);
      && r.source.clip == clip && r.source.loop && r.source.playing
      && r.currentTrack == m.currentTrack
      && (m.source.clip != clip ==> r.previousTrack == m.source.clip)
      && (m.source.clip == clip ==> r.previousTrack == m.previousTrack)
      && Coherent(r)
  {
  }

  /** Every `Play*Music` call leaves its clip as the current track and in the source, playing. */
  lemma PlaySetsTrack(m: Mixer, clip: AudioClip?)
    ensures AfterPlay(m, clip).currentTrack == clip
    ensures AfterPlay(m, clip).source.clip == clip && AfterPlay(m, clip).source.playing
  {
  }

  /** Going back with no remembered track changes nothing. */
  lemma PlayPreviousWithoutHistory(m: Mixer)
    requires m.previousTrack == null
    ensures AfterPlayPreviousTrack(m) == m
  {
  }

  /**
   * Switching to the fleeing clip and then back restores the clip that was
   * playing, provided there was one and it was not already the fleeing clip.
   */
  lemma FleeingThenPreviousRestores(m: Mixer, fleeingMusic: AudioClip?)
    requires m.source.clip != null && m.source.clip != fleeingMusic
    ensures var r := AfterPlayPreviousTrack(AfterPlay(m, fleeingMusic));
      r.source.clip == m.source.clip && r.currentTrack == m.source.clip && r.previousTrack == fleeingMusic
  {
  }

  /** `OnEnable` keeps a current track that is set and otherwise starts the roaming music. */
  lemma OnEnableDefaultsToRoaming(m: Mixer, roamingMusic: AudioClip?)
    ensures var r := AfterOnEnable(m, roamingMusic);
      && (m.currentTrack == null ==> r.currentTrack == roamingMusic)
      && (m.currentTrack != null ==> r.currentTrack == m.currentTrack)
      && r.source.clip == r.currentTrack && r.source.playing
  {
  }

  /** The requests the rest of the game makes of the music layer. */
  datatype Cue = Enable | Roam | Play | Flee | Previous

  datatype Tracks = Tracks(roamingMusic: AudioClip?, playingMusic: AudioClip?, fleeingMusic: AudioClip?)

  function AfterCue(m: Mixer, t: Tracks, c: Cue): Mixer
  {
    match c
    case Enable => AfterOnEnable(m, t.roamingMusic)
    case Roam => AfterPlay(m, t.roamingMusic)
    case Play => AfterPlay(m, t.playingMusic)
    case Flee => AfterPlay(m, t.fleeingMusic)
    case Previous => AfterPlayPreviousTrack(m)
  }

  function AfterCues(m: Mixer, t: Tracks, cues: seq<Cue>): Mixer
    decreases |cues|
  {
    if cues == [] then m else AfterCues(AfterCue(m, t, cues[0]), t, cues[1..])
  }

  /** The music is on: the current track is the clip the source holds, looping and playing, and Coherent holds. */
  ghost predicate Live(m: Mixer)
  {
    Coherent(m) && m.currentTrack == m.source.clip && m.source.loop && m.source.playing
  }

  /** Once the manager is enabled (from a fresh manager, which remembers nothing), the music is on. */
  lemma OnEnableStartsMusic(m: Mixer, roamingMusic: AudioClip?)
    requires m.previousTrack == null
    ensures Live(AfterOnEnable(m, roamingMusic))
  {
  }

  /** Every request keeps the music on, whatever sequence of requests follows. */
  lemma {:induction false} CuesKeepMusicLive(m: Mixer, t: Tracks, cues: seq<Cue>)
    requires Live(m)
    ensures Live(AfterCues(m, t, cues))
    decreases |cues|
  {
    if cues != [] {
      var next := AfterCue(m, t, cues[0]);
      assert Live(next);
      CuesKeepMusicLive(next, t, cues[1..]);
    }
  }

  class AudioManager {
    const roamingMusic: AudioClip?
    const playingMusic: AudioClip?
    const fleeingMusic: AudioClip?
    var currentTrack: AudioClip?
    var previousTrack: AudioClip?
    var audioSource: AudioSource

    /** A manager whose audio source starts out holding `clip`, stopped. */
    constructor (roamingMusic: AudioClip?, playingMusic: AudioClip?, fleeingMusic: AudioClip?, clip: AudioClip?)
      ensures this.roamingMusic == roamingMusic && this.playingMusic == playingMusic && this.fleeingMusic == fleeingMusic
      ensures View() == Mixer(null, null, AudioSource(clip, false, false, 0))
    {
      this.roamingMusic := roamingMusic;
      this.playingMusic := playingMusic;
      this.fleeingMusic := fleeingMusic;
      currentTrack := null;
      previousTrack := null;
      audioSource := AudioSource(clip, false, false, 0);
    }

    ghost function View(): Mixer
      reads this
    {
      Mixer(currentTrack, previousTrack, audioSource)
    }

    method OnEnable()
      modifies this
      ensures View() == AfterOnEnable(old(View()), roamingMusic)
    {
      if currentTrack == null {
        currentTrack := roamingMusic;
      }
      ChangeTrack(currentTrack);
    }

    method PlayRoamingMusic()
      modifies this
      ensures View() == AfterPlay(old(View()), roamingMusic)
    {
      currentTrack := roamingMusic;
      ChangeTrack(currentTrack);
    }

    method PlayPlayingMusic()
      modifies this
      ensures View() == AfterPlay(old(View()), playingMusic)
    {
      currentTrack := playingMusic;
      ChangeTrack(currentTrack);
    }

    method PlayFleeingMusic()
      modifies this
      ensures View() == AfterPlay(old(View()), fleeingMusic)
    {
      currentTrack := fleeingMusic;
      ChangeTrack(currentTrack);
    }

    method PlayPreviousTrack()
      modifies this
      ensures View() == AfterPlayPreviousTrack(old(View()))
    {
      if previousTrack == null {
        return;
      }
      currentTrack := previousTrack;
      ChangeTrack(currentTrack);
    }

    method ChangeTrack(clip: AudioClip?)
      modifies this
      ensures View() == AfterChangeTrack(old(View()), clip)
    {
      audioSource := audioSource.(playing := false);
      if audioSource.clip != clip {
        previousTrack := audioSource.clip;
        audioSource := audioSource.(clip := clip);
      }
      audioSource := audioSource.(loop := true);
      audioSource := audioSource.(playing := true, starts := audioSource.starts + 1);
    }
  }
}
