/**
 * The music player of scripts/music.js (`MusicPlayer`): the loaded track
 * list, the current track, the playing flag and the audio source, changed by
 * the transport operations.
 *
 * The audio element's `play()` promise is outside the model: every operation
 * that plays takes its outcome as the parameter `playResolves`, and the
 * promise is taken to settle before the next operation.
 */
module Player {
  import opened Wrappers
  import opened MusicCatalog

  /** Everything the transport operations read or change. */
  datatype PlayerState = PlayerState(
    tracks: seq<Track>,
    currentTrack: Option<Track>,
    isPlaying: bool,
    audioSrc: Option<string>)

  /** A new player: nothing loaded, nothing selected, not playing, no source. */
  const Initial: PlayerState := PlayerState([], None, false, None)

  /**
   * The player's invariant: the list is either not loaded yet or the mock
   * catalog, and a current track is one of the loaded tracks whose preview is
   * the audio source.
   */
  ghost predicate Consistent(s: PlayerState)
  {
    && (s.tracks == [] || s.tracks == MockMusicData)
    && (s.currentTrack.Some? ==> s.currentTrack.value in s.tracks && s.audioSrc == Some(s.currentTrack.value.previewUrl))
  }

  /** `loadTracks`, once the catalog has answered. */
  function LoadStep(s: PlayerState): PlayerState
  {
    s.(tracks := MockMusicData)
  }

  /** `play`: the flag is raised only when the audio element starts playing. */
  function PlayStep(s: PlayerState, playResolves: bool): PlayerState
  {
    if playResolves then s.(isPlaying := true) else s
  }

  /** `pause`: the flag is lowered. */
  function PauseStep(s: PlayerState): PlayerState
  {
    s.(isPlaying := false)
  }

  /** `playTrack`: an unknown identifier changes nothing; a known one is selected, becomes the source, and is played. */
  function PlayTrackStep(s: PlayerState, trackId: int, playResolves: bool): PlayerState
  {
    match FindTrack(s.tracks, trackId)
    case None => s
    case Some(t) => PlayStep(s.(currentTrack := Some(t), audioSrc := Some(t.previewUrl)), playResolves)
  }

  /** `togglePlay`: with no current track, play the first loaded one (if any); otherwise pause or play. */
  function ToggleStep(s: PlayerState, playResolves: bool): PlayerState
  {
    if s.currentTrack.None? then
      if |s.tracks| > 0 then PlayTrackStep(s, s.tracks[0].id, playResolves) else s
    else if s.isPlaying then PauseStep(s)
    else PlayStep(s, playResolves)
  }

  /** The track a freshly built catalog returns from `getNextTrack`: its cursor starts at 0. */
  const FreshNextTrack: Track := MockMusicData[NextIndex(0, |MockMusicData|)]

  /** The track a freshly built catalog returns from `getPreviousTrack`. */
  const FreshPreviousTrack: Track := MockMusicData[PrevIndex(0, |MockMusicData|)]

  /** `nextTrack`: nothing when no tracks are loaded, otherwise play what a fresh catalog calls the next track. */
  function NextStep(s: PlayerState, playResolves: bool): PlayerState
  {
    if |s.tracks| == 0 then s else PlayTrackStep(s, FreshNextTrack.id, playResolves)
  }

  /** `previousTrack`: nothing when no tracks are loaded, otherwise play what a fresh catalog calls the previous track. */
  function PreviousStep(s: PlayerState, playResolves: bool): PlayerState
  {
    if |s.tracks| == 0 then s else PlayTrackStep(s, FreshPreviousTrack.id, playResolves)
  }

  /**
   * `playTrack` with an identifier that is not loaded leaves the whole state
   * unchanged; with one that is, it selects the first track carrying it, makes
   * its preview the source, keeps the list, and is playing afterwards exactly
   * when it was before or the audio element started.
   */
  lemma PlayTrackSpec(s: PlayerState, trackId: int, playResolves: bool)
    ensures (forall i :: 0 <= i < |s.tracks| ==> s.tracks[i].id != trackId) ==> PlayTrackStep(s, trackId, playResolves) == s
    ensures (exists i :: 0 <= i < |s.tracks| && s.tracks[i].id == trackId) ==>
      var r := PlayTrackStep(s, trackId, playResolves);
      && r.tracks == s.tracks
      && r.currentTrack.Some? && r.currentTrack.value in s.tracks && r.currentTrack.value.id == trackId
      && r.currentTrack == FindTrack(s.tracks, trackId)
      && r.audioSrc == Some(r.currentTrack.value.previewUrl)
      && r.isPlaying == (s.isPlaying || playResolves)
  {
  }

  /** Every transition keeps the player consistent. */
  lemma StepsPreserveConsistency(s: PlayerState, trackId: int, playResolves: bool)
    requires Consistent(s)
    ensures Consistent(LoadStep(s))
    ensures Consistent(PlayStep(s, playResolves))
    ensures Consistent(PauseStep(s))
    ensures Consistent(PlayTrackStep(s, trackId, playResolves))
    ensures Consistent(ToggleStep(s, playResolves))
    ensures Consistent(NextStep(s, playResolves))
    ensures Consistent(PreviousStep(s, playResolves))
  {
    PlayTrackConsistent(s, trackId, playResolves);
    if |s.tracks| > 0 {
      PlayTrackConsistent(s, s.tracks[0].id, playResolves);
      PlayTrackConsistent(s, FreshNextTrack.id, playResolves);
      PlayTrackConsistent(s, FreshPreviousTrack.id, playResolves);
    }
  }

  lemma PlayTrackConsistent(s: PlayerState, trackId: int, playResolves: bool)
    requires Consistent(s)
    ensures Consistent(PlayTrackStep(s, trackId, playResolves))
  {
    match FindTrack(s.tracks, trackId)
    case None =>
    case Some(t) =>
      var i :| 0 <= i < |s.tracks| && s.tracks[i] == t && t.id == trackId
               && forall j :: 0 <= j < i ==> s.tracks[j].id != trackId;
  }

  /** In the mock catalog, looking up the identifier of the track at position `i` finds that track. */
  lemma FindMockTrack(i: int)
    requires 0 <= i < |MockMusicData|
    ensures FindTrack(MockMusicData, MockMusicData[i].id) == Some(MockMusicData[i])
  {
    MockMusicDataShape();
    FindTrackAt(MockMusicData, i);
  }

  /**
   * Because each call builds a fresh catalog whose cursor starts at 0, once
   * the tracks are loaded `nextTrack` always selects the second track of the
   * catalog and `previousTrack` always selects the last one, whatever was
   * playing before.
   */
  lemma NextAndPreviousIgnoreCurrent(s: PlayerState, playResolves: bool)
    requires Consistent(s) && s.tracks != []
    ensures NextStep(s, playResolves).currentTrack == Some(MockMusicData[1])
    ensures PreviousStep(s, playResolves).currentTrack == Some(MockMusicData[|MockMusicData| - 1])
    ensures NextStep(s, playResolves).currentTrack.value.id == 2
    ensures PreviousStep(s, playResolves).currentTrack.value.id == 6
  {
    FindMockTrack(1);
    FindMockTrack(5);
  }

  /** Pressing next a second time selects the same track again: the player never gets past the second track. */
  lemma NextTwiceStaysPut(s: PlayerState, first: bool, second: bool)
    requires Consistent(s) && s.tracks != []
    ensures NextStep(NextStep(s, first), second).currentTrack == NextStep(s, first).currentTrack
  {
    NextAndPreviousIgnoreCurrent(s, first);
    StepsPreserveConsistency(s, 0, first);
    NextAndPreviousIgnoreCurrent(NextStep(s, first), second);
  }

  /** Before the tracks are loaded, selecting, toggling without a current track, next and previous change nothing. */
  lemma NothingLoadedIsInert(s: PlayerState, trackId: int, playResolves: bool)
    requires s.tracks == []
    ensures PlayTrackStep(s, trackId, playResolves) == s
    ensures NextStep(s, playResolves) == s && PreviousStep(s, playResolves) == s
    ensures s.currentTrack.None? ==> ToggleStep(s, playResolves) == s
  {
  }

  /**
   * With no current track, toggling selects the first loaded track, makes its
   * preview the source, keeps the list, and is playing afterwards exactly when
   * it was before or the audio started; with none loaded it changes nothing.
   */
  lemma ToggleWithoutTrack(s: PlayerState, playResolves: bool)
    requires s.currentTrack.None?
    ensures |s.tracks| > 0 ==>
      ToggleStep(s, playResolves) == PlayerState(s.tracks, Some(s.tracks[0]), s.isPlaying || playResolves, Some(s.tracks[0].previewUrl))
    ensures |s.tracks| == 0 ==> ToggleStep(s, playResolves) == s
  {
    if |s.tracks| > 0 {
      assert FindTrack(s.tracks, s.tracks[0].id) == Some(s.tracks[0]);
    }
  }

  /**
   * With a current track, toggling changes only the playing flag: a playing
   * player pauses, a paused one plays exactly when the audio starts; two
   * toggles whose plays succeed give back the state they started from.
   */
  lemma ToggleTwice(s: PlayerState, playResolves: bool)
    requires s.currentTrack.Some?
    ensures ToggleStep(s, playResolves).isPlaying == (!s.isPlaying && playResolves)
    ensures ToggleStep(s, playResolves).(isPlaying := s.isPlaying) == s
    ensures ToggleStep(ToggleStep(s, true), true) == s
  {
  }

  /** The player object; its fields are the source's, and `State` collects them. */
  class MusicPlayer {
    var tracks: seq<Track>
    var currentTrack: Option<Track>
    var isPlaying: bool
    var audioSrc: Option<string>

    function State(): PlayerState
      reads this
    {
      PlayerState(tracks, currentTrack, isPlaying, audioSrc)
    }

    constructor ()
      ensures State() == Initial && Consistent(State())
    {
      tracks, currentTrack, isPlaying, audioSrc := [], None, false, None;
    }

    /** `loadTracks`: the tracks of a new catalog. */
    method LoadTracks()
      modifies this`tracks
      ensures State() == LoadStep(old(State()))
    {
      var musicApi := new MusicApi();
      tracks := musicApi.GetTracks();
    }

    method PlayTrack(trackId: int, playResolves: bool)
      modifies this
      ensures State() == PlayTrackStep(old(State()), trackId, playResolves)
    {
      var track := FindTrack(tracks, trackId);
      if track.None? {
        return;
      }
      currentTrack := track;
      audioSrc := Some(track.value.previewUrl);
      Play(playResolves);
    }

    method Play(playResolves: bool)
      modifies this`isPlaying
      ensures State() == PlayStep(old(State()), playResolves)
    {
      if playResolves {
        isPlaying := true;
      }
    }

    method Pause()
      modifies this`isPlaying
      ensures State() == PauseStep(old(State()))
      ensures !isPlaying
    {
      isPlaying := false;
    }

    method TogglePlay(playResolves: bool)
      modifies this
      ensures State() == ToggleStep(old(State()), playResolves)
    {
      if currentTrack.None? {
        if |tracks| > 0 {
          PlayTrack(tracks[0].id, playResolves);
        }
        return;
      }
      if isPlaying {
        Pause();
      } else {
        Play(playResolves);
      }
    }

    method NextTrack(playResolves: bool)
      modifies this
      ensures State() == NextStep(old(State()), playResolves)
    {
      if |tracks| == 0 {
        return;
      }
      var musicApi := new MusicApi();
      var next := musicApi.GetNextTrack();
      PlayTrack(next.id, playResolves);
    }

    method PreviousTrack(playResolves: bool)
      modifies this
      ensures State() == PreviousStep(old(State()), playResolves)
    {
      if |tracks| == 0 {
        return;
      }
      var musicApi := new MusicApi();
      var previous := musicApi.GetPreviousTrack();
      PlayTrack(previous.id, playResolves);
    }
  }
}
