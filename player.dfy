/** The player controller as the program has it: an object whose methods
    update its fields and its playback handle in place. Every method is
    proved to have exactly the effect of the matching function of module
    PlayerSpec on the snapshot of the object, so the invariants and
    lemmas proved there carry over. */
module Player {
  import opened Catalog
  import S = PlayerSpec

  /** The platform playback element, reduced to what the controller uses. */
  class AudioHandle {
    var src: string
    var vol: real
    var playing: bool
    var calls: seq<S.Call>

    function Value(): S.Handle
      reads this
    {
      S.Handle(src, vol, playing, calls)
    }

    constructor ()
      ensures Value() == S.NewHandle()
    {
      src, vol, playing, calls := "", 1.0, false, [];
    }

    /** Assigning the source reloads the element, which leaves it paused. */
    method SetSource(url: string)
      modifies this
      ensures Value() == S.Load(old(Value()), url)
    {
      src := url;
      playing := false;
    }

    method Play()
      modifies this
      ensures Value() == S.Play(old(Value()))
    {
      playing := true;
      calls := calls + [S.PlayCall];
    }

    method Pause()
      modifies this
      ensures Value() == S.Pause(old(Value()))
    {
      playing := false;
      calls := calls + [S.PauseCall];
    }

    /** The element reaches the end of its track and pauses itself. */
    method End()
      modifies this
      ensures Value() == S.End(old(Value()))
    {
      playing := false;
    }
  }

  class MusicApp {
    var currentSongIndex: int
    var isPlaying: bool
    var volume: int
    const audio: AudioHandle
    var display: S.Display

    /** The observable state: the fields, the handle and the player bar. */
    function Snapshot(): S.State
      reads this, audio
    {
      S.State(currentSongIndex, isPlaying, volume, audio.Value(), display)
    }

    ghost predicate Valid()
      reads this, audio
    {
      S.Valid(Snapshot())
    }

    constructor ()
      ensures Valid() && Snapshot() == S.Init() && fresh(audio)
    {
      currentSongIndex := 0;
      isPlaying := false;
      volume := 80;
      audio := new AudioHandle();
      display := S.Blank;
      new;
      SetSong(currentSongIndex);
      InitDom();
    }

    method SetSong(index: int)
      requires 0 <= index < |Songs|
      modifies this, audio
      ensures Snapshot() == S.SetSong(old(Snapshot()), index)
    {
      currentSongIndex := index;
      var song := Songs[currentSongIndex];
      audio.SetSource(song.audio);
      audio.vol := volume as real / 100.0;
      UpdatePlayerUI();
    }

    method TogglePlay()
      modifies this, audio
      ensures Snapshot() == S.TogglePlay(old(Snapshot()))
    {
      if isPlaying {
        audio.Pause();
      } else {
        audio.Play();
      }
      isPlaying := !isPlaying;
      UpdatePlayPauseButton();
    }

    method ChangeSong(direction: S.Direction)
      requires 0 <= currentSongIndex < |Songs|
      modifies this, audio
      ensures Snapshot() == S.ChangeSong(old(Snapshot()), direction)
    {
      if direction == S.Next {
        currentSongIndex := (currentSongIndex + 1) % |Songs|;
      } else {
        currentSongIndex := (currentSongIndex - 1 + |Songs|) % |Songs|;
      }
      SetSong(currentSongIndex);
      if isPlaying {
        audio.Play();
      }
    }

    method SetVolume(newVolume: int)
      requires 0 <= newVolume <= 100
      modifies this, audio
      ensures Snapshot() == S.SetVolume(old(Snapshot()), newVolume)
    {
      volume := newVolume;
      audio.vol := volume as real / 100.0;
    }

    /** Writes the current track's cover, title and artist to the player bar. */
    method UpdatePlayerUI()
      requires 0 <= currentSongIndex < |Songs|
      modifies this`display
      ensures display == S.RenderPlayer(old(display), Songs[currentSongIndex])
    {
      if display.Shown? {
        var song := Songs[currentSongIndex];
        display := display.(cover := song.cover, title := song.title, artist := song.artist);
      }
    }

    /** Writes "Pause" or "Play" to the button, following the play flag. */
    method UpdatePlayPauseButton()
      modifies this`display
      ensures display == S.RenderButton(old(display), isPlaying)
    {
      if display.Shown? {
        display := display.(button := if isPlaying then "Pause" else "Play");
      }
    }

    /** The player bar of the page markup: the first track and "Play". */
    method InitDom()
      modifies this`display
      ensures Snapshot() == S.InitDom(old(Snapshot()))
    {
      display := S.Shown(Songs[0].cover, Songs[0].title, Songs[0].artist, "Play");
    }

    /** The page's listeners: a card click selects that card's track, the
        buttons toggle or change track, the slider sets the volume. No
        listener observes the end of a track: only the handle changes. */
    method HandleEvent(e: S.Event)
      requires Valid() && S.Admissible(e)
      modifies this, audio
      ensures Valid() && Snapshot() == S.Dispatch(old(Snapshot()), e)
    {
      match e
      case CardClick(i) => SetSong(i);
      case PlayPauseClick => TogglePlay();
      case PrevClick => ChangeSong(S.Prev);
      case NextClick => ChangeSong(S.Next);
      case VolumeInput(v) => SetVolume(v);
      case TrackEnded => audio.End();
    }
  }
}
