# MusicApp player controller, modelled in Dafny

The program is a browser media-player widget. A fixed catalogue of five
tracks is shown as cards. One controller object, `MusicApp`, owns four
pieces of state: the current track index, a play/pause flag, a volume level
and one playback handle. It reacts to card clicks, the play/pause button,
the previous/next buttons and the volume slider, and it reflects its state
into a player bar (cover, title, artist, button label).

The model has three modules:

- `Catalog` (`catalog.dfy`): the `Song` record and the five-track catalogue
  `Songs`, with the values of the program.
- `PlayerSpec` (`player_spec.dfy`): the controller as a state machine over
  immutable snapshots. `State` holds the controller's fields, the playback
  handle (`Handle`: source, volume as an exact `real`, playing, and the log of
  `play()`/`pause()` commands) and the player bar (`Display`). There is one
  function per controller operation, plus `Dispatch` and `Run` for the page's
  event wiring and for the handle finishing a track, the invariant `Valid`,
  and the lemmas.
- `Player` (`player.dfy`): the classes `AudioHandle` and `MusicApp`, whose
  methods update fields in place as the program does. The postcondition of
  each `AudioHandle` method says that the handle's `Value()` afterwards is
  the matching `PlayerSpec` handle function (`Load`, `Play`, `Pause`, `End`)
  applied to its value before. The postcondition of `SetSong`, `TogglePlay`,
  `ChangeSong`, `SetVolume`, `InitDom` and `HandleEvent` on `MusicApp` says
  the same of the object's `Snapshot()` and the matching `PlayerSpec`
  function, so every lemma about the functions holds of the object.
  `UpdatePlayerUI` and `UpdatePlayPauseButton` may change only the `display`
  field, and their postconditions give its new value.

Three platform behaviours are written into the model.

- Assigning a new `src` to a media element reloads it, and that leaves it
  paused (`PlayerSpec.Load`). This is why `changeSong` calls `play()` again
  after `setSong`. It is also why a card click while playing leaves the flag
  at "playing" while the handle is paused. The program shows this
  `setSong`/`changeSong` asymmetry, and the model keeps it and proves it
  (`CardClickDoesNotResume`, `DriftCauses`). Through the page's own events
  and the end of a track, the handle never plays while the flag says
  paused; that is part of `Valid`.
- An element that is not set to loop pauses itself when its track has
  played to the end (`PlayerSpec.End`, event `TrackEnded`). The handle is
  created without looping and the page has no listener for the end of a
  track, so the flag stays at "playing" and the button at "Pause". The next
  play/pause click sends `pause()` to the paused handle, and only a second
  click starts playback again (`TrackEndNeedsTwoClicks`).
- Before the page markup exists, the element lookups in `updatePlayerUI` find
  nothing, so its writes do nothing. The display is `Blank` until `initDOM`
  renders the first track and a "Play" button (`InitDom`).

`isPlaying` is meant to mirror the handle's play state. The code does not
keep that after a card click while playing, nor after a track plays to its
end. The model follows the code: from a state where the flag mirrors the
handle, an event breaks the mirror exactly when it is one of those two
while playing (`DriftCauses`), and `Synced` is proved to hold across every
session that has neither (`RunKeepsSync`).

## Model

| member | source | states |
|---|---|---|
| Catalog.CatalogueShape | src/index.ts:11-47 | the catalogue has exactly five tracks with ids 1..5 in order and pairwise distinct media references |
| PlayerSpec.Init | src/index.ts:55-62 | the initial state is index 0, not playing, volume 80, first track's audio loaded at handle volume 0.8, no play/pause issued, invariant holds and flag mirrors the handle |
| PlayerSpec.SetSong | src/index.ts:65-71 | selecting a track in range makes it current and loads its audio at volume/100; the flag and the volume are unchanged, no play() is issued and the handle ends up paused; the invariant is preserved |
| PlayerSpec.TogglePlay | src/index.ts:73-81 | the flag is negated; pause() is issued exactly when it was playing and play() otherwise; afterwards the handle plays iff the flag says so and the button reads "Pause" iff playing; track, volume and source are unchanged |
| PlayerSpec.Neighbour | src/index.ts:84-88 | next is the following index and wraps from the last to 0; prev is the preceding index and wraps from 0 to the last; the result is always in range |
| PlayerSpec.ChangeSong | src/index.ts:83-93 | the neighbouring track is loaded, the flag and volume are unchanged, play() is issued iff the flag was set, so the handle plays exactly when the flag says so |
| PlayerSpec.SetVolume | src/index.ts:95-98 | the level is stored exactly, without clamping, and the handle volume becomes level/100, within [0, 1] for slider levels; index, flag, source, play state, log and display are unchanged |
| PlayerSpec.Dispatch | src/index.ts:159-168 | each wired event (card click, play/pause, prev, next, slider) and the end of a track preserves the invariant; a card click makes that card current without touching the flag; the end of a track only pauses the handle |
| PlayerSpec.Run | src/index.ts:150-168 | any session of page events and track ends keeps the invariant, so every index ever passed to setSong is in range |
| PlayerSpec.ToggleTwice | src/index.ts:73-81 | from any valid state, two toggles restore the flag, the track, the source, the volume and the display exactly, logging one pause() and one play(); afterwards the handle plays exactly when the flag says so, so a handle paused by a card click or a track end while the flag says playing ends up playing |
| PlayerSpec.ChangeSongRoundTrip | src/index.ts:83-93 | from any valid state, next then prev (and prev then next) returns to the same track, display, flag, source and volume, adding only the resuming play() calls to the log; afterwards the handle plays exactly when the flag says so, so a drifted handle ends up playing again |
| PlayerSpec.CardClickDoesNotResume | src/index.ts:65-71 | a card click while playing loads the new track but leaves the handle paused with the flag still set and the button reading "Pause", issuing no play() |
| PlayerSpec.TrackEndNeedsTwoClicks | src/index.ts:73-81 | after a track plays to its end while playing, the flag stays set and the button reads "Pause" with the handle paused; the next click issues pause() and leaves playback stopped, and only the click after that issues play() and resumes |
| PlayerSpec.DriftCauses | src/index.ts:65-93 | from a state where the flag mirrors the handle, an event breaks that mirror if and only if it is a card click or the end of the track while playing |
| PlayerSpec.RunKeepsSync | src/index.ts:163-168 | a session of transport and slider events in which no track plays to its end keeps the flag equal to the handle's play state |
| PlayerSpec.Advance | src/index.ts:83-93 | pressing next or prev any number of times keeps the index in range and keeps the invariant |
| PlayerSpec.RepeatedChange | src/index.ts:83-89 | k presses of next move the track k places forward modulo the catalogue length, k presses of prev k places back; flag and volume stay |
| PlayerSpec.AdvanceIsRun | src/index.ts:164-165 | delivering k clicks of the next button (or of the prev button) through the page's wiring is exactly changeSong('next') (or changeSong('prev')) applied k times, and every such click is admissible |
| PlayerSpec.FullCycle | src/index.ts:84-85 | pressing next once per track returns to the starting track |
| PlayerSpec.WrapAtEnds | src/index.ts:84-88 | next from track index 4 gives 0, prev from 0 gives 4 |
| PlayerSpec.VolumeExtremes | src/index.ts:95-98 | slider level 0 gives handle volume 0.0 and then level 100 gives 1.0 |
| PlayerSpec.NextPlayNextScenario | src/index.ts:83-93 | from start, next loads track index 1 without playing, play starts it, next moves to index 2 with playback continuing |
| Player.AudioHandle.constructor | src/index.ts:59 | a new handle has no source, full volume, is paused and has issued no commands |
| Player.AudioHandle.SetSource | src/index.ts:68 | assigning the source loads it and leaves the handle paused without logging a command |
| Player.AudioHandle.Play | src/index.ts:77 | the handle plays and play() is appended to the log |
| Player.AudioHandle.Pause | src/index.ts:75 | the handle is paused and pause() is appended to the log |
| Player.AudioHandle.End | src/index.ts:59 | a handle created without looping pauses itself at the end of its track, logging no command |
| Player.MusicApp.constructor | src/index.ts:55-63 | the new object's snapshot is the initial state and satisfies the invariant |
| Player.MusicApp.SetSong | src/index.ts:65-71 | the object's new snapshot is SetSong of the old one |
| Player.MusicApp.TogglePlay | src/index.ts:73-81 | the object's new snapshot is TogglePlay of the old one |
| Player.MusicApp.ChangeSong | src/index.ts:83-93 | the object's new snapshot is ChangeSong of the old one |
| Player.MusicApp.SetVolume | src/index.ts:95-98 | the object's new snapshot is SetVolume of the old one |
| Player.MusicApp.UpdatePlayerUI | src/index.ts:100-108 | the player bar shows the current track's cover, title and artist, or stays blank before the markup exists |
| Player.MusicApp.UpdatePlayPauseButton | src/index.ts:110-115 | the button reads "Pause" when playing and "Play" otherwise, or nothing changes before the markup exists |
| Player.MusicApp.InitDom | src/index.ts:130-138 | the player bar starts with the first track and a "Play" button |
| Player.MusicApp.HandleEvent | src/index.ts:159-168 | delivering an admissible event, or the end of the track, keeps the invariant and has exactly the effect of Dispatch |

## Left out

- The page markup of `initDOM` (layout, styling classes, the cards' HTML): presentation with no behaviour. Only the initial player bar content is modelled.
- The DOM element lookups: they are modelled all-or-nothing. The player bar is either absent (`Blank`) or fully present. The case where only some elements exist is not modelled.
- The asynchronous result of `play()`, including a browser refusing autoplay: the handle is assumed to start when told to. The program never handles a refused start.
- `parseInt` of the slider's text, including a NaN result: a foreign library call. Slider input is taken as an integer level within the slider's bounds 0..100.
- Player.MusicApp.SetVolume: requires a level in 0..100. The program passes any parsed number. A level outside that range would make the platform reject the handle volume, and the slider never produces one.
- Player.MusicApp.ChangeSong: requires the current index in range. JavaScript's `%` truncates toward zero while Dafny's is Euclidean; the two agree here because the operands are never negative while the index is in range.
- Play or pause done by the browser or the operating system itself (media keys, system media controls, loss of audio focus): not modelled. Each can move the handle away from the flag in either direction; `Valid`, `DriftCauses` and `RunKeepsSync` assume it does not happen.
- The unused icon import and the module-level `new MusicApp()` call: no behaviour.
