# APlayer playback orchestration, in Dafny

This project models the orchestration core of APlayer, an embeddable audio
player widget: the `APlayer` class of `src/js/player.js`. It covers:

- the decision at the natural end of a track, which combines the loop mode
  (`none`, `one`, `all`) with the order (`list`, `random`);
- the walk along the fixed shuffle order (`nextRandomNum`);
- the play/pause state machine (`setUIPlaying`, `setUIPaused`, `play`,
  `pause`, `toggle`) and the mutual exclusion that pauses every other
  registered player (`mutex`);
- the clamping in `seek` and `volume`, and the three-tier volume icon;
- how `setAudio` binds a track: custom type handlers, `auto` inference from
  the URL, and the HLS delegate / native / notice fallbacks;
- the notice box with its pending hide timer;
- the shared `instances` registry, joined on construction and left on
  `destroy`.

Layout, one module per file:

- `wrappers.dfy`: `Option`.
- `array_ops.dfy` (ArrayOps): JavaScript's `indexOf` and `splice(start, 1)`.
- `sequencing.dfy` (Sequencing): `nextRandomNum`, the successor under each
  order, the `ended` decision table, and the full-cycle theorems. The
  reference successor is defined on traversal positions (the index itself
  in list order, the place in the shuffle in random order). The handler's
  list step `(index + 1) % length` is written as one position on with
  wrap-around, and `ListNextIsModulo` proves the two equal.
- `source_type.dfy` (SourceType): the binding decision inside `setAudio`,
  including the `/m3u8(#|\?|$)/i` test.
- `playback.dfy` (Playback): the transport state machine as functions on one
  player's state.
- `media.dfy` (Media): seek target, played-bar ratio, volume clamp, volume icon.
- `instances.dfy` (Instances): removal from the registry (see Findings).
- `aplayer.dfy` (APlayer): the classes `Registry` (the module-level
  `instances` array) and `Player`. The player's methods update its fields in
  place and are specified against the functions of the modules above. Each
  method that changes the player states its whole new state: the transport
  part through Playback's functions, the rest (`MediaView()`) through
  `Bound`, `AfterSetAudio` (what `setAudio` does), `VolumeApplied` and
  `Logged` (a rejected play logged on the console).

The audio element's state is kept in fields of the player: source, position,
duration, volume, muted, and whether it is playing (asked to play and not refused).
The Hls.js delegate is a field holding the URL it loaded. The browser's
answers are inputs: `Hls.isSupported()`, `canPlayType`, the name of the
error a play promise rejects with, and the stored volume.

Where the code's behaviour departs from its evident intent, the model
follows the code, with one exception (the last item):

- `destroy` does not release the HLS delegate and does not detach the
  element's listeners. The model keeps the delegate.
- `seek` with an unknown (NaN) duration only clamps at 0. The model keeps
  the requested position and sets the played bar to 0.
- The mutex loop does not guard against another player's `pause` throwing.
- Removing a player that is no longer registered removes a different
  player. This as-written removal is modelled only in `Instances`
  (`UnregisterAsWritten`); the player's `Destroy` uses the corrected
  removal `Instances.Unregister`. See Findings.

## Model

| member | source | states |
|---|---|---|
| `ArrayOps.IndexOf` | src/js/player.js:390 | `indexOf`: -1 exactly when absent, else the first position holding the element |
| `ArrayOps.IndexOfDistinct` | src/js/player.js:390 | in a sequence without repetitions, `indexOf` of the element at position j is j |
| `ArrayOps.SpliceStart` | src/js/player.js:422 | `splice`'s start normalisation: a start in range is kept, a negative one counts from the end, one above the length becomes the length and one below minus the length becomes 0 |
| `ArrayOps.SpliceOne` | src/js/player.js:422 | `splice(start, 1)`: the element at the normalised start goes when that start is below the length, and nothing changes when it equals the length |
| `Sequencing.StartIndex` | src/js/player.js:89-94 | the first track is 0 in list order and the track at shuffle position 0 in random order; it is a valid index |
| `Sequencing.NextRandomNum` | src/js/player.js:388-401 | 0 for a playlist of at most one track; otherwise a valid track index |
| `Sequencing.NextRandomNumAdvances` | src/js/player.js:388-401 | the result is the shuffle entry one position after the current index's position, cyclically |
| `Sequencing.NextRandomNumWraps` | src/js/player.js:391-396 | the entry after the current position, and `randomOrder[0]` from the last position |
| `Sequencing.Successor` | src/js/player.js:184-189 | the reference next track: a valid index one traversal position further on (list index in list order, shuffle position in random order), wrapping from the last position to the first |
| `Sequencing.SourceNextIsSuccessor` | src/js/player.js:184-189 | the handler's own step, `(index + 1) % length` in list order and `nextRandomNum()` in random order, is exactly the reference successor |
| `Sequencing.ListNextIsModulo` | src/js/player.js:185 | `(index + 1) % length` is index+1 below the last track and 0 from the last |
| `Sequencing.AdvancePosition` | src/js/player.js:388-401 | k successive advances (k ≤ length) land on traversal position start+k, less length once past the end |
| `Sequencing.TourDistinct` | src/js/player.js:388-401 | the first `length` tracks reached by advancing are pairwise different |
| `Sequencing.TourCovers` | src/js/player.js:388-401 | every track index occurs among the first `length` tracks reached by advancing |
| `Sequencing.FullCycle` | src/js/player.js:388-401 | advancing `length` times from any track visits every track exactly once and returns to the start, in list and random order |
| `Sequencing.SourceNext` | src/js/player.js:185-188 | the handler's own step, `(index + 1) % length` in list order and `nextRandomNum()` in random order, is a valid index (and is the reference successor, by SourceNextIsSuccessor) |
| `Sequencing.EndedStep` | src/js/player.js:156-192 | the `ended` handler's choice of next track is a valid index |
| `Sequencing.EndedNoneList` | src/js/player.js:157-167 | loop none, list: index+1 and keep playing before the last track; from the last, index 0 and pause |
| `Sequencing.EndedNoneRandom` | src/js/player.js:168-176 | loop none, random: next is `nextRandomNum()`; the player pauses exactly when the current track was the shuffle's last, landing on its first |
| `Sequencing.EndedOne` | src/js/player.js:179-182 | loop one: the same index again, playing, under either order |
| `Sequencing.EndedAll` | src/js/player.js:183-191 | loop all: the successor under the order, always playing |
| `Sequencing.EndedMovesToSuccessor` | src/js/player.js:157-191 | outside loop one, a natural end moves to the reference successor |
| `Sequencing.EndedNoneFollowsSuccessor` | src/js/player.js:157-177 | loop none moves to the same track as loop all; it stops exactly at the last traversal position |
| `Sequencing.LoopOneRepeats` | src/js/player.js:179-182 | any number of natural ends under loop one stays on the starting track |
| `Sequencing.EndedRunAdvances` | src/js/player.js:156-191 | under loop none or all, k natural ends reach the track k advances away |
| `Sequencing.LoopAllCycles` | src/js/player.js:183-191 | under loop all, `length` natural ends visit every track once and return to the start |
| `SourceType.ScanHlsCue` | src/js/player.js:213 | the left-to-right search finds the cue exactly when it occurs at or after the start position |
| `SourceType.IsHlsUrl` | src/js/player.js:213 | `/m3u8(#\|\?\|$)/i` matches exactly when the URL contains the cue (any case, followed by `#`, `?` or the end) |
| `SourceType.HlsCueExamples` | src/js/player.js:213 | the cue is found at the end, before a query and before a fragment, in either case |
| `SourceType.ResolvedKind` | src/js/player.js:212-219 | an absent, empty or 'auto' type becomes 'hls' exactly when the URL has the cue and 'normal' otherwise; other types are kept |
| `SourceType.Resolve` | src/js/player.js:202-236 | a registered custom type always yields a custom binding (called or illegal); without one it never does |
| `SourceType.CustomTakesPrecedence` | src/js/player.js:203-210 | a function handler is called; a non-function one is an error and binds nothing, whatever the URL and platform |
| `SourceType.AutoInference` | src/js/player.js:212-219 | an inferred type takes the HLS path exactly when the URL carries the cue, and is bound directly otherwise |
| `SourceType.HlsFallbacks` | src/js/player.js:220-232 | HLS: the delegate iff supported, else native playback iff the element can play it, else the notice |
| `SourceType.UnknownKindUnbound` | src/js/player.js:220-235 | an explicit type other than hls and normal, with no handler, binds nothing |
| `Playback.UIPlaying` | src/js/player.js:272-283 | not paused, watchdog on; the button is redrawn only when the flag flips; consistency of the button is kept |
| `Playback.UIPaused` | src/js/player.js:309-323 | paused, watchdog off; the button is redrawn only when the flag flips; consistency of the button is kept |
| `Playback.PauseRequest` | src/js/player.js:325-328 | after `pause` the player is paused and the element was asked to pause |
| `Playback.PlayRequest` | src/js/player.js:294-307 | after `play` the player is paused exactly when the request was rejected with NotAllowedError or NotSupportedError; the element plays exactly when not rejected |
| `Playback.Settle` | src/js/player.js:297-306 | once the play promise settles the element plays iff there was no rejection; the player is paused iff it was or the rejection is NotAllowedError/NotSupportedError; a consistent button stays consistent |
| `Playback.Toggle` | src/js/player.js:376-383 | `toggle` on the transport: with the button showing play the outcome is that of `play` (paused iff a reverting rejection, the element playing iff none), with the button showing pause the player is paused and the element asked to pause; a consistent button stays consistent |
| `Playback.Reload` | src/js/player.js:238-240 | `setAudio`'s replay: the element is asked to play iff it was already or the player is not paused; paused flag, button, redraws and watchdog unchanged |
| `Playback.PauseIdempotent` | src/js/player.js:309-328 | pausing twice equals pausing once |
| `Playback.PauseWhilePausedKeepsButton` | src/js/player.js:310-319 | `pause` while paused leaves the button and its redraw count alone |
| `Playback.PlayingWhilePlayingKeepsButton` | src/js/player.js:273-281 | `setUIPlaying` while playing leaves the button and its redraw count alone |
| `Playback.ToggleFlips` | src/js/player.js:376-383 | an accepted `toggle` flips the paused flag and keeps the button consistent |
| `Playback.PlayThenPause` | src/js/player.js:294-328 | play then pause ends paused, button showing play, element asked to pause |
| `Media.SeekTarget` | src/js/player.js:255-261 | the stored position is ≥ 0 and ≤ a known non-zero duration; in-range targets are kept, negatives become 0, overshoots the duration |
| `Media.PlayedRatio` | src/js/player.js:263-268 | the played bar is 0 when the duration is NaN, and in [0, 1] for an in-range position of a known positive duration |
| `Media.SeekBarInRange` | src/js/player.js:255-268 | after any seek the played bar is in [0, 1] for a known positive duration, and 0 for NaN whatever the target |
| `Media.SeekIdempotent` | src/js/player.js:255-259 | seeking to where a seek landed stays there |
| `Media.Clamp01` | src/js/player.js:346-349 | the applied volume is in [0, 1], equal to the argument when it is already there |
| `Media.ClampExamples` | src/js/player.js:346-349 | `volume(-1)` acts as `volume(0)`, `volume(5)` as `volume(1)` |
| `Media.EffectiveVolume` | src/js/player.js:363 | what `volume()` returns: 0 while muted, else the element's volume, so in [0, 1] whenever the volume is |
| `Media.IconFor` | src/js/player.js:330-340 | up iff volume ≥ 0.95, down iff 0 < volume < 0.95, off iff volume ≤ 0 |
| `Instances.UnregisterAsWritten` | src/js/player.js:422 | the removal as written shortens a registry that holds the player by one |
| `Instances.AsWrittenDropsLast` | src/js/player.js:422 | as written, removing an unregistered player drops the last registered one |
| `Instances.SecondDestroyUnregistersAnother` | src/js/player.js:422 | concretely: with only player 1 registered, removing player 2 empties the registry |
| `Instances.AsWrittenAgreesWhenRegistered` | src/js/player.js:422 | for a registered player the as-written removal equals the corrected one, so the two part only on an unregistered player |
| `Instances.Unregister` | src/js/player.js:422 | corrected removal: unchanged when the player is absent, one shorter when present |
| `Instances.UnregisterKeepsOthers` | src/js/player.js:422 | corrected removal lets no newcomer in and keeps every other registered player |
| `Instances.UnregisterTakesOneCopy` | src/js/player.js:422 | the multiset of players loses exactly one copy of the removed player |
| `Instances.UnregisterKeepsRegistryDistinct` | src/js/player.js:422 | in a registry without repetitions the player is gone afterwards and there are still no repetitions |
| `APlayer.Registry.constructor` | src/js/player.js:15 | the module-level `instances` array starts empty |
| `APlayer.Player.constructor` | src/js/player.js:25-102 | the whole new state: the registry, tracks, shuffle order, options and platform are the arguments; the initial media state with the stored volume applied (clamped, not written back), then track `StartIndex` bound as `setAudio` binds it, then `play` when autoplay (its rejection logged); transport paused unless autoplay succeeds; joins the registry last; with autoplay and mutex the others end paused, their media untouched |
| `APlayer.Player.Start` | src/js/player.js:87-99 | the whole new state: the stored volume applied without write-back, track `StartIndex` bound through `list.switch`, then `play` when autoplay; paused iff autoplay is off or its play is rejected with a reverting error; other players paused iff autoplay and mutex |
| `APlayer.Player.Switch` | src/js/player.js:90-93 | `list.switch(i)`: track i becomes current and `tracks[i]` is bound as `setAudio` binds it; volume, mute, icon, stored volume and duration are untouched; the element is asked to play iff not paused |
| `APlayer.Player.ReleaseHls` | src/js/player.js:198-201 | no streaming delegate remains; nothing else changes |
| `APlayer.Player.SetAudio` | src/js/player.js:197-242 | the media state becomes `AfterSetAudio` of the old for the track's resolved binding: delegate, source, outputs and notice follow the binding, position and played bar rewound, everything else kept; the element is asked to play iff not paused |
| `APlayer.Player.Load` | src/js/player.js:197-242 | the steps of `setAudio` once the binding is resolved: the media state becomes `AfterSetAudio` of the old and the element is asked to play iff not paused |
| `APlayer.Player.Bind` | src/js/player.js:202-235 | the media state becomes `Bound` of the old: the delegate, the source, the recorded call or error, and the notice (text, opacity 0.8, hide after 2000) follow the binding, and nothing else changes |
| `APlayer.Player.Seek` | src/js/player.js:255-270 | the position becomes the seek target and the played bar its ratio; nothing else changes |
| `APlayer.Player.SetUIPlaying` | src/js/player.js:272-292 | own transport becomes UIPlaying of the old; with mutex every other registered player ends with the pause applied, without mutex untouched; nothing else of theirs changes |
| `APlayer.Player.PauseOthers` | src/js/player.js:285-291 | every other registered player ends with the pause applied to its old transport, its media untouched |
| `APlayer.Player.SetUIPaused` | src/js/player.js:309-323 | own transport becomes UIPaused of the old; nothing else changes |
| `APlayer.Player.Play` | src/js/player.js:294-307 | own transport becomes PlayRequest of the old; a rejection is logged and nothing else of the media state changes; others as in SetUIPlaying |
| `APlayer.Player.SettlePlay` | src/js/player.js:297-306 | own transport becomes Settle of the old; a rejection is logged as a console error and nothing else of the media state changes |
| `APlayer.Player.Pause` | src/js/player.js:325-328 | own transport becomes PauseRequest of the old; nothing else changes |
| `APlayer.Player.Toggle` | src/js/player.js:376-383 | a paused player plays (unless rejected) and a playing one pauses; the media state changes only by a logged rejection when it plays; other players are paused iff it plays under mutex, their media untouched |
| `APlayer.Player.OnSinkPlay` | src/js/player.js:114-118 | the element's 'play' event leaves the player not paused, calling setUIPlaying only if it was paused; media untouched; other players paused iff it was paused and mutex is on |
| `APlayer.Player.OnSinkPause` | src/js/player.js:120-124 | the element's 'pause' event leaves the player paused, calling setUIPaused only if it was playing |
| `APlayer.Player.SwitchVolumeIcon` | src/js/player.js:330-340 | the icon is the tier of what `volume()` returns |
| `APlayer.Player.Volume` | src/js/player.js:345-364 | NaN changes nothing; a number is clamped, applied, un-mutes, sets the icon and is stored unless nostorage; the result is 0 when muted, else the volume |
| `APlayer.Player.Notice` | src/js/player.js:440-453 | text and opacity shown, any pending hide cancelled, 'notice_show' emitted, a hide pending iff time ≠ 0 |
| `APlayer.Player.NoticeElapsed` | src/js/player.js:448-451 | the hide timer fades the box to 0 and emits 'notice_hide' |
| `APlayer.Player.OnSinkError` | src/js/player.js:151-153 | an element error raises the generic notice: its text, opacity 0.8, a hide after 2000, 'notice_show' emitted |
| `APlayer.Player.OnEnded` | src/js/player.js:156-192 | the whole new state: track `EndedStep(...).next` bound as `setAudio` binds it, then `play` (rejection logged) or `pause` as the table says; volume, mute, icon, stored volume and duration untouched; ends paused iff the table says stop or play is rejected; others paused iff mutex and playing resumes |
| `APlayer.Player.Destroy` | src/js/player.js:421-428 | leaves the registry (corrected removal), pauses, clears the source, emits 'destroy' |
| `APlayer.TwoPlayers` | src/js/player.js:25-102 | two players built in turn on a fresh registry are distinct, share it, keep the options given, are valid, and are registered in construction order |
| `APlayer.MutexExcludes` | src/js/player.js:285-291 | with mutex, playing the second player and then the first leaves the second paused and its element asked to pause |

## Left out

- DOM and template work is not modelled: container and button classes beyond the play/pause icon, `innerHTML`, styles, `theme`, `setMode`, the width checks, and the time texts (`utils.secondToTime`). These are presentational.
- Lrc, Bar, User, Timer, Events, List and Template are not part of this model. The stored volume is a field, the 'loading' watchdog is a flag, and emitted events are recorded in `outputs`.
- `list.switch` is modelled as `Player.Switch`: set the index, then `setAudio`. List add/remove and the regeneration of `randomOrder` are not modelled. The shuffle order is a constructor parameter required to be a permutation of the track indices.
- APlayer.Player.constructor: requires a non-empty playlist; what the list component does with an empty one is not part of this model.
- The `setTimeout` icon swap and the notice's real timer are not modelled. A pending hide is recorded with its delay, and `NoticeElapsed` stands for the timer firing.
- Promise asynchrony is not modelled. A play rejection is a parameter of `Play` that settles at once; events arriving between the request and the rejection are not modelled. `setAudio`'s own `audio.play()` is recorded as a request only.
- Hls.js, `Hls.isSupported()` and `canPlayType` are inputs. If the global `Hls` is missing, `Hls.isSupported()` throws a ReferenceError; this is not modelled. An attached delegate records the URL it loaded; the element's blob source is not modelled.
- A custom type handler is arbitrary code. Calling it is recorded; its effects are not modelled.
- The `timeupdate`, `progress` and `durationchange` handlers (progress ratios, the Android `duration !== 1` workaround) are display plumbing and are not modelled. `duration` is an element field the environment assigns.
- Numbers are reals. NaN is modelled where the code tests for it: the NaN duration (`Unknown`), and `parseFloat` yielding NaN (`None`). Infinity is the `Unbounded` duration. A ratio divided by a zero duration is `None`.
- `options.loop` and `options.order` are constants; changes made by the controller at run time are not modelled.
- `switchAudio`, `addAudio`, `removeAudio`, `on` and the static `version` getter are abandoned wrappers or forwards to collaborators.
- APlayer.Player.Volume: the store write is observed through the stored value only, so rewriting the value already stored looks the same as not writing.
- APlayer.Player.Destroy: clearing the container and `timer.destroy()` are not modelled beyond the pause's watchdog flag.
- APlayer.Player.OnEnded: the browser's own 'pause' event, which precedes 'ended', is not replayed. The handler acts on whatever transport state it finds.
- The mutex loop assumes every other player's `pause` returns normally, as the code does.

## Findings

| source | as written | input that shows it | evidently intended | confidence | as-written member | corrected member |
|---|---|---|---|---|---|---|
| src/js/player.js:422 | `instances.splice(instances.indexOf(this), 1)` | `destroy()` called twice on player B while player A is registered: `indexOf` gives -1 and `splice(-1, 1)` removes A | remove this player only if it is registered | medium; not executed | `Instances.AsWrittenDropsLast` | `Instances.Unregister` |
