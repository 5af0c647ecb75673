/**
 * The two-state play/pause machine behind `setUIPlaying`, `setUIPaused`,
 * `play`, `pause` and `toggle`, on one player's own state. The pausing of
 * other players under `mutex` is done by the player class.
 */
module Playback {
  import opened Wrappers

  /** Which class the play button carries: 'aplayer-play' (shows play) or 'aplayer-pause' (shows pause). */
  datatype Button = PlayIcon | PauseIcon

  /**
   * One player's transport state: the `paused` flag, the button, how many
   * times the button has been redrawn, whether the 'loading' watchdog timer
   * is enabled, and whether the audio element was asked to play and did
   * not refuse (true), or was asked to pause or refused to play (false).
   */
  datatype TransportState = TransportState(paused: bool, button: Button, redraws: nat, loadingWatch: bool, sinkPlaying: bool)

  /** The button shows play exactly when the player is paused. */
  predicate Consistent(t: TransportState) {
    t.button == if t.paused then PlayIcon else PauseIcon
  }

  /** `setUIPlaying` on this player: leave the paused state, touching the button only if the flag flips; enable the watchdog. */
  function UIPlaying(t: TransportState): (r: TransportState)
    ensures !r.paused && r.loadingWatch && r.sinkPlaying == t.sinkPlaying
    ensures Consistent(t) ==> Consistent(r)
    ensures r.redraws == if t.paused then t.redraws + 1 else t.redraws
    ensures !t.paused ==> r.button == t.button
  {
    var u := if t.paused then t.(paused := false, button := PauseIcon, redraws := t.redraws + 1) else t;
    u.(loadingWatch := true)
  }

  /** `setUIPaused`: enter the paused state, touching the button only if the flag flips; disable the watchdog. */
  function UIPaused(t: TransportState): (r: TransportState)
    ensures r.paused && !r.loadingWatch && r.sinkPlaying == t.sinkPlaying
    ensures Consistent(t) ==> Consistent(r)
    ensures r.redraws == if t.paused then t.redraws else t.redraws + 1
    ensures t.paused ==> r.button == t.button
  {
    var u := if !t.paused then t.(paused := true, button := PlayIcon, redraws := t.redraws + 1) else t;
    u.(loadingWatch := false)
  }

  /** The play request is rejected with one of the two errors that send the player back to paused. */
  predicate RevertsToPaused(rejection: Option<string>) {
    rejection == Some("NotAllowedError") || rejection == Some("NotSupportedError")
  }

  /** `pause`: the paused UI state, then a pause request to the element. */
  function PauseRequest(t: TransportState): (r: TransportState)
    ensures r.paused && !r.sinkPlaying
  {
    UIPaused(t).(sinkPlaying := false)
  }

  /**
   * `play`: the playing UI state, then a play request to the element; when
   * the request is rejected (`rejection` carries the error's name) the
   * element does not play, and the two autoplay/codec errors put the UI back
   * to paused.
   */
  function PlayRequest(t: TransportState, rejection: Option<string>): (r: TransportState)
    ensures r.paused <==> RevertsToPaused(rejection)
    ensures r.sinkPlaying <==> rejection == None
    ensures Consistent(t) ==> Consistent(r)
  {
    Settle(UIPlaying(t), rejection)
  }

  /**
   * How the element's play promise settles once the UI shows playing: the
   * element plays, or on a rejection it does not, and the UI goes back to
   * paused for the two rejections that mean playback cannot start.
   */
  function Settle(t: TransportState, rejection: Option<string>): (r: TransportState)
    ensures r.paused <==> t.paused || RevertsToPaused(rejection)
    ensures r.sinkPlaying <==> rejection == None
    ensures Consistent(t) ==> Consistent(r)
  {
    var u := t.(sinkPlaying := true);
    if rejection == None then u
    else
      var v := u.(sinkPlaying := false);
      if RevertsToPaused(rejection) then UIPaused(v) else v
  }

  /** What `setAudio` does to the transport: the element is asked to play again unless the player is paused. */
  function Reload(t: TransportState): (r: TransportState)
    ensures r.paused == t.paused && r.button == t.button && r.redraws == t.redraws && r.loadingWatch == t.loadingWatch
    ensures r.sinkPlaying <==> t.sinkPlaying || !t.paused
  {
    if t.paused then t else t.(sinkPlaying := true)
  }

  /** `toggle`: play when the button shows play, pause otherwise. */
  function Toggle(t: TransportState, rejection: Option<string>): (r: TransportState)
    ensures t.button == PlayIcon ==> (r.paused <==> RevertsToPaused(rejection)) && (r.sinkPlaying <==> rejection == None)
    ensures t.button == PauseIcon ==> r.paused && !r.sinkPlaying
    ensures Consistent(t) ==> Consistent(r)
  {
    if t.button == PlayIcon then PlayRequest(t, rejection) else PauseRequest(t)
  }

  /** Pausing twice is pausing once. */
  lemma PauseIdempotent(t: TransportState)
    ensures PauseRequest(PauseRequest(t)) == PauseRequest(t)
  {
  }

  /** `pause` while already paused leaves the button alone: no redraw, no change of icon. */
  lemma PauseWhilePausedKeepsButton(t: TransportState)
    requires t.paused
    ensures PauseRequest(t).button == t.button && PauseRequest(t).redraws == t.redraws
  {
  }

  /** `setUIPlaying` while already playing leaves the button alone. */
  lemma PlayingWhilePlayingKeepsButton(t: TransportState)
    requires !t.paused
    ensures UIPlaying(t).button == t.button && UIPlaying(t).redraws == t.redraws
  {
  }

  /** With a consistent button, an accepted `toggle` flips the paused flag and keeps the button consistent. */
  lemma ToggleFlips(t: TransportState)
    requires Consistent(t)
    ensures Toggle(t, None).paused == !t.paused
    ensures Consistent(Toggle(t, None))
  {
  }

  /** A play followed by a pause ends paused, with the button showing play and the element asked to pause. */
  lemma PlayThenPause(t: TransportState, rejection: Option<string>)
    requires Consistent(t)
    ensures var r := PauseRequest(PlayRequest(t, rejection));
      r.paused && r.button == PlayIcon && !r.sinkPlaying
  {
  }
}
