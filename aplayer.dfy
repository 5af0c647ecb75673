/**
 * The player object: a `Registry` standing for the module-level `instances`
 * array, and a `Player` whose methods update its fields in place as the
 * source's methods do. Each method is specified against the pure functions
 * of Sequencing, SourceType, Playback and Media.
 *
 * The audio element's observable state (src, position, duration, volume,
 * muted, whether it is playing: asked to play and not refused) is held in
 * fields of the player; the environment (the browser) may assign `duration`, `muted` and
 * `currentTime` directly.
 */
module APlayer {
  import opened Wrappers
  import opened ArrayOps
  import opened Sequencing
  import opened SourceType
  import opened Playback
  import opened Media
  import Instances

  /** The options the orchestration reads. */
  datatype Options = Options(loop: Loop, order: Order, mutex: bool, autoplay: bool, customAudioType: map<string, Handler>)

  /**
   * What a player emits: the events 'notice_show' (with its text),
   * 'notice_hide' and 'destroy' on its bus, a console error, or a call of a
   * custom type handler.
   */
  datatype Output =
    | NoticeShown(text: string)
    | NoticeHidden
    | Destroyed
    | ConsoleError(message: string)
    | CustomHandlerCalled(kind: string)

  const NoticeTime: int := 2000
  const NoticeOpacity: real := 0.8
  const HlsUnsupportedMessage: string := "Error: HLS is not supported."
  const AudioErrorMessage: string := "An audio error has occurred."

  function IllegalTypeMessage(kind: string): string {
    "Illegal customType: " + kind
  }

  /** What `setAudio` emits for a binding. */
  function BindingOutputs(b: Binding): (o: seq<Output>)
    ensures b.CustomHandler? ==> o == [CustomHandlerCalled(b.kind)]
    ensures b.IllegalCustomType? ==> o == [ConsoleError(IllegalTypeMessage(b.kind))]
    ensures b.HlsUnsupported? ==> o == [NoticeShown(HlsUnsupportedMessage)]
    ensures b.HlsDelegate? || b.NativeHls? || b.Direct? || b.Unbound? ==> o == []
  {
    match b
    case CustomHandler(k) => [CustomHandlerCalled(k)]
    case IllegalCustomType(k) => [ConsoleError(IllegalTypeMessage(k))]
    case HlsUnsupported => [NoticeShown(HlsUnsupportedMessage)]
    case _ => []
  }

  /** Everything of a player's state that is not its transport state. */
  datatype MediaState = MediaState(
    index: nat, audioSrc: string, hls: Option<string>, currentTime: real, duration: Duration,
    playedRatio: Option<real>, audioVolume: real, muted: bool, volumeIcon: VolumeIcon,
    savedVolume: Option<real>, noticeText: string, noticeOpacity: real, noticeHide: Option<int>,
    outputs: seq<Output>)

  /**
   * The binding step of `setAudio` on the media state, for a track at `url`
   * whose resolved binding is `b`: the delegate, the source, the recorded
   * outputs and the notice follow the binding; nothing else changes.
   */
  function Bound(m: MediaState, b: Binding, url: string): MediaState {
    var notice := b.HlsUnsupported?;
    m.(hls := if b.HlsDelegate? then Some(url) else m.hls,
       audioSrc := if b.NativeHls? || b.Direct? then url else m.audioSrc,
       outputs := m.outputs + BindingOutputs(b),
       noticeText := if notice then HlsUnsupportedMessage else m.noticeText,
       noticeOpacity := if notice then NoticeOpacity else m.noticeOpacity,
       noticeHide := if notice then Some(NoticeTime) else m.noticeHide)
  }

  /**
   * `setAudio` on the media state: any earlier delegate is released, the
   * track is bound, and the position and played bar are rewound. Track
   * index, volume, mute, icon, stored volume and duration are left alone.
   */
  function AfterSetAudio(m: MediaState, b: Binding, url: string): MediaState {
    Bound(m.(hls := None), b, url).(currentTime := 0.0, playedRatio := PlayedRatio(0.0, m.duration))
  }

  /** `volume(v, true)` on the media state, `v` being the parsed argument (None for NaN): nothing is written back. */
  function VolumeApplied(m: MediaState, v: Option<real>): MediaState {
    if v.None? then m
    else m.(audioVolume := Clamp01(v.value), muted := false, volumeIcon := IconFor(Clamp01(v.value)))
  }

  /** A rejected play promise logs its error on the console. */
  function Logged(m: MediaState, rejection: Option<string>): MediaState {
    if rejection.Some? then m.(outputs := m.outputs + [ConsoleError(rejection.value)]) else m
  }

  /** The media state the constructor sets up before it starts: track 0, no source, unknown duration, full volume. */
  function InitialMedia(savedVolume: Option<real>): MediaState {
    MediaState(0, "", None, 0.0, Unknown, Some(0.0), 1.0, false, VolumeUp, savedVolume, "", 0.0, None, [])
  }

  /** Paused, showing play, no redraw yet, watchdog off, the element not asked to play. */
  const InitialTransport := TransportState(true, PlayIcon, 0, false, false)

  /** The module-level `instances` array that every player joins on construction. */
  class Registry {
    var instances: seq<Player>

    constructor ()
      ensures instances == []
    {
      instances := [];
    }

    ghost predicate AllValid()
      reads this, set p | p in instances
    {
      forall p :: p in instances ==> p.Valid()
    }
  }

  class Player {
    const registry: Registry
    const tracks: seq<Track>
    const randomOrder: seq<nat>
    const options: Options
    const platform: Platform

    /** `list.index`: the current track. */
    var index: nat

    // transport
    var paused: bool
    var button: Button
    var buttonRedraws: nat
    var loadingWatch: bool
    var audioPlaying: bool

    // the audio element and the streaming delegate
    var audioSrc: string
    var hls: Option<string>
    var currentTime: real
    var duration: Duration
    var playedRatio: Option<real>
    var audioVolume: real
    var muted: bool
    var volumeIcon: VolumeIcon

    /** The preference store's volume entry (None when absent or not a number). */
    var savedVolume: Option<real>

    // the notice box; `noticeHide` is the pending hide timer's delay
    var noticeText: string
    var noticeOpacity: real
    var noticeHide: Option<int>

    var outputs: seq<Output>

    ghost predicate Valid()
      reads this
    {
      && |tracks| > 0
      && IsPermutation(randomOrder, |tracks|)
      && index < |tracks|
      && Consistent(Transport())
      && 0.0 <= currentTime
      && 0.0 <= audioVolume <= 1.0
    }

    function Transport(): TransportState
      reads this
    {
      TransportState(paused, button, buttonRedraws, loadingWatch, audioPlaying)
    }

    ghost function MediaView(): MediaState
      reads this
    {
      MediaState(index, audioSrc, hls, currentTime, duration, playedRatio, audioVolume, muted, volumeIcon,
                 savedVolume, noticeText, noticeOpacity, noticeHide, outputs)
    }

    /** The other registered players. */
    ghost function Others(): set<Player>
      reads registry
    {
      set p | p in registry.instances && p != this
    }

    /**
     * The constructor: start paused, apply the stored volume without
     * writing it back, switch to the start track, play when `autoplay`, and
     * join the registry last.
     */
    constructor (registry: Registry, tracks: seq<Track>, randomOrder: seq<nat>, options: Options, platform: Platform,
                 savedVolume: Option<real>, autoplayRejection: Option<string>)
      requires |tracks| > 0 && IsPermutation(randomOrder, |tracks|)
      requires registry.AllValid()
      modifies registry, set p | p in registry.instances
      ensures this.registry == registry && this.tracks == tracks && this.randomOrder == randomOrder
      ensures this.options == options && this.platform == platform
      ensures Valid() && registry.AllValid()
      ensures registry.instances == old(registry.instances) + [this]
      ensures index == StartIndex(options.order, randomOrder, |tracks|)
      ensures paused <==> !options.autoplay || RevertsToPaused(autoplayRejection)
      ensures audioVolume == (if savedVolume.Some? then Clamp01(savedVolume.value) else 1.0)
      ensures this.savedVolume == savedVolume && currentTime == 0.0
      ensures var k := StartIndex(options.order, randomOrder, |tracks|);
        MediaView() == Logged(AfterSetAudio(VolumeApplied(InitialMedia(savedVolume), savedVolume),
                                        Resolve(tracks[k], options.customAudioType, platform), tracks[k].url).(index := k),
                          if options.autoplay then autoplayRejection else None)
      ensures Transport() == if options.autoplay then PlayRequest(InitialTransport, autoplayRejection) else InitialTransport
      ensures forall p :: p in old(registry.instances) ==> p.MediaView() == old(p.MediaView())
      ensures forall p :: p in old(registry.instances) ==>
        p.Transport() == if options.autoplay && options.mutex then PauseRequest(old(p.Transport())) else old(p.Transport())
    {
      this.registry := registry;
      this.tracks := tracks;
      this.randomOrder := randomOrder;
      this.options := options;
      this.platform := platform;
      index := 0;
      paused := true;
      button := PlayIcon;
      buttonRedraws := 0;
      loadingWatch := false;
      audioPlaying := false;
      audioSrc := "";
      hls := None;
      currentTime := 0.0;
      duration := Unknown;
      playedRatio := Some(0.0);
      audioVolume := 1.0;
      muted := false;
      volumeIcon := VolumeUp;
      this.savedVolume := savedVolume;
      noticeText := "";
      noticeOpacity := 0.0;
      noticeHide := None;
      outputs := [];
      new;
      assert MediaView() == InitialMedia(savedVolume) && Transport() == InitialTransport;
      Start(autoplayRejection);
      registry.instances := registry.instances + [this];
    }

    /**
     * The constructor's steps between setting the fields and joining the
     * registry: apply the stored volume without writing it back, switch to
     * the start track, and play when `autoplay`.
     */
    method Start(autoplayRejection: Option<string>)
      requires Valid() && registry.AllValid() && paused
      modifies this`audioVolume, this`muted, this`volumeIcon, this`savedVolume, this`index, this`hls, this`audioSrc,
               this`outputs, this`noticeText, this`noticeOpacity, this`noticeHide, this`currentTime, this`playedRatio,
               this`paused, this`button, this`buttonRedraws, this`loadingWatch, this`audioPlaying, Others()
      ensures Valid() && registry.AllValid()
      ensures index == StartIndex(options.order, randomOrder, |tracks|)
      ensures paused <==> !options.autoplay || RevertsToPaused(autoplayRejection)
      ensures audioVolume == (if savedVolume.Some? then Clamp01(savedVolume.value) else old(audioVolume))
      ensures savedVolume == old(savedVolume) && currentTime == 0.0
      ensures var k := StartIndex(options.order, randomOrder, |tracks|);
        MediaView() == Logged(AfterSetAudio(VolumeApplied(old(MediaView()), old(savedVolume)),
                                        Resolve(tracks[k], options.customAudioType, platform), tracks[k].url).(index := k),
                          if options.autoplay then autoplayRejection else None)
      ensures Transport() == if options.autoplay then PlayRequest(Reload(old(Transport())), autoplayRejection) else Reload(old(Transport()))
      ensures forall p :: p in Others() ==> p.MediaView() == old(p.MediaView())
      ensures forall p :: p in Others() ==>
        p.Transport() == if options.autoplay && options.mutex then PauseRequest(old(p.Transport())) else old(p.Transport())
    {
      var level := Volume(savedVolume, true);
      assert MediaView() == VolumeApplied(old(MediaView()), old(savedVolume));
      assert Transport() == old(Transport());
      Switch(StartIndex(options.order, randomOrder, |tracks|));
      if options.autoplay {
        Play(autoplayRejection);
      }
    }

    /** `list.switch(i)`: make track `i` current and bind it. */
    method Switch(i: nat)
      requires Valid() && i < |tracks|
      modifies this`index, this`hls, this`audioSrc, this`outputs, this`noticeText, this`noticeOpacity,
               this`noticeHide, this`currentTime, this`playedRatio, this`audioPlaying
      ensures Valid()
      ensures MediaView() == AfterSetAudio(old(MediaView()), Resolve(tracks[i], options.customAudioType, platform), tracks[i].url).(index := i)
      ensures Transport() == Reload(old(Transport()))
    {
      index := i;
      SetAudio(tracks[i]);
    }

    /**
     * `setAudio`: release any streaming delegate, bind the track as its
     * resolved type says, rewind, and ask the element to play again unless
     * paused.
     */
    method SetAudio(track: Track)
      requires Valid()
      modifies this`hls, this`audioSrc, this`outputs, this`noticeText, this`noticeOpacity, this`noticeHide,
               this`currentTime, this`playedRatio, this`audioPlaying
      ensures Valid()
      ensures MediaView() == AfterSetAudio(old(MediaView()), Resolve(track, options.customAudioType, platform), track.url)
      ensures Transport() == Reload(old(Transport()))
    {
      Load(Resolve(track, options.customAudioType, platform), track.url);
    }

    /** The steps of `setAudio` once the track's binding `b` is resolved. */
    method Load(b: Binding, url: string)
      requires Valid()
      modifies this`hls, this`audioSrc, this`outputs, this`noticeText, this`noticeOpacity, this`noticeHide,
               this`currentTime, this`playedRatio, this`audioPlaying
      ensures Valid()
      ensures MediaView() == AfterSetAudio(old(MediaView()), b, url)
      ensures Transport() == Reload(old(Transport()))
    {
      ReleaseHls();
      Bind(b, url);
      Seek(0.0);
      assert Transport() == old(Transport());
      if !paused {
        audioPlaying := true;
      }
    }

    /** The branch of `setAudio` that acts on the resolved binding `b` of a track at `url`. */
    method Bind(b: Binding, url: string)
      requires Valid() && hls == None
      modifies this`hls, this`audioSrc, this`outputs, this`noticeText, this`noticeOpacity, this`noticeHide
      ensures Valid()
      ensures MediaView() == Bound(old(MediaView()), b, url)
    {
      match b {
        case CustomHandler(k) =>
          outputs := outputs + [CustomHandlerCalled(k)];
        case IllegalCustomType(k) =>
          outputs := outputs + [ConsoleError(IllegalTypeMessage(k))];
        case HlsDelegate =>
          hls := Some(url);
        case NativeHls =>
          audioSrc := url;
        case Direct =>
          audioSrc := url;
        case HlsUnsupported =>
          Notice(HlsUnsupportedMessage, NoticeTime, NoticeOpacity);
        case Unbound =>
      }
    }

    /** Destroy the streaming delegate, if there is one, and forget it. */
    method ReleaseHls()
      modifies this`hls
      ensures MediaView() == old(MediaView()).(hls := None)
    {
      if hls.Some? {
        hls := None;
      }
    }

    /** `seek(time)`: clamp the position, store it, and set the played bar. */
    method Seek(time: real)
      requires Valid()
      modifies this`currentTime, this`playedRatio
      ensures Valid()
      ensures currentTime == SeekTarget(time, duration)
      ensures playedRatio == PlayedRatio(currentTime, duration)
      ensures MediaView() == old(MediaView()).(currentTime := currentTime, playedRatio := playedRatio)
    {
      var t := Max(time, 0.0);
      if Truthy(duration) && duration.Finite? {
        t := Min(t, duration.seconds);
      }
      currentTime := t;
      if duration.Unknown? {
        playedRatio := Some(0.0);
      } else {
        playedRatio := Divide(t, duration);
      }
    }

    /** `setUIPlaying`: leave the paused state and, with `mutex`, pause every other registered player. */
    method SetUIPlaying()
      requires Valid() && registry.AllValid()
      modifies this`paused, this`button, this`buttonRedraws, this`loadingWatch, Others()
      ensures Valid() && registry.AllValid()
      ensures Transport() == UIPlaying(old(Transport()))
      ensures forall p :: p in Others() ==> p.MediaView() == old(p.MediaView())
      ensures forall p :: p in Others() ==>
        p.Transport() == if options.mutex then PauseRequest(old(p.Transport())) else old(p.Transport())
    {
      if paused {
        paused := false;
        button := PauseIcon;
        buttonRedraws := buttonRedraws + 1;
      }
      loadingWatch := true;
      if options.mutex {
        PauseOthers();
      }
    }

    /** The `mutex` loop of `setUIPlaying`: every other registered player is paused. */
    method PauseOthers()
      requires Valid() && registry.AllValid()
      modifies Others()
      ensures registry.AllValid()
      ensures forall p :: p in Others() ==> p.MediaView() == old(p.MediaView())
      ensures forall p :: p in Others() ==> p.Transport() == PauseRequest(old(p.Transport()))
    {
      var i := 0;
      while i < |registry.instances|
        invariant 0 <= i <= |registry.instances|
        invariant forall p :: p in Others() ==> p.Valid() && p.MediaView() == old(p.MediaView())
        invariant forall p :: p in Others() ==>
          p.Transport() == if p in registry.instances[..i] then PauseRequest(old(p.Transport())) else old(p.Transport())
      {
        var p := registry.instances[i];
        assert registry.instances[..i + 1] == registry.instances[..i] + [p];
        if p != this {
          p.Pause();
        }
        i := i + 1;
      }
      assert registry.instances[..i] == registry.instances;
    }

    /** `setUIPaused`: enter the paused state. */
    method SetUIPaused()
      requires Valid()
      modifies this`paused, this`button, this`buttonRedraws, this`loadingWatch
      ensures Valid() && MediaView() == old(MediaView())
      ensures Transport() == UIPaused(old(Transport()))
    {
      if !paused {
        paused := true;
        button := PlayIcon;
        buttonRedraws := buttonRedraws + 1;
      }
      loadingWatch := false;
    }

    /** `play`; `rejection` is the name of the error the element's play promise rejects with, if it does. */
    method Play(rejection: Option<string>)
      requires Valid() && registry.AllValid()
      modifies this`paused, this`button, this`buttonRedraws, this`loadingWatch, this`audioPlaying, this`outputs, Others()
      ensures Valid() && registry.AllValid()
      ensures Transport() == PlayRequest(old(Transport()), rejection)
      ensures MediaView() == Logged(old(MediaView()), rejection)
      ensures forall p :: p in Others() ==> p.MediaView() == old(p.MediaView())
      ensures forall p :: p in Others() ==>
        p.Transport() == if options.mutex then PauseRequest(old(p.Transport())) else old(p.Transport())
    {
      SetUIPlaying();
      SettlePlay(rejection);
    }

    /** The element's play request and how its promise settles: a rejection is logged and may revert the UI. */
    method SettlePlay(rejection: Option<string>)
      requires Valid()
      modifies this`paused, this`button, this`buttonRedraws, this`loadingWatch, this`audioPlaying, this`outputs
      ensures Valid()
      ensures Transport() == Settle(old(Transport()), rejection)
      ensures MediaView() == Logged(old(MediaView()), rejection)
    {
      audioPlaying := true;
      if rejection.Some? {
        audioPlaying := false;
        outputs := outputs + [ConsoleError(rejection.value)];
        if RevertsToPaused(rejection) {
          SetUIPaused();
        }
      }
    }

    /** `pause`: enter the paused state and ask the element to pause. */
    method Pause()
      requires Valid()
      modifies this`paused, this`button, this`buttonRedraws, this`loadingWatch, this`audioPlaying
      ensures Valid() && MediaView() == old(MediaView())
      ensures Transport() == PauseRequest(old(Transport()))
    {
      SetUIPaused();
      audioPlaying := false;
    }

    /** `toggle`: play when the button shows play, pause when it shows pause. */
    method Toggle(rejection: Option<string>)
      requires Valid() && registry.AllValid()
      modifies this`paused, this`button, this`buttonRedraws, this`loadingWatch, this`audioPlaying, this`outputs, Others()
      ensures Valid() && registry.AllValid()
      ensures Transport() == Playback.Toggle(old(Transport()), rejection)
      ensures old(paused) && rejection == None ==> !paused
      ensures !old(paused) ==> paused
      ensures MediaView() == if old(button) == PlayIcon then Logged(old(MediaView()), rejection) else old(MediaView())
      ensures forall p :: p in Others() ==> p.MediaView() == old(p.MediaView())
      ensures forall p :: p in Others() ==>
        p.Transport() == if options.mutex && old(button) == PlayIcon then PauseRequest(old(p.Transport())) else old(p.Transport())
    {
      if button == PlayIcon {
        Play(rejection);
      } else {
        Pause();
      }
    }

    /** The element's 'play' event: mirror it in the UI if the player thought it was paused. */
    method OnSinkPlay()
      requires Valid() && registry.AllValid()
      modifies this`paused, this`button, this`buttonRedraws, this`loadingWatch, Others()
      ensures Valid() && registry.AllValid() && !paused
      ensures Transport() == if old(paused) then UIPlaying(old(Transport())) else old(Transport())
      ensures MediaView() == old(MediaView())
      ensures forall p :: p in Others() ==> p.MediaView() == old(p.MediaView())
      ensures forall p :: p in Others() ==>
        p.Transport() == if options.mutex && old(paused) then PauseRequest(old(p.Transport())) else old(p.Transport())
    {
      if paused {
        SetUIPlaying();
      }
    }

    /** The element's 'pause' event: mirror it in the UI if the player thought it was playing. */
    method OnSinkPause()
      requires Valid()
      modifies this`paused, this`button, this`buttonRedraws, this`loadingWatch
      ensures Valid() && paused
      ensures Transport() == if old(paused) then old(Transport()) else UIPaused(old(Transport()))
    {
      if !paused {
        SetUIPaused();
      }
    }

    /** `switchVolumeIcon`: pick the icon tier from what `volume()` returns. */
    method SwitchVolumeIcon()
      modifies this`volumeIcon
      ensures volumeIcon == IconFor(EffectiveVolume(muted, audioVolume))
    {
      var v := EffectiveVolume(muted, audioVolume);
      if v >= 0.95 {
        volumeIcon := VolumeUp;
      } else if v > 0.0 {
        volumeIcon := VolumeDown;
      } else {
        volumeIcon := VolumeOff;
      }
    }

    /**
     * `volume(percentage, nostorage)`: `percentage` is the argument after
     * `parseFloat` (None for NaN). A number is clamped to [0, 1], stored
     * unless `nostorage`, applied, and un-mutes; the result is 0 while
     * muted, else the volume.
     */
    method Volume(percentage: Option<real>, nostorage: bool) returns (effective: real)
      requires Valid()
      modifies this`audioVolume, this`muted, this`volumeIcon, this`savedVolume
      ensures Valid()
      ensures percentage == None ==>
        && audioVolume == old(audioVolume) && muted == old(muted)
        && volumeIcon == old(volumeIcon) && savedVolume == old(savedVolume)
      ensures percentage.Some? ==>
        && audioVolume == Clamp01(percentage.value) && !muted
        && volumeIcon == IconFor(audioVolume)
        && savedVolume == (if nostorage then old(savedVolume) else Some(audioVolume))
      ensures nostorage ==> MediaView() == VolumeApplied(old(MediaView()), percentage)
      ensures effective == EffectiveVolume(muted, audioVolume)
    {
      if percentage.Some? {
        var v := Max(percentage.value, 0.0);
        v := Min(v, 1.0);
        if !nostorage {
          savedVolume := Some(v);
        }
        audioVolume := v;
        if muted {
          muted := false;
        }
        SwitchVolumeIcon();
      }
      effective := if muted then 0.0 else audioVolume;
    }

    /** `notice(text, time, opacity)`: show the text, cancel a pending hide, emit 'notice_show', and schedule a hide unless `time` is 0. */
    method Notice(text: string, time: int, opacity: real)
      modifies this`noticeText, this`noticeOpacity, this`noticeHide, this`outputs
      ensures noticeText == text && noticeOpacity == opacity
      ensures noticeHide == if time != 0 then Some(time) else None
      ensures outputs == old(outputs) + [NoticeShown(text)]
    {
      noticeText := text;
      noticeOpacity := opacity;
      if noticeHide.Some? {
        noticeHide := None;
      }
      outputs := outputs + [NoticeShown(text)];
      if time != 0 {
        noticeHide := Some(time);
      }
    }

    /** The notice's hide timer fires: fade the box out and emit 'notice_hide'. */
    method NoticeElapsed()
      requires noticeHide.Some?
      modifies this`noticeOpacity, this`noticeHide, this`outputs
      ensures noticeOpacity == 0.0 && noticeHide == None
      ensures outputs == old(outputs) + [NoticeHidden]
    {
      noticeOpacity := 0.0;
      noticeHide := None;
      outputs := outputs + [NoticeHidden];
    }

    /** The element's 'error' event: a generic notice. */
    method OnSinkError()
      modifies this`noticeText, this`noticeOpacity, this`noticeHide, this`outputs
      ensures noticeText == AudioErrorMessage && noticeOpacity == NoticeOpacity && noticeHide == Some(NoticeTime)
      ensures outputs == old(outputs) + [NoticeShown(AudioErrorMessage)]
    {
      Notice(AudioErrorMessage, NoticeTime, NoticeOpacity);
    }

    /**
     * The element's 'ended' event: switch to the track the loop mode and the
     * order choose, then play or pause; EndedStep holds the handler's
     * branches, one per combination of loop mode and order.
     */
    method OnEnded(rejection: Option<string>)
      requires Valid() && registry.AllValid()
      modifies this`index, this`hls, this`audioSrc, this`outputs, this`noticeText, this`noticeOpacity, this`noticeHide,
               this`currentTime, this`playedRatio, this`paused, this`button, this`buttonRedraws, this`loadingWatch,
               this`audioPlaying, Others()
      ensures Valid() && registry.AllValid()
      ensures var s := EndedStep(options.loop, options.order, randomOrder, |tracks|, old(index));
        && MediaView() == Logged(AfterSetAudio(old(MediaView()), Resolve(tracks[s.next], options.customAudioType, platform),
                                           tracks[s.next].url).(index := s.next),
                             if s.resume then rejection else None)
        && Transport() == (if s.resume then PlayRequest(Reload(old(Transport())), rejection)
                           else PauseRequest(Reload(old(Transport()))))
        && index == s.next
        && (paused <==> !s.resume || RevertsToPaused(rejection))
        && currentTime == 0.0
        && (forall p :: p in Others() ==> p.MediaView() == old(p.MediaView()))
        && (forall p :: p in Others() ==>
              p.Transport() == if options.mutex && s.resume then PauseRequest(old(p.Transport())) else old(p.Transport()))
    {
      var step := EndedStep(options.loop, options.order, randomOrder, |tracks|, index);
      Switch(step.next);
      if step.resume {
        Play(rejection);
      } else {
        Pause();
      }
    }

    /**
     * `destroy`: leave the registry, pause, and clear the element's source,
     * then emit 'destroy'. A pending streaming delegate is not released.
     */
    method Destroy()
      requires Valid() && registry.AllValid()
      modifies registry, this`paused, this`button, this`buttonRedraws, this`loadingWatch, this`audioPlaying,
               this`audioSrc, this`outputs
      ensures Valid() && registry.AllValid()
      ensures registry.instances == Instances.Unregister(old(registry.instances), this)
      ensures Transport() == PauseRequest(old(Transport()))
      ensures audioSrc == "" && outputs == old(outputs) + [Destroyed]
    {
      ghost var before := registry.instances;
      Instances.UnregisterKeepsOthers(before, this);
      registry.instances := Instances.Unregister(registry.instances, this);
      Pause();
      audioSrc := "";
      outputs := outputs + [Destroyed];
      forall p | p in registry.instances
        ensures p.Valid()
      {
        assert p in before;
        if p != this {
          assert old(p.Valid());
        }
      }
    }
  }

  /** Two players built one after the other on a fresh registry, which then holds both, in order. */
  method TwoPlayers(tracks: seq<Track>, randomOrder: seq<nat>, options: Options, platform: Platform)
    returns (a: Player, b: Player)
    requires |tracks| > 0 && IsPermutation(randomOrder, |tracks|)
    ensures a != b && a.registry == b.registry && a.registry.instances == [a, b]
    ensures a.options == options && b.options == options
    ensures a.Valid() && b.Valid() && a.registry.AllValid()
  {
    var registry := new Registry();
    a := new Player(registry, tracks, randomOrder, options, platform, None, None);
    assert registry.instances == [a];
    b := new Player(registry, tracks, randomOrder, options, platform, None, None);
  }

  /**
   * Mutual exclusion between two players on one registry with `mutex`, as
   * `TwoPlayers` builds them: playing the second and then the first leaves
   * the second paused and its element asked to pause.
   */
  method MutexExcludes(a: Player, b: Player)
    requires a != b && a.registry == b.registry && a.registry.instances == [a, b]
    requires a.Valid() && b.Valid() && a.registry.AllValid() && a.options.mutex && b.options.mutex
    modifies a, b
    ensures !a.paused && b.paused && !b.audioPlaying
  {
    assert a in b.Others();
    b.Play(None);
    assert b in a.Others();
    a.Play(None);
  }
}
