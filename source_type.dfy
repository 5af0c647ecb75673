/**
 * How `setAudio` decides to bind a track: a custom type handler first,
 * then the `auto` inference from the URL, then, for HLS, the streaming
 * delegate, the element's native support, or a notice.
 */
module SourceType {
  import opened Wrappers

  /** A playlist entry as far as binding goes: its URL and its optional `type`. */
  datatype Track = Track(url: string, kind: Option<string>)

  /** A value registered under `options.customAudioType[type]`: a function, or some other truthy value. */
  datatype Handler = Callable | NotCallable

  /**
   * Browser capabilities consulted for HLS: `Hls.isSupported()` and the two
   * `audio.canPlayType(...)` answers (a non-empty answer counts as yes).
   */
  datatype Platform = Platform(hlsSupported: bool, canPlayMpegUrl: bool, canPlayAppleMpegUrl: bool)

  /** What `setAudio` binds the track with. */
  datatype Binding =
    | CustomHandler(kind: string)      // the custom handler is called with the element, the track and the player
    | IllegalCustomType(kind: string)  // a non-function custom entry: an error is logged, nothing is bound
    | HlsDelegate                      // a fresh Hls delegate loads the URL and attaches to the element
    | NativeHls                        // the element plays HLS itself: `audio.src = url`
    | Direct                           // type 'normal': `audio.src = url`
    | HlsUnsupported                   // no way to play HLS: a notice is raised
    | Unbound                          // any other type: nothing happens

  /** The key JavaScript looks the type up under: an absent type reads as "undefined". */
  function Key(kind: Option<string>): string {
    match kind
    case None => "undefined"
    case Some(k) => k
  }

  /** The type is falsy (absent or empty) or 'auto': it is inferred from the URL. */
  predicate Inferred(kind: Option<string>) {
    kind == None || kind == Some("") || kind == Some("auto")
  }

  /** The regular expression /m3u8(#|\?|$)/i matches at position i. */
  predicate CueAt(url: string, i: nat)
    requires i + 4 <= |url|
  {
    && url[i] in "mM" && url[i + 1] == '3' && url[i + 2] in "uU" && url[i + 3] == '8'
    && (i + 4 == |url| || url[i + 4] == '#' || url[i + 4] == '?')
  }

  /** The URL contains the HLS cue somewhere. */
  ghost predicate HasHlsCue(url: string) {
    exists i: nat :: i + 4 <= |url| && CueAt(url, i)
  }

  /** A left-to-right search for the cue from position `i` on. */
  function ScanHlsCue(url: string, i: nat): (found: bool)
    requires i <= |url|
    ensures found <==> exists j: nat :: i <= j && j + 4 <= |url| && CueAt(url, j)
    decreases |url| - i
  {
    if i + 4 > |url| then false
    else if CueAt(url, i) then true
    else ScanHlsCue(url, i + 1)
  }

  /** `/m3u8(#|\?|$)/i.exec(url)` succeeds. */
  function IsHlsUrl(url: string): (r: bool)
    ensures r <==> HasHlsCue(url)
  {
    ScanHlsCue(url, 0)
  }

  /** The type after inference: 'hls' or 'normal' for an inferred type, else the type as given. */
  function ResolvedKind(kind: Option<string>, url: string): (r: string)
    ensures Inferred(kind) ==> (r == "hls" <==> HasHlsCue(url)) && (r == "hls" || r == "normal")
    ensures !Inferred(kind) ==> Some(r) == kind
  {
    if Inferred(kind) then (if IsHlsUrl(url) then "hls" else "normal")
    else kind.value
  }

  /** The binding `setAudio` performs for a track. */
  function Resolve(track: Track, custom: map<string, Handler>, platform: Platform): (b: Binding)
    ensures Key(track.kind) in custom ==> b.CustomHandler? || b.IllegalCustomType?
    ensures Key(track.kind) !in custom ==> !b.CustomHandler? && !b.IllegalCustomType?
  {
    var key := Key(track.kind);
    if key in custom then
      (if custom[key] == Callable then CustomHandler(key) else IllegalCustomType(key))
    else
      var kind := ResolvedKind(track.kind, track.url);
      if kind == "hls" then
        (if platform.hlsSupported then HlsDelegate
         else if platform.canPlayMpegUrl || platform.canPlayAppleMpegUrl then NativeHls
         else HlsUnsupported)
      else if kind == "normal" then Direct
      else Unbound
  }

  /** A custom handler registered for the track's type wins over everything else; a non-function one binds nothing. */
  lemma CustomTakesPrecedence(track: Track, custom: map<string, Handler>, platform: Platform)
    requires Key(track.kind) in custom
    ensures Resolve(track, custom, platform)
         == if custom[Key(track.kind)] == Callable then CustomHandler(Key(track.kind)) else IllegalCustomType(Key(track.kind))
  {
  }

  /** Without a custom handler, an inferred type becomes HLS exactly when the URL carries the cue, and otherwise plays directly. */
  lemma AutoInference(track: Track, custom: map<string, Handler>, platform: Platform)
    requires Key(track.kind) !in custom && Inferred(track.kind)
    ensures var b := Resolve(track, custom, platform);
      && (HasHlsCue(track.url) <==> (b.HlsDelegate? || b.NativeHls? || b.HlsUnsupported?))
      && (!HasHlsCue(track.url) <==> b.Direct?)
  {
  }

  /** For an HLS track: the delegate when supported, else the element's native support, else a notice. */
  lemma HlsFallbacks(track: Track, custom: map<string, Handler>, platform: Platform)
    requires Key(track.kind) !in custom && ResolvedKind(track.kind, track.url) == "hls"
    ensures var b := Resolve(track, custom, platform);
      && (b.HlsDelegate? <==> platform.hlsSupported)
      && (b.NativeHls? <==> !platform.hlsSupported && (platform.canPlayMpegUrl || platform.canPlayAppleMpegUrl))
      && (b.HlsUnsupported? <==> !platform.hlsSupported && !platform.canPlayMpegUrl && !platform.canPlayAppleMpegUrl)
  {
  }

  /** An explicit type other than 'hls' and 'normal', with no custom handler, binds nothing. */
  lemma UnknownKindUnbound(track: Track, custom: map<string, Handler>, platform: Platform)
    requires Key(track.kind) !in custom && !Inferred(track.kind)
    requires track.kind != Some("hls") && track.kind != Some("normal")
    ensures Resolve(track, custom, platform) == Unbound
  {
  }

  /** Concrete cues: the extension at the end, before a query or before a fragment, in any case. */
  lemma HlsCueExamples()
    ensures IsHlsUrl("https://a.b/live.m3u8")
    ensures IsHlsUrl("https://a.b/live.M3U8?token=1")
    ensures IsHlsUrl("x.m3u8#t=3")
  {
    assert CueAt("https://a.b/live.m3u8", 17);
    assert CueAt("https://a.b/live.M3U8?token=1", 17);
    assert CueAt("x.m3u8#t=3", 2);
  }
}
