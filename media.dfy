/**
 * The clamping rules of `seek` and `volume`, the played-bar ratio and the
 * three-tier volume icon, over JavaScript numbers modelled as reals.
 */
module Media {
  import opened Wrappers

  type Seconds = r: real | 0.0 <= r

  /** `audio.duration`: NaN before metadata, a finite number of seconds, or Infinity for a live stream. */
  datatype Duration = Unknown | Finite(seconds: Seconds) | Unbounded

  /** `if (audio.duration)`: the duration is truthy (neither NaN nor 0). */
  predicate Truthy(d: Duration) {
    d.Unbounded? || (d.Finite? && d.seconds != 0.0)
  }

  function Max(a: real, b: real): real { if a >= b then a else b }
  function Min(a: real, b: real): real { if a <= b then a else b }

  /** The position `seek(time)` stores: at least 0, and at most the duration when that is truthy. */
  function SeekTarget(time: real, d: Duration): (r: real)
    ensures r >= 0.0
    ensures d.Finite? && d.seconds > 0.0 ==> r <= d.seconds
    ensures time < 0.0 ==> r == 0.0
    ensures 0.0 <= time && (d.Finite? && d.seconds > 0.0 ==> time <= d.seconds) ==> r == time
    ensures d.Finite? && d.seconds > 0.0 && time > d.seconds ==> r == d.seconds
  {
    var t := Max(time, 0.0);
    if Truthy(d) && d.Finite? then Min(t, d.seconds) else t
  }

  /** `time / audio.duration` for a duration that is not NaN; None stands for a result that is not a finite number. */
  function Divide(time: real, d: Duration): (r: Option<real>)
    requires !d.Unknown?
  {
    match d
    case Finite(s) => if s == 0.0 then None else Some(time / s)
    case Unbounded => Some(0.0)
  }

  /** The ratio `seek` hands to the played bar: 0 when the duration is NaN, else position over duration. */
  function PlayedRatio(time: real, d: Duration): (r: Option<real>)
    ensures d.Unknown? ==> r == Some(0.0)
    ensures 0.0 <= time && d.Finite? && 0.0 < d.seconds && time <= d.seconds ==> r.Some? && 0.0 <= r.value <= 1.0
  {
    if d.Unknown? then Some(0.0) else Divide(time, d)
  }

  /** After any seek with a known positive duration the played bar lies in [0, 1]; with NaN it is 0 whatever the target. */
  lemma SeekBarInRange(time: real, d: Duration)
    ensures d.Unknown? ==> PlayedRatio(SeekTarget(time, d), d) == Some(0.0)
    ensures d.Finite? && d.seconds > 0.0 ==>
      var r := PlayedRatio(SeekTarget(time, d), d); r.Some? && 0.0 <= r.value <= 1.0
  {
  }

  /** Seeking to where a seek landed stays there. */
  lemma SeekIdempotent(time: real, d: Duration)
    ensures SeekTarget(SeekTarget(time, d), d) == SeekTarget(time, d)
  {
  }

  /** `Math.min(Math.max(x, 0), 1)`: the volume `volume(x)` applies. */
  function Clamp01(x: real): (v: real)
    ensures 0.0 <= v <= 1.0
    ensures 0.0 <= x <= 1.0 ==> v == x
    ensures x < 0.0 ==> v == 0.0
    ensures x > 1.0 ==> v == 1.0
  {
    Min(Max(x, 0.0), 1.0)
  }

  /** `volume(-1)` acts as `volume(0)` and `volume(5)` as `volume(1)`. */
  lemma ClampExamples()
    ensures Clamp01(-1.0) == Clamp01(0.0) == 0.0
    ensures Clamp01(5.0) == Clamp01(1.0) == 1.0
  {
  }

  /** What `volume()` returns: 0 while muted, else the element's volume. */
  function EffectiveVolume(muted: bool, volume: real): (r: real)
    ensures muted ==> r == 0.0
    ensures !muted ==> r == volume
    ensures 0.0 <= volume <= 1.0 ==> 0.0 <= r <= 1.0
  {
    if muted then 0.0 else volume
  }

  datatype VolumeIcon = VolumeUp | VolumeDown | VolumeOff

  /** `switchVolumeIcon`'s tiers: up from 0.95, down above 0, off otherwise. */
  function IconFor(v: real): (i: VolumeIcon)
    ensures i == VolumeUp <==> v >= 0.95
    ensures i == VolumeDown <==> 0.0 < v < 0.95
    ensures i == VolumeOff <==> v <= 0.0
  {
    if v >= 0.95 then VolumeUp
    else if v > 0.0 then VolumeDown
    else VolumeOff
  }
}
