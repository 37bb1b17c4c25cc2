/** The volume bridge (`volume-fix.js`): every 500 ms the player-bar volume
    slider is read and copied onto the `<video>` element's `volume` and
    `muted` properties. The DOM lookups are parameters; the timer is the
    caller's loop. */
module VolumeFix {
  import opened Wrappers
  import opened Text
  import opened JsNumber

  /** `Math.min(1, Math.max(0, value))`. */
  function Clamp01(value: real): (r: real)
    ensures 0.0 <= r <= 1.0
    ensures 0.0 <= value <= 1.0 ==> r == value
    ensures value < 0.0 ==> r == 0.0
    ensures value > 1.0 ==> r == 1.0
  {
    if value > 1.0 then 1.0 else if value < 0.0 then 0.0 else value
  }

  /** What the bridge reads from the slider element: the `aria-valuenow` and
      `value` attributes (null when absent), the `value` property
      (`undefined` on a non-input element, `None` here) and the
      `aria-valuetext` attribute. */
  datatype Slider = Slider(
    ariaValueNow: Option<string>,
    valueAttribute: Option<string>,
    valueProperty: Option<string>,
    ariaValueText: Option<string>)

  /** `Number(raw)` of the first present of the three sources; `Number(undefined)`
      is NaN. */
  function RawNumber(slider: Slider): JsNum {
    if slider.ariaValueNow.Some? then StringToNumber(slider.ariaValueNow.value)
    else if slider.valueAttribute.Some? then StringToNumber(slider.valueAttribute.value)
    else if slider.valueProperty.Some? then StringToNumber(slider.valueProperty.value)
    else NaN
  }

  /** `readSliderVolume`: null for a missing slider or a non-finite reading,
      otherwise the reading divided by 100 and clamped to [0, 1]. */
  function ReadSliderVolume(slider: Option<Slider>): (r: Option<real>)
    ensures r.Some? <==> slider.Some? && RawNumber(slider.value).Finite?
    ensures r.Some? ==> 0.0 <= r.value <= 1.0
    ensures r.Some? ==> r.value == Clamp01(RawNumber(slider.value).value / 100.0)
  {
    match slider
    case None => None
    case Some(s) =>
      match RawNumber(s)
      case Finite(x) => Some(Clamp01(x / 100.0))
      case _ => None
  }

  /** A slider at `n` percent (0 to 100) in `aria-valuenow` reads as `n / 100`,
      whatever the other sources say. */
  lemma ReadSliderPercent(n: nat, s: Slider)
    requires n <= 100 && s.ariaValueNow == Some(Decimal(n))
    ensures ReadSliderVolume(Some(s)) == Some(n as real / 100.0)
  {
    StringToNumberDecimal(n);
    assert RawNumber(s) == Finite(n as real);
    var v := n as real / 100.0;
    assert 0.0 <= v <= 1.0 by {
      assert n as real <= 100.0;
    }
    assert Clamp01(v) == v;
    assert ReadSliderVolume(Some(s)) == Some(Clamp01(v));
  }

  /** The `value` attribute is consulted only when `aria-valuenow` is absent,
      and the `value` property only when both attributes are. */
  lemma RawNumberPrecedence(s: Slider)
    ensures s.ariaValueNow.Some? ==> RawNumber(s) == StringToNumber(s.ariaValueNow.value)
    ensures s.ariaValueNow.None? && s.valueAttribute.Some? ==> RawNumber(s) == StringToNumber(s.valueAttribute.value)
    ensures s.ariaValueNow.None? && s.valueAttribute.None? && s.valueProperty.None? ==> ReadSliderVolume(Some(s)) == None
  {
  }

  function Abs(x: real): real {
    if x < 0.0 then -x else x
  }

  /** The element's volume already matches the slider to within 0.01, or the
      slider gave no reading. */
  predicate VolumeInSync(volume: real, sliderVolume: Option<real>) {
    sliderVolume.None? || Abs(volume - sliderVolume.value) <= 0.01
  }

  /** The muted flag the slider asks for: volume exactly 0, or the
      lower-cased `aria-valuetext` mentions "muted". */
  function ShouldMute(sliderVolume: Option<real>, slider: Slider): (m: bool)
    ensures sliderVolume == Some(0.0) ==> m
    ensures Contains(ToLower(slider.ariaValueText.GetOr("")), "muted") ==> m
    ensures m ==> sliderVolume == Some(0.0) || Contains(ToLower(slider.ariaValueText.GetOr("")), "muted")
  {
    sliderVolume == Some(0.0) || Contains(ToLower(slider.ariaValueText.GetOr("")), "muted")
  }

  /** The two properties of a `<video>` element the bridge writes. */
  class Video {
    var volume: real
    var muted: bool

    constructor (volume: real, muted: bool)
      ensures this.volume == volume && this.muted == muted
    {
      this.volume := volume;
      this.muted := muted;
    }
  }

  /** One tick of `syncVolume`. Nothing happens without both a video and a
      slider. Otherwise the volume is written only when it is more than 0.01
      away from the slider's reading, and `muted` only when it differs from
      what the slider asks for; afterwards both are in sync. */
  method SyncVolume(video: Video?, slider: Option<Slider>) returns (volumeWritten: bool, mutedWritten: bool)
    modifies video
    ensures video == null || slider.None? ==> !volumeWritten && !mutedWritten
    ensures video != null && slider.None? ==> video.volume == old(video.volume) && video.muted == old(video.muted)
    ensures video != null && slider.Some? ==>
      var sliderVolume := ReadSliderVolume(slider);
      && (volumeWritten <==> !VolumeInSync(old(video.volume), sliderVolume))
      && (mutedWritten <==> old(video.muted) != ShouldMute(sliderVolume, slider.value))
      && video.volume == (if volumeWritten then sliderVolume.value else old(video.volume))
      && VolumeInSync(video.volume, sliderVolume)
      && video.muted == ShouldMute(sliderVolume, slider.value)
  {
    volumeWritten, mutedWritten := false, false;
    if video != null && slider.Some? {
      var sliderVolume := ReadSliderVolume(slider);
      if sliderVolume.Some? && Abs(video.volume - sliderVolume.value) > 0.01 {
        video.volume := sliderVolume.value;
        volumeWritten := true;
      }
      var shouldMute := ShouldMute(sliderVolume, slider.value);
      if video.muted != shouldMute {
        video.muted := shouldMute;
        mutedWritten := true;
      }
    }
  }
}
