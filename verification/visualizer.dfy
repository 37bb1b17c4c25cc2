/** The audio visualizer injected into the YouTube Music page: it taps the
    page's media element through an analyser once, keeps a render loop that
    draws one of eleven styles from the analyser's byte samples, and holds the
    user's drawing settings. Canvas drawing calls and Web Audio nodes are
    opaque; what is kept is the state flags, the dispatch, the colour helper
    and the index and geometry arithmetic of the renderers. */
module Visualizer {
  import opened Wrappers
  import opened Text
  import opened JsNumber

  /** `analyser.fftSize` and the resulting `frequencyBinCount`. */
  const FftSize: nat := 256
  const FrequencyBinCount: nat := 128
  /** Gain used when the page's volume slider cannot be read. */
  const FallbackGain: real := 0.7
  /** A fresh gain node's gain, before the script sets it. */
  const GainNodeDefault: real := 1.0

  /** A media element of the page, by identity. */
  type MediaElement = nat

  /** The canvas element the sidebar hands over, with its pixel size. */
  datatype Canvas = Canvas(width: nat, height: nat)

  /** The eleven drawing routines the render loop dispatches to. */
  datatype Renderer =
    | Bars | Waveform | Circular | RadialBars | Spectrum | Particles
    | Symmetrical | Spiral | Blob | LineSpectrum | DualWaveform

  /** The `visualizerStyle` value that selects each renderer. */
  function StyleName(r: Renderer): string {
    match r
    case Bars => "bars"
    case Waveform => "wave"
    case Circular => "circular"
    case RadialBars => "radial"
    case Spectrum => "spectrum"
    case Particles => "particles"
    case Symmetrical => "symmetrical"
    case Spiral => "spiral"
    case Blob => "blob"
    case LineSpectrum => "line"
    case DualWaveform => "dual"
  }

  /** The renderer `render` calls for a style; a style outside the list
      selects none, so the frame draws nothing. */
  function RendererFor(style: string): (r: Option<Renderer>)
    ensures r.Some? ==> StyleName(r.value) == style
    ensures r.None? ==> forall k: Renderer :: StyleName(k) != style
  {
    if style == "bars" then Some(Bars)
    else if style == "wave" then Some(Waveform)
    else if style == "circular" then Some(Circular)
    else if style == "radial" then Some(RadialBars)
    else if style == "spectrum" then Some(Spectrum)
    else if style == "particles" then Some(Particles)
    else if style == "symmetrical" then Some(Symmetrical)
    else if style == "spiral" then Some(Spiral)
    else if style == "blob" then Some(Blob)
    else if style == "line" then Some(LineSpectrum)
    else if style == "dual" then Some(DualWaveform)
    else None
  }

  /** Every renderer is reachable, by its own style name and no other. */
  lemma RendererForStyleName(k: Renderer, style: string)
    ensures RendererFor(StyleName(k)) == Some(k)
    ensures RendererFor(style) == Some(k) <==> style == StyleName(k)
  {
  }

  /** What one call of `render` did. */
  datatype FrameOutcome =
    | Skipped                          // the loop is not active
    | Threw                            // a missing analyser or canvas raised an error
    | Drew(renderer: Option<Renderer>) // the chosen renderer ran (None: unknown style)

  /** Fields of an `updateSettings` argument; `None` is an absent field. */
  datatype SettingsPatch = SettingsPatch(
    style: Option<string>,
    color: Option<string>,
    backgroundColor: Option<string>,
    sensitivity: Option<real>)

  /** A string field is applied only when present and truthy (non-empty). */
  predicate Truthy(v: Option<string>) {
    v.Some? && v.value != ""
  }

  /** The gain the script writes when it creates the audio graph: the
      slider's value read with `parseInt` and divided by 100, or 0.7 when
      there is no slider (`None`) or its value is falsy (empty). `None` as a
      result stands for NaN, which the gain parameter refuses with an
      error. */
  function InitialGain(sliderValue: Option<string>): (r: Option<real>) {
    match sliderValue
    case None => Some(FallbackGain)
    case Some(text) =>
      if text == [] then Some(FallbackGain)
      else match ParseInt(text, 0)
        case None => None
        case Some(v) => Some(v as real / 100.0)
  }

  /** A slider showing the decimal numeral of `n` gives the gain `n / 100`. */
  lemma InitialGainOfNumeral(n: int)
    ensures InitialGain(Some(IntToString(n))) == Some(n as real / 100.0)
  {
    ParseIntDecimal(n);
  }

  /** No slider, or one with an empty value, gives the fallback gain; a
      non-empty value without leading digits gives NaN. */
  lemma InitialGainFallback(text: string)
    ensures InitialGain(None) == Some(FallbackGain) && InitialGain(Some([])) == Some(FallbackGain)
    ensures text != [] && ParseInt(text, 0).None? ==> InitialGain(Some(text)) == None
  {
  }

  /** What the `ended` listener does when a track finishes: it clicks the
      next button when there is one, and 500 ms later calls `play()` once if
      the media element is then present and paused. Returns how many times
      `play()` is called. */
  function EndedPlayCalls(nextButtonPresent: bool, pausedAfterDelay: Option<bool>): (calls: nat)
    ensures calls <= 1
    ensures calls == 1 <==> nextButtonPresent && pausedAfterDelay == Some(true)
  {
    if nextButtonPresent && pausedAfterDelay == Some(true) then 1 else 0
  }

  class VisualizerEngine {
    /** `audioContext`, `analyser`, `dataArray` and `gainNode` exist. */
    var contextCreated: bool
    var bufferLength: nat
    var gain: real
    /** The media element wrapped by `createMediaElementSource`. */
    var sourceNode: Option<MediaElement>
    var isAudioConnected: bool
    /** Media elements that received the `ended` listener, in order. */
    var endedListeners: seq<MediaElement>
    var canvas: Option<Canvas>
    /** `canvasCtx` is a 2D drawing context. */
    var hasDrawingContext: bool
    var animationId: Option<nat>
    /** The handle the next `requestAnimationFrame` returns (handles start at 1). */
    var nextFrameHandle: nat
    var isVisualizerActive: bool
    var style: string
    var barColor: string
    var backgroundColor: string
    var sensitivity: real

    ghost predicate Valid()
      reads this
    {
      && bufferLength == (if contextCreated then FrequencyBinCount else 0)
      && (isAudioConnected <==> sourceNode.Some?)
      && (sourceNode.Some? ==> contextCreated)
      && endedListeners == (if sourceNode.Some? then [sourceNode.value] else [])
      && nextFrameHandle >= 1
      && (animationId.Some? ==> isVisualizerActive && 1 <= animationId.value < nextFrameHandle)
    }

    /** The state when the script is injected. */
    constructor ()
      ensures Valid()
      ensures !contextCreated && sourceNode.None? && !isAudioConnected
      ensures canvas.None? && !hasDrawingContext && animationId.None? && !isVisualizerActive
      ensures style == "bars" && barColor == "#ff0000" && backgroundColor == "#0a0a0a" && sensitivity == 1.0
    {
      contextCreated := false;
      bufferLength := 0;
      gain := GainNodeDefault;
      sourceNode := None;
      isAudioConnected := false;
      endedListeners := [];
      canvas := None;
      hasDrawingContext := false;
      animationId := None;
      nextFrameHandle := 1;
      isVisualizerActive := false;
      style := "bars";
      barColor := "#ff0000";
      backgroundColor := "#0a0a0a";
      sensitivity := 1.0;
    }

    /** `initializeAudioContext`. `video` is the page's media element if
        any, `sliderValue` the volume slider's value when the slider exists; `contextFails` and `wrapFails` say whether
        creating the audio context or wrapping the element raises an error.
        The element is wrapped at most once, and the gain is written only
        when the context is first created. */
    method InitializeAudioContext(video: Option<MediaElement>, sliderValue: Option<string>,
                                  contextFails: bool, wrapFails: bool) returns (ok: bool)
      requires Valid()
      modifies this`contextCreated, this`bufferLength, this`gain, this`sourceNode,
               this`isAudioConnected, this`endedListeners
      ensures Valid()
      // already connected: nothing happens
      ensures old(isAudioConnected) ==> ok && contextCreated && sourceNode == old(sourceNode) && gain == old(gain)
      // no media element: nothing is created
      ensures !old(isAudioConnected) && video.None? ==>
        !ok && contextCreated == old(contextCreated) && sourceNode.None? && gain == old(gain)
      // a wrapped element stays wrapped, and only an unwrapped one is wrapped
      ensures old(sourceNode).Some? ==> sourceNode == old(sourceNode)
      ensures sourceNode.Some? && old(sourceNode).None? ==> sourceNode == video
      // the gain is set from the slider only while creating the context
      ensures old(contextCreated) ==> contextCreated && gain == old(gain)
      ensures !old(contextCreated) && !old(isAudioConnected) && video.Some? ==>
        contextCreated == !contextFails &&
        (contextCreated ==> gain == InitialGain(sliderValue).GetOr(GainNodeDefault))
      // success means the element is now connected
      ensures ok <==> isAudioConnected
      ensures !old(isAudioConnected) && video.Some? ==>
        (ok <==> (old(contextCreated) || (!contextFails && InitialGain(sliderValue).Some?)) && !wrapFails)
    {
      ok := isAudioConnected;
      if !isAudioConnected && video.Some? {
        var ready := contextCreated;
        if !contextCreated {
          ready := CreateAudioGraph(sliderValue, contextFails);
        }
        if ready && sourceNode.None? && !wrapFails {
          sourceNode := video;
          isAudioConnected := true;
          endedListeners := endedListeners + [video.value];
        }
        ok := ready && !wrapFails;
      }
    }

    /** The first-time part of `initializeAudioContext`: create the audio
        context (`contextFails`: its constructor raises an error), the
        analyser with 128 frequency bins and the gain node, then write the
        initial gain; a NaN gain raises an error after the nodes exist. */
    method CreateAudioGraph(sliderValue: Option<string>, contextFails: bool) returns (ok: bool)
      requires Valid() && !contextCreated
      modifies this`contextCreated, this`bufferLength, this`gain
      ensures Valid()
      ensures contextCreated == !contextFails
      ensures contextCreated ==> gain == InitialGain(sliderValue).GetOr(GainNodeDefault)
      ensures !contextCreated ==> gain == old(gain)
      ensures ok == (!contextFails && InitialGain(sliderValue).Some?)
    {
      ok := false;
      if !contextFails {
        contextCreated := true;
        bufferLength := FrequencyBinCount;
        gain := GainNodeDefault;
        var target := InitialGain(sliderValue);
        // a NaN gain is refused and the default stays
        gain := target.GetOr(gain);
        ok := target.Some?;
      }
    }

    /** `setCanvas`: a present element replaces the canvas and its drawing
        context (`context2d` says whether `getContext('2d')` yields one); an
        absent one clears the canvas but keeps the old context. */
    method SetCanvas(element: Option<Canvas>, context2d: bool)
      requires Valid()
      modifies this`canvas, this`hasDrawingContext
      ensures Valid()
      ensures canvas == element
      ensures hasDrawingContext == if element.Some? then context2d else old(hasDrawingContext)
    {
      canvas := element;
      if element.Some? {
        hasDrawingContext := context2d;
      }
    }

    /** `resizeCanvas`: the canvas takes the size of its container's
        bounding box (truncated to whole pixels); without a canvas or a
        container nothing changes. */
    method ResizeCanvas(container: Option<(real, real)>)
      requires Valid()
      requires container.Some? ==> container.value.0 >= 0.0 && container.value.1 >= 0.0
      modifies this`canvas
      ensures Valid()
      ensures old(canvas).None? || container.None? ==> canvas == old(canvas)
      ensures old(canvas).Some? && container.Some? ==>
        canvas == Some(Canvas(container.value.0.Floor, container.value.1.Floor))
    {
      if canvas.None? || container.None? {
        return;
      }
      canvas := Some(Canvas(container.value.0.Floor, container.value.1.Floor));
    }

    /** One call of `render`: when active it schedules the next frame, reads
        the analyser (an error when there is none), and runs the renderer of
        the current style, which fails without a canvas and drawing context. */
    method Render() returns (frame: FrameOutcome)
      requires Valid()
      modifies this`animationId, this`nextFrameHandle
      ensures Valid()
      ensures !isVisualizerActive ==> frame == Skipped && animationId == old(animationId) && nextFrameHandle == old(nextFrameHandle)
      ensures isVisualizerActive ==> animationId == Some(old(nextFrameHandle)) && nextFrameHandle == old(nextFrameHandle) + 1
      ensures isVisualizerActive && !contextCreated ==> frame == Threw
      ensures isVisualizerActive && contextCreated ==>
        frame == (if RendererFor(style).Some? && (canvas.None? || !hasDrawingContext) then Threw
                  else Drew(RendererFor(style)))
    {
      if !isVisualizerActive {
        return Skipped;
      }
      animationId := Some(nextFrameHandle);
      nextFrameHandle := nextFrameHandle + 1;
      if !contextCreated {
        return Threw;
      }
      var renderer := RendererFor(style);
      if renderer.Some? && (canvas.None? || !hasDrawingContext) {
        return Threw;
      }
      return Drew(renderer);
    }

    /** `start`: nothing happens when already active or without a canvas
        and drawing context; otherwise the audio tap is set up if needed, the
        loop becomes active and the first frame is rendered. */
    method Start(video: Option<MediaElement>, sliderValue: Option<string>,
                 contextFails: bool, wrapFails: bool) returns (frame: FrameOutcome)
      requires Valid()
      modifies this`contextCreated, this`bufferLength, this`gain, this`sourceNode,
               this`isAudioConnected, this`endedListeners, this`isVisualizerActive,
               this`animationId, this`nextFrameHandle
      ensures Valid()
      ensures old(isVisualizerActive) || canvas.None? || !hasDrawingContext ==>
        frame == Skipped && isVisualizerActive == old(isVisualizerActive) &&
        animationId == old(animationId) && contextCreated == old(contextCreated) &&
        sourceNode == old(sourceNode) && gain == old(gain)
      ensures !old(isVisualizerActive) && canvas.Some? && hasDrawingContext ==>
        && isVisualizerActive
        && animationId == Some(old(nextFrameHandle))
        && frame == (if contextCreated then Drew(RendererFor(style)) else Threw)
      ensures old(isAudioConnected) ==> sourceNode == old(sourceNode) && gain == old(gain)
      // the audio set-up when starting unconnected, as `initializeAudioContext` does it
      ensures old(sourceNode).Some? ==> sourceNode == old(sourceNode)
      ensures sourceNode.Some? && old(sourceNode).None? ==> sourceNode == video
      ensures old(contextCreated) ==> contextCreated && gain == old(gain)
      ensures !old(isVisualizerActive) && canvas.Some? && hasDrawingContext && !old(isAudioConnected) ==>
        && (video.None? ==> contextCreated == old(contextCreated) && sourceNode.None? && gain == old(gain) && !isAudioConnected)
        && (video.Some? && !old(contextCreated) ==>
              contextCreated == !contextFails && (contextCreated ==> gain == InitialGain(sliderValue).GetOr(GainNodeDefault)))
        && (video.Some? ==>
              (isAudioConnected <==> (old(contextCreated) || (!contextFails && InitialGain(sliderValue).Some?)) && !wrapFails))
    {
      frame := Skipped;
      if !isVisualizerActive && canvas.Some? && hasDrawingContext {
        if !isAudioConnected {
          var _ := InitializeAudioContext(video, sliderValue, contextFails, wrapFails);
        }
        isVisualizerActive := true;
        frame := Render();
      }
    }

    /** `stop`: when active, the loop is deactivated, the pending frame is
        cancelled and the canvas is painted with the background colour
        (returned) if there is one; the audio tap is kept. */
    method Stop() returns (clearedWith: Option<string>)
      requires Valid()
      modifies this`isVisualizerActive, this`animationId
      ensures Valid()
      ensures !old(isVisualizerActive) ==> clearedWith.None? && animationId == old(animationId) && !isVisualizerActive
      ensures old(isVisualizerActive) ==> !isVisualizerActive && animationId.None?
      ensures clearedWith.Some? <==> old(isVisualizerActive) && canvas.Some? && hasDrawingContext
      ensures clearedWith.Some? ==> clearedWith.value == backgroundColor
    {
      if !isVisualizerActive {
        return None;
      }
      isVisualizerActive := false;
      if animationId.Some? {
        animationId := None;
      }
      clearedWith := if canvas.Some? && hasDrawingContext then Some(backgroundColor) else None;
    }

    /** `updateSettings`: each supplied field overwrites its setting without
        any range check; the string fields only when truthy. */
    method UpdateSettings(patch: SettingsPatch)
      requires Valid()
      modifies this`style, this`barColor, this`backgroundColor, this`sensitivity
      ensures Valid()
      ensures style == if Truthy(patch.style) then patch.style.value else old(style)
      ensures barColor == if Truthy(patch.color) then patch.color.value else old(barColor)
      ensures backgroundColor == if Truthy(patch.backgroundColor) then patch.backgroundColor.value else old(backgroundColor)
      ensures sensitivity == if patch.sensitivity.Some? then patch.sensitivity.value else old(sensitivity)
    {
      style := if Truthy(patch.style) then patch.style.value else style;
      barColor := if Truthy(patch.color) then patch.color.value else barColor;
      backgroundColor := if Truthy(patch.backgroundColor) then patch.backgroundColor.value else backgroundColor;
      sensitivity := patch.sensitivity.GetOr(sensitivity);
    }
  }

  // ---- Colour helper ----

  /** `Math.max(0, Math.min(255, v))`. */
  function Clamp255(v: int): (r: nat)
    ensures r <= 255
    ensures 0 <= v <= 255 ==> r == v
    ensures v < 0 ==> r == 0
    ensures v > 255 ==> r == 255
  {
    if v < 0 then 0 else if v > 255 then 255 else v
  }

  predicate IsLowerHexDigit(c: char) {
    ('0' <= c <= '9') || ('a' <= c <= 'f')
  }

  /** Two hexadecimal digits (either case). */
  predicate IsHexPair(pair: string) {
    |pair| == 2 && IsDigitIn(pair[0], 16) && IsDigitIn(pair[1], 16)
  }

  predicate IsLowerHexPair(pair: string) {
    |pair| == 2 && IsLowerHexDigit(pair[0]) && IsLowerHexDigit(pair[1])
  }

  /** The number two hexadecimal digits denote. */
  function PairValue(pair: string): (v: nat)
    requires IsHexPair(pair)
    ensures v <= 255
  {
    DigitValue(pair[0]).value * 16 + DigitValue(pair[1]).value
  }

  /** `parseInt(pair, 16)` of two hexadecimal digits is their value. */
  lemma ParseHexPair(pair: string)
    requires IsHexPair(pair)
    ensures ParseInt(pair, 16) == Some(PairValue(pair))
  {
    assert AllDigits(pair, 16);
    ParseIntOfDigits(pair, 16);
    assert pair[..1] == [pair[0]] && pair[..1][..0] == [];
    assert FromDigits(pair[..1], 16) == DigitValue(pair[0]).value;
  }

  /** Two lower-case hex digits for a channel value: the digit of the high
      half, then the digit of the low half. `Hex2IsPaddedRadix` shows this
      is `v.toString(16).padStart(2, '0')`. */
  function Hex2(v: nat): (r: string)
    requires v <= 255
    ensures |r| == 2
  {
    [DigitChar(v / 16), DigitChar(v % 16)]
  }

  /** `Hex2` agrees with the script's `toString(16).padStart(2, '0')`. */
  lemma Hex2IsPaddedRadix(v: nat)
    requires v <= 255
    ensures Hex2(v) == PadStart(ToRadix(v, 16), 2, '0')
  {
    if v < 16 {
      assert ToRadix(v, 16) == [DigitChar(v)];
      assert DigitChar(0) == '0';
    } else {
      assert ToRadix(v, 16) == ToRadix(v / 16, 16) + [DigitChar(v % 16)];
      assert ToRadix(v / 16, 16) == [DigitChar(v / 16)];
    }
  }

  lemma LowerDigitChar(d: nat)
    requires d < 16
    ensures IsLowerHexDigit(DigitChar(d)) && IsDigitIn(DigitChar(d), 16)
  {
  }

  /** `Hex2` writes two lower-case hex digits that denote `v`. */
  lemma Hex2Value(v: nat)
    requires v <= 255
    ensures IsLowerHexPair(Hex2(v)) && IsHexPair(Hex2(v)) && PairValue(Hex2(v)) == v
  {
    LowerDigitChar(v / 16);
    LowerDigitChar(v % 16);
  }

  /** JavaScript's `substr(start, length)` for non-negative arguments. */
  function Substr(s: string, start: nat, length: nat): (r: string)
    ensures |r| <= length
  {
    var a := if start < |s| then start else |s|;
    var b := if start + length < |s| then start + length else |s|;
    s[a..b]
  }

  /** One channel of `adjustColorBrightness`: the pair read with
      `parseInt(_, 16)`, shifted by `amount`, clamped and written as two
      lower-case hex digits; an unreadable pair gives NaN, printed "NaN". */
  function ChannelText(pair: string, amount: int): (r: string)
    ensures r == "NaN" || IsLowerHexPair(r)
  {
    match ParseInt(pair, 16)
    case None => "NaN"
    case Some(v) =>
      Hex2Value(Clamp255(v + amount));
      Hex2(Clamp255(v + amount))
  }

  /** `adjustColorBrightness(color, amount)`: the first '#' is removed and
      the pairs at offsets 0, 2 and 4 are adjusted channel by channel. */
  function AdjustColorBrightness(color: string, amount: int): (r: string)
    ensures |r| >= 7 && r[0] == '#'
  {
    var hex := ReplaceFirst(color, '#', "");
    JoinChannels(ChannelText(Substr(hex, 0, 2), amount),
                 ChannelText(Substr(hex, 2, 2), amount),
                 ChannelText(Substr(hex, 4, 2), amount))
  }

  function JoinChannels(red: string, green: string, blue: string): string {
    "#" + red + green + blue
  }

  /** A colour written as '#' and three hexadecimal pairs. */
  predicate IsHexColor(color: string) {
    |color| == 7 && color[0] == '#' && IsHexPair(color[1..3]) && IsHexPair(color[3..5]) && IsHexPair(color[5..7])
  }

  predicate IsLowerHexColor(color: string) {
    |color| == 7 && color[0] == '#' &&
    IsLowerHexPair(color[1..3]) && IsLowerHexPair(color[3..5]) && IsLowerHexPair(color[5..7])
  }

  /** On a `#rrggbb` colour the three pairs are the three channels. */
  lemma AdjustHexColor(color: string, amount: int)
    requires |color| == 7 && color[0] == '#'
    ensures AdjustColorBrightness(color, amount) ==
      JoinChannels(ChannelText(color[1..3], amount), ChannelText(color[3..5], amount), ChannelText(color[5..7], amount))
  {
    var h := HexPairs(color);
  }

  lemma HexPairs(color: string) returns (h: string)
    requires |color| == 7 && color[0] == '#'
    ensures h == ReplaceFirst(color, '#', "")
    ensures Substr(h, 0, 2) == color[1..3] && Substr(h, 2, 2) == color[3..5] && Substr(h, 4, 2) == color[5..7]
  {
    assert IndexOfChar(color, '#') == 0;
    h := color[1..];
    assert |h| == 6;
    assert Substr(h, 0, 2) == h[0..2] == color[1..3];
    assert Substr(h, 2, 2) == h[2..4] == color[3..5];
    assert Substr(h, 4, 2) == h[4..6] == color[5..7];
  }

  /** The channel text of a hexadecimal pair is two lower-case hex digits
      whose value is the pair's value shifted by `amount` and clamped. */
  lemma PairChannel(pair: string, amount: int)
    requires IsHexPair(pair)
    ensures var c := ChannelText(pair, amount);
      IsLowerHexPair(c) && IsHexPair(c) && PairValue(c) == Clamp255(PairValue(pair) + amount)
  {
    ParseHexPair(pair);
    Hex2Value(Clamp255(PairValue(pair) + amount));
  }

  /** Where the three channel texts sit in the result string. */
  lemma ColourParts(c1: string, c2: string, c3: string)
    requires |c1| == 2 && |c2| == 2 && |c3| == 2
    ensures var r := JoinChannels(c1, c2, c3);
      |r| == 7 && r[0] == '#' && r[1..3] == c1 && r[3..5] == c2 && r[5..7] == c3
  {
  }

  /** For a `#rrggbb` colour the result is a lower-case `#rrggbb` colour
      whose every channel is the input channel shifted by `amount` and
      clamped to [0, 255]. */
  lemma AdjustColorChannels(color: string, amount: int)
    requires IsHexColor(color)
    ensures var r := AdjustColorBrightness(color, amount);
      IsLowerHexColor(r) && IsHexColor(r) &&
      PairValue(r[1..3]) == Clamp255(PairValue(color[1..3]) + amount) &&
      PairValue(r[3..5]) == Clamp255(PairValue(color[3..5]) + amount) &&
      PairValue(r[5..7]) == Clamp255(PairValue(color[5..7]) + amount)
  {
    AdjustHexColor(color, amount);
    JoinedChannels(color[1..3], color[3..5], color[5..7], amount);
  }

  /** The three adjusted pairs, joined, form a lower-case colour. */
  lemma JoinedChannels(red: string, green: string, blue: string, amount: int)
    requires IsHexPair(red) && IsHexPair(green) && IsHexPair(blue)
    ensures var r := JoinChannels(ChannelText(red, amount), ChannelText(green, amount), ChannelText(blue, amount));
      IsLowerHexColor(r) && IsHexColor(r) &&
      PairValue(r[1..3]) == Clamp255(PairValue(red) + amount) &&
      PairValue(r[3..5]) == Clamp255(PairValue(green) + amount) &&
      PairValue(r[5..7]) == Clamp255(PairValue(blue) + amount)
  {
    PairChannel(red, amount);
    PairChannel(green, amount);
    PairChannel(blue, amount);
    ColourParts(ChannelText(red, amount), ChannelText(green, amount), ChannelText(blue, amount));
  }

  /** A lower-case hex digit is the digit character of its own value. */
  lemma DigitCharOfValue(c: char)
    requires IsLowerHexDigit(c)
    ensures IsDigitIn(c, 16) && DigitChar(DigitValue(c).value) == c
  {
  }

  /** Two lower-case hex digits are what `Hex2` writes for their value. */
  lemma Hex2OfPair(pair: string)
    requires IsLowerHexPair(pair)
    ensures IsHexPair(pair) && Hex2(PairValue(pair)) == pair
  {
    assert [pair[0], pair[1]] == pair;
    DigitCharOfValue(pair[0]);
    DigitCharOfValue(pair[1]);
    var hi, lo := DigitValue(pair[0]).value, DigitValue(pair[1]).value;
    SplitByte(hi, lo);
  }

  lemma SplitByte(hi: nat, lo: nat)
    requires hi < 16 && lo < 16
    ensures (hi * 16 + lo) / 16 == hi && (hi * 16 + lo) % 16 == lo
  {
  }

  /** With amount 0 a lower-case `#rrggbb` colour comes back unchanged. */
  lemma AdjustColorIdentity(color: string)
    requires IsLowerHexColor(color)
    ensures AdjustColorBrightness(color, 0) == color
  {
    AdjustHexColor(color, 0);
    LowerPairChannel(color[1..3]);
    LowerPairChannel(color[3..5]);
    LowerPairChannel(color[5..7]);
    SplitColour(color);
  }

  /** A lower-case pair with amount 0 is written back as it was. */
  lemma LowerPairChannel(pair: string)
    requires IsLowerHexPair(pair)
    ensures ChannelText(pair, 0) == pair
  {
    Hex2OfPair(pair);
    ParseHexPair(pair);
  }

  lemma SplitColour(s: string)
    requires |s| == 7 && s[0] == '#'
    ensures s == JoinChannels(s[1..3], s[3..5], s[5..7])
  {
  }
}
