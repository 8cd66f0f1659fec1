/**
 * The text overlay of the local generator: when the overlay text is not empty, a
 * plate and the caption are composited over the clips at the lower third of the
 * canvas, in a font chosen from what is installed. The plate is a text clip of ten
 * spaces in the brand colour with no background colour, so as written it draws no fill.
 */
module Overlay {
  import opened Wrappers
  import opened Numeric
  import opened Geometry

  /** The preferred caption font and the bold sans-serif used when it is not installed. */
  const PreferredFont: string := "Amiri-Bold"
  const FallbackFont: string := "Arial-Bold"
  const CaptionColor: string := "white"
  /** The plate is the font size plus this many pixels tall, and this opaque. */
  const PlateMargin: int := 20
  const PlateOpacity: real := 0.25
  /** Widths of the plate and of the caption's text box: 94 % and 90 % of the canvas, truncated. */
  const PlateWidth: int := PyInt(TargetW as real * 0.94)
  const CaptionWidth: int := PyInt(TargetW as real * 0.9)
  /** Distances from the top of the canvas to the plate and to the caption. */
  const PlateTop: real := TargetH as real * 0.72
  const CaptionTop: real := TargetH as real * 0.75

  /** One layer of the composed teaser, bottom first. */
  datatype Layer =
    | Base(fps: int, duration: real)  // the concatenated clips
    | Plate(textColor: string, background: Option<string>, width: int, height: int,
            opacity: real, top: real, duration: real)
    | Caption(text: string, fontSize: int, font: string, color: string, boxWidth: int, top: real, duration: real)

  /** The font probe: the preferred font exactly when it is installed, the fallback otherwise;
      a missing preferred font never stops the generation. */
  function ChooseFont(installed: set<string>): (font: string)
    ensures font == PreferredFont <==> PreferredFont in installed
    ensures font == PreferredFont || font == FallbackFont
  {
    if PreferredFont in installed then PreferredFont else FallbackFont
  }

  /** app.py:162-182: the layers of the teaser. With empty text only the clips, with their
      frame rate and the requested duration set; otherwise the clips, then the plate, then
      the caption on top. Plate and caption last as long as the concatenated clips,
      `concatLength`, read before the duration is set. */
  function Compose(text: string, fontSize: int, brandColor: string, installed: set<string>,
                   fps: int, duration: int, concatLength: real): (layers: seq<Layer>)
    ensures |layers| >= 1 && layers[0] == Base(fps, duration as real)
    ensures text == "" <==> |layers| == 1
    ensures text != "" ==>
      && |layers| == 3 && layers[1].Plate? && layers[2].Caption?
      && layers[2].text == text && layers[2].fontSize == fontSize
      && layers[1].textColor == brandColor && layers[1].background == None
    ensures text != "" ==>
      && layers[1].width == 1015 && layers[1].height == fontSize + 20
      && layers[1].opacity == 0.25 && layers[1].top == 1382.4
      && layers[2].boxWidth == 972 && layers[2].top == 1440.0
      && layers[2].color == "white" && layers[2].font == ChooseFont(installed)
    ensures forall i :: 1 <= i < |layers| ==> layers[i].duration == concatLength
  {
    var base := Base(fps, duration as real);
    assert TargetW as real * 0.94 == 1015.2 && TargetW as real * 0.9 == 972.0;
    if text == "" then
      [base]
    else
      [base,
       Plate(brandColor, None, PlateWidth, fontSize + PlateMargin, PlateOpacity, PlateTop, concatLength),
       Caption(text, fontSize, ChooseFont(installed), CaptionColor, CaptionWidth, CaptionTop, concatLength)]
  }

  /** Where the overlay sits, for every font size the slider offers: the plate is wider
      than the caption box, both are narrower than the canvas, and the plate (starting
      57.6 px above the caption) ends inside the canvas. */
  lemma OverlayGeometry(fontSize: int)
    requires 36 <= fontSize <= 160
    ensures CaptionWidth < PlateWidth < TargetW
    ensures PlateTop + (fontSize + PlateMargin) as real <= TargetH as real
  {
    assert TargetW as real * 0.94 == 1015.2;
    assert TargetW as real * 0.9 == 972.0;
  }

  /** The plate reaches down past the top of the caption box exactly when the font size is at
      least 38: at the smallest size the slider offers, 36, the plate ends 1.6 px above
      the caption. */
  lemma PlateReachesCaptionIff(fontSize: int)
    ensures PlateTop + (fontSize + PlateMargin) as real > CaptionTop <==> fontSize >= 38
  {
  }
}
