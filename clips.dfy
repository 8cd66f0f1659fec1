/**
 * The per-image clips of the local generator: each picture is cover-scaled, resized
 * back to the canvas width, cut to the canvas by a centred crop, given the common clip
 * duration and placed on the timeline Crossfade seconds before its predecessor ends.
 */
module Clips {
  import opened Geometry
  import opened Timing
  import opened Sources

  /** One planned clip. */
  datatype ClipPlan = ClipPlan(
    source: SourceImage,  // the picture shown
    scaled: ImageSize,    // its size after the cover scale
    frame: Size,          // the size the crop is taken from
    crop: Window,         // the canvas-sized window cut out of the frame
    start: real,          // where the clip starts on the concatenated timeline
    duration: real)       // how long it lasts

  /** app.py:129-156 as written: the clip planned for the picture at position i when every
      clip lasts d seconds. The cover-scaled picture is resized back to the canvas width
      before the centred crop, so the crop lies inside the frame exactly when the resized
      frame is at least canvas-tall. */
  function ClipFor(img: SourceImage, i: nat, d: real): (c: ClipPlan)
    ensures c.source == img && c.duration == d && c.start == ClipStart(i, d)
    ensures c.scaled.w >= TargetW && c.scaled.h >= TargetH
    ensures c.frame.w == TargetW
    ensures c.crop.x2 - c.crop.x1 == TargetW && c.crop.y2 - c.crop.y1 == TargetH
    ensures Inside(c.crop, c.frame) <==> c.frame.h >= TargetH
  {
    var scaled := CoverSize(img.size);
    var frame := FitWidth(scaled);
    CenteredCropInsideIff(frame);
    ClipPlan(img, scaled, frame, CenteredCrop(frame), ClipStart(i, d), d)
  }

  /** The clip with the resize of app.py:142 left out: the crop is taken straight from the
      cover-scaled picture. */
  function CorrectedClipFor(img: SourceImage, i: nat, d: real): (c: ClipPlan)
    ensures c.source == img && c.duration == d && c.start == ClipStart(i, d)
    ensures c.frame == c.scaled
  {
    var scaled := CoverSize(img.size);
    ClipPlan(img, scaled, scaled, CenteredCrop(scaled), ClipStart(i, d), d)
  }

  /** Every corrected clip shows exactly a canvas-sized window that lies inside its scaled
      picture, and lasts at least the 1.5 s floor. */
  lemma ClipFrameIsCanvas(img: SourceImage, i: nat, duration: int, n: int)
    requires n >= 1
    ensures var c := CorrectedClipFor(img, i, ClipDuration(duration, n));
      c.crop.x2 - c.crop.x1 == TargetW && c.crop.y2 - c.crop.y1 == TargetH
      && Inside(c.crop, c.frame) && c.duration >= MinClipDuration
  {
    CoverCropInside(img.size);
  }

  /** As written, the crop still lies inside the frame for every picture at least as tall
      as 9:16. */
  lemma ClipForCoversTall(img: SourceImage, i: nat, d: real)
    requires img.size.w * TargetH <= img.size.h * TargetW
    ensures Inside(ClipFor(img, i, d).crop, ClipFor(img, i, d).frame)
  {
    FitWidthCoversTall(img.size);
  }

  /** The design bound on the zoom: at any moment of a clip, the canvas enlarged by the
      current zoom factor (at most 1.06) fits inside the cover-scaled picture (over-scaled
      by 1.1). The code as written does not rely on it: app.py:142 undoes the over-scale,
      and the zoom of app.py:154 enlarges the already-cropped clip. */
  lemma ZoomFitsOverscan(s: ImageSize, t: real, d: real)
    requires 0.0 < d && 0.0 <= t <= d
    ensures TargetW as real * Zoom(t, d) <= CoverSize(s).w as real
    ensures TargetH as real * Zoom(t, d) <= CoverSize(s).h as real
  {
    ZoomBounds(t, d);
    assert 1.0 + ZoomRate < Overscan;
  }

  /** Consecutive start offsets are one clip length less the crossfade apart. */
  lemma ClipStartStep(i: nat, d: real)
    ensures ClipStart(i + 1, d) == ClipStart(i, d) + d - Crossfade
  {
  }

  /** app.py:122-159: plans one clip per picture, in order, advancing the start offset by
      the clip length less the crossfade; `length` is where the last clip ends. */
  method PlanClips(images: seq<SourceImage>, duration: int) returns (clips: seq<ClipPlan>, length: real)
    requires |images| >= 1
    ensures |clips| == |images|
    ensures forall i :: 0 <= i < |clips| ==> clips[i] == ClipFor(images[i], i, ClipDuration(duration, |images|))
    ensures clips[0].start == 0.0
    ensures forall i :: 0 <= i < |clips| - 1 ==>
      clips[i + 1].start == clips[i].start + clips[i].duration - Crossfade
    ensures length == clips[|clips| - 1].start + clips[|clips| - 1].duration
    ensures length == ConcatLength(|images|, ClipDuration(duration, |images|))
  {
    var d := ClipDuration(duration, |images|);
    clips := [];
    var start := 0.0;
    for i := 0 to |images|
      invariant |clips| == i
      invariant start == ClipStart(i, d)
      invariant forall j :: 0 <= j < i ==> clips[j] == ClipFor(images[j], j, d)
    {
      var scaled := CoverSize(images[i].size);
      var frame := FitWidth(scaled);
      clips := clips + [ClipPlan(images[i], scaled, frame, CenteredCrop(frame), start, d)];
      ClipStartStep(i, d);
      start := start + d - Crossfade;
    }
    forall i | 0 <= i < |clips| - 1
      ensures clips[i + 1].start == clips[i].start + clips[i].duration - Crossfade
    {
      ClipStartStep(i, d);
    }
    length := clips[|clips| - 1].start + d;
  }
}
