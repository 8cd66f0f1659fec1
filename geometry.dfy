/**
 * Frame geometry of the local generator: the portrait canvas, the cover scale
 * applied to every source image, and the centred crop that cuts the canvas out
 * of a scaled image.
 */
module Geometry {
  import opened Numeric

  /** The portrait canvas, width x height (Instagram Reel, 9:16). */
  const TargetW: int := 1080
  const TargetH: int := 1920
  /** Extra scale on top of the cover scale, leaving room for the zoom motion. */
  const Overscan: real := 1.1

  datatype Size = Size(w: int, h: int)

  /** The size of a decoded picture: a PIL image always has at least one pixel each way. */
  type ImageSize = s: Size | s.w > 0 && s.h > 0 witness Size(1, 1)

  /** The canvas as an image size (the solid brand-colour fallback is this big). */
  const Canvas: ImageSize := Size(TargetW, TargetH)

  /** A crop rectangle [x1, x2) x [y1, y2), as moviepy's `crop` slices the frame. */
  datatype Window = Window(x1: int, y1: int, x2: int, y2: int)

  /** The window lies within a frame of the given size, so every pixel it asks for exists. */
  predicate Inside(win: Window, frame: Size)
  {
    0 <= win.x1 && win.x2 <= frame.w && 0 <= win.y1 && win.y2 <= frame.h
  }

  /** `max(target_w / img_w, target_h / img_h) * 1.1`: the smallest uniform scale that
      covers the canvas on both axes, over-scaled by 10 %. */
  function CoverScale(s: ImageSize): (scale: real)
    ensures scale * s.w as real >= Overscan * TargetW as real
    ensures scale * s.h as real >= Overscan * TargetH as real
    ensures scale * s.w as real == Overscan * TargetW as real || scale * s.h as real == Overscan * TargetH as real
  {
    var w, h := s.w as real, s.h as real;
    var sw, sh := TargetW as real / w, TargetH as real / h;
    assert sw * w == TargetW as real && sh * h == TargetH as real;
    var m := RMax(sw, sh);
    assert m * w >= TargetW as real by { MulMonotone(sw, m, w); }
    assert m * h >= TargetH as real by { MulMonotone(sh, m, h); }
    m * Overscan
  }

  /** `(int(img_w * scale), int(img_h * scale))`: the size of the cover-scaled image. Both
      sides reach the over-scaled canvas, and each side is its exact scaled length truncated,
      so the aspect ratio is kept up to less than one pixel per side. */
  function CoverSize(s: ImageSize): (r: ImageSize)
    ensures r.w >= PyInt(Overscan * TargetW as real) && r.h >= PyInt(Overscan * TargetH as real)
    ensures r.w >= TargetW && r.h >= TargetH
    ensures r.w as real <= s.w as real * CoverScale(s) < r.w as real + 1.0
    ensures r.h as real <= s.h as real * CoverScale(s) < r.h as real + 1.0
  {
    var scale := CoverScale(s);
    var nw, nh := PyInt(s.w as real * scale), PyInt(s.h as real * scale);
    PyIntMonotone(Overscan * TargetW as real, s.w as real * scale);
    PyIntMonotone(Overscan * TargetH as real, s.h as real * scale);
    Size(nw, nh)
  }

  /** `clip.crop(x_center=clip.w // 2, y_center=clip.h // 2, width=target_w, height=target_h)`:
      a canvas-sized window centred on the frame (to within the half pixel of `//`). */
  function CenteredCrop(frame: Size): (win: Window)
    ensures win.x2 - win.x1 == TargetW && win.y2 - win.y1 == TargetH
    ensures frame.w - 1 <= win.x1 + win.x2 <= frame.w
    ensures frame.h - 1 <= win.y1 + win.y2 <= frame.h
  {
    var cx, cy := frame.w / 2, frame.h / 2;
    Window(cx - TargetW / 2, cy - TargetH / 2, cx + TargetW / 2, cy + TargetH / 2)
  }

  /** The centred window fits in a frame exactly when the frame is at least canvas-sized. */
  lemma CenteredCropInsideIff(frame: Size)
    ensures Inside(CenteredCrop(frame), frame) <==> frame.w >= TargetW && frame.h >= TargetH
  {
  }

  /** Cropping the cover-scaled image: the window always lies inside it, so every frame of
      the clip is exactly canvas-sized. */
  lemma CoverCropInside(s: ImageSize)
    ensures Inside(CenteredCrop(CoverSize(s)), CoverSize(s))
  {
    CenteredCropInsideIff(CoverSize(s));
  }

  /** For an image at least as tall as 9:16, the width is the tight side: it becomes exactly
      the over-scaled canvas width; otherwise the height is the tight side. */
  lemma CoverSizeTightSide(s: ImageSize)
    ensures s.w * TargetH <= s.h * TargetW ==> CoverSize(s).w == 1188
    ensures s.w * TargetH >= s.h * TargetW ==> CoverSize(s).h == 2112
  {
    var w, h := s.w as real, s.h as real;
    var scale := CoverScale(s);
    if s.w * TargetH <= s.h * TargetW {
      assert TargetH as real / h <= TargetW as real / w by { DivCompare(TargetH as real, h, TargetW as real, w); }
      assert scale == TargetW as real / w * Overscan;
      assert w * scale == 1188.0;
      PyIntOfInt(1188);
    }
    if s.w * TargetH >= s.h * TargetW {
      assert TargetW as real / w <= TargetH as real / h by { DivCompare(TargetW as real, w, TargetH as real, h); }
      assert scale == TargetH as real / h * Overscan;
      assert h * scale == 2112.0;
      PyIntOfInt(2112);
    }
  }

  /** As written, app.py:142 resizes every clip back to `width=target_w` before the crop:
      moviepy scales the height by the same factor and truncates it. */
  function FitWidth(scaled: ImageSize): (r: Size)
    ensures r.w == TargetW
    ensures r.h as real <= scaled.h as real * TargetW as real / scaled.w as real < r.h as real + 1.0
  {
    Size(TargetW, PyInt(scaled.h as real * TargetW as real / scaled.w as real))
  }

  /** For images at least as tall as 9:16 the as-written resize still leaves a frame the
      centred crop fits in. */
  lemma FitWidthCoversTall(s: ImageSize)
    requires s.w * TargetH <= s.h * TargetW
    ensures Inside(CenteredCrop(FitWidth(CoverSize(s))), FitWidth(CoverSize(s)))
  {
    var w, h := s.w as real, s.h as real;
    var scale := CoverScale(s);
    CoverSizeTightSide(s);
    var c := CoverSize(s);
    assert TargetH as real / h <= TargetW as real / w by { DivCompare(TargetH as real, h, TargetW as real, w); }
    assert scale == 1188.0 / w;
    assert h * scale >= 2112.0 by {
      assert h * scale == 1188.0 * h / w;
      assert 1920.0 / 1080.0 <= h / w by { DivCompare(1920.0, 1080.0, h, w); }
    }
    PyIntOfInt(2112);
    PyIntMonotone(2112.0, h * scale);
    assert c.h >= 2112;
    var fh := c.h as real * TargetW as real / c.w as real;
    assert fh == c.h as real / 1.1;
    assert fh >= 1920.0;
    PyIntOfInt(1920);
    PyIntMonotone(1920.0, fh);
    CenteredCropInsideIff(FitWidth(c));
  }

  /** A 1920x1080 landscape upload: after the resize at app.py:142 the frame is only
      1080x607, and the 1080x1920 crop window reaches outside it. */
  lemma FitWidthLandscapeCounterexample()
    ensures FitWidth(CoverSize(Size(1920, 1080))) == Size(1080, 607)
    ensures !Inside(CenteredCrop(FitWidth(CoverSize(Size(1920, 1080)))), FitWidth(CoverSize(Size(1920, 1080))))
  {
    var s: ImageSize := Size(1920, 1080);
    CoverSizeTightSide(s);
    var c := CoverSize(s);
    assert c.h == 2112;
    var scale := CoverScale(s);
    assert 1080.0 / 1920.0 <= 1920.0 / 1080.0;
    assert scale == 1920.0 / 1080.0 * 1.1;
    assert 1920.0 * scale == 3754.0 + 2.0 / 3.0;
    assert c.w == 3754;
    var fh := 2112.0 * 1080.0 / 3754.0;
    assert 607.0 <= fh < 608.0;
    assert FitWidth(c).h == 607;
    CenteredCropInsideIff(FitWidth(c));
  }

  lemma MulMonotone(x: real, y: real, k: real)
    requires x <= y && 0.0 < k
    ensures x * k <= y * k
  {
  }

  /** a/b <= c/d for positive b, d whenever a*d <= c*b. */
  lemma DivCompare(a: real, b: real, c: real, d: real)
    requires 0.0 < b && 0.0 < d && a * d <= c * b
    ensures a / b <= c / d
  {
    assert a / b == (a * d) / (b * d);
    assert c / d == (c * b) / (b * d);
  }
}
