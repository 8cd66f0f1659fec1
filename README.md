# Instagram teaser generator — planning model

This project models the local-generation branch of the "Generate teaser" handler in
`app.py` of the instagram-teaser application. The branch turns uploaded still images
into a 1080×1920 portrait teaser video. The model takes out every decision the handler
makes before handing work to PIL, moviepy and ffmpeg. The result is a deterministic
*teaser plan* built from the form's configuration:

- which pictures are used (the uploads in order, else the bundled placeholder, else a
  solid brand-colour canvas);
- the cover scale of each picture and the truncated size it is resized to;
- the resize back to the canvas width, and the centred canvas-sized crop of that frame;
- the common clip duration, with its 1.5 s floor and its share of the 0.5 s crossfade;
- the start offset of every clip on the concatenated timeline, and the length of that
  timeline;
- the per-clip zoom `1 + 0.06·t/d`;
- the overlay layers (the plate, ten brand-coloured spaces with no background colour, and
  the caption), their order and geometry,
  and the font probe;
- the background track and its trim to `min(duration, track length)`;
- the encode request: frame rate, H.264/AAC, profile, level and CRF;
- the output file names, and the session's run counter.

Python floats are exact `real`s, and `int()` is truncation toward zero (`Numeric.PyInt`).
The parts that build lists by appending are methods with loops, proved against the
functions that specify them:

- the picture list (`Sources.CollectImages`);
- the clip list (`Clips.PlanClips`).

The handler's session counter is a field of the `Teaser.Session` class. Its `Generate`
method follows the handler's step-by-step reassignments and advances the counter only
when a local generation completes.

Modules: `Numeric` (Python's `int`, `max`, `min`), `Geometry` (canvas, cover scale, crop),
`Timing` (duration split, offsets, concatenated length, zoom), `Sources` (image fallback),
`Clips` (per-image clips), `Overlay` (plate, caption, font), `Audio` (music choice and
trim), `Encode` (encode request, output names), and `Teaser` (configuration, plan,
session).

## Model

| member | source | states |
|---|---|---|
| `Numeric.PyInt` | app.py:135 | `int()` truncates toward zero: for a non-negative value the result is the whole number at most one below it |
| `Sources.ImageSources` | app.py:86-98 | the picture list is never empty; with uploads it has their sizes in upload order, each tagged with its position; without uploads it is exactly the placeholder when it exists, otherwise one 1080×1920 picture in the brand colour |
| `Sources.CollectImages` | app.py:86-98 | appending one picture per upload (or the single fallback) builds exactly that list |
| `Geometry.CoverScale` | app.py:134 | the scale brings each side to at least 1.1× the canvas side, and brings one of the two to exactly that |
| `Geometry.CoverSize` | app.py:131-135 | the scaled picture is at least 1188×2112, so it covers the 1080×1920 canvas; each side is its exact scaled length truncated, so the aspect ratio is kept to within one pixel per side |
| `Geometry.CoverSizeTightSide` | app.py:134-135 | a picture at least as tall as 9:16 becomes exactly 1188 wide; a picture at least as wide becomes exactly 2112 tall |
| `Geometry.CenteredCrop` | app.py:144 | the crop window is exactly 1080×1920 and centred on the frame to within the half pixel of `//` |
| `Geometry.CenteredCropInsideIff` | app.py:144 | the centred window lies inside the frame if and only if the frame is at least 1080×1920 |
| `Geometry.CoverCropInside` | app.py:131-144 | cropping the cover-scaled picture always stays inside it, so every frame is exactly canvas-sized |
| `Geometry.FitWidth` | app.py:142 | the resize to `width=1080` keeps the width at 1080 and truncates the proportionally scaled height |
| `Geometry.FitWidthCoversTall` | app.py:142-144 | for pictures at least as tall as 9:16, the crop after the width resize still lies inside the frame |
| `Geometry.FitWidthLandscapeCounterexample` | app.py:142-144 | a 1920×1080 upload becomes a 1080×607 frame after the width resize, and the 1080×1920 crop window falls outside it |
| `Timing.ClipStart` | app.py:159 | the first clip starts at 0, and no start offset is negative while clips outlast the crossfade |
| `Timing.Zoom` | app.py:154 | the zoom factor is at least 1 from the clip's start and at most 1.06 up to its end |
| `Timing.ClipDuration` | app.py:123-127 | every clip lasts at least 1.5 s and at least `duration/n`; together the n clips give at least `duration + 0.5`; the floor is active or the total is exactly `duration + 0.5` |
| `Timing.ConcatLength` | app.py:159 | n clips of d seconds overlapping by 0.5 s at each seam last `n·d − (n−1)·0.5` |
| `Timing.ConcatLengthOfSplit` | app.py:125-159 | with the planned clip duration the concatenated length is `max(n + 0.5, duration + 1 − n/2)` |
| `Timing.ConcatLengthMatchesDurationIff` | app.py:125-159 | for every duration of 5–10 s, the concatenated length, read as the end of the last clip, equals the duration if and only if there are two pictures; one picture gives `duration + 0.5` |
| `Timing.ReportedConcatLength` | app.py:159 | the length moviepy 1.0.3 records for n clips with a 0.5 s overlap, `n·(d − 0.5)`, is the end of the last of n + 1 such clips minus one clip |
| `Timing.ReportedLengthMatchesDurationIff` | app.py:125-174 | under moviepy 1.0.3's recorded length, for every duration of 5–10 s, the concatenated length equals the duration if and only if there is one picture or as many pictures as seconds; two pictures give `duration − 0.5` |
| `Timing.TwoClipSeam` | app.py:125-159 | two pictures and a 6 s teaser: each clip lasts 3.25 s and the total is exactly 6 s |
| `Timing.ZoomBounds` | app.py:154 | over a clip's lifetime the zoom starts at exactly 1, ends at exactly 1.06 and stays in [1, 1.06] |
| `Timing.ZoomMonotone` | app.py:154 | the zoom never decreases as the clip plays |
| `Clips.ClipFor` | app.py:129-156 | as written: the clip shows its picture for d seconds from `ClipStart`; the cover-scaled picture covers the canvas; the frame after the width resize is 1080 wide; the crop window is 1080×1920 and lies inside that frame if and only if the frame is at least 1920 tall |
| `Clips.ClipForCoversTall` | app.py:131-144 | as written, the crop lies inside the frame for every picture at least as tall as 9:16 |
| `Clips.CorrectedClipFor` | app.py:131-144 | the corrected clip: the crop is taken from the cover-scaled picture itself, with no resize in between |
| `Clips.ClipFrameIsCanvas` | app.py:131-144 | every corrected clip cuts a 1080×1920 window from inside its cover-scaled picture and lasts at least 1.5 s |
| `Clips.ZoomFitsOverscan` | app.py:134-154 | the design bound: the canvas enlarged by any zoom up to 1.06 fits inside the picture over-scaled by 1.1; the code as written does not use this room, because line 142 undoes the over-scale and line 154 enlarges the already-cropped clip |
| `Clips.PlanClips` | app.py:122-159 | one clip per picture, in order, each equal to `ClipFor`; the first starts at 0; each starts 0.5 s before its predecessor ends; the returned length is where the last one ends, `n·d − (n−1)·0.5` |
| `Overlay.ChooseFont` | app.py:166 | the caption font is Amiri-Bold exactly when it is installed, and Arial-Bold otherwise |
| `Overlay.Compose` | app.py:162-182 | the base clip always comes first, with the frame rate and the requested duration; empty text gives no other layer; other text gives exactly plate then caption, both lasting the concatenated length; the plate's text colour is the brand colour and it has no background colour; it is 1015 px wide, font size + 20 px tall, 0.25 opaque, at 1382.4 px; the caption is white, in a 972 px box at 1440 px, in the probed font |
| `Overlay.OverlayGeometry` | app.py:169-180 | the caption box is narrower than the plate and the plate narrower than the canvas; the plate ends inside the canvas for every allowed font size |
| `Overlay.PlateReachesCaptionIff` | app.py:173-180 | the plate reaches below the caption's top edge if and only if the font size is at least 38 |
| `Audio.ChooseAudio` | app.py:185-197 | silent if and only if music is off or there is no track at all; an upload wins over the bundled sample; the attached length is at most both the duration and the track length, and equals one of them |
| `Audio.TrimKeepsShorter` | app.py:190-196 | a track shorter than the teaser is attached whole and never padded; a longer one is cut to exactly the duration |
| `Encode.Request` | app.py:204-211 | the request carries the given path and frame rate, libx264, aac and the fixed ffmpeg parameters |
| `Encode.RequestQuality` | app.py:204-211 | the encoder is asked for profile high, level 4.0 and CRF 18, whatever the path and frame rate |
| `Encode.DecimalRoundTrip` | app.py:100 | reading back the decimal numeral used in a file name gives the number it was written from |
| `Encode.CounterOutputName` | app.py:100 | the name is `outputs/teaser_` + a numeral + `.mp4`, and the numeral reads back as the run count + 1 |
| `Encode.LocalOutputName` | app.py:200 | the name is `outputs/teaser_local_` + a numeral + `.mp4`, and the numeral reads back as the process id |
| `Encode.CounterNamesDistinct` | app.py:100 | different run counts give different `teaser_<n>.mp4` names |
| `Encode.LocalNameIsNotCounterName` | app.py:100-200 | the `teaser_local_<pid>.mp4` name written by the local branch never equals a counter name |
| `Teaser.Plan` | app.py:86-211 | the plan has at least one picture and one clip per picture; the base layer has the configured frame rate and the requested duration; the encode request uses that frame rate and the process's output file |
| `Teaser.PlanTimeline` | app.py:86-182 | one clip per picture, at least one, in upload order; each clip lasts the common duration of at least 1.5 s and cuts a 1080×1920 window; that window lies inside the frame for every picture at least as tall as 9:16, including the solid fallback; the base layer lasts exactly the requested duration; under the end-of-last-clip reading the concatenated clips do so only with two pictures |
| `Teaser.PlanLandscapeCounterexample` | app.py:129-144 | as written, a single 1920×1080 upload gets a 1080×607 frame, and its clip's crop window reaches outside it |
| `Teaser.PlanOverlay` | app.py:162-182 | empty text leaves only the base clip; otherwise base, plate and caption in that order, in the probed font; under the end-of-last-clip reading, plate and caption last as long as the base if and only if there are two pictures |
| `Teaser.PlanEncode` | app.py:200-211 | the request carries the configured frame rate, libx264, aac and CRF 18; its path depends on the process id only and is never a counter name |
| `Teaser.Session.constructor` | app.py:100 | a new session's run counter is 0, the default `get('run_count', 0)` reads |
| `Teaser.Session.Generate` | app.py:82-224 | remote mode always ends unimplemented; local mode yields exactly the plan (clips as written, including the width resize), or a failure when the external work raises; the run counter grows by exactly one only on a rendered teaser |

## Findings

| source | as written | input that shows it | evidently intended | confidence | as-written member | corrected member |
|---|---|---|---|---|---|---|
| app.py:142-144 | the cover-scaled clip is resized back to `width=1080` and then cropped to a centred 1080×1920 window | a 1920×1080 landscape upload: it is scaled to 3754×2112, then resized to 1080×607, so the crop asks for rows −657 to 1263 of a 607-row frame | every frame is exactly the 1080×1920 canvas, which cropping the cover-scaled picture directly guarantees | medium, not executed (it assumes moviepy truncates the resized height and crops at `centre ± size/2`) | `Geometry.FitWidthLandscapeCounterexample` | `Geometry.CoverCropInside` |

The plan follows the code as written: `Clips.ClipFor`, `Clips.PlanClips` and `Teaser.Plan`
resize every clip back to the canvas width before the crop. For pictures at least as tall as
9:16 the crop then lies inside the frame (`Clips.ClipForCoversTall`), but it is not the crop
the corrected clip takes. A 1080×1920 upload, for instance, is cropped to the whole resized
1080×1920 frame, while the corrected clip takes the middle 1080×1920 of the 1188×2112
cover-scaled picture. For wider pictures the crop reaches outside the frame
(`Teaser.PlanLandscapeCounterexample`). `Clips.CorrectedClipFor` and
`Clips.ClipFrameIsCanvas` state the intended behaviour.

## Left out

- The Streamlit form, spinners and messages (app.py:33-80, 215-217). The widget ranges are
  the precondition `Teaser.ValidConfig`: duration 5–10 s, 24/25/30 fps, font size 36–160
  in steps of 4.
- Pixel work in PIL and moviepy is treated as opaque: Lanczos resampling, resize, crop,
  compositing and caption rendering. Only the sizes, positions, durations and order it is
  asked for are modelled.
- The plan takes the concatenated length as the end of the last clip placed at offsets
  `i·(d − 0.5)`, `Timing.ConcatLength`. Plate and caption last this length (app.py:170,
  174), so the "if and only if two pictures" of `Teaser.PlanTimeline` and
  `Teaser.PlanOverlay` holds under this reading only.
- moviepy 1.0.3 records the length of a concatenation with `padding=-0.5` as
  `n·(d − 0.5)`, without the final half second; `Timing.ReportedConcatLength` is that
  value. Under it, plate and caption last as long as the base if and only if there is one
  picture or as many pictures as seconds; one picture gives exactly `duration`, two give
  `duration − 0.5` (`Timing.ReportedLengthMatchesDurationIff`). The plan does not use this
  reading, because which one applies depends on the installed moviepy version.
- The length of the composite clip (app.py:180) is not modelled. Only the base layer is set
  to the requested duration (app.py:179). Under the end-of-last-clip reading the plate and
  caption last `duration + 0.5` for one picture with text, so the latest layer end, and
  the composite's own length, can exceed the requested duration.
- The plate (app.py:173-174) is ten spaces in the brand colour at font size 10, with no
  background colour; `Overlay.Compose` records it as `textColor == brandColor` and
  `background == None`. As written it therefore draws no visible fill, while the comment at
  app.py:172 describes a translucent black box. The intended fill is not modelled, because
  its colour is unclear: the comment says black, the call passes the brand colour.
- Decoding of uploads (`Image.open` at app.py:89) is not modelled. Uploads are given as
  their decoded sizes. A corrupt upload raises outside the `try` block, and this model does
  not represent that.
- Temporary files, disk I/O, the process id (a parameter) and ffmpeg's encoding itself:
  H.264 and AAC.
- External failures are one input, `Host.engineFails`. It covers audio decoding, a missing
  fallback font, rendering and encoding, which all land in the generic `except` at
  app.py:223.
- `threads=4` and `preset="medium"` are stored in the request but have no property stated
  about them.
- The remote provider (app.py:103-116) is modelled only as "always fails before the
  counter changes".
- Nothing is modelled for two pieces of dead code: the `zoom` closure at app.py:147-149
  is never called, and `fl_image(lambda img: img)` at app.py:152 is an identity.
- The per-clip zoom is modelled as a factor. The frame sizes moviepy produces while zooming
  are not modelled.
- `data_loader.py` is not part of this model. It is a thin wrapper over a network dataset
  download.
- IEEE float rounding is not modelled. `Numeric.PyInt`: truncation is exact on reals, so a
  product that a float rounds just below a whole number is not reproduced.
- A design goal is that the concatenated clips last exactly the requested duration. Under
  the end-of-last-clip reading the code meets it only for two pictures. It then sets the duration of the base layer
  explicitly, and that is what the model proves (`Timing.ConcatLengthMatchesDurationIff`,
  `Teaser.PlanTimeline`).
- The code raises no error for a non-positive clip duration, because the 1.5 s floor
  rules one out. The model has none either.
