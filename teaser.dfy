/**
 * The "Generate teaser" handler: the configuration the form collects, the plan the
 * local branch builds from it, and the session's run counter, which only a
 * completed generation advances.
 */
module Teaser {
  import opened Wrappers
  import opened Numeric
  import opened Geometry
  import opened Timing
  import opened Sources
  import opened Clips
  import opened Overlay
  import opened Audio
  import opened Encode

  datatype Mode = Local | Remote

  /** The values of the form's widgets. */
  datatype Config = Config(
    duration: int,        // seconds
    fps: int,
    mode: Mode,
    addMusic: bool,
    brandColor: string,
    overlayText: string,
    fontSize: int)

  /** What the widgets let through: a 5-10 s duration in whole seconds, 24, 25 or 30 frames
      per second, and a font size from 36 to 160 in steps of 4. */
  predicate ValidConfig(c: Config)
  {
    5 <= c.duration <= 10 && c.fps in {24, 25, 30} && 36 <= c.fontSize <= 160 && c.fontSize % 4 == 0
  }

  /** What the user uploaded: the decoded image sizes in upload order, and the length in
      seconds of the uploaded music, if any. */
  datatype Uploads = Uploads(images: seq<ImageSize>, music: Option<real>)

  /** What the host provides: the bundled placeholder picture and sample music when they
      exist, the installed fonts, the process id, and whether the external rendering and
      encoding work (moviepy, PIL, ffmpeg) raises. */
  datatype Host = Host(
    placeholder: Option<ImageSize>,
    sampleMusic: Option<real>,
    fonts: set<string>,
    pid: nat,
    engineFails: bool)

  /** Everything the local branch decides before handing the work to the libraries. */
  datatype TeaserPlan = TeaserPlan(
    images: seq<SourceImage>,
    clipDuration: real,
    clips: seq<ClipPlan>,
    concatLength: real,
    layers: seq<Layer>,
    audio: Option<Track>,
    request: EncodeRequest)

  /** The plan of a local generation: at least one picture, one clip per picture, the base
      layer at the configured frame rate and requested duration, and an encode request at
      that frame rate for the process's output file. */
  function Plan(cfg: Config, up: Uploads, host: Host): (p: TeaserPlan)
    ensures |p.images| >= 1 && |p.clips| == |p.images|
    ensures |p.layers| >= 1 && p.layers[0] == Base(cfg.fps, cfg.duration as real)
    ensures p.request.fps == cfg.fps && p.request.path == LocalOutputName(host.pid)
  {
    var images := ImageSources(up.images, host.placeholder, cfg.brandColor);
    var n := |images|;
    var d := ClipDuration(cfg.duration, n);
    var concat := ConcatLength(n, d);
    TeaserPlan(
      images, d,
      seq(n, i requires 0 <= i < n => ClipFor(images[i], i, d)),
      concat,
      Compose(cfg.overlayText, cfg.fontSize, cfg.brandColor, host.fonts, cfg.fps, cfg.duration, concat),
      ChooseAudio(cfg.addMusic, up.music, host.sampleMusic, cfg.duration),
      Request(LocalOutputName(host.pid), cfg.fps))
  }

  /** The timeline of the plan: one clip per picture, at least one, in upload order, each
      lasting the common duration of at least 1.5 s and cutting a canvas-sized window from
      its frame; that window lies inside the frame for every picture at least as tall as
      9:16, the solid fallback among them. The base layer lasts exactly the requested
      duration, while the concatenated clips do so only when there are two pictures. */
  lemma PlanTimeline(cfg: Config, up: Uploads, host: Host)
    requires ValidConfig(cfg)
    ensures var p := Plan(cfg, up, host);
      && |p.images| >= 1 && |p.clips| == |p.images|
      && (up.images != [] ==> Sizes(p.images) == up.images)
      && (forall i :: 0 <= i < |p.clips| ==>
            && p.clips[i].source == p.images[i]
            && p.clips[i].duration == p.clipDuration >= MinClipDuration
            && p.clips[i].crop.x2 - p.clips[i].crop.x1 == TargetW
            && p.clips[i].crop.y2 - p.clips[i].crop.y1 == TargetH
            && (p.images[i].size.w * TargetH <= p.images[i].size.h * TargetW
                ==> Inside(p.clips[i].crop, p.clips[i].frame)))
      && (up.images == [] && host.placeholder.None? ==> Inside(p.clips[0].crop, p.clips[0].frame))
      && p.layers[0].duration == cfg.duration as real
      && (p.concatLength == cfg.duration as real <==> |p.images| == 2)
  {
    var p := Plan(cfg, up, host);
    forall i | 0 <= i < |p.clips| && p.images[i].size.w * TargetH <= p.images[i].size.h * TargetW
      ensures Inside(p.clips[i].crop, p.clips[i].frame)
    {
      ClipForCoversTall(p.images[i], i, p.clipDuration);
    }
    if up.images == [] && host.placeholder.None? {
      assert p.images[0].size == Canvas;
      ClipForCoversTall(p.images[0], 0, p.clipDuration);
    }
    ConcatLengthMatchesDurationIff(cfg.duration, |p.images|);
  }

  /** As written, a single 1920x1080 landscape upload gets a 1080x607 frame, and the
      canvas-sized crop window of its clip reaches outside it. */
  lemma PlanLandscapeCounterexample(cfg: Config, music: Option<real>, host: Host)
    ensures var p := Plan(cfg, Uploads([Size(1920, 1080)], music), host);
      p.clips[0].frame == Size(1080, 607) && !Inside(p.clips[0].crop, p.clips[0].frame)
  {
    var s: ImageSize := Size(1920, 1080);
    var p := Plan(cfg, Uploads([s], music), host);
    assert p.images[0] == Upload(0, s);
    FitWidthLandscapeCounterexample();
  }

  /** The overlay of the plan: nothing but the clips for empty text; otherwise the clips, the
      plate and the caption, in that order. Plate and caption last as long as the clips
      beneath them exactly when there are two pictures. */
  lemma PlanOverlay(cfg: Config, up: Uploads, host: Host)
    requires ValidConfig(cfg)
    ensures var p := Plan(cfg, up, host);
      && (cfg.overlayText == "" ==> p.layers == [Base(cfg.fps, cfg.duration as real)])
      && (cfg.overlayText != "" ==>
            && |p.layers| == 3 && p.layers[1].Plate? && p.layers[2].Caption?
            && p.layers[2].font == ChooseFont(host.fonts)
            && (p.layers[1].duration == p.layers[0].duration <==> |p.images| == 2)
            && (p.layers[2].duration == p.layers[0].duration <==> |p.images| == 2))
  {
    var p := Plan(cfg, up, host);
    ConcatLengthMatchesDurationIff(cfg.duration, |p.images|);
  }

  /** The encode request of the plan: the configured frame rate, H.264 and AAC, the fixed
      quality knobs, and a file name fixed by the process id. */
  lemma PlanEncode(cfg: Config, up: Uploads, host: Host, runCount: nat)
    ensures var r := Plan(cfg, up, host).request;
      && r.fps == cfg.fps && r.codec == "libx264" && r.audioCodec == "aac"
      && FlagValue(r.ffmpegParams, "-crf") == Some("18")
      && r.path == LocalOutputName(host.pid) && r.path != CounterOutputName(runCount)
  {
    RequestQuality(LocalOutputName(host.pid), cfg.fps);
    LocalNameIsNotCounterName(host.pid, runCount);
  }

  datatype Outcome =
    | Rendered(plan: TeaserPlan)  // the teaser was written
    | RemoteUnimplemented         // the remote provider is a stub that always raises
    | GenerationFailed            // the external rendering or encoding raised

  /** One browser session of the app; `runCount` is its session-state counter. */
  class Session {
    var runCount: nat

    constructor ()
      ensures runCount == 0
    {
      runCount := 0;
    }

    /** app.py:82-224: one press of "Generate teaser". The remote provider always fails
        before the counter is touched; the local branch plans the teaser step by step and
        the counter advances by one exactly when the external work succeeds. */
    method Generate(cfg: Config, up: Uploads, host: Host) returns (outcome: Outcome)
      requires ValidConfig(cfg)
      modifies this
      ensures cfg.mode == Remote ==> outcome == RemoteUnimplemented
      ensures cfg.mode == Local && host.engineFails ==> outcome == GenerationFailed
      ensures cfg.mode == Local && !host.engineFails ==> outcome == Rendered(Plan(cfg, up, host))
      ensures runCount == if outcome.Rendered? then old(runCount) + 1 else old(runCount)
    {
      var images := CollectImages(up.images, host.placeholder, cfg.brandColor);
      var outPath := CounterOutputName(runCount);
      if cfg.mode == Remote {
        outcome := RemoteUnimplemented;
        return;
      }
      var clips, concat := PlanClips(images, cfg.duration);
      var d := ClipDuration(cfg.duration, |images|);
      assert clips == seq(|images|, i requires 0 <= i < |images| => ClipFor(images[i], i, d));

      var final := Base(cfg.fps, cfg.duration as real);
      var comp: seq<Layer>;
      if cfg.overlayText != "" {
        var caption := Caption(cfg.overlayText, cfg.fontSize, ChooseFont(host.fonts), CaptionColor,
                               CaptionWidth, CaptionTop, concat);
        var plate := Plate(cfg.brandColor, None, PlateWidth, cfg.fontSize + PlateMargin, PlateOpacity,
                           PlateTop, concat);
        comp := [final, plate, caption];
      } else {
        comp := [final];
      }
      assert comp == Compose(cfg.overlayText, cfg.fontSize, cfg.brandColor, host.fonts,
                             cfg.fps, cfg.duration, concat);

      var audio: Option<Track> := None;
      if cfg.addMusic {
        if up.music.Some? {
          audio := Some(Track(UploadedMusic, RMin(cfg.duration as real, up.music.value)));
        } else if host.sampleMusic.Some? {
          audio := Some(Track(SampleMusic, RMin(cfg.duration as real, host.sampleMusic.value)));
        }
      }
      assert audio == ChooseAudio(cfg.addMusic, up.music, host.sampleMusic, cfg.duration);

      outPath := LocalOutputName(host.pid);
      var request := Request(outPath, cfg.fps);
      if host.engineFails {
        outcome := GenerationFailed;
        return;
      }
      assert concat == ConcatLength(|images|, d);
      outcome := Rendered(TeaserPlan(images, d, clips, concat, comp, audio, request));
      runCount := runCount + 1;
    }
  }
}
