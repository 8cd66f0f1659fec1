/**
 * Background music of the local generator: which track is attached and how much of it.
 */
module Audio {
  import opened Wrappers
  import opened Numeric

  datatype AudioSource = UploadedMusic | SampleMusic

  /** The attached track: where it comes from and how many seconds of it are used. */
  datatype Track = Track(source: AudioSource, length: real)

  /** app.py:185-197. `uploaded` and `sample` are the lengths of the uploaded file and of
      the bundled sample, when they exist. No music when it is switched off or there is
      nothing to play; the upload wins over the sample; the attached part is the first
      `min(duration, length)` seconds, never longer than either, so never padded. */
  function ChooseAudio(addMusic: bool, uploaded: Option<real>, sample: Option<real>, duration: int)
    : (track: Option<Track>)
    ensures track.None? <==> !addMusic || (uploaded.None? && sample.None?)
    ensures track.Some? && uploaded.Some? ==> track.value.source == UploadedMusic
    ensures track.Some? && uploaded.None? ==> track.value.source == SampleMusic
    ensures track.Some? ==>
      var available := if uploaded.Some? then uploaded.value else sample.value;
      track.value.length <= duration as real && track.value.length <= available
      && (track.value.length == duration as real || track.value.length == available)
  {
    if !addMusic then None
    else if uploaded.Some? then Some(Track(UploadedMusic, RMin(duration as real, uploaded.value)))
    else if sample.Some? then Some(Track(SampleMusic, RMin(duration as real, sample.value)))
    else None
  }

  /** A track shorter than the teaser is attached whole; a longer one is cut to exactly the
      teaser's duration. */
  lemma TrimKeepsShorter(addMusic: bool, uploaded: Option<real>, sample: Option<real>, duration: int)
    requires ChooseAudio(addMusic, uploaded, sample, duration).Some?
    ensures var available := if uploaded.Some? then uploaded.value else sample.value;
      var len := ChooseAudio(addMusic, uploaded, sample, duration).value.length;
      (available <= duration as real ==> len == available)
      && (duration as real <= available ==> len == duration as real)
  {
  }
}
