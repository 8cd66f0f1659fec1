/**
 * Timing of the local generator: how the requested duration is split across the
 * clips, where each clip starts once they are concatenated with a crossfade
 * overlap, and the zoom each clip applies over its own lifetime.
 */
module Timing {
  import opened Numeric

  /** Overlap between neighbouring clips, in seconds (app.py:126). */
  const Crossfade: real := 0.5
  /** Shortest clip the split may produce, in seconds (app.py:127). */
  const MinClipDuration: real := 1.5
  /** Zoom gained over one clip's lifetime: the factor runs from 1 to 1 + ZoomRate (app.py:154). */
  const ZoomRate: real := 0.06

  /** `max(1.5, duration / max(1, n) + crossfade / n)`: each of the n clips gets an equal
      share of the duration plus its share of one crossfade, but never less than the floor.
      The caller always has at least one image, so the division by n is defined. */
  function ClipDuration(duration: int, n: int): (d: real)
    requires n >= 1
    ensures d >= MinClipDuration
    ensures d * n as real >= duration as real + Crossfade
    ensures d >= duration as real / n as real
    ensures d == MinClipDuration || d * n as real == duration as real + Crossfade
  {
    var base := duration as real / IMax(1, n) as real;
    var share := base + Crossfade / n as real;
    assert share * n as real == duration as real + Crossfade;
    RMax(MinClipDuration, share)
  }

  /** Where clip i starts on the concatenated timeline: concatenation with padding
      `-crossfade` starts every clip Crossfade seconds before its predecessor ends. The
      first clip starts at 0, and no offset is negative for clips longer than the
      crossfade, so the clamp at 0 that concatenation applies never acts. */
  function ClipStart(i: nat, d: real): (start: real)
    ensures i == 0 ==> start == 0.0
    ensures d >= Crossfade ==> start >= 0.0
  {
    i as real * (d - Crossfade)
  }

  /** Length of n clips of d seconds concatenated with the crossfade overlap: the end of
      the last clip. */
  function ConcatLength(n: nat, d: real): (len: real)
    requires n >= 1
    ensures len == n as real * d - (n - 1) as real * Crossfade
  {
    ClipStart(n - 1, d) + d
  }

  /** The concatenated length of the planned clips, in closed form: the total of
      the clip lengths less one crossfade per seam is `duration + 1 - n/2` unless the
      1.5 s floor is active, and then it is `n + 0.5`. */
  lemma ConcatLengthOfSplit(duration: int, n: int)
    requires n >= 1
    ensures ConcatLength(n, ClipDuration(duration, n))
      == RMax(n as real + 0.5, duration as real + 1.0 - n as real * 0.5)
  {
    var d := ClipDuration(duration, n);
    var len := ConcatLength(n, d);
    if d == MinClipDuration {
      assert len == n as real + 0.5;
      assert duration as real + Crossfade <= 1.5 * n as real;
    } else {
      assert d * n as real == duration as real + Crossfade;
      assert len == duration as real + 1.0 - n as real * 0.5;
      assert 1.5 * n as real <= d * n as real;
    }
  }

  /** For every duration the slider offers, the concatenated clips last exactly the requested
      duration only with two images; one image yields half a second more. */
  lemma ConcatLengthMatchesDurationIff(duration: int, n: int)
    requires 5 <= duration <= 10 && n >= 1
    ensures ConcatLength(n, ClipDuration(duration, n)) == duration as real <==> n == 2
    ensures n == 1 ==> ConcatLength(n, ClipDuration(duration, n)) == duration as real + Crossfade
  {
    ConcatLengthOfSplit(duration, n);
    var len := ConcatLength(n, ClipDuration(duration, n));
    var D, N := duration as real, n as real;
    if N + 0.5 >= D + 1.0 - N * 0.5 {
      // the floor wins: the length is n + 0.5, never a whole number of seconds
      assert len == N + 0.5;
      assert len != D by {
        if (n - duration) as real == -0.5 {
          assert false;
        }
      }
      assert n != 2;
    } else {
      assert len == D + 1.0 - N * 0.5;
    }
  }

  /** The length moviepy 1.0.3's `concatenate_videoclips` reports for n clips of d seconds
      with padding `-crossfade`: it adds the padding once per clip, the last one included. */
  function ReportedConcatLength(n: nat, d: real): (len: real)
    ensures len == ConcatLength(n + 1, d) - d
  {
    n as real * (d - Crossfade)
  }

  /** Under that reading the reported length equals the requested duration if and only if
      there is one picture or as many pictures as seconds; two pictures report half a second
      less than the duration. */
  lemma ReportedLengthMatchesDurationIff(duration: int, n: int)
    requires 5 <= duration <= 10 && n >= 1
    ensures ReportedConcatLength(n, ClipDuration(duration, n)) == duration as real
      <==> n == 1 || n == duration
    ensures n == 2 ==> ReportedConcatLength(n, ClipDuration(duration, n)) == duration as real - Crossfade
  {
    var d := ClipDuration(duration, n);
    var len := ReportedConcatLength(n, d);
    var D, N := duration as real, n as real;
    if d == MinClipDuration && d * N != D + Crossfade {
      assert len == N;
      assert D + Crossfade < 1.5 * N;
      assert n != 1;
    } else {
      assert d * N == D + Crossfade;
      assert len == D + Crossfade - N * Crossfade;
    }
  }

  /** The two-image seam: for a 6 s teaser each clip lasts 3.25 s and the overlap brings
      the total back to exactly 6 s. */
  lemma TwoClipSeam()
    ensures ClipDuration(6, 2) == 3.25
    ensures ConcatLength(2, ClipDuration(6, 2)) == 6.0
  {
  }

  /** `1 + 0.06 * (t / single_dur)`: the zoom at time t of a clip lasting d seconds. It grows
      with t, and within the clip's lifetime it stays between 1 and 1 + ZoomRate. */
  function Zoom(t: real, d: real): (z: real)
    requires d > 0.0
    ensures 0.0 <= t ==> 1.0 <= z
    ensures t <= d ==> z <= 1.0 + ZoomRate
  {
    assert 0.0 <= t ==> 0.0 <= t / d;
    assert t <= d ==> t / d <= 1.0;
    1.0 + ZoomRate * (t / d)
  }

  /** Over the clip's lifetime the zoom runs from exactly 1 to exactly 1 + ZoomRate and
      never leaves that range. */
  lemma ZoomBounds(t: real, d: real)
    requires 0.0 < d && 0.0 <= t <= d
    ensures 1.0 <= Zoom(t, d) <= 1.0 + ZoomRate
    ensures Zoom(0.0, d) == 1.0 && Zoom(d, d) == 1.0 + ZoomRate
  {
    DivSelf(d);
    assert Zoom(d, d) == 1.0 + ZoomRate * 1.0;
  }

  lemma DivSelf(d: real)
    requires d > 0.0
    ensures d / d == 1.0
  {
  }

  /** The zoom never shrinks the picture as the clip plays. */
  lemma ZoomMonotone(t1: real, t2: real, d: real)
    requires 0.0 < d && t1 <= t2
    ensures Zoom(t1, d) <= Zoom(t2, d)
  {
    assert t1 / d <= t2 / d;
  }
}
