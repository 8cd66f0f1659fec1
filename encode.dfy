/**
 * The encode request handed to the external encoder, and the names of the output files.
 */
module Encode {
  import opened Wrappers

  datatype EncodeRequest = EncodeRequest(
    path: string,
    fps: int,
    codec: string,
    audioCodec: string,
    threads: int,
    preset: string,
    ffmpegParams: seq<string>)

  const VideoCodec: string := "libx264"
  const AudioCodec: string := "aac"
  const Threads: int := 4
  const Preset: string := "medium"
  /** H.264 High profile, level 4.0, constant rate factor 18. */
  const FfmpegParams: seq<string> := ["-profile:v", "high", "-level", "4.0", "-crf", "18"]
  const OutputDir: string := "outputs/"
  const CounterPrefix: string := OutputDir + "teaser_"
  const LocalPrefix: string := OutputDir + "teaser_local_"
  const Suffix: string := ".mp4"

  /** app.py:204-211: the request for the given output path and frame rate. Everything
      else is fixed: the codecs, the threads, the preset and the quality knobs do not
      depend on the content, and the audio codec is named even for a silent teaser. */
  function Request(path: string, fps: int): (r: EncodeRequest)
    ensures r.path == path && r.fps == fps
    ensures r.codec == VideoCodec && r.audioCodec == AudioCodec && r.ffmpegParams == FfmpegParams
  {
    EncodeRequest(path, fps, VideoCodec, AudioCodec, Threads, Preset, FfmpegParams)
  }

  /** The value ffmpeg reads for `flag` in a flag/value argument list: the value after its
      first occurrence in a flag position. */
  function FlagValue(args: seq<string>, flag: string): (v: Option<string>)
    decreases |args|
  {
    if |args| < 2 then None
    else if args[0] == flag then Some(args[1])
    else FlagValue(args[2..], flag)
  }

  /** The encoder is asked for High profile, level 4.0 and a constant rate factor of 18,
      whatever the path and the frame rate. */
  lemma RequestQuality(path: string, fps: int)
    ensures FlagValue(Request(path, fps).ffmpegParams, "-profile:v") == Some("high")
    ensures FlagValue(Request(path, fps).ffmpegParams, "-level") == Some("4.0")
    ensures FlagValue(Request(path, fps).ffmpegParams, "-crf") == Some("18")
  {
    var p := FfmpegParams;
    assert p[2..] == ["-level", "4.0", "-crf", "18"];
    assert p[2..][2..] == ["-crf", "18"];
  }

  predicate IsDigit(c: char)
  {
    '0' as int <= c as int <= '9' as int
  }

  /** The decimal numeral of n, as an f-string writes it. */
  function Decimal(n: nat): (s: string)
    ensures |s| >= 1
    ensures forall i :: 0 <= i < |s| ==> IsDigit(s[i])
  {
    var digit := ('0' as int + n % 10) as char;
    if n < 10 then [digit] else Decimal(n / 10) + [digit]
  }

  /** Reads a numeral back. */
  function ParseDecimal(s: string): nat
    requires forall i :: 0 <= i < |s| ==> IsDigit(s[i])
  {
    if s == [] then 0
    else
      assert IsDigit(s[|s| - 1]);
      ParseDecimal(s[..|s| - 1]) * 10 + (s[|s| - 1] as int - '0' as int)
  }

  /** Reading a numeral back gives the number it was written from. */
  lemma {:induction false} DecimalRoundTrip(n: nat)
    ensures ParseDecimal(Decimal(n)) == n
  {
    var s := Decimal(n);
    assert s[..|s| - 1] == if n < 10 then [] else Decimal(n / 10);
    if n >= 10 {
      DecimalRoundTrip(n / 10);
    }
  }

  /** app.py:100: the name built from the run counter, `teaser_<run_count + 1>.mp4`. */
  function CounterOutputName(runCount: nat): (name: string)
    ensures |name| >= |CounterPrefix| + 1 + |Suffix|
    ensures name[..|CounterPrefix|] == CounterPrefix && name[|name| - |Suffix|..] == Suffix
    ensures var number := name[|CounterPrefix|..|name| - |Suffix|];
      (forall i :: 0 <= i < |number| ==> IsDigit(number[i])) && ParseDecimal(number) == runCount + 1
  {
    var digits := Decimal(runCount + 1);
    DecimalRoundTrip(runCount + 1);
    var name := CounterPrefix + digits + Suffix;
    assert name[|CounterPrefix|..|name| - |Suffix|] == digits;
    name
  }

  /** app.py:200: the name the local branch actually writes, `teaser_local_<pid>.mp4`; it
      depends on the process id alone, so every run in one process writes the same file. */
  function LocalOutputName(pid: nat): (name: string)
    ensures |name| >= |LocalPrefix| + 1 + |Suffix|
    ensures name[..|LocalPrefix|] == LocalPrefix && name[|name| - |Suffix|..] == Suffix
    ensures var number := name[|LocalPrefix|..|name| - |Suffix|];
      (forall i :: 0 <= i < |number| ==> IsDigit(number[i])) && ParseDecimal(number) == pid
  {
    var digits := Decimal(pid);
    DecimalRoundTrip(pid);
    var name := LocalPrefix + digits + Suffix;
    assert name[|LocalPrefix|..|name| - |Suffix|] == digits;
    name
  }

  /** Different run counts give different counter names. */
  lemma CounterNamesDistinct(a: nat, b: nat)
    requires a != b
    ensures CounterOutputName(a) != CounterOutputName(b)
  {
  }

  /** The local name never coincides with a counter name. */
  lemma LocalNameIsNotCounterName(pid: nat, runCount: nat)
    ensures LocalOutputName(pid) != CounterOutputName(runCount)
  {
    var local, counter := LocalOutputName(pid), CounterOutputName(runCount);
    assert local[|CounterPrefix|] == LocalPrefix[|CounterPrefix|] == 'l';
    assert counter[|CounterPrefix|] == counter[|CounterPrefix|..|counter| - |Suffix|][0];
  }
}
