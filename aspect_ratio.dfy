/** Orientation of an uploaded video, from the stream list the media prober reports:
    the dimensions of the last video stream, reduced with Go's 64-bit integer
    arithmetic to "16:9", "9:16" or "other", and the storage directory for each. */
module AspectRatio {
  import opened Wrappers

  const MinInt64: int := -0x8000_0000_0000_0000
  const MaxInt64: int := 0x7fff_ffff_ffff_ffff
  const TwoTo64: int := 0x1_0000_0000_0000_0000

  /** Go's `int` on a 64-bit platform; JSON numbers outside it fail to decode. */
  type Int64 = x: int | MinInt64 <= x <= MaxInt64

  /** Two's-complement wrap-around to 64 bits, what Go's `*` does on overflow. */
  function Wrap(x: int): (r: Int64)
    ensures (r - x) % TwoTo64 == 0
    ensures MinInt64 <= x <= MaxInt64 ==> r == x
  {
    (x - MinInt64) % TwoTo64 + MinInt64
  }

  /** Go's `a / b` for a positive divisor: the quotient truncated toward zero, so the
      remainder takes the sign of `a` (Dafny's own `/` rounds down instead). */
  function Quot(a: int, b: int): (q: int)
    requires b > 0
    ensures a >= 0 ==> 0 <= a - q * b < b
    ensures a < 0 ==> -b < a - q * b <= 0
  {
    if a >= 0 then a / b else -((-a) / b)
  }

  /** `16*x/9` evaluated as Go evaluates it on `int`. */
  function Scaled(x: Int64): Int64 {
    Quot(Wrap(16 * x), 9)
  }

  /** The ratio test of `getVideoAspectRatio`. */
  function Classify(width: Int64, height: Int64): (ratio: string)
    ensures ratio == "16:9" || ratio == "9:16" || ratio == "other"
  {
    if width == Scaled(height) then "16:9"
    else if height == Scaled(width) then "9:16"
    else "other"
  }

  /** Dimensions for which `16*x` cannot overflow. */
  const MaxDimension: int := 0x0700_0000_0000_0000

  /** For a height from 0 up to `MaxDimension` (where `16*height` neither overflows nor
      rounds toward zero from below), "16:9" means the width is 16/9 of the height
      rounded down: `9*width <= 16*height < 9*width + 9`. */
  lemma LandscapeMeaning(width: Int64, height: Int64)
    requires 0 <= height <= MaxDimension
    ensures Classify(width, height) == "16:9" <==> 9 * width <= 16 * height < 9 * width + 9
  {
    assert Wrap(16 * height) == 16 * height;
  }

  /** For dimensions from 0 up to `MaxDimension`, "9:16" means the frame is not "16:9"
      and the height is 16/9 of the width rounded down. */
  lemma PortraitMeaning(width: Int64, height: Int64)
    requires 0 <= width <= MaxDimension && 0 <= height <= MaxDimension
    ensures Classify(width, height) == "9:16" <==>
      !(9 * width <= 16 * height < 9 * width + 9) && 9 * height <= 16 * width < 9 * height + 9
  {
    LandscapeMeaning(width, height);
    assert Wrap(16 * width) == 16 * width;
  }

  /** Frames of exactly 16:9 are landscape and of exactly 9:16 portrait; 0x0 counts as
      landscape. */
  lemma ExactRatios(k: int)
    requires 0 <= k <= MaxDimension / 16
    ensures Classify(16 * k, 9 * k) == "16:9"
    ensures k > 0 ==> Classify(9 * k, 16 * k) == "9:16"
  {
    LandscapeMeaning(16 * k, 9 * k);
    PortraitMeaning(9 * k, 16 * k);
  }

  /** Sample frames: common 16:9 and 9:16 sizes land in their directories. */
  lemma RatioSamples()
    ensures Classify(1920, 1080) == "16:9" && Classify(1280, 720) == "16:9"
    ensures Classify(1080, 1920) == "9:16" && Classify(720, 1280) == "9:16"
  {
    ExactRatios(120);
    ExactRatios(80);
  }

  /** Sample frames: the truncating test puts square and common near-16:9 sizes into
      "other". */
  lemma OtherSamples()
    ensures Classify(1000, 1000) == "other"
    ensures Classify(1366, 768) == "other" && Classify(854, 480) == "other"
  {
    LandscapeMeaning(1366, 768);
    PortraitMeaning(1366, 768);
  }

  /** A height of 2^60 makes `16*height` wrap to 0, so a zero width counts as "16:9". */
  lemma OverflowSample()
    ensures Classify(0, 0x1000_0000_0000_0000) == "16:9"
  {
    assert Wrap(16 * 0x1000_0000_0000_0000) == 0;
  }

  /** One entry of the prober's `streams` array; a missing `width` or `height` decodes
      as 0. */
  datatype Stream = Stream(codecType: string, width: Int64, height: Int64)

  /** The prober's standard output after JSON decoding: `Unparsable` when decoding
      failed (also for empty output, which is what a prober that failed to run leaves). */
  datatype ProbeOutput = Unparsable | Parsed(streams: seq<Stream>)

  predicate IsVideo(s: Stream) {
    s.codecType == "video"
  }

  /** Width and height of the last video stream, or 0x0 when there is none. */
  function LastVideo(streams: seq<Stream>): (Int64, Int64)
    decreases |streams|
  {
    if streams == [] then (0, 0)
    else
      var last := streams[|streams| - 1];
      if IsVideo(last) then (last.width, last.height) else LastVideo(streams[..|streams| - 1])
  }

  /** `LastVideo` picks the video stream with no video stream after it. */
  lemma {:induction false} LastVideoIsLastMatch(streams: seq<Stream>, k: nat)
    requires k < |streams| && IsVideo(streams[k])
    requires forall j :: k < j < |streams| ==> !IsVideo(streams[j])
    ensures LastVideo(streams) == (streams[k].width, streams[k].height)
    decreases |streams|
  {
    if k < |streams| - 1 {
      var init := streams[..|streams| - 1];
      assert forall j :: k < j < |init| ==> init[j] == streams[j];
      LastVideoIsLastMatch(init, k);
    }
  }

  /** With no video stream the dimensions stay 0x0, which classifies as "16:9". */
  lemma {:induction false} NoVideoStream(streams: seq<Stream>)
    requires forall j :: 0 <= j < |streams| ==> !IsVideo(streams[j])
    ensures LastVideo(streams) == (0, 0)
    ensures Classify(0, 0) == "16:9"
    decreases |streams|
  {
    if streams != [] {
      var init := streams[..|streams| - 1];
      assert forall j :: 0 <= j < |init| ==> init[j] == streams[j];
      NoVideoStream(init);
    }
  }

  /** The loop of `getVideoAspectRatio`: every video stream overwrites the dimensions. */
  method VideoDimensions(streams: seq<Stream>) returns (width: Int64, height: Int64)
    ensures (width, height) == LastVideo(streams)
  {
    width, height := 0, 0;
    var i := 0;
    while i < |streams|
      invariant 0 <= i <= |streams|
      invariant (width, height) == LastVideo(streams[..i])
    {
      var stream := streams[i];
      assert streams[..i + 1][..i] == streams[..i];
      if stream.codecType == "video" {
        width := stream.width;
        height := stream.height;
      }
      i := i + 1;
    }
    assert streams[..i] == streams;
  }

  /** What `getVideoAspectRatio` returns for a prober output: an error when the output
      does not decode, otherwise the classification of the last video stream. */
  function RatioOf(probe: ProbeOutput): Option<string> {
    match probe
    case Unparsable => None
    case Parsed(streams) =>
      var (width, height) := LastVideo(streams);
      Some(Classify(width, height))
  }

  /** `getVideoAspectRatio`, from the decoded prober output on: `None` is its error
      return. */
  method GetVideoAspectRatio(probe: ProbeOutput) returns (ratio: Option<string>)
    ensures ratio == RatioOf(probe)
    ensures ratio.None? <==> probe.Unparsable?
    ensures ratio.Some? ==> ratio.value == "16:9" || ratio.value == "9:16" || ratio.value == "other"
  {
    if probe.Unparsable? {
      return None;
    }
    var width, height := VideoDimensions(probe.streams);
    ratio := Some(Classify(width, height));
  }

  /** The `switch` that picks the storage directory: total, with "other" for every
      string that is neither "16:9" nor "9:16". */
  function Directory(ratio: string): (dir: string)
    ensures dir == "landscape" || dir == "portrait" || dir == "other"
    ensures dir == "landscape" <==> ratio == "16:9"
    ensures dir == "portrait" <==> ratio == "9:16"
  {
    if ratio == "16:9" then "landscape"
    else if ratio == "9:16" then "portrait"
    else "other"
  }
}
