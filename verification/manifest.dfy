/**
 The text `createVideo` hands to ffmpeg: the concat manifest written to
 `image_list.txt`, with a `file '<path>'` line and a `duration <d>` line per
 image, and the audio input argument, the audio entries joined by `"|"`.
 Durations are kept as exact reals beside the text; how a JavaScript number
 is printed is the caller's `durationText`.
 */
module Manifest {
  import opened JsString

  /** The manifest line naming an image. Paths are interpolated as they are, without escaping `'`. */
  function FileLine(path: string): string {
    "file '" + path + "'"
  }

  /** The manifest line giving the display time of the preceding image. */
  function DurationLine(durationText: string): string {
    "duration " + durationText
  }

  /** One image's entry, `file '${img}'\nduration ${d}`. */
  function Entry(path: string, durationText: string): string {
    FileLine(path) + "\n" + DurationLine(durationText)
  }

  /** `images.map(img => entry)`: one entry per image, every image with the same duration text. */
  function Entries(images: seq<string>, durationText: string): seq<string> {
    seq(|images|, i requires 0 <= i < |images| => Entry(images[i], durationText))
  }

  /** `images.map(img => entry).join("\n")`. */
  function ManifestText(images: seq<string>, durationText: string): (text: string)
    ensures |images| == 0 <==> text == ""
    ensures |images| > 0 ==> FileLine(images[0]) + "\n" <= text
  {
    var entries := Entries(images, durationText);
    assert |images| > 0 ==> entries[0] == Entry(images[0], durationText);
    JoinFirst(entries, "\n");
    Join(entries, "\n")
  }

  /** The manifest's lines, listed image by image: a file line, then a duration line. */
  function ManifestLines(images: seq<string>, durationText: string): (lines: seq<string>)
    ensures |lines| == 2 * |images|
    decreases |images|
  {
    if |images| == 0 then []
    else [FileLine(images[0]), DurationLine(durationText)] + ManifestLines(images[1..], durationText)
  }

  /** Line `2i` of the listing names image `i`, and line `2i + 1` gives the shared duration. */
  lemma {:induction false} ManifestLinesAt(images: seq<string>, durationText: string)
    ensures forall i :: 0 <= i < |images| ==> ManifestLines(images, durationText)[2 * i] == FileLine(images[i])
    ensures forall i :: 0 <= i < |images| ==> ManifestLines(images, durationText)[2 * i + 1] == DurationLine(durationText)
    decreases |images|
  {
    if |images| > 0 {
      var lines := ManifestLines(images, durationText);
      var rest := ManifestLines(images[1..], durationText);
      ManifestLinesAt(images[1..], durationText);
      forall i | 1 <= i < |images|
        ensures lines[2 * i] == FileLine(images[i]) && lines[2 * i + 1] == DurationLine(durationText)
      {
        assert lines[2 * i] == rest[2 * (i - 1)];
        assert lines[2 * i + 1] == rest[2 * (i - 1) + 1];
        assert images[i] == images[1..][i - 1];
      }
    }
  }

  /** Dropping the first image drops the first entry. */
  lemma EntriesTail(images: seq<string>, durationText: string)
    requires |images| > 0
    ensures Entries(images, durationText)[0] == Entry(images[0], durationText)
    ensures Entries(images, durationText)[1..] == Entries(images[1..], durationText)
  {
  }

  /** Joining the listed lines by line breaks is the manifest text. */
  lemma {:induction false} ManifestLinesJoin(images: seq<string>, durationText: string)
    ensures Join(ManifestLines(images, durationText), "\n") == ManifestText(images, durationText)
    decreases |images|
  {
    var lines := ManifestLines(images, durationText);
    var entries := Entries(images, durationText);
    if |images| == 1 {
      assert lines == [FileLine(images[0]), DurationLine(durationText)];
      JoinCons(lines, "\n");
      EntriesTail(images, durationText);
    } else if |images| > 1 {
      var restLines := ManifestLines(images[1..], durationText);
      ManifestLinesJoin(images[1..], durationText);
      assert lines[1..][1..] == restLines;
      JoinCons(lines, "\n");
      JoinCons(lines[1..], "\n");
      EntriesTail(images, durationText);
      JoinCons(entries, "\n");
    }
  }

  /** When no path and not the duration text contain a line break, no listed line does. */
  lemma {:induction false} ManifestLinesSingle(images: seq<string>, durationText: string)
    requires forall i :: 0 <= i < |images| ==> '\n' !in images[i]
    requires '\n' !in durationText
    ensures forall k :: 0 <= k < |ManifestLines(images, durationText)| ==> '\n' !in ManifestLines(images, durationText)[k]
    decreases |images|
  {
    if |images| > 0 {
      var lines := ManifestLines(images, durationText);
      var rest := ManifestLines(images[1..], durationText);
      ManifestLinesSingle(images[1..], durationText);
      forall k | 2 <= k < |lines| ensures '\n' !in lines[k] {
        assert lines[k] == rest[k - 2];
      }
    }
  }

  /**
   When no path and not the duration text contain a line break, the manifest
   for `n > 0` images reads back as exactly its `2n` listed lines: a file line
   and a duration line per image, in image order, and no trailing line.
   */
  lemma {:induction false} ManifestReadsBack(images: seq<string>, durationText: string)
    requires |images| > 0
    requires forall i :: 0 <= i < |images| ==> '\n' !in images[i]
    requires '\n' !in durationText
    ensures Split(ManifestText(images, durationText), "\n") == ManifestLines(images, durationText)
    ensures |Split(ManifestText(images, durationText), "\n")| == 2 * |images|
  {
    ManifestLinesSingle(images, durationText);
    ManifestLinesJoin(images, durationText);
    SplitJoinChar(ManifestLines(images, durationText), '\n');
  }

  /** `audioFiles.join("|")`: the empty string when there is no audio. */
  function AudioArgument(audio: seq<string>): (arg: string)
    ensures |audio| == 0 ==> arg == ""
    ensures |audio| == 1 ==> arg == audio[0]
  {
    Join(audio, "|")
  }

  /** When no audio entry contains `|`, the argument splits back into the entries, in order. */
  lemma {:induction false} AudioArgumentReadsBack(audio: seq<string>)
    requires |audio| > 0
    requires forall i :: 0 <= i < |audio| ==> '|' !in audio[i]
    ensures Split(AudioArgument(audio), "|") == audio
  {
    SplitJoinChar(audio, '|');
  }

  /** One image and how long it is shown, in exact seconds. */
  datatype Segment = Segment(image: string, seconds: real)

  /** Every image shown for the same number of seconds, in image order. */
  function Timeline(images: seq<string>, seconds: real): seq<Segment> {
    seq(|images|, i requires 0 <= i < |images| => Segment(images[i], seconds))
  }

  /** The total display time of a list of segments. */
  function TotalSeconds(segments: seq<Segment>): real
    decreases |segments|
  {
    if |segments| == 0 then 0.0
    else segments[0].seconds + TotalSeconds(segments[1..])
  }

  /** A timeline of `n` images of `d` seconds lasts `n * d` seconds. */
  lemma {:induction false} TimelineTotal(images: seq<string>, seconds: real)
    ensures TotalSeconds(Timeline(images, seconds)) == (|images| as real) * seconds
    decreases |images|
  {
    if |images| > 0 {
      TimelineTotal(images[1..], seconds);
      assert Timeline(images, seconds)[1..] == Timeline(images[1..], seconds);
    }
  }

  /** `total / count`: the equal share of `total` seconds for each of `count` images. */
  function ImageDuration(total: real, count: nat): (share: real)
    requires count > 0
    ensures share * (count as real) == total
    ensures total > 0.0 ==> share > 0.0
  {
    total / (count as real)
  }

  /** Splitting `total` equally over a non-empty list of images: the segments add up to `total` exactly. */
  lemma {:induction false} EqualSplitTotal(images: seq<string>, total: real)
    requires |images| > 0
    ensures TotalSeconds(Timeline(images, ImageDuration(total, |images|))) == total
  {
    TimelineTotal(images, ImageDuration(total, |images|));
  }
}
