/**
 `demo.js`: at most three scenes, each image downloaded to
 `image_<i>.png` beside the script, and a thirty-second video whose images
 share the time equally.
 */
module DemoScript {
  import opened Wrappers
  import opened JsString
  import opened SceneParser
  import opened Manifest
  import opened Pipeline
  import opened MainRun

  /** `demo.js` keeps the first three scenes of the parse, in order, and always at least one. */
  lemma {:induction false} DemoScenes(script: string)
    ensures 1 <= |Scenes(Demo, script)| <= DemoSceneLimit
    ensures Scenes(Demo, script) == ParseScript(script, None)[..Min(DemoSceneLimit, |ParseScript(script, None)|)]
  {
  }

  /** With one to three images, each one's share of the thirty seconds is a whole number of seconds: 30, 15 or 10. */
  lemma {:induction false} DemoShares(n: nat)
    requires 1 <= n <= DemoSceneLimit
    ensures n == 1 ==> ImageDuration(VideoDuration, n) == 30.0
    ensures n == 2 ==> ImageDuration(VideoDuration, n) == 15.0
    ensures n == 3 ==> ImageDuration(VideoDuration, n) == 10.0
  {
  }

  /** Distinct scenes are downloaded to distinct files: no image overwrites another. */
  lemma {:induction false} DemoImagesDistinct(dir: string, render: real -> string, o: Oracle)
    ensures var run := Main(Demo, dir, render, o);
      forall i, j :: 0 <= i < j < |run.images| ==> run.images[i] != run.images[j]
  {
    var run := Main(Demo, dir, render, o);
    MainDemoPaths(dir, render, o);
    forall i, j | 0 <= i < j < |run.images| ensures run.images[i] != run.images[j] {
      ImagePathInjective(dir, i, j);
    }
  }

  /** An image path holds a line break only if the directory does. */
  lemma {:induction false} ImagePathSingleLine(dir: string, index: nat)
    requires '\n' !in dir
    ensures '\n' !in ImagePath(dir, index)
  {
  }

  /**
   A `demo.js` run that reached `createVideo` made one to three images, and,
   when neither the directory nor the printed duration holds a line break,
   the manifest reads back as a file line for `image_<i>.png` and a duration
   line for each image, `30 / n` seconds printed for every one of the `n`.
   */
  lemma {:induction false} DemoManifest(dir: string, render: real -> string, o: Oracle)
    requires '\n' !in dir
    requires forall r :: '\n' !in render(r)
    ensures var run := Main(Demo, dir, render, o);
      Reached(run) ==>
        && 1 <= |run.images| <= DemoSceneLimit
        && var lines := Split(VideoCall(run).manifest, "\n");
           && lines == ManifestLines(run.images, render(ImageDuration(VideoDuration, |run.images|)))
           && |lines| == 2 * |run.images|
           && forall i :: 0 <= i < |run.images| ==> lines[2 * i] == FileLine(ImagePath(dir, i))
  {
    var run := Main(Demo, dir, render, o);
    MainVideo(Demo, dir, render, o);
    MainDemoPaths(dir, render, o);
    if Reached(run) {
      DemoScenes(o(0).value);
      var n := |run.images|;
      var text := render(ImageDuration(VideoDuration, n));
      forall i | 0 <= i < n ensures '\n' !in run.images[i] {
        ImagePathSingleLine(dir, i);
      }
      ManifestReadsBack(run.images, text);
      ManifestLinesAt(run.images, text);
    }
  }

  /** The images of a `demo.js` video that got made share `VIDEO_DURATION` exactly: the segments add up to thirty seconds. */
  lemma {:induction false} DemoTimeline(dir: string, render: real -> string, o: Oracle)
    ensures var run := Main(Demo, dir, render, o);
      Reached(run) ==>
        && DurationText(Demo, |run.images|, render) == render(ImageDuration(VideoDuration, |run.images|))
        && TotalSeconds(Timeline(run.images, ImageDuration(VideoDuration, |run.images|))) == VideoDuration
  {
    var run := Main(Demo, dir, render, o);
    MainVideo(Demo, dir, render, o);
    if Reached(run) {
      DemoScenes(o(0).value);
      EqualSplitTotal(run.images, VideoDuration);
    }
  }
}
