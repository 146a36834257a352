/**
 `index.js`: every paragraph of the script is a scene, the image URLs go
 straight into the manifest, and every image is shown for five seconds.
 */
module IndexScript {
  import opened Wrappers
  import opened JsString
  import opened SceneParser
  import opened Manifest
  import opened Pipeline
  import opened Pushed
  import opened MainRun

  /** `index.js` keeps every scene of the parse: one per blank-line separator, plus one. */
  lemma {:induction false} IndexScenes(script: string)
    ensures Scenes(Index, script) == ParseScript(script, None)
    ensures |Scenes(Index, script)| == Occurrences(script, ParagraphBreak) + 1
  {
    ParseScriptScenes(script);
  }

  /**
   An `index.js` run that reached `createVideo` made one image per paragraph
   of the script and one audio clip per dialogue line, and its image list is
   the URLs the image calls answered with, in order.
   */
  lemma {:induction false} IndexImages(dir: string, render: real -> string, o: Oracle)
    ensures var run := Main(Index, dir, render, o);
      Reached(run) ==>
        && |run.images| == Occurrences(o(0).value, ParagraphBreak) + 1
        && |run.audio| == |AllDialogues(Scenes(Index, o(0).value))|
        && run.images == Collect(ImageEntries(Index), run.events)
  {
    var run := Main(Index, dir, render, o);
    MainVideo(Index, dir, render, o);
    MainCollected(Index, dir, render, o);
    if Reached(run) {
      IndexScenes(o(0).value);
    }
  }

  /** When no image call answered with a URL holding a line break, no image entry of an `index.js` run holds one. */
  lemma {:induction false} IndexImagesSingleLine(dir: string, render: real -> string, o: Oracle)
    requires var run := Main(Index, dir, render, o);
      forall i :: 0 <= i < |run.events| ==> YieldsFree(ImageEntries(Index), run.events[i], '\n')
    ensures var run := Main(Index, dir, render, o);
      forall j :: 0 <= j < |run.images| ==> '\n' !in run.images[j]
  {
    var run := Main(Index, dir, render, o);
    MainCollected(Index, dir, render, o);
    CollectFree(ImageEntries(Index), run.events, '\n');
  }

  /**
   When no image URL holds a line break, the manifest of an `index.js` run
   that reached `createVideo` reads back as a file line and a `duration 5`
   line per image.
   */
  lemma {:induction false} IndexManifest(dir: string, render: real -> string, o: Oracle)
    requires var run := Main(Index, dir, render, o);
      forall i :: 0 <= i < |run.events| ==> YieldsFree(ImageEntries(Index), run.events[i], '\n')
    ensures var run := Main(Index, dir, render, o);
      Reached(run) ==>
        && var lines := Split(VideoCall(run).manifest, "\n");
           && lines == ManifestLines(run.images, "5")
           && |lines| == 2 * |run.images|
  {
    var run := Main(Index, dir, render, o);
    MainVideo(Index, dir, render, o);
    IndexImagesSingleLine(dir, render, o);
    if Reached(run) {
      IndexScenes(o(0).value);
      ManifestReadsBack(run.images, "5");
    }
  }

  /**
   Every image of an `index.js` video is shown for five seconds, so a video
   with one image per scene lasts five seconds per paragraph of the script.
   */
  lemma {:induction false} IndexVideoLength(script: string, images: seq<string>)
    requires |images| == |Scenes(Index, script)|
    ensures TotalSeconds(Timeline(images, 5.0)) == ((Occurrences(script, ParagraphBreak) + 1) as real) * 5.0
  {
    IndexScenes(script);
    TimelineTotal(images, 5.0);
  }

  /**
   The video an `index.js` run hands to `createVideo`, read as five seconds
   per image, lasts five seconds per paragraph of the script.
   */
  lemma {:induction false} IndexRunLength(dir: string, render: real -> string, o: Oracle)
    ensures var run := Main(Index, dir, render, o);
      Reached(run) ==>
        && DurationText(Index, |run.images|, render) == "5"
        && TotalSeconds(Timeline(run.images, 5.0)) == ((Occurrences(o(0).value, ParagraphBreak) + 1) as real) * 5.0
  {
    var run := Main(Index, dir, render, o);
    MainVideo(Index, dir, render, o);
    if Reached(run) {
      IndexVideoLength(o(0).value, run.images);
    }
  }
}
