/**
 Properties of a whole run of `main`: the calls it makes against the plan
 the script calls for, the replies they get, what ends up in `images` and
 `audioFiles`, and what `createVideo` is handed.
 */
module MainRun {
  import opened JsString
  import opened SceneParser
  import opened Manifest
  import opened Pipeline
  import opened Replies
  import opened Pushed
  import opened CallOrder
  import opened CallShape

  /** The run got as far as `createVideo`: its last call is the video call. */
  predicate Reached(run: Run) {
    |run.events| > 0 && run.events[|run.events| - 1].request.CreateVideo?
  }

  /** The video call of a run that reached it. */
  function VideoCall(run: Run): Request
    requires Reached(run)
  {
    run.events[|run.events| - 1].request
  }

  /** The calls `main` plans once the script call has answered with `script`: the script call, every scene's calls, the video call. */
  function MainPlan(v: Variant, dir: string, script: string): seq<Step> {
    [ScriptStep(Prompt(v))] + Plan(v, ImageNamer(dir), Scenes(v, script), 0) + [VideoStep]
  }

  /** When the script call fails, `main` makes no other call and pushes nothing. */
  lemma MainScriptFailed(v: Variant, dir: string, render: real -> string, o: Oracle)
    requires o(0).Failed?
    ensures Main(v, dir, render, o).events == [Event(GenerateScript(Prompt(v)), Failed)]
    ensures Main(v, dir, render, o).images == [] && Main(v, dir, render, o).audio == []
    ensures !Reached(Main(v, dir, render, o))
  {
  }

  /** The script call, answered by reply 0, then a scene loop answered from reply 1 on: call `k` gets reply `k`. */
  lemma {:induction false} FinishAnswered(v: Variant, render: real -> string, scriptEvent: Event, c: Chunk, o: Oracle)
    requires scriptEvent.reply == o(0)
    requires Answered(c.events, o, 1)
    ensures Answered(Finish(v, render, scriptEvent, c, o).events, o, 0)
  {
    var run := Finish(v, render, scriptEvent, c, o);
    forall i | 0 <= i < |run.events| ensures run.events[i].reply == o(i) {
      if 1 <= i <= |c.events| {
        assert run.events[i] == c.events[i - 1];
      }
    }
  }

  /** Call `k` of a run gets the outside world's `k`-th reply. */
  lemma {:induction false} MainAnswered(v: Variant, dir: string, render: real -> string, o: Oracle)
    ensures Answered(Main(v, dir, render, o).events, o, 0)
  {
    if o(0).Ok? {
      var scenes := Scenes(v, o(0).value);
      var c := RunScenes(v, ImageNamer(dir), scenes, o, 1, 0);
      RunScenesRecorded(v, ImageNamer(dir), scenes, o, 1, 0);
      FinishAnswered(v, render, Event(GenerateScript(Prompt(v)), o(0)), c, o);
    }
  }

  /** A successful script call, then a fail-fast scene loop of scene calls only: only the last call can fail, and only the last can be the video call. */
  lemma {:induction false} FinishFailFast(v: Variant, render: real -> string, scriptEvent: Event, c: Chunk, o: Oracle)
    requires scriptEvent.request.GenerateScript? && scriptEvent.reply.Ok?
    requires FailFast(c.events, c.ok) && Shaped(c.events)
    ensures var run := Finish(v, render, scriptEvent, c, o);
      forall i :: 0 <= i < |run.events| - 1 ==> run.events[i].reply.Ok? && !run.events[i].request.CreateVideo?
    ensures var run := Finish(v, render, scriptEvent, c, o);
      !Reached(run) ==> run.events[|run.events| - 1].reply.Failed?
  {
    var run := Finish(v, render, scriptEvent, c, o);
    forall i | 1 <= i <= |c.events| ensures run.events[i] == c.events[i - 1] {
    }
  }

  /**
   A run stops at its first failed call: every call but the last succeeded,
   and a run that did not reach `createVideo` ended with a failed call.
   `createVideo` is made at most once, as the last call.
   */
  lemma {:induction false} MainFailFast(v: Variant, dir: string, render: real -> string, o: Oracle)
    ensures var run := Main(v, dir, render, o);
      forall i :: 0 <= i < |run.events| - 1 ==> run.events[i].reply.Ok? && !run.events[i].request.CreateVideo?
    ensures var run := Main(v, dir, render, o);
      !Reached(run) ==> run.events[|run.events| - 1].reply.Failed?
  {
    if o(0).Ok? {
      var name := ImageNamer(dir);
      var scenes := Scenes(v, o(0).value);
      var c := RunScenes(v, name, scenes, o, 1, 0);
      RunScenesRecorded(v, name, scenes, o, 1, 0);
      RunScenesShaped(v, name, scenes, o, 1, 0);
      FinishFailFast(v, render, Event(GenerateScript(Prompt(v)), o(0)), c, o);
    }
  }

  /** The script call, then a scene loop that follows `plan`, follows the script step, `plan`, and the video step; all of it exactly when the video call is reached. */
  lemma {:induction false} FinishFollows(v: Variant, render: real -> string, scriptEvent: Event, c: Chunk, o: Oracle, plan: seq<Step>)
    requires scriptEvent.request.GenerateScript?
    requires Follows(Steps(c.events), plan, c.ok) && Shaped(c.events)
    ensures var run := Finish(v, render, scriptEvent, c, o);
      var full := [ScriptStep(scriptEvent.request.prompt)] + plan + [VideoStep];
      Steps(run.events) <= full && (Reached(run) <==> Steps(run.events) == full)
  {
    var run := Finish(v, render, scriptEvent, c, o);
    var full := [ScriptStep(scriptEvent.request.prompt)] + plan + [VideoStep];
    StepsAppend([scriptEvent], c.events);
    assert Steps([scriptEvent]) == [ScriptStep(scriptEvent.request.prompt)];
    if c.ok {
      var videoEvent := run.events[|run.events| - 1];
      assert run.events == [scriptEvent] + c.events + [videoEvent];
      StepsAppend([scriptEvent] + c.events, [videoEvent]);
      assert Steps([videoEvent]) == [VideoStep];
    } else {
      var steps := Steps(run.events);
      assert steps == [ScriptStep(scriptEvent.request.prompt)] + Steps(c.events);
      assert full[..|steps|] == steps;
      if |c.events| > 0 {
        assert run.events[|run.events| - 1] == c.events[|c.events| - 1];
      }
    }
  }

  /**
   A run follows its plan: the calls it makes are a prefix of the plan for the
   script it was given, and they are the whole plan exactly when the run
   reached `createVideo`.
   */
  lemma {:induction false} MainFollowsPlan(v: Variant, dir: string, render: real -> string, o: Oracle)
    requires o(0).Ok?
    ensures Steps(Main(v, dir, render, o).events) <= MainPlan(v, dir, o(0).value)
    ensures Reached(Main(v, dir, render, o)) <==> Steps(Main(v, dir, render, o).events) == MainPlan(v, dir, o(0).value)
  {
    var name := ImageNamer(dir);
    var scenes := Scenes(v, o(0).value);
    var c := RunScenes(v, name, scenes, o, 1, 0);
    RunScenesFollowsPlan(v, name, scenes, o, 1, 0);
    RunScenesShaped(v, name, scenes, o, 1, 0);
    FinishFollows(v, render, Event(GenerateScript(Prompt(v)), o(0)), c, o, Plan(v, name, scenes, 0));
  }

  /** A script call, then a scene loop holding what its calls pushed: the run holds what its calls pushed. */
  lemma {:induction false} FinishCollected(v: Variant, render: real -> string, scriptEvent: Event, c: Chunk, o: Oracle)
    requires scriptEvent.request.GenerateScript?
    requires Collected(v, c)
    ensures var run := Finish(v, render, scriptEvent, c, o);
      run.images == Collect(ImageEntries(v), run.events) && run.audio == Collect(AudioClips, run.events)
  {
    CollectOne(ImageEntries(v), scriptEvent);
    CollectOne(AudioClips, scriptEvent);
    CollectAppend(ImageEntries(v), [scriptEvent], c.events);
    CollectAppend(AudioClips, [scriptEvent], c.events);
    if c.ok {
      var videoEvent := Event(VideoRequest(v, c.images, c.audio, render), o(1 + |c.events|));
      CollectOne(ImageEntries(v), videoEvent);
      CollectOne(AudioClips, videoEvent);
      CollectAppend(ImageEntries(v), [scriptEvent] + c.events, [videoEvent]);
      CollectAppend(AudioClips, [scriptEvent] + c.events, [videoEvent]);
    }
  }

  /** `images` and `audioFiles` hold exactly what the run's calls pushed, in call order. */
  lemma {:induction false} MainCollected(v: Variant, dir: string, render: real -> string, o: Oracle)
    ensures var run := Main(v, dir, render, o);
      run.images == Collect(ImageEntries(v), run.events) && run.audio == Collect(AudioClips, run.events)
  {
    var scriptEvent := Event(GenerateScript(Prompt(v)), o(0));
    if o(0).Ok? {
      var name := ImageNamer(dir);
      var scenes := Scenes(v, o(0).value);
      RunScenesCollected(v, name, scenes, o, 1, 0);
      FinishCollected(v, render, scriptEvent, RunScenes(v, name, scenes, o, 1, 0), o);
    } else {
      CollectOne(ImageEntries(v), scriptEvent);
      CollectOne(AudioClips, scriptEvent);
    }
  }

  /** A run that reaches the video call hands it the lists it built, holding what the scene loop pushed. */
  lemma {:induction false} FinishVideo(v: Variant, render: real -> string, scriptEvent: Event, c: Chunk, o: Oracle, images: nat, audio: nat)
    requires scriptEvent.request.GenerateScript?
    requires Pushes(c, images, audio) && Shaped(c.events)
    ensures var run := Finish(v, render, scriptEvent, c, o);
      Reached(run) ==>
        && VideoCall(run) == VideoRequest(v, run.images, run.audio, render)
        && |run.images| == images && |run.audio| == audio
  {
  }

  /**
   A run that reached `createVideo` hands it the manifest and audio argument
   for the lists it built: one image entry per scene and one audio clip per
   dialogue line.
   */
  lemma {:induction false} MainVideo(v: Variant, dir: string, render: real -> string, o: Oracle)
    ensures var run := Main(v, dir, render, o);
      Reached(run) ==>
        && o(0).Ok?
        && VideoCall(run) == VideoRequest(v, run.images, run.audio, render)
        && |run.images| == |Scenes(v, o(0).value)|
        && |run.audio| == |AllDialogues(Scenes(v, o(0).value))|
  {
    if o(0).Ok? {
      var name := ImageNamer(dir);
      var scenes := Scenes(v, o(0).value);
      RunScenesCounts(v, name, scenes, o, 1, 0);
      RunScenesShaped(v, name, scenes, o, 1, 0);
      FinishVideo(v, render, Event(GenerateScript(Prompt(v)), o(0)), RunScenes(v, name, scenes, o, 1, 0), o, |scenes|, |AllDialogues(scenes)|);
    }
  }

  /** The calls between the script call and the video call are the scene loop's. */
  lemma {:induction false} FinishShaped(v: Variant, render: real -> string, scriptEvent: Event, c: Chunk, o: Oracle)
    requires scriptEvent.request.GenerateScript?
    requires Shaped(c.events)
    ensures var run := Finish(v, render, scriptEvent, c, o);
      Shaped(run.events[1..if Reached(run) then |run.events| - 1 else |run.events|])
  {
  }

  /**
   Between the script call and the video call, a run makes only image,
   download and audio calls; every scene opens with its image call, and every
   download fetches the URL the image call just before it answered with.
   */
  lemma {:induction false} MainShaped(v: Variant, dir: string, render: real -> string, o: Oracle)
    ensures var run := Main(v, dir, render, o);
      Shaped(run.events[1..if Reached(run) then |run.events| - 1 else |run.events|])
  {
    if o(0).Ok? {
      var name := ImageNamer(dir);
      var scenes := Scenes(v, o(0).value);
      RunScenesShaped(v, name, scenes, o, 1, 0);
      FinishShaped(v, render, Event(GenerateScript(Prompt(v)), o(0)), RunScenes(v, name, scenes, o, 1, 0), o);
    }
  }

  /** In `demo.js` image entry `i` is the file `image_<i>.png` in `dir`: the list's length before the push names the file. */
  lemma {:induction false} MainDemoPaths(dir: string, render: real -> string, o: Oracle)
    ensures var run := Main(Demo, dir, render, o);
      forall i :: 0 <= i < |run.images| ==> run.images[i] == ImagePath(dir, i)
  {
    if o(0).Ok? {
      RunScenesDemoPaths(ImageNamer(dir), Scenes(Demo, o(0).value), o, 1, 0);
    }
  }

  /**
   `audioFiles.join("|")` as `createVideo` receives it: empty when there is no
   audio, and, when no audio call answered with a clip containing `|`,
   splitting it back gives the clips in order.
   */
  lemma {:induction false} MainAudioArgument(v: Variant, dir: string, render: real -> string, o: Oracle)
    requires var run := Main(v, dir, render, o);
      forall i :: 0 <= i < |run.events| ==> YieldsFree(AudioClips, run.events[i], '|')
    ensures var run := Main(v, dir, render, o);
      Reached(run) && |run.audio| == 0 ==> VideoCall(run).audioList == ""
    ensures var run := Main(v, dir, render, o);
      Reached(run) && |run.audio| > 0 ==> Split(VideoCall(run).audioList, "|") == run.audio
  {
    var run := Main(v, dir, render, o);
    MainVideo(v, dir, render, o);
    MainCollected(v, dir, render, o);
    CollectFree(AudioClips, run.events, '|');
    if |run.audio| > 0 {
      AudioArgumentReadsBack(run.audio);
    }
  }
}
