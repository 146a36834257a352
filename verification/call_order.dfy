/**
 The order of `main`'s external calls, stated against an independent
 description: the `Plan` of calls the scenes call for, which leaves out what
 depends on replies (the URL a download fetches, the text of the manifest).
 A run follows its plan: what it calls is a prefix of the plan, and all of
 it when every call succeeds.
 */
module CallOrder {
  import opened SceneParser
  import opened Pipeline

  /** A call with the arguments that do not depend on earlier replies. */
  datatype Step =
    | ScriptStep(prompt: string)
    | ImageStep(description: string)
    | DownloadStep(path: string)
    | AudioStep(text: string, voice: string)
    | VideoStep

  /** The step a call makes: the call without its reply-dependent arguments. */
  function StepOf(r: Request): Step {
    match r
    case GenerateScript(prompt) => ScriptStep(prompt)
    case GenerateImage(description) => ImageStep(description)
    case DownloadImage(_, path) => DownloadStep(path)
    case GenerateAudio(text, voice) => AudioStep(text, voice)
    case CreateVideo(_, _) => VideoStep
  }

  /** The steps of a list of recorded calls. */
  function Steps(events: seq<Event>): seq<Step>
    decreases |events|
  {
    if |events| == 0 then [] else [StepOf(events[0].request)] + Steps(events[1..])
  }

  /** The steps of two lists of calls, one after the other, are the steps of each, in order. */
  lemma {:induction false} StepsAppend(a: seq<Event>, b: seq<Event>)
    ensures Steps(a + b) == Steps(a) + Steps(b)
    decreases |a|
  {
    if |a| > 0 {
      assert (a + b)[1..] == a[1..] + b;
      StepsAppend(a[1..], b);
    } else {
      assert a + b == b;
    }
  }

  /** The plans of a loop's items, numbered from `index`, one after the other. */
  function Planned<T>(plan: (T, nat) -> seq<Step>, items: seq<T>, index: nat): seq<Step>
    decreases |items|
  {
    if |items| == 0 then [] else plan(items[0], index) + Planned(plan, items[1..], index + 1)
  }

  /** The call for one dialogue line. */
  function AudioPlan(): (string, nat) -> seq<Step> {
    (dialogue: string, index: nat) => [AudioStep(dialogue, VoiceId)]
  }

  /** The calls for a scene's dialogue lines: one audio call per line, in order, all with the same voice. */
  function DialoguePlan(dialogues: seq<string>): seq<Step> {
    Planned(AudioPlan(), dialogues, 0)
  }

  /** The opening calls for scene number `index`: its image, and in `demo.js` its download to `name(index)`. */
  function HeadPlan(v: Variant, name: nat -> string, scene: Scene, index: nat): seq<Step> {
    [ImageStep(scene.description)] + (if v == Demo then [DownloadStep(name(index))] else [])
  }

  /** The calls for scene number `index`: its opening calls, then its dialogue lines. */
  function ScenePlan(v: Variant, name: nat -> string, scene: Scene, index: nat): seq<Step> {
    HeadPlan(v, name, scene, index) + DialoguePlan(scene.dialogues)
  }

  /** The plan of each scene, as the loop body's plan. */
  function ScenePlans(v: Variant, name: nat -> string): (Scene, nat) -> seq<Step> {
    (scene: Scene, index: nat) => ScenePlan(v, name, scene, index)
  }

  /** The calls for all scenes, numbered from `index`, scene after scene. */
  function Plan(v: Variant, name: nat -> string, scenes: seq<Scene>, index: nat): seq<Step> {
    Planned(ScenePlans(v, name), scenes, index)
  }

  /** Calls that follow a plan: a prefix of it, and all of it when every call succeeded. */
  predicate Follows(steps: seq<Step>, plan: seq<Step>, ok: bool) {
    steps <= plan && (ok ==> steps == plan)
  }

  /** A part that stopped early inside its plan stopped early inside any longer plan. */
  lemma {:induction false} FollowsExtend(steps: seq<Step>, p: seq<Step>, q: seq<Step>)
    requires steps <= p
    ensures Follows(steps, p + q, false)
  {
  }

  /** A part that made its whole plan, followed by a part that follows its own plan, follows both plans together. */
  lemma {:induction false} ThenFollows(first: Chunk, rest: Chunk, p: seq<Step>, q: seq<Step>)
    ensures Steps(first.events) == p && Follows(Steps(rest.events), q, rest.ok) ==>
      Follows(Steps(Then(first, rest).events), p + q, Then(first, rest).ok)
  {
    StepsAppend(first.events, rest.events);
    if Steps(first.events) == p && Follows(Steps(rest.events), q, rest.ok) {
      assert (p + q)[..|p + Steps(rest.events)|] == p + Steps(rest.events);
    }
  }

  /** A part that follows plan `p`, then (if it succeeded) a part that follows plan `q`, follows `p + q`. */
  lemma NextFollows(first: Chunk, rest: Chunk, p: seq<Step>, q: seq<Step>)
    ensures (&& Follows(Steps(first.events), p, first.ok)
             && Follows(Steps(rest.events), q, rest.ok)) ==>
      Follows(Steps(Next(first, rest).events), p + q, Next(first, rest).ok)
  {
    if first.ok {
      ThenFollows(first, rest, p, q);
    } else if Follows(Steps(first.events), p, first.ok) {
      FollowsExtend(Steps(first.events), p, q);
    }
  }

  /** A loop whose every turn follows its item's plan follows the plans of all items, in order. */
  lemma {:induction false} LoopFollows<T>(turn: Turn<T>, plan: (T, nat) -> seq<Step>, items: seq<T>, base: nat, index: nat)
    requires forall x, b, i :: Follows(Steps(turn(x, b, i).events), plan(x, i), turn(x, b, i).ok)
    ensures Follows(Steps(RunLoop(turn, items, base, index).events), Planned(plan, items, index), RunLoop(turn, items, base, index).ok)
    decreases |items|
  {
    if |items| > 0 {
      var first := turn(items[0], base, index);
      var rest := RunLoop(turn, items[1..], base + |first.events|, index + 1);
      LoopFollows(turn, plan, items[1..], base + |first.events|, index + 1);
      NextFollows(first, rest, plan(items[0], index), Planned(plan, items[1..], index + 1));
    }
  }

  /** One audio call makes the call planned for its line. */
  lemma {:induction false} AudioCallFollows(dialogue: string, o: Oracle, base: nat, index: nat)
    ensures Follows(Steps(AudioTurn(o)(dialogue, base, index).events), AudioPlan()(dialogue, index), AudioTurn(o)(dialogue, base, index).ok)
  {
  }

  /** The dialogue loop makes the planned audio calls, in order, stopping early only on failure. */
  lemma {:induction false} RunDialoguesFollowsPlan(dialogues: seq<string>, o: Oracle, base: nat)
    ensures Follows(Steps(RunDialogues(dialogues, o, base).events), DialoguePlan(dialogues), RunDialogues(dialogues, o, base).ok)
  {
    forall d, b, i ensures Follows(Steps(AudioTurn(o)(d, b, i).events), AudioPlan()(d, i), AudioTurn(o)(d, b, i).ok) {
      AudioCallFollows(d, o, b, i);
    }
    LoopFollows(AudioTurn(o), AudioPlan(), dialogues, base, 0);
  }

  /** A scene's opening makes its planned calls, stopping early only on failure. */
  lemma {:induction false} SceneHeadFollows(v: Variant, name: nat -> string, scene: Scene, o: Oracle, base: nat, index: nat)
    ensures Follows(Steps(SceneHead(v, name, scene, o, base, index).events), HeadPlan(v, name, scene, index), SceneHead(v, name, scene, o, base, index).ok)
  {
    var imageEvent := Event(GenerateImage(scene.description), o(base));
    var imageStep := [ImageStep(scene.description)];
    assert Steps([imageEvent]) == imageStep;
    if o(base).Ok? && v == Demo {
      var downloadEvent := Event(DownloadImage(o(base).value, name(index)), o(base + 1));
      StepsAppend([imageEvent], [downloadEvent]);
      assert [imageEvent] + [downloadEvent] == [imageEvent, downloadEvent];
    } else if o(base).Failed? && v == Demo {
      FollowsExtend(imageStep, imageStep, [DownloadStep(name(index))]);
    }
  }

  /** One scene's turn makes its planned calls, in order, stopping early only on failure. */
  lemma {:induction false} RunSceneFollowsPlan(v: Variant, name: nat -> string, scene: Scene, o: Oracle, base: nat, index: nat)
    ensures Follows(Steps(RunScene(v, name, scene, o, base, index).events), ScenePlan(v, name, scene, index), RunScene(v, name, scene, o, base, index).ok)
  {
    var head := SceneHead(v, name, scene, o, base, index);
    SceneHeadFollows(v, name, scene, o, base, index);
    RunDialoguesFollowsPlan(scene.dialogues, o, base + |head.events|);
    NextFollows(head, RunDialogues(scene.dialogues, o, base + |head.events|), HeadPlan(v, name, scene, index), DialoguePlan(scene.dialogues));
  }

  /**
   The scene loop makes the planned calls of every scene, scene after scene:
   what it issues is always a prefix of the plan, and all of it when every
   call succeeds.
   */
  lemma {:induction false} RunScenesFollowsPlan(v: Variant, name: nat -> string, scenes: seq<Scene>, o: Oracle, base: nat, index: nat)
    ensures Follows(Steps(RunScenes(v, name, scenes, o, base, index).events), Plan(v, name, scenes, index), RunScenes(v, name, scenes, o, base, index).ok)
  {
    var turn := SceneTurn(v, name, o);
    forall s, b, i ensures Follows(Steps(turn(s, b, i).events), ScenePlans(v, name)(s, i), turn(s, b, i).ok) {
      RunSceneFollowsPlan(v, name, s, o, b, i);
    }
    LoopFollows(turn, ScenePlans(v, name), scenes, base, index);
  }
}
