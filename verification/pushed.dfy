/**
 What `main` pushes onto `images` and `audioFiles`, read back off the
 recorded calls: a successful audio call pushes its clip; in `demo.js` a
 successful download pushes its local path, in `index.js` a successful image
 call pushes the URL it answered with. Also how many entries a successful
 run pushes, and how `demo.js` numbers its image files.
 */
module Pushed {
  import opened SceneParser
  import opened Pipeline

  /** Which list a recorded call contributes to. */
  datatype Harvest = AudioClips | ImageEntries(v: Variant)

  /** What one recorded call pushes onto the list `h`. */
  function Yield(h: Harvest, e: Event): seq<string> {
    match h
    case AudioClips => if e.request.GenerateAudio? && e.reply.Ok? then [e.reply.value] else []
    case ImageEntries(Demo) => if e.request.DownloadImage? && e.reply.Ok? then [e.request.path] else []
    case ImageEntries(Index) => if e.request.GenerateImage? && e.reply.Ok? then [e.reply.value] else []
  }

  /** Everything a list of recorded calls pushes onto `h`, in call order. */
  function Collect(h: Harvest, events: seq<Event>): seq<string>
    decreases |events|
  {
    if |events| == 0 then [] else Yield(h, events[0]) + Collect(h, events[1..])
  }

  /** What two lists of calls push, one after the other, is what each pushes, in order. */
  lemma {:induction false} CollectAppend(h: Harvest, a: seq<Event>, b: seq<Event>)
    ensures Collect(h, a + b) == Collect(h, a) + Collect(h, b)
    decreases |a|
  {
    if |a| > 0 {
      assert (a + b)[1..] == a[1..] + b;
      CollectAppend(h, a[1..], b);
    } else {
      assert a + b == b;
    }
  }

  /** What one call pushes, read off a list holding just that call. */
  lemma {:induction false} CollectOne(h: Harvest, e: Event)
    ensures Collect(h, [e]) == Yield(h, e)
  {
  }

  /** A part whose image and audio lists are exactly what its calls pushed, in call order. */
  predicate Collected(v: Variant, c: Chunk) {
    c.images == Collect(ImageEntries(v), c.events) && c.audio == Collect(AudioClips, c.events)
  }

  /** Two parts holding what they pushed, one after the other, hold what they pushed together. */
  lemma {:induction false} ThenCollected(v: Variant, first: Chunk, rest: Chunk)
    ensures Collected(v, first) && Collected(v, rest) ==> Collected(v, Then(first, rest))
  {
    CollectAppend(ImageEntries(v), first.events, rest.events);
    CollectAppend(AudioClips, first.events, rest.events);
  }

  /** A part holding what it pushed, then (if it succeeded) another, holds what it pushed. */
  lemma NextCollected(v: Variant, first: Chunk, rest: Chunk)
    ensures Collected(v, first) && Collected(v, rest) ==> Collected(v, Next(first, rest))
  {
    ThenCollected(v, first, rest);
  }

  /** A loop whose every turn holds what it pushed holds what it pushed. */
  lemma {:induction false} LoopCollected<T>(v: Variant, turn: Turn<T>, items: seq<T>, base: nat, index: nat)
    requires forall x, b, i :: Collected(v, turn(x, b, i))
    ensures Collected(v, RunLoop(turn, items, base, index))
    decreases |items|
  {
    if |items| > 0 {
      var first := turn(items[0], base, index);
      LoopCollected(v, turn, items[1..], base + |first.events|, index + 1);
      NextCollected(v, first, RunLoop(turn, items[1..], base + |first.events|, index + 1));
    }
  }

  /** One audio call pushes its clip if it succeeded, and no image. */
  lemma {:induction false} AudioCallCollected(v: Variant, dialogue: string, o: Oracle, base: nat, index: nat)
    ensures Collected(v, AudioTurn(o)(dialogue, base, index))
  {
  }

  /** The dialogue loop's audio list is the clips its calls answered with, and it pushes no image. */
  lemma {:induction false} RunDialoguesCollected(v: Variant, dialogues: seq<string>, o: Oracle, base: nat)
    ensures Collected(v, RunDialogues(dialogues, o, base))
  {
    forall d, b, i ensures Collected(v, AudioTurn(o)(d, b, i)) {
      AudioCallCollected(v, d, o, b, i);
    }
    LoopCollected(v, AudioTurn(o), dialogues, base, 0);
  }

  /** A scene's opening calls push its image entry if they succeeded, and no clip. */
  lemma {:induction false} SceneHeadCollected(v: Variant, name: nat -> string, scene: Scene, o: Oracle, base: nat, index: nat)
    ensures Collected(v, SceneHead(v, name, scene, o, base, index))
  {
    var imageEvent := Event(GenerateImage(scene.description), o(base));
    CollectOne(ImageEntries(v), imageEvent);
    CollectOne(AudioClips, imageEvent);
    if o(base).Ok? && v == Demo {
      var downloadEvent := Event(DownloadImage(o(base).value, name(index)), o(base + 1));
      CollectOne(ImageEntries(v), downloadEvent);
      CollectOne(AudioClips, downloadEvent);
      CollectAppend(ImageEntries(v), [imageEvent], [downloadEvent]);
      CollectAppend(AudioClips, [imageEvent], [downloadEvent]);
      assert [imageEvent] + [downloadEvent] == [imageEvent, downloadEvent];
    }
  }

  /** One scene's turn: its image and audio lists are exactly what its calls pushed. */
  lemma {:induction false} RunSceneCollected(v: Variant, name: nat -> string, scene: Scene, o: Oracle, base: nat, index: nat)
    ensures Collected(v, RunScene(v, name, scene, o, base, index))
  {
    var head := SceneHead(v, name, scene, o, base, index);
    SceneHeadCollected(v, name, scene, o, base, index);
    RunDialoguesCollected(v, scene.dialogues, o, base + |head.events|);
    NextCollected(v, head, RunDialogues(scene.dialogues, o, base + |head.events|));
  }

  /** The scene loop: `images` and `audioFiles` hold exactly what the recorded calls pushed, in call order. */
  lemma {:induction false} RunScenesCollected(v: Variant, name: nat -> string, scenes: seq<Scene>, o: Oracle, base: nat, index: nat)
    ensures Collected(v, RunScenes(v, name, scenes, o, base, index))
  {
    var turn := SceneTurn(v, name, o);
    forall s, b, i ensures Collected(v, turn(s, b, i)) {
      RunSceneCollected(v, name, s, o, b, i);
    }
    LoopCollected(v, turn, scenes, base, index);
  }

  /** One recorded call pushes no entry onto `h` that contains `c`. */
  predicate YieldsFree(h: Harvest, e: Event, c: char) {
    forall x :: x in Yield(h, e) ==> c !in x
  }

  /** A character that no single call pushes onto `h` is in no entry of `h`. */
  lemma {:induction false} CollectFree(h: Harvest, events: seq<Event>, c: char)
    requires forall i :: 0 <= i < |events| ==> YieldsFree(h, events[i], c)
    ensures forall j :: 0 <= j < |Collect(h, events)| ==> c !in Collect(h, events)[j]
    decreases |events|
  {
    if |events| > 0 {
      CollectFree(h, events[1..], c);
      var rest := Collect(h, events[1..]);
      var all := Collect(h, events);
      forall j | 0 <= j < |all| ensures c !in all[j] {
        if j >= |Yield(h, events[0])| {
          assert all[j] == rest[j - |Yield(h, events[0])|];
        } else {
          assert all[j] in Yield(h, events[0]);
        }
      }
    }
  }

  /** The sum of `per` over the items. */
  function Total<T>(per: T -> nat, items: seq<T>): nat
    decreases |items|
  {
    if |items| == 0 then 0 else per(items[0]) + Total(per, items[1..])
  }

  /** If the part succeeded, it pushed `images` image entries and `audio` audio entries. */
  predicate Pushes(c: Chunk, images: nat, audio: nat) {
    c.ok ==> |c.images| == images && |c.audio| == audio
  }

  /** A loop that succeeded pushed what its turns push, summed over the items. */
  lemma {:induction false} LoopCounts<T>(turn: Turn<T>, items: seq<T>, base: nat, index: nat, images: T -> nat, audio: T -> nat)
    requires forall x, b, i :: Pushes(turn(x, b, i), images(x), audio(x))
    ensures Pushes(RunLoop(turn, items, base, index), Total(images, items), Total(audio, items))
    decreases |items|
  {
    if |items| > 0 {
      var first := turn(items[0], base, index);
      LoopCounts(turn, items[1..], base + |first.events|, index + 1, images, audio);
    }
  }

  /** Counting one per item counts the items. */
  lemma {:induction false} TotalOnes<T>(items: seq<T>)
    ensures Total((x: T) => 1, items) == |items|
    decreases |items|
  {
    if |items| > 0 {
      TotalOnes(items[1..]);
    }
  }

  /** Counting the dialogue lines of each scene counts all dialogue lines. */
  lemma {:induction false} TotalDialogues(scenes: seq<Scene>)
    ensures Total((s: Scene) => |s.dialogues|, scenes) == |AllDialogues(scenes)|
    decreases |scenes|
  {
    if |scenes| > 0 {
      TotalDialogues(scenes[1..]);
    }
  }

  /** A loop whose turns push no image pushes no image. */
  lemma {:induction false} LoopNoImages<T>(turn: Turn<T>, items: seq<T>, base: nat, index: nat)
    requires forall x, b, i :: turn(x, b, i).images == []
    ensures RunLoop(turn, items, base, index).images == []
    decreases |items|
  {
    if |items| > 0 {
      var first := turn(items[0], base, index);
      LoopNoImages(turn, items[1..], base + |first.events|, index + 1);
    }
  }

  /** The dialogue loop pushes no image, and when it succeeded it pushed one audio clip per line. */
  lemma {:induction false} RunDialoguesCounts(dialogues: seq<string>, o: Oracle, base: nat)
    ensures RunDialogues(dialogues, o, base).images == []
    ensures Pushes(RunDialogues(dialogues, o, base), 0, |dialogues|)
  {
    var none := (d: string) => 0;
    var one := (d: string) => 1;
    forall d, b, i ensures Pushes(AudioTurn(o)(d, b, i), none(d), one(d)) {
    }
    LoopCounts(AudioTurn(o), dialogues, base, 0, none, one);
    TotalOnes(dialogues);
    assert Total(none, dialogues) == 0 by {
      TotalZero(dialogues);
    }
    LoopNoImages(AudioTurn(o), dialogues, base, 0);
  }

  /** Counting nothing per item counts nothing. */
  lemma {:induction false} TotalZero<T>(items: seq<T>)
    ensures Total((x: T) => 0, items) == 0
    decreases |items|
  {
    if |items| > 0 {
      TotalZero(items[1..]);
    }
  }

  /** A scene's turn that succeeded pushed one image entry and one audio clip per dialogue line. */
  lemma {:induction false} RunSceneCounts(v: Variant, name: nat -> string, scene: Scene, o: Oracle, base: nat, index: nat)
    ensures Pushes(RunScene(v, name, scene, o, base, index), 1, |scene.dialogues|)
  {
    var head := SceneHead(v, name, scene, o, base, index);
    RunDialoguesCounts(scene.dialogues, o, base + |head.events|);
  }

  /** The scene loop, when it succeeded, pushed one image entry per scene and one audio clip per dialogue line of every scene. */
  lemma {:induction false} RunScenesCounts(v: Variant, name: nat -> string, scenes: seq<Scene>, o: Oracle, base: nat, index: nat)
    ensures Pushes(RunScenes(v, name, scenes, o, base, index), |scenes|, |AllDialogues(scenes)|)
  {
    var turn := SceneTurn(v, name, o);
    var one := (s: Scene) => 1;
    var lines := (s: Scene) => |s.dialogues|;
    forall s, b, i ensures Pushes(turn(s, b, i), one(s), lines(s)) {
      RunSceneCounts(v, name, s, o, b, i);
    }
    LoopCounts(turn, scenes, base, index, one, lines);
    TotalOnes(scenes);
    TotalDialogues(scenes);
  }

  /** Image entries numbered from `index`: entry `i` is `name(index + i)`. */
  predicate Numbered(images: seq<string>, name: nat -> string, index: nat) {
    forall i :: 0 <= i < |images| ==> images[i] == name(index + i)
  }

  /** A turn numbered `index` that pushed one entry if it succeeded, then entries numbered from `index + 1`. */
  lemma NextNumbered(first: Chunk, rest: Chunk, name: nat -> string, index: nat)
    ensures (&& (first.ok ==> |first.images| == 1)
             && Numbered(first.images, name, index)
             && Numbered(rest.images, name, index + 1)) ==>
      Numbered(Next(first, rest).images, name, index)
  {
  }

  /** A loop whose turn number `i` pushes at most the entry `name(i)`, and exactly it when it succeeds, numbers its entries from `index`. */
  lemma {:induction false} LoopNumbered<T>(turn: Turn<T>, items: seq<T>, base: nat, index: nat, name: nat -> string)
    requires forall x, b, i :: (turn(x, b, i).ok ==> |turn(x, b, i).images| == 1) && Numbered(turn(x, b, i).images, name, i)
    ensures Numbered(RunLoop(turn, items, base, index).images, name, index)
    decreases |items|
  {
    if |items| > 0 {
      var first := turn(items[0], base, index);
      LoopNumbered(turn, items[1..], base + |first.events|, index + 1, name);
      NextNumbered(first, RunLoop(turn, items[1..], base + |first.events|, index + 1), name, index);
    }
  }

  /** In `demo.js` a scene's turn pushes its own path, `name(index)`, once its download succeeded, and nothing if it did not. */
  lemma {:induction false} DemoSceneImage(name: nat -> string, scene: Scene, o: Oracle, base: nat, index: nat)
    ensures RunScene(Demo, name, scene, o, base, index).images ==
      (if o(base).Ok? && o(base + 1).Ok? then [name(index)] else [])
  {
    var head := SceneHead(Demo, name, scene, o, base, index);
    RunDialoguesCounts(scene.dialogues, o, base + |head.events|);
  }

  /** In `demo.js` the i-th image entry is always `name(index + i)`: entries are numbered by the list length before the push. */
  lemma {:induction false} RunScenesDemoPaths(name: nat -> string, scenes: seq<Scene>, o: Oracle, base: nat, index: nat)
    ensures Numbered(RunScenes(Demo, name, scenes, o, base, index).images, name, index)
  {
    var turn := SceneTurn(Demo, name, o);
    forall s, b, i ensures (turn(s, b, i).ok ==> |turn(s, b, i).images| == 1) && Numbered(turn(s, b, i).images, name, i) {
      DemoSceneImage(name, s, o, b, i);
      RunSceneCounts(Demo, name, s, o, b, i);
    }
    LoopNumbered(turn, scenes, base, index, name);
  }
}
