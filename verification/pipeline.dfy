/**
 The body of `main`, shared by both scripts: ask for a script, parse it,
 then for each scene in order ask for an image (and, in `demo.js`, download
 it to `image_<i>.png`) and for one audio clip per dialogue line in order,
 and finally hand the collected images and audio to `createVideo`.

 Every external call is awaited before the next one is made, and a rejected
 call rejects `main`, so nothing after it happens. The outside world is an
 `Oracle`: the reply to the k-th external call of the run, success with a
 string or failure. A run records each call and its reply as an `Event`.
 */
module Pipeline {
  import opened Wrappers
  import opened JsString
  import opened SceneParser
  import opened Manifest

  /** Which of the two scripts runs: `demo.js` or `index.js`. */
  datatype Variant = Demo | Index

  /** An external call, with the arguments the script passes to it. */
  datatype Request =
    | GenerateScript(prompt: string)
    | GenerateImage(description: string)
    | DownloadImage(url: string, path: string)
    | GenerateAudio(text: string, voice: string)
    | CreateVideo(manifest: string, audioList: string)

  /** How an awaited call settles: resolved with a value, or rejected. */
  datatype Reply = Ok(value: string) | Failed

  /** One external call of a run and its reply. */
  datatype Event = Event(request: Request, reply: Reply)

  /** The reply the outside world gives to the k-th external call of a run, counting from 0. */
  type Oracle = nat -> Reply

  /** The voice every dialogue line is spoken with. */
  const VoiceId: string := "pMsXgVXv3BLzUgSXRplE"

  /** `VIDEO_DURATION` in `demo.js`, in seconds. */
  const VideoDuration: real := 30.0

  /** The number of scenes `demo.js` keeps. */
  const DemoSceneLimit: nat := 3

  /** The prompt each script sends for its script. */
  function Prompt(v: Variant): string {
    match v
    case Demo => "Write a short script about a magical forest adventure."
    case Index => "Write a short script about a magical forest adventure"
  }

  /** How many scenes the script keeps, if it caps them. */
  function SceneLimit(v: Variant): Option<nat> {
    match v
    case Demo => Some(DemoSceneLimit)
    case Index => None
  }

  /** `path.join(dir, "image_" + i + ".png")`: where `demo.js` stores the image of scene `i`. */
  function ImagePath(dir: string, index: nat): string {
    dir + "/image_" + NatToString(index) + ".png"
  }

  /** Distinct scene numbers give distinct image paths, in the same directory. */
  lemma {:induction false} ImagePathInjective(dir: string, a: nat, b: nat)
    ensures ImagePath(dir, a) == ImagePath(dir, b) ==> a == b
  {
    if ImagePath(dir, a) == ImagePath(dir, b) {
      var prefix := dir + "/image_";
      var sa := NatToString(a);
      var sb := NatToString(b);
      assert ImagePath(dir, a) == prefix + sa + ".png";
      assert ImagePath(dir, b) == prefix + sb + ".png";
      assert |sa| == |sb|;
      assert sa == ImagePath(dir, a)[|prefix|..|prefix| + |sa|];
      assert sb == ImagePath(dir, b)[|prefix|..|prefix| + |sb|];
      NatToStringInjective(a, b);
    }
  }

  /** The naming scheme `main` uses in `demo.js`: scene `i`'s image goes to `ImagePath(dir, i)`. */
  function ImageNamer(dir: string): nat -> string {
    (i: nat) => ImagePath(dir, i)
  }

  /**
   The duration text each manifest entry carries for `count` images: `demo.js`
   prints `VIDEO_DURATION / images.length` (with `render` standing for
   JavaScript's number printing, and `Infinity` when there are no images, a
   value no entry then shows); `index.js` writes a fixed `5`.
   */
  function DurationText(v: Variant, count: nat, render: real -> string): (text: string)
    ensures v == Index ==> text == "5"
    ensures v == Demo && count == 0 ==> text == "Infinity"
    ensures v == Demo && count > 0 ==>
      exists share: real {:trigger render(share)} :: share * (count as real) == VideoDuration && text == render(share)
  {
    match v
    case Demo =>
      if count == 0 then "Infinity"
      else
        var share := ImageDuration(VideoDuration, count);
        assert share * (count as real) == VideoDuration;
        render(share)
    case Index => "5"
  }

  /** The `createVideo` call for the collected images and audio: the manifest text and the audio argument. */
  function VideoRequest(v: Variant, images: seq<string>, audio: seq<string>, render: real -> string): (r: Request)
    ensures r.CreateVideo?
    ensures r.manifest == "" <==> |images| == 0
    ensures |images| > 0 ==> FileLine(images[0]) + "\n" <= r.manifest
    ensures |audio| == 0 ==> r.audioList == ""
    ensures |audio| == 1 ==> r.audioList == audio[0]
  {
    CreateVideo(ManifestText(images, DurationText(v, |images|, render)), AudioArgument(audio))
  }

  /** What part of a run produced: its calls, the image and audio entries pushed, and whether every call succeeded. */
  datatype Chunk = Chunk(events: seq<Event>, images: seq<string>, audio: seq<string>, ok: bool)

  /** A finished part of a run followed by the next part. */
  function Then(first: Chunk, rest: Chunk): Chunk {
    Chunk(first.events + rest.events, first.images + rest.images, first.audio + rest.audio, rest.ok)
  }

  /**
   A part of a run, then what `main` goes on to do: a rejected `await` in
   `first` rejects `main`, so `rest` only happens when `first` succeeded.
   */
  function Next(first: Chunk, rest: Chunk): Chunk {
    if first.ok then Then(first, rest) else first
  }

  /** The body of a `for` loop: what it does for an item, given the number of calls made before it and the item's position. */
  type Turn<-T> = (T, nat, nat) -> Chunk

  /** A `for` loop over `items` whose body awaits its calls: one turn per item, in order, up to the first failed call. */
  function RunLoop<T>(turn: Turn<T>, items: seq<T>, base: nat, index: nat): Chunk
    decreases |items|
  {
    if |items| == 0 then Chunk([], [], [], true)
    else
      var first := turn(items[0], base, index);
      Next(first, RunLoop(turn, items[1..], base + |first.events|, index + 1))
  }

  /** Every dialogue line of every scene, scene by scene and in line order within a scene. */
  function AllDialogues(scenes: seq<Scene>): seq<string>
    decreases |scenes|
  {
    if |scenes| == 0 then [] else scenes[0].dialogues + AllDialogues(scenes[1..])
  }

  /** `audioFiles.push(await generateAudio(dialogue, voiceId))`: one audio call, pushing the clip it answers with. */
  function AudioCall(dialogue: string, o: Oracle, base: nat): Chunk {
    var reply := o(base);
    var event := Event(GenerateAudio(dialogue, VoiceId), reply);
    if reply.Failed? then Chunk([event], [], [], false) else Chunk([event], [], [reply.value], true)
  }

  /** The body of the inner loop. */
  function AudioTurn(o: Oracle): Turn<string> {
    (dialogue: string, base: nat, index: nat) => AudioCall(dialogue, o, base)
  }

  /** The inner loop: one audio call per dialogue line, in order. */
  function RunDialogues(dialogues: seq<string>, o: Oracle, base: nat): Chunk {
    RunLoop(AudioTurn(o), dialogues, base, 0)
  }

  /**
   The opening of the outer loop's turn for scene number `index`: generate
   its image; in `demo.js` download it to the local path `name(index)` and
   push that path, in `index.js` push the URL itself.
   */
  function SceneHead(v: Variant, name: nat -> string, scene: Scene, o: Oracle, base: nat, index: nat): Chunk {
    var imageReply := o(base);
    var imageEvent := Event(GenerateImage(scene.description), imageReply);
    if imageReply.Failed? then Chunk([imageEvent], [], [], false)
    else
      match v
      case Index => Chunk([imageEvent], [imageReply.value], [], true)
      case Demo =>
        var path := name(index);
        var downloadReply := o(base + 1);
        var downloadEvent := Event(DownloadImage(imageReply.value, path), downloadReply);
        if downloadReply.Failed? then Chunk([imageEvent, downloadEvent], [], [], false)
        else Chunk([imageEvent, downloadEvent], [path], [], true)
  }

  /** The outer loop's turn for scene number `index`: its opening, then its dialogues. */
  function RunScene(v: Variant, name: nat -> string, scene: Scene, o: Oracle, base: nat, index: nat): Chunk {
    var head := SceneHead(v, name, scene, o, base, index);
    Next(head, RunDialogues(scene.dialogues, o, base + |head.events|))
  }

  /** The body of the outer loop. */
  function SceneTurn(v: Variant, name: nat -> string, o: Oracle): Turn<Scene> {
    (scene: Scene, base: nat, index: nat) => RunScene(v, name, scene, o, base, index)
  }

  /** The outer loop over the scenes, numbered from `index`. */
  function RunScenes(v: Variant, name: nat -> string, scenes: seq<Scene>, o: Oracle, base: nat, index: nat): Chunk {
    RunLoop(SceneTurn(v, name, o), scenes, base, index)
  }

  /** What one run of `main` did: its calls in order, and the image and audio lists it built. */
  datatype Run = Run(events: seq<Event>, images: seq<string>, audio: seq<string>)

  /** The scenes `main` works on, once the script call has answered with `script`. */
  function Scenes(v: Variant, script: string): seq<Scene> {
    ParseScript(script, SceneLimit(v))
  }

  /**
   What `main` does after the scene loop, given the script call and the
   loop's part: if every scene call succeeded, `createVideo` is the next call.
   */
  function Finish(v: Variant, render: real -> string, scriptEvent: Event, c: Chunk, o: Oracle): Run {
    if !c.ok then Run([scriptEvent] + c.events, c.images, c.audio)
    else
      var videoEvent := Event(VideoRequest(v, c.images, c.audio, render), o(1 + |c.events|));
      Run([scriptEvent] + c.events + [videoEvent], c.images, c.audio)
  }

  /**
   `main()`: the script call is call number 0; scene calls follow; if they all
   succeed, `createVideo` is the last call. `dir` is `__dirname`.
   */
  function Main(v: Variant, dir: string, render: real -> string, o: Oracle): (run: Run)
    ensures |run.events| >= 1
    ensures run.events[0].request == GenerateScript(Prompt(v))
  {
    var scriptReply := o(0);
    var scriptEvent := Event(GenerateScript(Prompt(v)), scriptReply);
    if scriptReply.Failed? then Run([scriptEvent], [], [])
    else Finish(v, render, scriptEvent, RunScenes(v, ImageNamer(dir), Scenes(v, scriptReply.value), o, 1, 0), o)
  }
}
