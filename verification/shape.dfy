/**
 The shape of the scene loop's calls: only image, download and audio calls,
 each scene opening with its image call, and every download fetching the
 URL the image call just before it answered with.
 */
module CallShape {
  import opened SceneParser
  import opened Pipeline

  /** Only audio calls. */
  predicate AudioCallsOnly(events: seq<Event>) {
    forall i :: 0 <= i < |events| ==> events[i].request.GenerateAudio?
  }

  /** A loop whose turns make audio calls only makes audio calls only. */
  lemma {:induction false} LoopAudioOnly<T>(turn: Turn<T>, items: seq<T>, base: nat, index: nat)
    requires forall x, b, i :: AudioCallsOnly(turn(x, b, i).events)
    ensures AudioCallsOnly(RunLoop(turn, items, base, index).events)
    decreases |items|
  {
    if |items| > 0 {
      var first := turn(items[0], base, index);
      var rest := RunLoop(turn, items[1..], base + |first.events|, index + 1);
      LoopAudioOnly(turn, items[1..], base + |first.events|, index + 1);
      if first.ok {
        var events := first.events + rest.events;
        forall k | 0 <= k < |events| ensures events[k].request.GenerateAudio? {
          if k >= |first.events| {
            assert events[k] == rest.events[k - |first.events|];
          }
        }
      }
    }
  }

  /** The dialogue loop makes audio calls only. */
  lemma {:induction false} RunDialoguesAudioOnly(dialogues: seq<string>, o: Oracle, base: nat)
    ensures AudioCallsOnly(RunDialogues(dialogues, o, base).events)
  {
    forall d, b, i ensures AudioCallsOnly(AudioTurn(o)(d, b, i).events) {
    }
    LoopAudioOnly(AudioTurn(o), dialogues, base, 0);
  }

  /**
   The calls of one or more scene turns: image generations, downloads and
   audio generations only, starting with an image call, where every download
   fetches the URL the image call just before it answered with.
   */
  predicate Shaped(events: seq<Event>) {
    && (forall i :: 0 <= i < |events| ==>
          events[i].request.GenerateImage? || events[i].request.DownloadImage? || events[i].request.GenerateAudio?)
    && (forall i :: 0 <= i < |events| && events[i].request.DownloadImage? ==>
          i > 0 && events[i - 1].request.GenerateImage? && events[i - 1].reply == Ok(events[i].request.url))
    && (|events| > 0 ==> events[0].request.GenerateImage?)
  }

  /** A shaped turn that made calls, then (if it succeeded) shaped turns, is shaped. */
  lemma NextShaped(first: Chunk, rest: Chunk)
    ensures Shaped(first.events) && |first.events| > 0 && Shaped(rest.events) ==> Shaped(Next(first, rest).events)
  {
  }

  /** A loop whose every turn makes calls and is shaped is shaped. */
  lemma {:induction false} LoopShaped<T>(turn: Turn<T>, items: seq<T>, base: nat, index: nat)
    requires forall x, b, i :: |turn(x, b, i).events| > 0 && Shaped(turn(x, b, i).events)
    ensures Shaped(RunLoop(turn, items, base, index).events)
    decreases |items|
  {
    if |items| > 0 {
      var first := turn(items[0], base, index);
      LoopShaped(turn, items[1..], base + |first.events|, index + 1);
      NextShaped(first, RunLoop(turn, items[1..], base + |first.events|, index + 1));
    }
  }

  /** A scene's opening calls: its image call, then in `demo.js` the download of the URL that call answered with. */
  lemma SceneHeadShaped(v: Variant, name: nat -> string, scene: Scene, o: Oracle, base: nat, index: nat)
    ensures |SceneHead(v, name, scene, o, base, index).events| > 0
    ensures Shaped(SceneHead(v, name, scene, o, base, index).events)
  {
  }

  /** A scene's opening calls, then (if they succeeded) audio calls only, are shaped. */
  lemma NextWithAudio(head: Chunk, rest: Chunk)
    requires |head.events| > 0 && Shaped(head.events)
    requires AudioCallsOnly(rest.events)
    ensures |Next(head, rest).events| > 0 && Shaped(Next(head, rest).events)
  {
  }

  /** One scene's turn starts with its image call, makes scene calls only, and downloads the URL the image call just answered with. */
  lemma {:induction false} RunSceneShaped(v: Variant, name: nat -> string, scene: Scene, o: Oracle, base: nat, index: nat)
    ensures |RunScene(v, name, scene, o, base, index).events| > 0
    ensures Shaped(RunScene(v, name, scene, o, base, index).events)
  {
    var head := SceneHead(v, name, scene, o, base, index);
    SceneHeadShaped(v, name, scene, o, base, index);
    RunDialoguesAudioOnly(scene.dialogues, o, base + |head.events|);
    NextWithAudio(head, RunDialogues(scene.dialogues, o, base + |head.events|));
  }

  /** The scene loop makes scene calls only, opens with an image call, and downloads only URLs the image call just before answered with. */
  lemma {:induction false} RunScenesShaped(v: Variant, name: nat -> string, scenes: seq<Scene>, o: Oracle, base: nat, index: nat)
    ensures Shaped(RunScenes(v, name, scenes, o, base, index).events)
  {
    var turn := SceneTurn(v, name, o);
    forall s, b, i ensures |turn(s, b, i).events| > 0 && Shaped(turn(s, b, i).events) {
      RunSceneShaped(v, name, s, o, b, i);
    }
    LoopShaped(turn, scenes, base, index);
  }
}
