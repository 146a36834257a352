/**
 How a run's recorded calls relate to the outside world: call `k` of the run
 gets the oracle's reply `k`, and the run stops right after the first
 rejected call (every `await` rethrows, so `main` rejects there).
 */
module Replies {
  import opened SceneParser
  import opened Pipeline

  /** Every event's reply is the oracle's reply to that call, the first call being number `base`. */
  predicate Answered(events: seq<Event>, o: Oracle, base: nat) {
    forall i :: 0 <= i < |events| ==> events[i].reply == o(base + i)
  }

  /**
   Fail-fast: if `ok`, every call succeeded; otherwise the last call failed,
   every call before it succeeded, and so no call was made after the failure.
   */
  predicate FailFast(events: seq<Event>, ok: bool) {
    if ok then forall i :: 0 <= i < |events| ==> events[i].reply.Ok?
    else
      && |events| > 0
      && events[|events| - 1].reply.Failed?
      && forall i :: 0 <= i < |events| - 1 ==> events[i].reply.Ok?
  }

  /** A part of a run whose calls were made from call number `base` on, answered by `o`, and that stopped at its first failure. */
  predicate Recorded(c: Chunk, o: Oracle, base: nat) {
    Answered(c.events, o, base) && FailFast(c.events, c.ok)
  }

  /** A recorded part, then (if it succeeded) a part recorded from where it left off, is recorded. */
  lemma NextRecorded(first: Chunk, rest: Chunk, o: Oracle, base: nat)
    ensures Recorded(first, o, base) && Recorded(rest, o, base + |first.events|) ==>
      Recorded(Next(first, rest), o, base)
  {
  }

  /** A loop whose every turn is recorded from where it starts is recorded. */
  lemma {:induction false} LoopRecorded<T>(turn: Turn<T>, items: seq<T>, o: Oracle, base: nat, index: nat)
    requires forall x, b, i :: Recorded(turn(x, b, i), o, b)
    ensures Recorded(RunLoop(turn, items, base, index), o, base)
    decreases |items|
  {
    if |items| > 0 {
      var first := turn(items[0], base, index);
      LoopRecorded(turn, items[1..], o, base + |first.events|, index + 1);
      NextRecorded(first, RunLoop(turn, items[1..], base + |first.events|, index + 1), o, base);
    }
  }

  /** One audio call gets the oracle's reply to it and fails exactly when that reply does. */
  lemma AudioCallRecorded(dialogue: string, o: Oracle, base: nat, index: nat)
    ensures Recorded(AudioTurn(o)(dialogue, base, index), o, base)
  {
  }

  /** The dialogue loop: call `k` of it gets the oracle's reply `base + k`, and it stops right after the first failure. */
  lemma {:induction false} RunDialoguesRecorded(dialogues: seq<string>, o: Oracle, base: nat)
    ensures Recorded(RunDialogues(dialogues, o, base), o, base)
  {
    forall d, b, i ensures Recorded(AudioTurn(o)(d, b, i), o, b) {
      AudioCallRecorded(d, o, b, i);
    }
    LoopRecorded(AudioTurn(o), dialogues, o, base, 0);
  }

  /** A scene's opening calls get the oracle's replies, and it stops at the first failure. */
  lemma SceneHeadRecorded(v: Variant, name: nat -> string, scene: Scene, o: Oracle, base: nat, index: nat)
    ensures Recorded(SceneHead(v, name, scene, o, base, index), o, base)
  {
  }

  /** One scene's turn: call `k` of it gets the oracle's reply `base + k`, and it stops right after the first failure. */
  lemma {:induction false} RunSceneRecorded(v: Variant, name: nat -> string, scene: Scene, o: Oracle, base: nat, index: nat)
    ensures Recorded(RunScene(v, name, scene, o, base, index), o, base)
  {
    var head := SceneHead(v, name, scene, o, base, index);
    SceneHeadRecorded(v, name, scene, o, base, index);
    RunDialoguesRecorded(scene.dialogues, o, base + |head.events|);
    NextRecorded(head, RunDialogues(scene.dialogues, o, base + |head.events|), o, base);
  }

  /** The scene loop: call `k` of it gets the oracle's reply `base + k`, and it stops right after the first failure. */
  lemma {:induction false} RunScenesRecorded(v: Variant, name: nat -> string, scenes: seq<Scene>, o: Oracle, base: nat, index: nat)
    ensures Recorded(RunScenes(v, name, scenes, o, base, index), o, base)
  {
    var turn := SceneTurn(v, name, o);
    forall s, b, i ensures Recorded(turn(s, b, i), o, b) {
      RunSceneRecorded(v, name, s, o, b, i);
    }
    LoopRecorded(turn, scenes, o, base, index);
  }
}
