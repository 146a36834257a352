/**
 `parseScript`: a script is cut into paragraphs at every blank line
 (`"\n\n"`), and each paragraph into lines at every `"\n"`; the first line
 of a paragraph is the scene description and the remaining lines are its
 dialogues. Both source files share this parser; `demo.js` keeps only the
 first three scenes, which is the optional `limit` here.
 */
module SceneParser {
  import opened Wrappers
  import opened JsString

  /** The paragraph separator. */
  const ParagraphBreak: string := "\n\n"

  /** The line separator inside a paragraph. */
  const LineBreak: string := "\n"

  /** One paragraph of the script: its first line and the lines after it, in order. */
  datatype Scene = Scene(description: string, dialogues: seq<string>)

  /** The lines of a scene, in the order they stood in the paragraph. */
  function Lines(scene: Scene): seq<string> {
    [scene.description] + scene.dialogues
  }

  /** A scene whose lines are real lines: none of them contains a line break. */
  predicate WellFormed(scene: Scene) {
    forall i :: 0 <= i < |Lines(scene)| ==> '\n' !in Lines(scene)[i]
  }

  /** The paragraph a scene stands for: its lines joined by line breaks. */
  function SceneText(scene: Scene): string {
    Join(Lines(scene), LineBreak)
  }

  /** `const [description, ...dialogues] = scene.split("\n")`. */
  function ParseBlock(block: string): (scene: Scene)
    ensures WellFormed(scene)
    ensures SceneText(scene) == block
  {
    var lines := Split(block, LineBreak);
    JoinSplit(block, LineBreak);
    SplitCharPiecesFree(block, '\n');
    var scene := Scene(lines[0], lines[1..]);
    assert Lines(scene) == lines;
    scene
  }

  /** ParseBlock undoes SceneText on every well-formed scene. */
  lemma {:induction false} ParseBlockOfSceneText(scene: Scene)
    requires WellFormed(scene)
    ensures ParseBlock(SceneText(scene)) == scene
  {
    SplitJoinChar(Lines(scene), '\n');
  }

  /** The paragraphs of a script, `script.split("\n\n")`. */
  function Blocks(script: string): seq<string> {
    Split(script, ParagraphBreak)
  }

  /** `parseScript(script)`, keeping at most `limit` scenes when a limit is given (`.slice(0, limit)`). */
  function ParseScript(script: string, limit: Option<nat>): (scenes: seq<Scene>)
    ensures limit.Some? ==> |scenes| <= limit.value
    ensures limit.None? || limit.value > 0 ==> |scenes| >= 1
    ensures forall i :: 0 <= i < |scenes| ==> WellFormed(scenes[i])
  {
    var blocks := Blocks(script);
    var all := seq(|blocks|, i requires 0 <= i < |blocks| => ParseBlock(blocks[i]));
    match limit
    case None => all
    case Some(m) => if m < |all| then all[..m] else all
  }

  /** The script a list of scenes stands for: the paragraphs joined by blank lines. */
  function ScriptText(scenes: seq<Scene>): string {
    Join(seq(|scenes|, i requires 0 <= i < |scenes| => SceneText(scenes[i])), ParagraphBreak)
  }

  /** The smaller of two counts. */
  function Min(a: nat, b: nat): nat {
    if a < b then a else b
  }

  /**
   Without a limit there is exactly one scene per paragraph: one more than
   the number of blank-line separators. Scene `i` stands for paragraph `i`,
   so no paragraph is skipped or reordered and no line inside one is dropped.
   */
  lemma {:induction false} ParseScriptScenes(script: string)
    ensures |ParseScript(script, None)| == Occurrences(script, ParagraphBreak) + 1
    ensures |ParseScript(script, None)| == |Blocks(script)|
    ensures forall i :: 0 <= i < |Blocks(script)| ==> SceneText(ParseScript(script, None)[i]) == Blocks(script)[i]
  {
    SplitCount(script, ParagraphBreak);
  }

  /** A limit keeps the first `min(limit, k)` of the `k` scenes, in order: a prefix of the unlimited result. */
  lemma ParseScriptLimited(script: string, m: nat)
    ensures var k := |ParseScript(script, None)|;
      ParseScript(script, Some(m)) == ParseScript(script, None)[..Min(m, k)]
  {
  }

  /** Round trip: joining each scene's lines by line breaks and the scenes by blank lines gives back the script. */
  lemma {:induction false} ParseScriptRoundTrip(script: string)
    ensures ScriptText(ParseScript(script, None)) == script
  {
    var scenes := ParseScript(script, None);
    var blocks := Blocks(script);
    assert seq(|scenes|, i requires 0 <= i < |scenes| => SceneText(scenes[i])) == blocks;
    JoinSplit(script, ParagraphBreak);
  }

  /**
   What a parse of `script` looks like: well-formed scenes whose text joins
   back to the script, where every scene but the last ends at the first
   blank line after its start and the last holds no blank line.
   */
  predicate IsParseOf(scenes: seq<Scene>, script: string) {
    && |scenes| >= 1
    && (forall i :: 0 <= i < |scenes| ==> WellFormed(scenes[i]))
    && IsSplitOf(seq(|scenes|, i requires 0 <= i < |scenes| => SceneText(scenes[i])), script, ParagraphBreak)
  }

  /** The unlimited parse is exactly the list of scenes that looks like a parse of the script, in both directions. */
  lemma {:induction false} ParseScriptCharacterised(script: string, scenes: seq<Scene>)
    ensures ParseScript(script, None) == scenes <==> IsParseOf(scenes, script)
  {
    var parsed := ParseScript(script, None);
    var texts := seq(|parsed|, i requires 0 <= i < |parsed| => SceneText(parsed[i]));
    assert texts == Blocks(script);
    SplitIsSplit(script, ParagraphBreak);
    if IsParseOf(scenes, script) {
      var given := seq(|scenes|, i requires 0 <= i < |scenes| => SceneText(scenes[i]));
      SplitUnique(given, script, ParagraphBreak);
      assert |parsed| == |scenes|;
      forall i | 0 <= i < |scenes| ensures parsed[i] == scenes[i] {
        ParseBlockOfSceneText(scenes[i]);
      }
    }
  }

  /** The empty script is one scene with an empty description and no dialogues. */
  lemma {:induction false} ParseEmptyScript()
    ensures ParseScript("", None) == [Scene("", [])]
  {
  }
}
