# Video_generator, modelled in Dafny

Video_generator is two near-identical Node scripts, `demo.js` and `index.js`.
Each one:

1. asks a language model for a short script;
2. cuts the script into scenes, where a paragraph is a scene, its first line the scene description and its other lines the dialogue;
3. for every scene in order, generates an image and then one speech clip per dialogue line;
4. hands the collected images and clips to `createVideo`, which writes an ffmpeg concat manifest and runs ffmpeg.

`demo.js` differs from `index.js` in these ways:

- its user prompt ends with a full stop, and its system prompt asks for a script about 30 seconds long where `index.js` asks for two to three minutes;
- it keeps at most three scenes;
- it downloads each image to `image_<i>.png` next to the script;
- it shares a thirty-second `VIDEO_DURATION` equally between the images, where `index.js` shows each image for five seconds.

This project models the deterministic core of both scripts and proves properties of it:

- **`JsString`** models JavaScript's `String.prototype.split` and `Array.prototype.join`, and `${n}` for naturals. `split` is exact: it cuts left to right without overlap. Split is characterised in both directions, and it round-trips with join.
- **`SceneParser`** models `parseScript`, shared by both scripts, with an optional scene limit.
- **`Manifest`** models the text `createVideo` builds. That is the `file '<path>'` / `duration <d>` manifest and the `|`-joined audio argument, with the durations kept as exact reals.
- **`Pipeline`** models `main` as a pure function of an *oracle*, which gives the reply to the k-th external call of a run. A reply is either a value or a rejection. Every call is recorded with its reply. A rejected `await` rejects `main`, so a run stops at its first failed call. The two `for` loops share one generic loop, `RunLoop`.
- **`Replies`**, **`Pushed`**, **`CallOrder`** and **`CallShape`** state what the loops do: which reply each call gets, what is pushed onto `images` and `audioFiles`, the order of calls against an independent plan, and the shape of each scene's calls.
- **`MainRun`** lifts those properties to a whole run of `main`.
- **`DemoScript`** and **`IndexScript`** instantiate them for each file.

The external services, the file system and ffmpeg are not modelled. Their results are the oracle's replies, which are arbitrary strings; an audio reply stands for the string form of the audio object the speech service returns. How a JavaScript number is printed is a parameter, `render`. The directory of the script (`__dirname`) is a parameter, `dir`.

Some behaviours of the code that the model keeps as written:

- `parseScript` keeps empty paragraphs and empty lines: four line breaks in a row give an empty scene. Three line breaks in a row leave a paragraph that opens with a line break, so its scene has an empty description (`"a\n\n\nb"` gives the scenes `a` and one with description `""` and dialogue `b`). A script that ends with a single line break gives its last scene an empty dialogue line.
- An empty script yields one scene with an empty description, not an empty list.
- An empty script reply from the model is not an error.
- Neither script checks for an empty image list. In `demo.js` the share `30 / images.length` is then `Infinity`, but with no images the manifest is empty, so no line carries it; the model also proves a run that reaches `createVideo` always has at least one image.
- `createVideo` writes `image_list.txt` and `output.mp4` directly, with no temporary file and rename.
- Paths and URLs are interpolated into the manifest without escaping `'`.

## Model

| member | source | states |
|---|---|---|
| JsString.IndexOf | demo.js:89-90 | The index `split` cuts at is the first occurrence of the separator, and `None` means the separator does not occur at all. |
| JsString.Split | demo.js:89-90 | `split` always returns at least one piece; what the pieces are is stated by `JsString.SplitCharacterised`. |
| JsString.JoinFirst | demo.js:74-76 | `join` of an empty array is `""`; otherwise the result starts with the first part, followed by the separator when more parts follow. |
| JsString.SplitCharacterised | demo.js:89-90 | `split` returns exactly the one list of pieces that joins back to the string, each non-final piece ending at the first separator after its start and the last piece holding none (both directions). |
| JsString.SplitUnique | demo.js:89-90 | Any list of pieces that looks like a split of the string is the result of `split`. |
| JsString.JoinSplit | demo.js:89-90 | Joining the pieces of `s.split(sep)` with `sep` gives back `s`. |
| JsString.SplitJoinChar | index.js:77-78 | Splitting the join of a non-empty list of parts by a one-character separator none of them contains gives back the parts. |
| JsString.SplitCharPiecesFree | demo.js:90 | No piece of a split by one character contains that character. |
| JsString.SplitCount | index.js:77 | `s.split(sep)` has one more piece than `s` has non-overlapping occurrences of `sep`, so never zero pieces. |
| JsString.NatToStringInjective | demo.js:113 | Distinct numbers print as distinct decimal strings. |
| JsString.DecimalValueOfNatToString | demo.js:113 | Reading back the decimal printing of `n` gives `n`. |
| SceneParser.ParseBlock | demo.js:90-91 | A paragraph's description and dialogues are lines free of line breaks that join back to the paragraph, empty lines kept. |
| SceneParser.ParseBlockOfSceneText | index.js:78-79 | Parsing the text of a well-formed scene gives back the scene. |
| SceneParser.ParseScript | demo.js:88-94 | Parsing with a limit keeps at most that many scenes, at least one when the limit is positive, and every scene is well-formed. |
| SceneParser.ParseScriptScenes | index.js:75-82 | Without a limit, there is one scene per paragraph, i.e. one more than the number of blank-line separators, and scene `i` stands for paragraph `i`. |
| SceneParser.ParseScriptLimited | demo.js:93 | With a limit `m`, the result is the first `min(m, k)` of the `k` unlimited scenes, in order. |
| SceneParser.ParseScriptRoundTrip | index.js:77-80 | Joining each scene's lines with `"\n"` and the scenes with `"\n\n"` gives back the script exactly. |
| SceneParser.ParseScriptCharacterised | index.js:77-81 | The unlimited parse is exactly the list of scenes that looks like a parse of the script (both directions). |
| SceneParser.ParseEmptyScript | index.js:77-79 | The empty script is one scene with an empty description and no dialogues. |
| Manifest.ManifestText | demo.js:74-76 | The manifest is empty exactly when there are no images; otherwise it opens with the first image's file line and a line break. |
| Manifest.ManifestLinesAt | demo.js:74-75 | In the manifest listing, line `2i` names image `i` and line `2i + 1` gives the shared duration. |
| Manifest.ManifestLinesJoin | demo.js:74-76 | The manifest text is its listed lines joined by line breaks, image by image. |
| Manifest.ManifestReadsBack | demo.js:74-76 | If no path and not the duration holds a line break, the manifest for `n > 0` images reads back as exactly `2n` lines, a file line then a duration line per image, with no trailing line. |
| Manifest.AudioArgument | demo.js:79 | The audio argument is empty when there is no audio, and the clip itself when there is one. |
| Manifest.AudioArgumentReadsBack | index.js:66 | If no clip contains `\|`, the audio argument splits back into the clips, in order. |
| Manifest.TimelineTotal | index.js:61-63 | A timeline of `n` images shown `d` seconds each lasts `n * d` seconds. |
| Manifest.ImageDuration | demo.js:73 | `VIDEO_DURATION / images.length` times the number of images is `VIDEO_DURATION`, and the share is positive. |
| Manifest.EqualSplitTotal | demo.js:73-76 | Splitting a total equally over a non-empty image list gives segments that add up to the total exactly. |
| Pipeline.DurationText | demo.js:73-75 | `index.js` writes a fixed `5`; for `n > 0` images `demo.js` prints the share `s` with `s * n = 30` (and `Infinity` only for no images, which no entry then shows). |
| Pipeline.VideoRequest | demo.js:72-79 | The `createVideo` call carries a manifest that is empty exactly when there are no images and opens with the first image's file line, and an audio argument that is empty for no clips and the clip itself for one. |
| CallOrder.AudioCallFollows | demo.js:119-120 | One audio call is the planned call: the dialogue line with the fixed voice. |
| Replies.AudioCallRecorded | demo.js:119-120 | An audio call gets the next reply, and a failed one ends the turn. |
| Pushed.AudioCallCollected | demo.js:119-120 | An audio call pushes exactly what the push rule reads off its recorded call: the clip it answered with when it succeeded, and no image. |
| CallOrder.SceneHeadFollows | demo.js:109-115 | A scene opens with the planned image call on its description, then in `demo.js` the planned download to `name(index)`, stopping early only on a failed call. |
| Replies.SceneHeadRecorded | demo.js:109-115 | A scene's opening calls get consecutive replies, and stop right after the first failure. |
| Pushed.SceneHeadCollected | index.js:98-99 | A scene's opening pushes exactly what the push rule reads off its recorded calls: the downloaded path in `demo.js`, the URL in `index.js`, and no audio. |
| CallShape.SceneHeadShaped | demo.js:110-114 | A scene's opening makes at least one call, starts with its image call, and downloads only the URL that call answered with. |
| MainRun.FinishAnswered | demo.js:100-125 | After the script call and the scene loop, call `k` of the run gets reply `k`, the video call included. |
| MainRun.FinishFailFast | demo.js:108-125 | After a successful script call and a fail-fast scene loop, every call but the last succeeded and is not `createVideo`, and a run that did not reach `createVideo` ended on a failed call. |
| MainRun.FinishFollows | demo.js:124-125 | After the script call and a scene loop that follows its plan, the run follows script step, plan and video step, and all of it exactly when the video call is made. |
| MainRun.FinishCollected | demo.js:124-125 | The lists handed on are exactly what the run's calls pushed; the script call and the video call push nothing. |
| MainRun.FinishVideo | demo.js:124-125 | A run that reaches the video call hands it the manifest and audio argument of the lists the loop built, with the counts the loop pushed. |
| Pipeline.ImagePathInjective | demo.js:113 | Distinct image numbers give distinct image paths in the same directory. |
| Pipeline.Main | demo.js:97-100 | The first call of every run is the script call, with the prompt the script fixes. |
| CallOrder.RunDialoguesFollowsPlan | demo.js:117-121 | The dialogue loop makes one audio call per line with the fixed voice, in line order, and stops early only on a failed call. |
| CallOrder.RunSceneFollowsPlan | demo.js:108-121 | A scene's calls are its image call, in `demo.js` its download, then its audio calls, stopping early only on a failed call. |
| CallOrder.RunScenesFollowsPlan | index.js:96-106 | The scene loop's calls are always a prefix of all scenes' planned calls, scene after scene, and all of them when every call succeeds. |
| Replies.RunDialoguesRecorded | demo.js:117-121 | Call `k` of the dialogue loop gets reply `k`, and the loop stops right after its first failed call. |
| Replies.RunSceneRecorded | demo.js:108-121 | Call `k` of a scene's turn gets reply `k`, and the turn stops right after its first failed call. |
| Replies.RunScenesRecorded | index.js:96-106 | Call `k` of the scene loop gets reply `k`, and the loop stops right after its first failed call. |
| Pushed.RunScenesCollected | demo.js:108-122 | `images` and `audioFiles` hold exactly what the recorded calls pushed, in call order. In `demo.js` that is the paths of successful downloads; in `index.js` the URLs of successful image calls; in both the clips of successful audio calls. |
| Pushed.RunDialoguesCounts | index.js:101-105 | The dialogue loop pushes no image, and, when it succeeds, one clip per line. |
| Pushed.RunSceneCounts | index.js:96-105 | A scene's turn that succeeds pushes one image entry and one clip per dialogue line. |
| Pushed.RunScenesCounts | index.js:96-106 | A scene loop that succeeds pushes one image entry per scene and one clip per dialogue line of every scene. |
| Pushed.DemoSceneImage | demo.js:110-115 | In `demo.js`, a scene's turn pushes its own path if and only if its image call and download both succeed. |
| Pushed.RunScenesDemoPaths | demo.js:113-115 | In `demo.js`, image entry `i` is the path for number `i`, because the list's length before the push names the file. |
| Pushed.CollectFree | index.js:99 | A character that no single call pushes onto a list is in no entry of that list. |
| CallShape.RunDialoguesAudioOnly | demo.js:117-121 | The dialogue loop makes audio calls only. |
| CallShape.RunSceneShaped | demo.js:108-121 | A scene's turn opens with its image call, makes image, download and audio calls only, and downloads the URL its image call answered with. |
| CallShape.RunScenesShaped | demo.js:108-122 | The scene loop makes scene calls only, opens with an image call, and every download fetches the URL of the image call just before it. |
| MainRun.MainScriptFailed | demo.js:100 | If the script call fails, `main` makes no other call and pushes nothing. |
| MainRun.MainAnswered | demo.js:96-127 | Call `k` of a run gets the outside world's `k`-th reply. |
| MainRun.MainFailFast | demo.js:108-129 | Every call but the last succeeded, a run that did not reach `createVideo` ended on a failed call, and `createVideo` is called at most once, as the last call. |
| MainRun.MainFollowsPlan | demo.js:96-125 | A run's calls are a prefix of the script call, every scene's planned calls and the video call, and they are all of it if and only if the run reached `createVideo`. |
| MainRun.MainCollected | index.js:93-106 | A run's `images` and `audioFiles` are exactly what its calls pushed, in call order. |
| MainRun.MainVideo | demo.js:124-125 | A run that reached `createVideo` passes it the manifest and audio argument of the lists it built: one image per scene and one clip per dialogue line. |
| MainRun.MainShaped | index.js:96-106 | Between the script call and the video call, a run makes only image, download and audio calls, and each download fetches the URL of the image call before it. |
| MainRun.MainDemoPaths | demo.js:113-115 | In `demo.js`, image entry `i` is `image_<i>.png` in the script's directory. |
| MainRun.MainAudioArgument | index.js:66 | The audio argument `createVideo` receives is empty when there is no audio. If no audio call answered with a clip containing `\|`, it splits back into the clips in order, whatever the script and the images hold. |
| DemoScript.DemoScenes | demo.js:88-94 | `demo.js` keeps the first `min(3, k)` of the `k` parsed scenes, in order, and always between one and three. |
| DemoScript.DemoShares | demo.js:73 | With one to three images, `VIDEO_DURATION / images.length` is exactly 30, 15 or 10 seconds, so the printed share is a whole number. |
| DemoScript.DemoImagesDistinct | demo.js:113-115 | The images of a `demo.js` run go to pairwise distinct files. |
| DemoScript.ImagePathSingleLine | demo.js:113 | An image path holds a line break only if the directory does. |
| DemoScript.DemoManifest | demo.js:72-77 | A `demo.js` run that reached `createVideo` made one to three images. Its manifest reads back as `2n` lines, with line `2i` naming `image_<i>.png` and every duration line printing `30 / n`. |
| DemoScript.DemoTimeline | demo.js:73 | In a `demo.js` run that reached `createVideo`, the duration is never `Infinity`, and the images' equal shares add up to exactly 30 seconds. |
| IndexScript.IndexScenes | index.js:75-82 | `index.js` keeps every parsed scene: one more than the number of blank-line separators. |
| IndexScript.IndexImages | index.js:96-106 | An `index.js` run that reached `createVideo` made one image per paragraph and one clip per dialogue line. Its image list is the URLs the image calls answered with, in order. |
| IndexScript.IndexImagesSingleLine | index.js:98-99 | If no image call answered with a URL holding a line break, no image entry of an `index.js` run holds one, whatever the script holds. |
| IndexScript.IndexManifest | index.js:61-64 | If no image URL holds a line break (the script may hold any number of paragraphs and dialogue lines), the manifest of an `index.js` run that reached `createVideo` reads back as `2n` lines, a file line and a `duration 5` line per image. |
| IndexScript.IndexVideoLength | index.js:62 | A video with one five-second image per scene lasts five seconds per paragraph of the script. |
| IndexScript.IndexRunLength | index.js:61-63 | An `index.js` run that reached `createVideo` writes duration `5` for every image, and its images, five seconds each, last five seconds per paragraph of the script. |

## Left out

- Network clients (Groq, fal, ElevenLabs, axios): `generateScript`, `generateImage`, `generateAudio` and `downloadImage` are one external call each. Their results are the oracle's replies, and their request options (system prompt, model name, voice settings, response type) are not modelled.
- `generateScript`'s `content || ""` fallback: an empty or missing completion is just the reply `""`, which the oracle can give.
- File system and process plumbing: `fs.writeFile` of `image_list.txt`, the ffmpeg command line, `output.mp4`, dotenv and credentials, and `console.log`. `createVideo` is one external call that carries the manifest text and the audio argument. How ffmpeg reads the manifest or an audio argument without the `concat:` protocol prefix is not modelled.
- Promise and async machinery: `main` is a sequential fold. `main().catch(console.error)` is the run stopping after a failed call.
- IEEE-754 arithmetic and JavaScript number printing: `30 / n` is an exact real, and its printing is the parameter `render`.
- `path.join` normalisation: `path.join(__dirname, name)` is modelled as `dir + "/" + name`.
- `split` with an empty separator: both scripts only split on `"\n\n"` and `"\n"`.
- Audio replies: `generateAudio` resolves to the speech SDK's audio object, and `audioFiles.join("|")` joins that object's string form. An audio reply in the model stands for that string form.
- UTF-16: JavaScript strings are sequences of UTF-16 code units, while a Dafny `char` is a Unicode scalar value. Splitting and joining on `"\n"` and `"|"` is the same under either reading, and no length or index of a string is observable in the scripts.
- JsString.Split: its own contract only promises at least one piece. What the pieces are is stated by `JsString.SplitCharacterised`, `JsString.SplitUnique` and `JsString.JoinSplit`, because a stronger contract on the recursive function itself makes those proofs too costly.
- How ffmpeg reads a `duration` line as a number of seconds: that is ffmpeg's work, and the timeline of `Manifest` stands for it. `IndexScript.IndexRunLength` ties the `5` written to a five-second timeline by stating both.
- Manifest.ImageDuration: requires at least one image. `demo.js` divides by `images.length` even when it is 0, giving `Infinity`. `Pipeline.DurationText` models that case, and DemoScript.DemoTimeline proves it unreachable in a run that reaches `createVideo`.
- Pipeline.Main: the image path of `demo.js` is computed from the scene's position in the loop rather than from `images.length`. Pushed.RunScenesDemoPaths proves the two agree, since every earlier scene pushed exactly one entry.
