# SwipImgToVideo core in Dafny

SwipImgToVideo turns a long strip of image "chunks" into a swiping video.
Each chunk is a picture with captions above and below it. The core is
`BigImg` and its builder, in `src/swiping_img/mod.rs`.

- **Builder.** `BigImgBuilder` collects the screen size, the chunk width, the
  window `step`, the caption band heights and the video settings. Five
  setters assert that their arguments are non-zero: `screen`, `step`,
  `width_chunk`, `pic_h` and `text_up_h`. `build` validates the settings,
  clamps `step` to the chunk count, derives `overlap` (chunks per screen) and
  the lower caption band, and loads the font.
- **Partition.** `divide` slides a window of `step` chunks over the strip with
  stride `step - overlap`.
- **Stills.** `combain_chunk` renders each chunk of a window and copies it side
  by side into one canvas, then saves it.
- **Segments.** `generate_endpoint_video` encodes the first or last screenful
  as a still clip. `generate_mid_video` encodes a window as a left pan. Both
  call `ffmpeg`, which runs the encoder and maps its exit status to a result.
- **Orchestration.** `combain` produces the cover, one pan per window
  (`00.png`, `01.png`, ...) and the ending. It writes a `list.txt` manifest,
  splices the clips with the concat demuxer and removes the clips. The first
  failure ends the run.

## How the model is built

- `types.dfy` (`Types`): the value types, `u32` as a bounded `int`, and the
  error kinds.
- `builder.dfy` (`Builder`): the builder as a class with one method per
  setter. `Build` is proved equal to the pure `Validate` on the builder's
  fields.
- `partition.dfy` (`Partition`): `divide` as a pure function, with lemmas on
  the window count, the window shape and the overlaps, and the proof that
  stitching the windows gives back the strip.
- `frame.dfy` (`Compose`): the canvas as an array filled in a loop
  (`ComposeFrame`). It is proved equal to the specification `Frame`, whose
  tiling is proved separately. Pixels stay abstract: a slot records which
  chunk was copied where.
- `decimal.dfy` (`Decimal`): `u32::to_string` and `{:0>2}` formatting, with
  parse round trips and injectivity.
- `segments.dfy` (`Segments`):
  - the names of stills and clips;
  - the pan arithmetic;
  - the three ffmpeg argument vectors, with where each option sits;
  - the manifest, with a parser it round-trips through.
- `workspace.dfy` (`Environment`): the outside world as oracles. These say
  whether a chunk renders, whether a save or write succeeds, and how ffmpeg
  exits. `WorkDir` is a class that records every attempted action in order.
- `pipeline.dfy` (`Pipeline`):
  - each source function is a function giving the actions it attempts and
    its result;
  - each is also a method that performs those actions through a `WorkDir` and
    is proved to do exactly that;
  - lemmas state what a run does: it stops at its first failure, a failed run
    removes nothing, a successful run writes a manifest listing exactly
    `cover.mp4`, `00.mp4`, ..., `ending.mp4`, then concatenates, then removes
    exactly those clips.
- `stagewise.dfy` (`Stagewise`): `combain` as a sequence of stages (cover,
  one pan per window, ending), proved equal to the pipeline's run once
  chained. From it follow what each action of a successful run saves or
  encodes, and exactly where a failed run stops.

Panics are modelled as preconditions. This covers setter assertions, `u32`
underflow, overflow and division by zero, the `usize` subtraction
`len - overlap` in `divide` (src/swiping_img/mod.rs:107), and `step_by(0)`. Recoverable
errors are `Result` values.

The comment at src/swiping_img/mod.rs:306 announces a cleanup of the
temporary files. The loop after it (lines 307-309) removes only the `.mp4`
clips collected in `results`, so the stills and `list.txt` stay behind. The
model follows the loop.

## Model

The functions below define what each piece of the source computes. They
carry no contract of their own; the rows of the table state their
properties.

- `Partition.Divide`: `divide`, src/swiping_img/mod.rs:105-111; see
  `DivideAt`, `DivideCount`, `DivideOverlap`, `DivideLastEnds`,
  `DivideStitch`.
- `Compose.Frame`: the canvas of `combain_chunk`, mod.rs:126-140; see
  `ComposeFrame`, `FrameOk`, `FrameTiles`, `FrameCovers`.
- `Segments.MidTiming`: the pan length and speed, mod.rs:213-215; see
  `MidTimingValues`, `MidPanStaysOnStill`.
- `Segments.EndpointArgs`, `Segments.MidArgs`, `Segments.ConcatArgs`: the
  ffmpeg arguments at mod.rs:173-191, 217-235 and 293-302; see
  `EndpointArgsOptions`, `MidArgsOptions`, `ConcatArgsOptions`.
- `Segments.Manifest`: the contents of `list.txt`, mod.rs:280-288; see
  `ManifestRoundTrip`, `ClipListFormat`.
- `Pipeline.ChunkRun`, `Pipeline.EndpointRun`, `Pipeline.MidRun`: the
  actions and result of `combain_chunk`, `generate_endpoint_video` and
  `generate_mid_video`, mod.rs:126-149, 165-194 and 209-238; see their
  `Steps` and `AllOk` lemmas and the methods proved equal to them.
- `Pipeline.CombainRun`: the actions and result of `combain`,
  mod.rs:252-312; see `CombainStops`, `CombainCleanup`, `CombainAllOk`,
  `Stagewise.SegmentsOrder`, `Stagewise.CombainAbort`.

| member | source | states |
|---|---|---|
| Builder.Defaults | src/swiping_img/mod.rs:388-407 | the default settings satisfy every setter's non-zero assertion |
| Builder.BigImgBuilder.constructor | src/swiping_img/mod.rs:388-407 | a new builder holds exactly the defaults (1920x1080 screen, step 100, chunk width 480, pic 520, upper band 214, 3 s cover and ending, white, speed 3, 60 fps) |
| Builder.BigImgBuilder.Screen | src/swiping_img/mod.rs:489-496 | requires both dimensions non-zero, as asserted; replaces the screen and nothing else |
| Builder.BigImgBuilder.Step | src/swiping_img/mod.rs:509-513 | requires a non-zero step, as asserted; replaces `step` and nothing else |
| Builder.BigImgBuilder.WidthChunk | src/swiping_img/mod.rs:526-530 | requires a non-zero chunk width, as asserted; replaces it and nothing else |
| Builder.BigImgBuilder.TextColor | src/swiping_img/mod.rs:540-543 | replaces the caption colour and nothing else |
| Builder.BigImgBuilder.TextBackgroundColor | src/swiping_img/mod.rs:553-556 | replaces the two band colours and nothing else |
| Builder.BigImgBuilder.PicH | src/swiping_img/mod.rs:582-586 | requires a non-zero picture height, as asserted; replaces it and nothing else |
| Builder.BigImgBuilder.TextUpH | src/swiping_img/mod.rs:599-603 | requires a non-zero upper band, as asserted; replaces it and nothing else |
| Builder.BigImgBuilder.VideoCoverTime | src/swiping_img/mod.rs:613-616 | replaces the cover duration and nothing else |
| Builder.BigImgBuilder.VideoEndingTime | src/swiping_img/mod.rs:626-629 | replaces the ending duration and nothing else |
| Builder.BigImgBuilder.VideoBackgroundColor | src/swiping_img/mod.rs:639-642 | replaces the backdrop colour and nothing else |
| Builder.BigImgBuilder.VideoSwipSpeed | src/swiping_img/mod.rs:652-655 | replaces the swipe speed and nothing else |
| Builder.BigImgBuilder.VideoFps | src/swiping_img/mod.rs:665-668 | replaces the frame rate and nothing else |
| Builder.ClampStep | src/swiping_img/mod.rs:448 | the clamped step never exceeds the requested one; it is that step or the chunk count when the count fits a `u32`, and 0 otherwise |
| Builder.Validate | src/swiping_img/mod.rs:423-474 | fails exactly when a check fails or the font does not load, with the first failing check's error: empty chunks, then picture taller than the screen, then width not divisible, then font I/O, then invalid font; on success a screen holds `overlap * width_chunk == screen.0`, the three bands fill the height, `step` is clamped and every other field is copied |
| Builder.BigImgBuilder.Build | src/swiping_img/mod.rs:423-474 | returns `Validate` of the builder's fields before the call; the builder itself keeps its fields, except that `step` is clamped in place once the three checks pass |
| Builder.NewBigImg | src/swiping_img/mod.rs:78-82 | with the defaults a screen holds 4 chunks, the lower band is 346 high and `step` is `min(100, len)` |
| Builder.TooFewChunksAccepted | src/swiping_img/mod.rs:448-455 | three chunks with the defaults are accepted although a screen needs four and `step < overlap` |
| Builder.StepTooSmallAccepted | src/swiping_img/mod.rs:448-455 | ten chunks with `step(4)` are accepted although `step == overlap`, which makes `divide` stride 0 |
| Builder.ZeroSwipeSpeedAccepted | src/swiping_img/mod.rs:652-655 | a zero swipe speed is accepted, though the pan divides by it |
| Builder.TextBandsTooTallPass | src/swiping_img/mod.rs:427-461 | `text_up_h(600)` passes every check, yet `pic_h + text_up_h` exceeds the screen height that `text_down_h` subtracts them from |
| Builder.ValidateChecked | src/swiping_img/mod.rs:423-474 | the corrected build: when one of the first three checks fails, the same error as `build`, in `build`'s order; succeeds exactly when the checks pass, the bands fit, there are more chunks than a screen holds, the clamped step exceeds `overlap`, the speed is non-zero and the font loads; then it agrees with `Validate` |
| Pipeline.CheckedIsRunnable | src/swiping_img/mod.rs:105-111 | every configuration the corrected build accepts meets what `divide` and the stages need, given `u32`-sized products |
| Partition.WindowsFromCount | src/swiping_img/mod.rs:107-108 | the windows starting at `start` number the ceiling of `(len - overlap - start) / (step - overlap)`, or none |
| Partition.WindowsFromAt | src/swiping_img/mod.rs:107-109 | window `k` starts at `start + k * (step - overlap)`, is cut at `min(i + step, len)`, and its start is below `len - overlap` |
| Partition.DivideAt | src/swiping_img/mod.rs:105-111 | window `k` is `chunks[k*(step-overlap) .. min(that + step, len)]`, longer than `overlap` and at most `step` long |
| Partition.DivideCount | src/swiping_img/mod.rs:105-111 | there are `ceil((len - overlap) / (step - overlap))` windows, at least one, and the first starts at 0 |
| Partition.DivideOverlap | src/swiping_img/mod.rs:105-111 | every window but the last is full, and consecutive windows share exactly `overlap` chunks |
| Partition.DivideLastEnds | src/swiping_img/mod.rs:105-111 | the last window ends at the last chunk |
| Partition.DivideStitch | src/swiping_img/mod.rs:105-111 | dropping each later window's first `overlap` chunks and joining gives back the chunk sequence |
| Partition.DivideFiveByThree | src/swiping_img/mod.rs:105-111 | five chunks, step 3, overlap 2 give the windows `[0,3)`, `[1,4)`, `[2,5)` |
| Compose.DrawableAll | src/swiping_img/mod.rs:135-137 | the recursive render check holds exactly when every chunk renders |
| Compose.ComposeFrame | src/swiping_img/mod.rs:126-140 | the array loop computes `Frame`: empty error, `u32` conversion error, the first render failure, or the filled canvas |
| Compose.FrameOk | src/swiping_img/mod.rs:127-140 | composing fails on an empty part, and otherwise succeeds exactly when the count fits a `u32` and every chunk renders |
| Compose.FrameTiles | src/swiping_img/mod.rs:132-140 | the canvas is `n * width_chunk` by `screen.1`; chunk `i` sits at `(i * width_chunk, 0)` inside it; slots are in order and disjoint |
| Compose.FrameCovers | src/swiping_img/mod.rs:132-140 | every column of the canvas lies in slot `x / width_chunk` |
| Decimal.Dec | src/swiping_img/mod.rs:188 | the decimal text is non-empty, one digit exactly below 10, without a leading zero |
| Decimal.DecDigits | src/swiping_img/mod.rs:188 | the decimal text is all digits |
| Decimal.ParseDecOfDec | src/swiping_img/mod.rs:188 | reading the decimal text back gives the number |
| Decimal.DecInjective | src/swiping_img/mod.rs:223 | different numbers print differently |
| Decimal.PadTwo | src/swiping_img/mod.rs:265 | padding to width 2 keeps the text as a suffix and only prepends zeros |
| Decimal.Index2 | src/swiping_img/mod.rs:265 | `{index:0>2}` is at least two characters and starts with a digit |
| Decimal.Index2RoundTrip | src/swiping_img/mod.rs:265 | the padded index is all digits and reads back as the index |
| Decimal.Index2Injective | src/swiping_img/mod.rs:265 | different indexes give different padded texts |
| Segments.LastDot | src/swiping_img/mod.rs:171 | finds the last `.`, or -1 when there is none |
| Segments.WithExtensionOfPng | src/swiping_img/mod.rs:171 | replacing the extension of `stem.png` gives `stem.ext` |
| Segments.MidStill | src/swiping_img/mod.rs:265 | every pan still is a `.png` name that cannot be taken for an option |
| Segments.ClipOf | src/swiping_img/mod.rs:211 | a clip name of a plain still is plain too |
| Segments.ClipNames | src/swiping_img/mod.rs:256-273 | the clips are `cover.mp4`, `{i:0>2}.mp4` and `ending.mp4` |
| Segments.MidClipsDistinct | src/swiping_img/mod.rs:265 | pan clips of different indexes differ, and none is the cover or ending clip |
| Segments.ClipListDistinct | src/swiping_img/mod.rs:254-278 | the clips of a run are pairwise distinct |
| Segments.ClipListFormat | src/swiping_img/mod.rs:254-278 | every clip of a run is an `.mp4` name on a single line |
| Segments.MidTimingValues | src/swiping_img/mod.rs:213-215 | only a count beyond `u32` fails; `run_seconds` is `swip_speed * (n - overlap) + 1` and `speed` is `width_chunk / swip_speed` rounded down |
| Segments.MidPanStaysOnStill | src/swiping_img/mod.rs:213-228 | up to the start of the clip's last second the pan stays on the still, reaching the last screenful then exactly when the speed divides `width_chunk`; in that case the clip ends `speed` pixels past it |
| Segments.FilterGraph | src/swiping_img/mod.rs:181-184 | the filter graph cannot be taken for an option |
| Segments.EndpointArgsOptions | src/swiping_img/mod.rs:173-191 | the endpoint encode reads the still, cuts the output at the given seconds (after `-i`) and writes the clip, last |
| Segments.MidArgsOptions | src/swiping_img/mod.rs:217-235 | the pan encode limits the looped input to `run_seconds` (before `-i`), pans by `speed`, and writes the clip, last |
| Segments.ConcatArgsOptions | src/swiping_img/mod.rs:293-302 | the splice reads the manifest with the concat demuxer, copies streams, and writes the output, last |
| Segments.ManifestRoundTrip | src/swiping_img/mod.rs:280-288 | the `file <name>` manifest parses back into exactly the listed names, in order |
| Environment.WorkDir.constructor | src/swiping_img/mod.rs:44 | the class models the `work_dir` directory that every action is aimed at; it starts with no actions recorded |
| Environment.WorkDir.Save | src/swiping_img/mod.rs:143-145 | a save is recorded, and succeeds as the image oracle says |
| Environment.WorkDir.Write | src/swiping_img/mod.rs:290-291 | a write is recorded, and succeeds as the file-system oracle says |
| Environment.WorkDir.Run | src/swiping_img/mod.rs:329-332 | a spawn is recorded and returns the oracle's exit; it succeeds exactly on exit code 0 |
| Environment.WorkDir.Remove | src/swiping_img/mod.rs:307-309 | a removal is recorded; its result is ignored |
| Pipeline.FfmpegResult | src/swiping_img/mod.rs:328-338 | success exactly on exit status 0; a process that cannot start is an I/O error, a non-zero status "FFmpeg command failed" |
| Pipeline.Ffmpeg | src/swiping_img/mod.rs:328-338 | runs the encoder once and returns `FfmpegResult` of its exit |
| Pipeline.CombainChunk | src/swiping_img/mod.rs:126-149 | attempts exactly the actions of `ChunkRun` and returns its result |
| Pipeline.ChunkRunSteps | src/swiping_img/mod.rs:126-149 | the still attempts at most one save, of the named file, and succeeds exactly when that save does |
| Pipeline.ChunkRunAllOk | src/swiping_img/mod.rs:126-149 | when nothing fails, a part of `0 < n < 2^32` chunks is composed and saved in one action |
| Pipeline.GenerateEndpointVideo | src/swiping_img/mod.rs:165-194 | attempts exactly the actions of `EndpointRun` and returns its result |
| Pipeline.EndpointRunSteps | src/swiping_img/mod.rs:165-194 | saves the still, then runs one encode that reads it and writes its clip, stopping at the first failure; success yields the clip name |
| Pipeline.EndpointRunAllOk | src/swiping_img/mod.rs:165-194 | when nothing fails, it saves the still, runs the endpoint encode and yields the clip |
| Pipeline.GenerateMidVideo | src/swiping_img/mod.rs:209-238 | attempts exactly the actions of `MidRun` and returns its result |
| Pipeline.MidRunSteps | src/swiping_img/mod.rs:209-238 | saves the still, then runs one pan encode that reads it and writes its clip, stopping at the first failure |
| Pipeline.MidRunAllOk | src/swiping_img/mod.rs:209-238 | when nothing fails, the pan saves the composed still, runs the pan encode with `MidTiming`'s length and speed, and yields the clip |
| Pipeline.PlanFits | src/swiping_img/mod.rs:253-274 | for a runnable configuration both screenfuls exist, and every still fits a `u32` width and pans without overflow |
| Pipeline.MidOutcomesAt | src/swiping_img/mod.rs:264-270 | stage `i` of the loop pans window `i` as `{i:0>2}.png` |
| Pipeline.ChainStops | src/swiping_img/mod.rs:264-270 | after the first failing stage no later stage is attempted and the error is kept |
| Pipeline.ChainLoopStep | src/swiping_img/mod.rs:264-270 | one loop turn extends the trace and the results by one stage, or ends the loop with that stage's error |
| Pipeline.ChainStopsAtFirstFailure | src/swiping_img/mod.rs:264-270 | stages that stop at their first failure and remove nothing chain into a run that does the same |
| Pipeline.ChainOk | src/swiping_img/mod.rs:264-270 | a chain succeeds exactly when every stage does, yielding every value in order |
| Pipeline.GenerateMids | src/swiping_img/mod.rs:264-270 | the loop attempts exactly the actions of `MidsRun` and returns its result |
| Pipeline.MidsSteps | src/swiping_img/mod.rs:264-270 | the loop removes nothing, stops at its first failure, and on success yields `00.mp4`, `01.mp4`, ... after two actions per window |
| Pipeline.MidsAllOk | src/swiping_img/mod.rs:264-270 | when nothing fails, every pan succeeds |
| Pipeline.GenerateRest | src/swiping_img/mod.rs:264-278 | the windows and the ending attempt exactly the actions of `RestRun` |
| Pipeline.RestSteps | src/swiping_img/mod.rs:264-278 | the loop and the ending remove nothing and stop at the first failure; on success they yield `00.mp4`, ..., `ending.mp4` |
| Pipeline.RestAllOk | src/swiping_img/mod.rs:264-278 | when nothing fails, the loop and the ending succeed |
| Pipeline.GenerateSegments | src/swiping_img/mod.rs:253-278 | the cover, the windows and the ending attempt exactly the actions of `SegmentsRun` |
| Pipeline.SegmentsSteps | src/swiping_img/mod.rs:253-278 | the segments remove nothing, stop at the first failure, and on success yield `cover.mp4`, `00.mp4`, ..., `ending.mp4` after two actions each |
| Pipeline.SegmentsAllOk | src/swiping_img/mod.rs:253-278 | when nothing fails, every segment succeeds |
| Pipeline.Concatenate | src/swiping_img/mod.rs:280-311 | writes the manifest, splices, then removes every clip, attempting exactly the actions of `Tail` |
| Pipeline.FinishCleanup | src/swiping_img/mod.rs:280-311 | after segments that removed nothing, a successful tail writes a manifest listing exactly the clips, splices successfully, and only then removes exactly those clips, in order |
| Pipeline.Combain | src/swiping_img/mod.rs:252-312 | attempts exactly the actions of `CombainRun` and returns its result |
| Pipeline.CombainStops | src/swiping_img/mod.rs:252-312 | `combain` stops at its first failure, and a failed run removes nothing (which stage it stops at: `Stagewise.CombainAbort`) |
| Pipeline.CombainCleanup | src/swiping_img/mod.rs:252-312 | a successful `combain` lists `cover.mp4`, `00.mp4`, ..., `ending.mp4` in the manifest, splices, and then removes exactly those clips; stills and the manifest remain |
| Pipeline.CombainAllOk | src/swiping_img/mod.rs:252-312 | when nothing fails, `combain` succeeds after `3 * (windows + 2) + 2` actions |
| Stagewise.ThenAssociative | src/swiping_img/mod.rs:253-278 | running three parts in order with `?` does not depend on how they are grouped |
| Stagewise.ChainCons | src/swiping_img/mod.rs:253-278 | chaining a first stage before the rest is that stage, then the rest when it succeeded |
| Stagewise.ChainPairs | src/swiping_img/mod.rs:253-278 | in a successful chain of two-action stages, actions `2i` and `2i+1` are those of stage `i`, and there are two per stage |
| Stagewise.ChainAbort | src/swiping_img/mod.rs:253-278 | when stage `k` is the first to fail, the chain fails with its error after the two actions of each earlier stage and the actions of stage `k`, and nothing after |
| Stagewise.Stages | src/swiping_img/mod.rs:253-278 | the stages are the cover, one pan per window and the ending |
| Stagewise.ChainStages | src/swiping_img/mod.rs:253-278 | chaining the stages runs the cover, then the chained pans, then the ending |
| Stagewise.RestChain | src/swiping_img/mod.rs:264-278 | after the cover, `combain` chains the pans of the windows of `divide`, then the ending on `chunks[len - overlap..]` |
| Stagewise.SegmentsChain | src/swiping_img/mod.rs:253-278 | the segments of `combain` are exactly its stages chained, on `chunks[..overlap]`, the windows of `divide` and `chunks[len - overlap..]` |
| Stagewise.ChunkRunSaves | src/swiping_img/mod.rs:126-149 | a still that was composed and saved took one action, which saves the still composed from the part under the given name |
| Stagewise.EndpointRunDid | src/swiping_img/mod.rs:165-194 | an endpoint segment that succeeded saved the still of its own chunks and encoded it from that still into its clip |
| Stagewise.MidRunDid | src/swiping_img/mod.rs:209-238 | a pan segment that succeeded saved the still of its own window and encoded it from that still into its clip |
| Stagewise.StagesDid | src/swiping_img/mod.rs:253-278 | each stage that succeeded saved the still of its own chunks: the cover those of `first`, pan `i` window `i` as `{i:0>2}.png`, the ending those of `last`, and encoded it |
| Stagewise.ChainedOrder | src/swiping_img/mod.rs:253-278 | a successful chain of the stages saves and encodes the cover still first, then each window's still in order, then the ending still, two actions each |
| Stagewise.SegmentsOrder | src/swiping_img/mod.rs:253-278 | a successful run's actions are, in order: save the still of `chunks[..overlap]` and encode it; for each window `i` of `divide`, save its still as `{i:0>2}.png` and encode it; save the still of `chunks[len - overlap..]` and encode it |
| Stagewise.CombainAbort | src/swiping_img/mod.rs:252-312 | when stage `k` is the first to fail, `combain` fails with that stage's error after the two actions of each earlier stage and what stage `k` attempted, and attempts no later stage, manifest, concat or removal |

## Left out

- Pixel drawing (`Chunk::draw_data`, text layout, scaling) and font parsing live outside this file. They are oracles: a chunk either renders or fails, and the font loads, is unreadable or is invalid. The canvas records which chunk went where, not pixels.
- `max_scale` is an `f32` that only the drawing code reads. It is not modelled, and neither is its setter.
- The `Debug` implementation, `main.rs` and `prelude.rs` are not part of this model. Neither are the `println!` progress lines or the printing of the encoder's stderr, including the `unwrap` on a non-UTF-8 stderr.
- Paths are plain names: the `work_dir` prefix on saves, writes and removals is dropped. So is the encoder's working directory. The manifest is written as `list.txt`.
- Segments.ConcatArgsOptions: the splice's `-i` is `work_dir.join("list.txt")` (src/swiping_img/mod.rs:290, 297), and ffmpeg runs with `work_dir` as its working directory (line 330). With a relative `work_dir`, ffmpeg looks for `<work_dir>/<work_dir>/list.txt`, and the splice fails after every clip was encoded. The model passes the bare name `list.txt`, so it does not show this failure.
- Pipeline.Concatenate: writes and splices the bare `list.txt`, as described for `Segments.ConcatArgsOptions`; the relative-`work_dir` failure of the splice is not modelled.
- Segments.MidPanStaysOnStill: ffmpeg's frame timing is not modelled. The lemma bounds the pan offset at the start of the clip's last second and gives the offset at the clip's end. It does not say which frames show background past the still during that last second.
- The setters return `&mut Self` for chaining. In the model they return nothing.
- An encoder killed by a signal has no exit code. It is folded into a non-zero exit status.
- `u32` arithmetic panics in a debug build. Its operands are required not to overflow, underflow or divide by zero. A release build's wrap-around is not modelled.
- The environment oracles do not change over a run. A save's outcome cannot depend on earlier actions.
- Pipeline.Combain: `combain` is split into the methods `GenerateSegments`, `GenerateRest`, `GenerateMids` and `Concatenate`, which the source writes inline. `results` is a returned sequence rather than a vector grown in place.
- Environment.WorkDir.Remove: removal errors are ignored as in the source, so a removal always counts as done.

## Findings

| source | as written | input that shows it | evidently intended | confidence | as-written member | corrected member |
|---|---|---|---|---|---|---|
| src/swiping_img/mod.rs:448-455 | `build` accepts fewer chunks than a screen holds (`len <= overlap`) | default builder with 3 chunks: `overlap` is 4 and `step` is clamped to 3, so `len - overlap` in `divide` (line 107) underflows a `usize` and panics in a debug build, before `step - overlap` and `chunks[..overlap]` are reached | reject with an error, as for an empty chunk list | not executed | Builder.TooFewChunksAccepted | Builder.ValidateChecked |
| src/swiping_img/mod.rs:448-455 | `build` accepts a step no larger than a screen (`step <= overlap`) | 10 chunks with `.step(4)`: `step == overlap`, so `divide` calls `step_by(0)`, which panics | reject a step that does not advance | not executed | Builder.StepTooSmallAccepted | Builder.ValidateChecked |
| src/swiping_img/mod.rs:652-655 | a zero swipe speed is accepted | `.video_swip_speed(0)`: `generate_mid_video` divides `width_chunk` by 0 | reject a zero speed, as the other setters assert | not executed | Builder.ZeroSwipeSpeedAccepted | Builder.ValidateChecked |
| src/swiping_img/mod.rs:427-461 | only `pic_h <= screen.1` is checked before `screen.1 - pic_h - text_up_h` | defaults with `.text_up_h(600)`: `1080 - 520 - 600` underflows a `u32` | reject caption bands taller than the screen | not executed | Builder.TextBandsTooTallPass | Builder.ValidateChecked |
