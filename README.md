# ezffmpeg timeline compiler, modelled in Dafny

ezffmpeg builds one ffmpeg command from a timeline of video, audio and
text clips. This project models the part of it that decides what the
command contains:

- the `EZFFMPEG` object: the canvas options its constructor defaults, and
  the clip lists `load` fills, with each descriptor defaulted as the code
  does it;
- `export` up to the point where it runs ffmpeg:
  - the sort of the media clips by position;
  - the re-encoding of rotated videos;
  - the gap-filling pass, which inserts black fillers between and after
    video clips and collects the video and audio segments;
  - the `concat` and `amix` stages;
  - the chain of `drawtext` overlays;
  - the `-map` and encoder options;
- the two helpers of `src/_helpers.js`.

The filter graph is a list of stages. Each stage reads labels, applies a
list of filters and writes one label (`[v3]`, `[a0]`, `[outv]`,
`[text1]`, …). It is kept as a typed value and never rendered as text.
Times are real numbers. JavaScript truthiness is written out: a number
option is falsy when absent or 0, a string option when absent or empty.

Modules:

- `Clips` (clips.dfy): descriptors, clips, canvas and probe outcomes, and
  the defaulting done by the constructor and by `load`.
- `Graph` (graph.dfy): labels, filters, stages, and what it means for a
  graph to be wired consistently.
- `Helpers` (helpers.dfy): `getClipEnd` and `getClipAudioString`, plus
  the three helpers that `export` calls but `src/_helpers.js` does not
  define.
- `Ordering` (ordering.dfy): the sort comparator, and what sorting with
  it guarantees.
- `Timeline` (timeline.dfy): the gap-filling pass and the overlay chain,
  each as a specification function and as a method with the source's
  loop proved equal to it. It also assembles the command.
- `TimelineProofs` (timeline_proofs.dfy): properties of the pass, covering
  label counts, the cursor, the fillers and how much of the timeline the
  video track covers.
- `Wiring` (wiring.dfy): the compiled graph reads only labels that exist
  and writes no label twice. The one exception is text overlays without
  any video clip, where it reads a label that nothing writes.
- `Outputs` (outputs.dfy): which labels are mapped and which encoders
  are chosen, centred text placement, and concrete scenarios.
- `Composer` (composer.dfy): the `EzFfmpeg` class with `Load`,
  `SortClips`, `UnrotateClips` and `Export`, and `_getTranspose`.

Three behaviours of the code are worth noting:

- `maxEnd` includes the ends of audio clips (src/ezffmpeg.js:247-250).
- The trailing filler is added only when the last sorted clip is a video,
  because the check sits inside the video branch (src/ezffmpeg.js:246).
- The `-i` inputs are listed in sorted order, which is also the order
  whose indices the `[k:v]` and `[k:a]` labels use (src/ezffmpeg.js:21-27).

## Model

| member | source | states |
|---|---|---|
| Clips.CanvasOf | src/ezffmpeg.js:10-15 | Each of fps, width and height keeps a truthy option and otherwise takes 30, 1920 or 1080. No dimension is ever 0. |
| Clips.CanvasOfIsIdempotent | src/ezffmpeg.js:10-15 | Constructing from the values of an existing canvas gives that canvas back. |
| Composer.EzFfmpeg.constructor | src/ezffmpeg.js:10-19 | The canvas is the defaulted options. The clip, text and cleanup lists start empty. |
| Clips.MetadataOf | src/ezffmpeg.js:47-87 | Covers the three outcomes of the probe. If the command fails, `iphoneRotation` is left undefined, because that branch sets `rotation` instead. If the output does not parse, the rotation is 0 and there is no audio. A successful probe gives the side-data rotation when it is truthy (else 0) and whether any audio stream exists. |
| Clips.MediaOf | src/ezffmpeg.js:121-133 | A video or audio descriptor gives exactly one clip, and any other kind gives none. The clip keeps the descriptor's url, position and end. A falsy volume becomes 1 and a falsy cutFrom becomes 0. A video clip carries the probe's rotation and audio flag. |
| Clips.TextOf | src/ezffmpeg.js:135-144 | The font file defaults to "./fonts/Arial-Bold.ttf", the size to 100 and the colour to "#000000". The centre offsets are always numbers, 0 when falsy. All other fields are kept. |
| Clips.LoadedMediaDefaults | src/ezffmpeg.js:146-165 | `load` adds one media clip per media descriptor. Each comes from a descriptor of the batch, and none has a falsy volume. |
| Clips.ZeroVolumeLoadsAsOne | src/ezffmpeg.js:149-151 | A requested volume of 0 is loaded as 1. |
| Clips.TextDefaultsIdempotent | src/ezffmpeg.js:135-144 | Reloading a loaded text clip's own settings gives the same clip. |
| Clips.NeedsReencode | src/ezffmpeg.js:192 | Audio clips are never re-encoded. A video is re-encoded unless its rotation is exactly 0, and also when the rotation was left undefined. |
| Clips.ReencodeAfterProbe | src/ezffmpeg.js:47-87 | A video whose probe command failed is re-encoded. A video whose probe output could not be parsed, or that reports no truthy rotation, is not. |
| Composer.EzFfmpeg.LoadMedia | src/ezffmpeg.js:121-133 | The defaulted clip, with the probed rotation and audio flag for a video, is appended to the media list. The other lists are unchanged. |
| Composer.EzFfmpeg.LoadText | src/ezffmpeg.js:135-144 | The defaulted text clip is appended to the text list. The other lists are unchanged. |
| Composer.EzFfmpeg.Load | src/ezffmpeg.js:146-165 | The media list grows by exactly the loaded media clips, in descriptor order. The text list grows by exactly the loaded text clips. The cleanup list is unchanged. |
| Ordering.Compare | src/ezffmpeg.js:174-188 | The comparator is -1 or 1, never 0. It is negative exactly when the first clip is unpositioned, or both are positioned and the first comes strictly earlier. |
| Ordering.CompareIsNotAnOrder | src/ezffmpeg.js:174-188 | Two unpositioned clips, or two clips at the same position, are each ranked before the other. |
| Ordering.CompareAgreesWithPrecedes | src/ezffmpeg.js:174-188 | Whichever way the comparator decides, the decision agrees with "unpositioned first, then non-decreasing position". |
| Ordering.SortedMeaning | src/ezffmpeg.js:174-188 | The list is sorted if and only if unpositioned clips precede all positioned ones and positioned clips appear in non-decreasing position order. |
| Ordering.Insert | src/ezffmpeg.js:174-188 | One insertion step with the comparator adds the clip, as a multiset, and keeps a sorted list sorted. |
| Ordering.InsertAll | src/ezffmpeg.js:174-188 | The sorted list is a permutation of the original and is sorted by position. |
| Composer.SortByPosition | src/ezffmpeg.js:174-188 | The loop inserts the clips one by one with the comparator, and its result is `InsertAll`, which is a permutation sorted by position. |
| Composer.EzFfmpeg.SortClips | src/ezffmpeg.js:174-188 | The media list becomes its sorted permutation. Nothing else changes. |
| Composer.Unrotated | src/ezffmpeg.js:190-198 | Every video whose rotation is not 0 gets the url of its re-encoded copy. Every other clip, and every other field, is unchanged. |
| Composer.ReencodedFiles | src/ezffmpeg.js:190-198 | Every file recorded for cleanup is the re-encoded copy of a clip that needed re-encoding. |
| Composer.ReencodedFilesCount | src/ezffmpeg.js:190-198 | Exactly one file is recorded for each clip that needs re-encoding. |
| Composer.UnrotatedKeepsTimeline | src/ezffmpeg.js:190-198 | Re-encoding changes urls only. Positions, ends, trims, kinds and audio tracks are kept, and so is sortedness. |
| Composer.EzFfmpeg.UnrotateClip | src/ezffmpeg.js:191-197 | The callback for clip `i`: if the clip needs re-encoding, its copy becomes its url and is recorded for cleanup. Otherwise nothing changes. No other clip changes. |
| Composer.EzFfmpeg.SwapInCopy | src/ezffmpeg.js:192-196 | The re-encoded copy is recorded for cleanup and becomes that clip's url. No other clip and no other field changes. |
| Composer.EzFfmpeg.UnrotateClips | src/ezffmpeg.js:190-198 | The media list is replaced by its re-encoded form. The new files are appended to the cleanup list. |
| Composer.ExportedClipsSorted | src/ezffmpeg.js:174-198 | `export` compiles clips that are sorted by position and are a permutation of the clips loaded, up to re-encoded urls. |
| Composer.Transpose | src/ezffmpeg.js:29-40 | Gives "1", "2" or "3" exactly for 90, -90 and 180, and "0" for every other rotation. |
| Composer.TransposeRoundTrip | src/ezffmpeg.js:29-40 | Decoding the code gives the rotation back exactly for 90, -90 and 180. Every other rotation collapses to "0". |
| Helpers.GetClipEnd | src/_helpers.js:1-3 | The source time `cutFrom` plays at timeline `position`, so the trim end plays exactly at timeline `end`. |
| Helpers.GetClipEndExample | src/_helpers.js:1-3 | With cutFrom 2, position 0 and end 10, the trim end is 12. |
| Helpers.GetClipAudioString | src/_helpers.js:5-16 | The stage reads `[index:a]` and writes `[a{index}]`, which is also the returned label. Its filters run in this order: volume first; atrim from cutFrom, as long as the clip is on the timeline; the same adelay on both channels, equal to position × 1000; and asetpts last. |
| Helpers.AudioStageExample | src/_helpers.js:5-16 | A clip at [3,8] with cutFrom 0 gets atrim 0..5 and adelay 3000\|3000. |
| Helpers.GetBlackString | src/ezffmpeg.js:217-223 | A filler is a stage with no inputs that writes the label fixed by the filler counter, and that label is the one returned. |
| Timeline.MaxEnd | src/ezffmpeg.js:247-250 | `maxEnd` is at least the end of every media clip and of every text clip, and equals one of those ends. |
| Timeline.TrimStageWindow | src/ezffmpeg.js:228-235 | The trim stage of clip `k` reads `[k:v]` and writes `[v{k}]`. Its window starts at cutFrom and ends at `cutFrom + (end - position)`, so it lasts exactly as long as the clip is on the timeline. It then scales to fit the canvas and pads to the canvas size. |
| Timeline.Step | src/ezffmpeg.js:212-273 | Specification function for one iteration of the loop. For a video: the gap filler when the clip starts after the cursor, the trim stage, the audio stage when the clip has audio, the cursor moved to the clip's end, and the trailing filler after the last clip. For an audio clip: its audio stage only. Its properties are the `TimelineProofs` lemmas below. |
| Timeline.GapFill | src/ezffmpeg.js:206-273 | Specification function for the loop state after the first `k` clips, starting from empty lists, counter 0 and cursor 0. Its properties are the `TimelineProofs` lemmas below. |
| TimelineProofs.StepCounts | src/ezffmpeg.js:215-271 | One iteration adds one video label per filler or segment and one audio label per audio stream, with one stage per label. An audio clip adds no filler. |
| TimelineProofs.StepGrows | src/ezffmpeg.js:215-271 | One iteration only appends to the lists and never lowers the filler counter. |
| Timeline.VisitVideo | src/ezffmpeg.js:214-264 | The video branch of the loop body computes exactly one iteration of the pass for a video clip: gap filler, segment, audio, cursor and trailing filler. |
| Timeline.CompileClips | src/ezffmpeg.js:206-273 | The source's loop computes exactly the pass `GapFill`, about which the lemmas below are stated. |
| TimelineProofs.LabelCounts | src/ezffmpeg.js:212-273 | The pass produces one video label per video clip plus one per filler, and one audio label per clip that has an audio track. Each label has exactly one stage. There is no filler without a video clip. |
| TimelineProofs.CursorFollowsVideo | src/ezffmpeg.js:212-273 | During the pass, the cursor is the end of the last video clip seen. At the end it is `maxEnd` when a trailing filler was added. |
| TimelineProofs.AudioStepIgnoresCursor | src/ezffmpeg.js:266-271 | An audio clip leaves the video side and the cursor unchanged. What it adds does not depend on the cursor. |
| TimelineProofs.GapFillGrows | src/ezffmpeg.js:212-273 | Iterations only append: earlier lists are prefixes of later ones, and the filler counter never decreases. |
| TimelineProofs.FillerBeforeVideo | src/ezffmpeg.js:215-243 | When a video clip starts after the previous video clip's end, its segment is preceded by exactly one filler as long as the gap, with the next filler number. Otherwise its segment directly follows the earlier segments. The segment trims input `k`. |
| TimelineProofs.TrailingFiller | src/ezffmpeg.js:246-263 | The video track ends with a filler of `maxEnd - end` exactly when the last sorted clip is a video ending before `maxEnd`. Otherwise the track is empty or ends with a clip's segment. |
| TimelineProofs.TrackReachesCursor | src/ezffmpeg.js:212-273 | The video track plays at least until the cursor. It plays exactly until the cursor when no video clip overlaps the one before. |
| TimelineProofs.VideoTrackCoversTimeline | src/ezffmpeg.js:212-263 | When the last sorted clip is a video, the video track lasts at least until `maxEnd`, and exactly until it without overlaps. |
| TimelineProofs.AudioLastLeavesVideoShort | src/ezffmpeg.js:246 | Shows the trailing filler is keyed to a video clip being last. A video at [0,5] followed by an audio clip at [1,10] gives a 5-second video track, while `maxEnd` is 10. |
| Timeline.DecorationOptionsUnplaced | src/ezffmpeg.js:313-342 | The border, shadow, box and padding settings never set a position. |
| Timeline.PlacementOption | src/ezffmpeg.js:301-311 | On one axis there is at most one placement, and only on that axis. It is absent exactly when the clip has neither a centre offset nor an absolute coordinate. A centre offset gives `(extent - text width)/2 + offset` and wins over the absolute coordinate, which is used otherwise. |
| Timeline.TextOptionsPlacement | src/ezffmpeg.js:301-342 | A text clip's overlay sets each axis at most once, and sets an axis exactly when the clip has a centre offset or an absolute coordinate for it. |
| Timeline.TextChainLinks | src/ezffmpeg.js:290-352 | The first overlay reads `[outv]`. Each later overlay reads exactly what the one before wrote. Only the last writes `[outVideoAndText]`. Each overlay draws its own clip's text, enabled between its position and end. |
| Timeline.BuildTextChain | src/ezffmpeg.js:290-352 | The source's loop builds exactly `TextChain`. |
| Outputs.LoadedTextIsCentered | src/ezffmpeg.js:301-311 | `_loadText` always sets numeric centre offsets (lines 141-142), so a loaded text clip is always centred on both axes at those offsets, and the absolute `x`/`y` branches never apply. |
| Wiring.CompiledTextOutReadOnlyByNext | src/ezffmpeg.js:346-350 | In the compiled graph, `[text{i}]` is read only by overlay `i + 1`. |
| Timeline.OutputPath | src/ezffmpeg.js:168-170 | The output path is never empty. A non-empty path given by the caller is used as given, and otherwise it is "./output.mp4". |
| Timeline.InputStreams | src/ezffmpeg.js:21-27 | One input per clip, and the `k`-th input is the `k`-th clip's url. |
| Outputs.CombineCounts | src/ezffmpeg.js:280-288 | The concat stage exists exactly when there is a video clip, and joins video clips plus fillers. The amix stage exists exactly when some clip has audio, and mixes that many inputs. |
| Outputs.OutputSelection | src/ezffmpeg.js:361-378 | The video output is mapped and encoded with libx264 exactly when there is a video clip. It is `[outVideoAndText]` exactly when there are also text clips. `[outa]` is mapped and encoded with AAC exactly when some clip has audio. The output path is the one given. |
| Outputs.MappedLabelsWritten | src/ezffmpeg.js:278-376 | Every mapped label is written by some stage of the graph. |
| Outputs.GapBetweenTwoClips | src/ezffmpeg.js:212-283 | On a 1280x720 canvas, clips at [0,5] and [7,10] give one 2-second filler between them, three concatenated segments, no audio, and a video-only map. |
| Outputs.LoneAudioClip | src/ezffmpeg.js:266-288 | A single audio clip gives only its audio stage and the amix stage, mapped and encoded as audio. |
| Wiring.GapFillWired | src/ezffmpeg.js:212-273 | After any number of iterations, the label lists are exactly the outputs of the segment stages, without duplicates. Fillers are numbered below the counter. Clip segments trim inputs already visited. |
| Wiring.GraphReadsAvailable | src/ezffmpeg.js:200-354 | Requires overlays only when there is video. Every label a stage reads is then an input stream of the right kind that exists, or the output of an earlier stage. |
| Wiring.GraphOutputsDistinct | src/ezffmpeg.js:200-354 | No label is written by two stages. |
| Wiring.CompiledGraphWellWired | src/ezffmpeg.js:200-357 | With a video clip, or without text clips, the compiled graph is wired consistently, and the `k`-th `-i` input is the `k`-th sorted clip. |
| Wiring.TextWithoutVideoDangles | src/ezffmpeg.js:290-291 | Text clips without any video clip make the first overlay read `[outv]`, which no stage writes. |
| Timeline.Assemble | src/ezffmpeg.js:278-378 | Specification function for the command built once the pass is done: inputs, filter graph, maps, encoders and output path. Its properties are stated by `Outputs.CombineCounts`, `Outputs.OutputSelection`, `Outputs.MappedLabelsWritten` and the `Wiring` lemmas. |
| Timeline.Compile | src/ezffmpeg.js:200-378 | Specification function: `Assemble` applied to the finished pass over the sorted clips. The same lemmas state its properties. |
| Composer.BuildCommand | src/ezffmpeg.js:278-378 | The overlays, the filter graph, the maps and the encoders are assembled exactly as `Compile` specifies. |
| Composer.EzFfmpeg.Export | src/ezffmpeg.js:167-378 | `export` sorts, re-encodes, and returns the command that `Compile` gives for the resulting clips, the text clips, the canvas and the defaulted output path. |

## Left out

- Running ffprobe (`_getVideoMetadata`) and parsing its JSON: the outcome of a probe is a parameter, and the width and height it reports are unused by `export`.
- Running the re-encoding command (`_unrotateVideo`) and naming its temporary file: the new path of each clip is a parameter. A failed re-encode, which rejects, is not modelled.
- Running the final ffmpeg command, the promise `export` returns, and `_cleanup`: these are process and file-system I/O.
- Logging to the console.
- The text form of the command: the model keeps stages, maps and encoders as values. It does not model string concatenation, quoting, the formatting of JavaScript numbers, or the line break the template literal puts inside each drawtext filter (src/ezffmpeg.js:296-297).
- `getBlackString`, `getTrimEnd` and `escapeSingleQuotes` are not part of this model's source. They are kept as abstract as their use allows: a filler stage with a label fixed by the counter, the same window end as `getClipEnd`, and a marker on the escaped text.
- Composer.EzFfmpeg.Load: `load` starts all descriptors at once. Audio and text clips are pushed at once, and a video only after its probe finishes, so the list order before sorting depends on timing. The model appends in descriptor order.
- Composer.EzFfmpeg.UnrotateClips: the re-encodes also run concurrently, and the cleanup list is filled in completion order. The model fills it in clip order.
- Composer.EzFfmpeg.SortClips: the engine's sort algorithm is unspecified for a comparator that is not a consistent order. The model fixes insertion with that comparator. Ties, meaning unpositioned clips or equal positions, may therefore end up in a different relative order than the engine's; the guarantee stated, a permutation that is sorted by position, does not depend on that order.
- A missing `position` or `end`, which JavaScript would turn into NaN arithmetic: every clip has numeric times.
- Placement values of a non-number type, which the `typeof … === "number"` tests skip. The model's placement fields are optional numbers.
- `load` writes the defaulted volume and cutFrom back into the caller's descriptor objects, and `_loadAudio` pushes those objects themselves, so audio clips stay shared with the caller (src/ezffmpeg.js:132). Video clips are spread copies (src/ezffmpeg.js:124-128), so the url the re-encoding step changes is never on a caller's object. The model works on values, so it does not capture this aliasing.
- `new EZFFMPEG()` and `export()` called without an options object throw a TypeError when they read `options.fps` and `options.outputPath` (src/ezffmpeg.js:12, 169). The model's options are always present, each field optional.
- The `fps` option is defaulted but never used by `export`, and `_getTranspose` is never called by `export`. Both are modelled on their own.
