/** The timeline compiler in `export`: one pass over the sorted media clips
    that keeps a coverage cursor and a filler counter and collects the video
    and audio segments, the `concat` and `amix` stages over them, the chain
    of drawtext overlays, and the stream maps and encoders of the final
    command.

    Each pass is specified by a function (`GapFill`, `TextChain`, `Compile`)
    and carried out by a method with the source's loop (`CompileClips`,
    `BuildTextChain`) proved equal to it. */
module Timeline {
  import opened Clips
  import opened Graph
  import opened Helpers

  // ------------------------------------------------------------ the pass

  /** The loop's variables: `videoString`, `audioString` (as stage lists),
      `videoConcatInputs`, `audioConcatInputs`, `blackConcatCount` and
      `currentPosition`. */
  datatype Pass = Pass(videoStages: seq<Stage>, audioStages: seq<Stage>,
                       videoConcatInputs: seq<Label>, audioConcatInputs: seq<Label>,
                       blackConcatCount: nat, currentPosition: real)

  /** `Math.max` of a non-empty list. */
  function MaxOf(xs: seq<real>): (m: real)
    requires |xs| > 0
    ensures forall i :: 0 <= i < |xs| ==> xs[i] <= m
    ensures exists i :: 0 <= i < |xs| && xs[i] == m
  {
    if |xs| == 1 then xs[0]
    else
      var m' := MaxOf(xs[1..]);
      if xs[0] >= m' then xs[0] else m'
  }

  function MediaEnds(clips: seq<Clip>): (r: seq<real>)
    ensures |r| == |clips| && forall i :: 0 <= i < |clips| ==> r[i] == clips[i].end
  {
    seq(|clips|, i requires 0 <= i < |clips| => clips[i].end)
  }

  function TextEnds(texts: seq<TextClip>): (r: seq<real>)
    ensures |r| == |texts| && forall i :: 0 <= i < |texts| ==> r[i] == texts[i].end
  {
    seq(|texts|, i requires 0 <= i < |texts| => texts[i].end)
  }

  /** `maxEnd`: the latest end over all media clips and all text clips. */
  function MaxEnd(clips: seq<Clip>, texts: seq<TextClip>): (m: real)
    requires |clips| > 0
    ensures forall i :: 0 <= i < |clips| ==> clips[i].end <= m
    ensures forall i :: 0 <= i < |texts| ==> texts[i].end <= m
    ensures (exists i :: 0 <= i < |clips| && clips[i].end == m) || (exists i :: 0 <= i < |texts| && texts[i].end == m)
  {
    var ends := MediaEnds(clips) + TextEnds(texts);
    var m := MaxOf(ends);
    assert forall i :: 0 <= i < |clips| ==> ends[i] == clips[i].end;
    assert forall i :: 0 <= i < |texts| ==> ends[|clips| + i] == texts[i].end;
    var w :| 0 <= w < |ends| && ends[w] == m;
    if w < |clips| then m
    else assert texts[w - |clips|].end == m; m
  }

  /** The trim, rescale and pad stage for the video clip at `index`. */
  function TrimStage(c: Clip, index: nat, canvas: Canvas): Stage
  {
    Stage([VideoIn(index)],
          [Trim(c.cutFrom, GetTrimEnd(c)), SetPts,
           ScaleDecrease(canvas.width, canvas.height), PadCenter(canvas.width, canvas.height)],
          ClipVideo(index))
  }

  /** The trim stage reads the `index`-th input's video and writes
      `[v{index}]`; its source window starts at `cutFrom`, ends at
      `cutFrom + (end - position)` and so lasts exactly as long as the clip
      is on the timeline; the picture is fitted to the canvas. */
  lemma TrimStageWindow(c: Clip, index: nat, canvas: Canvas)
    ensures var s := TrimStage(c, index, canvas);
            && s.inputs == [VideoIn(index)] && s.output == ClipVideo(index)
            && |s.ops| == 4 && s.ops[0] == Trim(c.cutFrom, c.cutFrom + (c.end - c.position))
            && s.ops[0].end - s.ops[0].start == c.end - c.position
            && s.ops[2] == ScaleDecrease(canvas.width, canvas.height)
            && s.ops[3] == PadCenter(canvas.width, canvas.height)
  {
  }

  /** Appends a black filler of `duration` and advances the filler counter. */
  function AddBlack(p: Pass, duration: real, canvas: Canvas): Pass
  {
    var part := GetBlackString(duration, canvas.width, canvas.height, p.blackConcatCount);
    p.(videoStages := p.videoStages + [part.stage],
       videoConcatInputs := p.videoConcatInputs + [part.concatInput],
       blackConcatCount := p.blackConcatCount + 1)
  }

  function AddAudio(p: Pass, c: Clip, index: nat): Pass
  {
    var part := GetClipAudioString(c, index);
    p.(audioStages := p.audioStages + [part.stage],
       audioConcatInputs := p.audioConcatInputs + [part.concatInput])
  }

  /** The black filler a video clip needs when it starts after the cursor. */
  function FillGap(p: Pass, clip: Clip, canvas: Canvas): Pass
  {
    if clip.position > p.currentPosition
    then AddBlack(p, clip.position - p.currentPosition, canvas) else p
  }

  /** A video clip's own segment and audio; the cursor moves to its end. */
  function AddVideo(p: Pass, clip: Clip, index: nat, canvas: Canvas): Pass
    requires clip.Video?
  {
    var p1 := p.(videoStages := p.videoStages + [TrimStage(clip, index, canvas)],
                 videoConcatInputs := p.videoConcatInputs + [ClipVideo(index)]);
    var p2 := if clip.hasAudio then AddAudio(p1, clip, index) else p1;
    p2.(currentPosition := clip.end)
  }

  /** After the last clip, when it is a video: a filler up to `maxEnd`. */
  function FillTail(p: Pass, clips: seq<Clip>, texts: seq<TextClip>, index: nat, canvas: Canvas): Pass
    requires index < |clips|
  {
    if index == |clips| - 1 && p.currentPosition < MaxEnd(clips, texts) then
      AddBlack(p, MaxEnd(clips, texts) - p.currentPosition, canvas).(currentPosition := MaxEnd(clips, texts))
    else p
  }

  /** One iteration of the `forEach` over the sorted clips. A video clip that
      starts after the cursor gets a filler for the gap, then its own
      segment (and its audio if it has any), and moves the cursor to its
      end; if it is the last clip and ends before `maxEnd`, a trailing
      filler follows. An audio clip adds its audio stage and leaves the
      cursor alone. */
  function Step(p: Pass, clips: seq<Clip>, texts: seq<TextClip>, index: nat, canvas: Canvas): Pass
    requires index < |clips|
  {
    var clip := clips[index];
    if clip.Video? then FillTail(AddVideo(FillGap(p, clip, canvas), clip, index, canvas), clips, texts, index, canvas)
    else AddAudio(p, clip, index)
  }

  /** The state of the pass after its first `k` iterations. */
  function GapFill(clips: seq<Clip>, texts: seq<TextClip>, k: nat, canvas: Canvas): Pass
    requires k <= |clips|
  {
    if k == 0 then Pass([], [], [], [], 0, 0.0)
    else Step(GapFill(clips, texts, k - 1, canvas), clips, texts, k - 1, canvas)
  }

  /** The video branch of the loop body, on the loop's variables: the gap
      filler, the clip's own segment and audio, the cursor, and the
      trailing filler after the last clip. */
  method VisitVideo(before: Pass, clips: seq<Clip>, texts: seq<TextClip>, index: nat, canvas: Canvas)
    returns (after: Pass)
    requires index < |clips| && clips[index].Video?
    ensures after == Step(before, clips, texts, index, canvas)
  {
    var clip := clips[index];
    var videoStages, audioStages := before.videoStages, before.audioStages;
    var videoConcatInputs, audioConcatInputs := before.videoConcatInputs, before.audioConcatInputs;
    var blackConcatCount, currentPosition := before.blackConcatCount, before.currentPosition;
    if clip.position > currentPosition {
      var black := GetBlackString(clip.position - currentPosition, canvas.width, canvas.height, blackConcatCount);
      videoStages := videoStages + [black.stage];
      videoConcatInputs := videoConcatInputs + [black.concatInput];
      blackConcatCount := blackConcatCount + 1;
    }
    ghost var gap := Pass(videoStages, audioStages, videoConcatInputs, audioConcatInputs,
                          blackConcatCount, currentPosition);
    assert gap == FillGap(before, clip, canvas);
    videoStages := videoStages + [TrimStage(clip, index, canvas)];
    videoConcatInputs := videoConcatInputs + [ClipVideo(index)];
    if clip.hasAudio {
      var audio := GetClipAudioString(clip, index);
      audioStages := audioStages + [audio.stage];
      audioConcatInputs := audioConcatInputs + [audio.concatInput];
    }
    currentPosition := clip.end;
    ghost var added := Pass(videoStages, audioStages, videoConcatInputs, audioConcatInputs,
                            blackConcatCount, currentPosition);
    assert added == AddVideo(gap, clip, index, canvas);
    if index == |clips| - 1 {
      var maxEnd := MaxEnd(clips, texts);
      if currentPosition < maxEnd {
        var black := GetBlackString(maxEnd - currentPosition, canvas.width, canvas.height, blackConcatCount);
        videoStages := videoStages + [black.stage];
        videoConcatInputs := videoConcatInputs + [black.concatInput];
        blackConcatCount := blackConcatCount + 1;
        currentPosition := maxEnd;
      }
    }
    after := Pass(videoStages, audioStages, videoConcatInputs, audioConcatInputs, blackConcatCount, currentPosition);
  }

  /** The gap-filling loop of `export`, with the source's variables. */
  method CompileClips(clips: seq<Clip>, texts: seq<TextClip>, canvas: Canvas) returns (p: Pass)
    ensures p == GapFill(clips, texts, |clips|, canvas)
  {
    var videoStages: seq<Stage> := [];
    var audioStages: seq<Stage> := [];
    var videoConcatInputs: seq<Label> := [];
    var audioConcatInputs: seq<Label> := [];
    var blackConcatCount: nat := 0;
    var currentPosition: real := 0.0;
    var index := 0;
    while index < |clips|
      invariant index <= |clips|
      invariant Pass(videoStages, audioStages, videoConcatInputs, audioConcatInputs,
                     blackConcatCount, currentPosition) == GapFill(clips, texts, index, canvas)
    {
      var clip := clips[index];
      var before := Pass(videoStages, audioStages, videoConcatInputs, audioConcatInputs,
                         blackConcatCount, currentPosition);
      if clip.Video? {
        var after := VisitVideo(before, clips, texts, index, canvas);
        videoStages, audioStages := after.videoStages, after.audioStages;
        videoConcatInputs, audioConcatInputs := after.videoConcatInputs, after.audioConcatInputs;
        blackConcatCount, currentPosition := after.blackConcatCount, after.currentPosition;
      }
      if clip.Audio? {
        var audio := GetClipAudioString(clip, index);
        audioStages := audioStages + [audio.stage];
        audioConcatInputs := audioConcatInputs + [audio.concatInput];
      }
      assert Pass(videoStages, audioStages, videoConcatInputs, audioConcatInputs, blackConcatCount, currentPosition)
             == Step(before, clips, texts, index, canvas);
      index := index + 1;
    }
    p := Pass(videoStages, audioStages, videoConcatInputs, audioConcatInputs, blackConcatCount, currentPosition);
  }

  // ------------------------------------------------------ text overlays

  /** The placement on one axis: at most one option, on that axis only;
      the centre offset wins over the absolute coordinate, and with neither
      the axis is left to drawtext's default. */
  function PlacementOption(center: Option<real>, absolute: Option<real>, extent: real, horizontal: bool): (r: seq<TextOption>)
    ensures |r| <= 1
    ensures r == [] <==> center.None? && absolute.None?
    ensures forall k :: 0 <= k < |r| ==> (if horizontal then r[k].X? else r[k].Y?)
    ensures center.Some? ==> r == [if horizontal then X(Centered(extent, center.value)) else Y(Centered(extent, center.value))]
    ensures center.None? && absolute.Some? ==> r == [if horizontal then X(Absolute(absolute.value)) else Y(Absolute(absolute.value))]
  {
    if center.Some? then [if horizontal then X(Centered(extent, center.value)) else Y(Centered(extent, center.value))]
    else if absolute.Some? then [if horizontal then X(Absolute(absolute.value)) else Y(Absolute(absolute.value))]
    else []
  }

  /** The border and shadow settings, each present when its field is truthy. */
  function BorderAndShadow(d: Decorations): seq<TextOption>
  {
    (if TruthyStr(d.borderColor) then [BorderColor(d.borderColor.value)] else [])
    + (if TruthyNum(d.borderWidth) then [BorderWidth(d.borderWidth.value)] else [])
    + (if TruthyStr(d.shadowColor) then [ShadowColor(d.shadowColor.value)] else [])
    + (if TruthyNum(d.shadowX) then [ShadowX(d.shadowX.value)] else [])
    + (if TruthyNum(d.shadowY) then [ShadowY(d.shadowY.value)] else [])
  }

  /** The background box and its padding, each present when its field is
      truthy; the box opacity only together with the box colour. */
  function BoxSettings(d: Decorations): seq<TextOption>
  {
    (if TruthyStr(d.backgroundColor)
     then [Box(d.backgroundColor.value, if TruthyNum(d.backgroundOpacity) then d.backgroundOpacity else None)]
     else [])
    + (if TruthyNum(d.padding) then [BoxBorderWidth(d.padding.value)] else [])
  }

  /** The border, shadow, box and padding settings, in the order `export`
      appends them. */
  function DecorationOptions(d: Decorations): seq<TextOption>
  {
    BorderAndShadow(d) + BoxSettings(d)
  }

  /** No option of the list sets a position. */
  predicate Unplaced(opts: seq<TextOption>)
  {
    forall k :: 0 <= k < |opts| ==> !opts[k].X? && !opts[k].Y?
  }

  lemma UnplacedAppend(a: seq<TextOption>, b: seq<TextOption>)
    requires Unplaced(a) && Unplaced(b)
    ensures Unplaced(a + b)
  {
    forall k | 0 <= k < |a + b|
      ensures !(a + b)[k].X? && !(a + b)[k].Y?
    {
      if k >= |a| {
        assert (a + b)[k] == b[k - |a|];
      }
    }
  }

  /** The decorations never set a position: placement comes only from the
      centre offsets or the absolute coordinates. */
  lemma DecorationOptionsUnplaced(d: Decorations)
    ensures Unplaced(DecorationOptions(d))
  {
    var border := BorderAndShadow(d);
    forall k | 0 <= k < |border|
      ensures !border[k].X? && !border[k].Y?
    {
    }
    var box := BoxSettings(d);
    forall k | 0 <= k < |box|
      ensures !box[k].X? && !box[k].Y?
    {
    }
    UnplacedAppend(border, box);
  }

  /** The optional drawtext settings of a text clip, in the order `export`
      appends them (placement: the centre offset when it is a number, else
      the absolute coordinate when that is). */
  function TextOptions(t: TextClip, canvas: Canvas): seq<TextOption>
  {
    PlacementOption(t.centerX, t.x, canvas.width, true)
    + PlacementOption(t.centerY, t.y, canvas.height, false)
    + DecorationOptions(t.decor)
  }

  /** A text clip's overlay is placed at most once on each axis, and on an
      axis exactly when the clip has a centre offset or an absolute
      coordinate for it. */
  lemma TextOptionsPlacement(t: TextClip, canvas: Canvas)
    ensures var r := TextOptions(t, canvas);
            && PlacedAtMostOnce(r)
            && (HasX(r) <==> t.centerX.Some? || t.x.Some?)
            && (HasY(r) <==> t.centerY.Some? || t.y.Some?)
  {
    var px := PlacementOption(t.centerX, t.x, canvas.width, true);
    var py := PlacementOption(t.centerY, t.y, canvas.height, false);
    DecorationOptionsUnplaced(t.decor);
    PlacementsCombine(px, py, DecorationOptions(t.decor));
  }

  /** No two options set the horizontal position, and no two the vertical. */
  predicate PlacedAtMostOnce(r: seq<TextOption>)
  {
    forall i, j :: 0 <= i < j < |r| ==> !(r[i].X? && r[j].X?) && !(r[i].Y? && r[j].Y?)
  }

  predicate HasX(r: seq<TextOption>) { exists k :: 0 <= k < |r| && r[k].X? }

  predicate HasY(r: seq<TextOption>) { exists k :: 0 <= k < |r| && r[k].Y? }

  /** A horizontal placement, a vertical one and placement-free options,
      put one after the other, place each axis at most once. */
  lemma PlacementsCombine(px: seq<TextOption>, py: seq<TextOption>, deco: seq<TextOption>)
    requires |px| <= 1 && (forall k :: 0 <= k < |px| ==> px[k].X?)
    requires |py| <= 1 && (forall k :: 0 <= k < |py| ==> py[k].Y?)
    requires Unplaced(deco)
    ensures PlacedAtMostOnce(px + py + deco)
    ensures HasX(px + py + deco) <==> |px| == 1
    ensures HasY(px + py + deco) <==> |py| == 1
  {
    var r := px + py + deco;
    assert forall k :: 0 <= k < |r| ==>
             r[k] == if k < |px| then px[k] else if k < |px| + |py| then py[k - |px|] else deco[k - |px| - |py|];
    if |px| == 1 {
      assert r[0].X?;
    }
    if |py| == 1 {
      assert r[|px|].Y?;
    }
  }

  function DrawTextOp(t: TextClip, canvas: Canvas): Op
  {
    DrawText(EscapeSingleQuotes(t.text), t.fontFile, t.fontSize, t.fontColor,
             t.position, t.end, TextOptions(t, canvas))
  }

  /** The `i`-th overlay: it reads `[outv]` or the previous overlay's
      `[text{i-1}]`, and writes `[text{i}]`, or `[outVideoAndText]` when it
      is the last. */
  function DrawTextStage(texts: seq<TextClip>, i: nat, canvas: Canvas): Stage
    requires i < |texts|
  {
    Stage([if i == 0 then OutV else TextOut(i - 1)],
          [DrawTextOp(texts[i], canvas)],
          if i == |texts| - 1 then OutVideoAndText else TextOut(i))
  }

  /** The overlays, one per text clip, in text-clip order. */
  function TextChain(texts: seq<TextClip>, canvas: Canvas): (r: seq<Stage>)
    ensures |r| == |texts|
  {
    seq(|texts|, i requires 0 <= i < |texts| => DrawTextStage(texts, i, canvas))
  }

  /** The overlays form one chain: the first reads `[outv]`, each later
      one reads exactly what the one before it wrote, the last writes
      `[outVideoAndText]`, and each draws its own clip's text while the
      clip is on the timeline. */
  lemma TextChainLinks(texts: seq<TextClip>, canvas: Canvas)
    ensures var r := TextChain(texts, canvas);
            && (|r| > 0 ==> r[0].inputs == [OutV] && r[|r| - 1].output == OutVideoAndText)
            && (forall i :: 0 < i < |r| ==> r[i].inputs == [r[i - 1].output])
            && (forall i :: 0 <= i < |r| - 1 ==> r[i].output != OutVideoAndText)
            && (forall i :: 0 <= i < |r| ==>
                  |r[i].ops| == 1 && r[i].ops[0].DrawText? && r[i].ops[0].text.raw == texts[i].text
                  && r[i].ops[0].from == texts[i].position && r[i].ops[0].to == texts[i].end)
  {
  }

  /** The `forEach` over the text clips, appending one overlay per clip
      and threading the label each one writes into the next. */
  method BuildTextChain(texts: seq<TextClip>, canvas: Canvas) returns (stages: seq<Stage>)
    ensures stages == TextChain(texts, canvas)
  {
    stages := [];
    var input := OutV;
    var index := 0;
    while index < |texts|
      invariant index <= |texts|
      invariant stages == TextChain(texts, canvas)[..index]
      invariant index < |texts| ==> input == if index == 0 then OutV else TextOut(index - 1)
    {
      var output := if index == |texts| - 1 then OutVideoAndText else TextOut(index);
      assert TextChain(texts, canvas)[..index + 1] == TextChain(texts, canvas)[..index] + [DrawTextStage(texts, index, canvas)];
      stages := stages + [Stage([input], [DrawTextOp(texts[index], canvas)], output)];
      input := output;
      index := index + 1;
    }
  }

  // ------------------------------------------------------- the command

  datatype Encoder =
    | VideoEncoder(codec: string, preset: string, crf: nat)
    | AudioEncoder(acodec: string, bitrate: string)

  const Libx264: Encoder := VideoEncoder("libx264", "medium", 23)
  const Aac: Encoder := AudioEncoder("aac", "192k")

  /** The ffmpeg invocation (`-y` is always given): inputs in order, the
      filter graph, the mapped output labels, the encoders, the output path. */
  datatype Command = Command(inputs: seq<string>, filterComplex: seq<Stage>,
                             maps: seq<Label>, encoders: seq<Encoder>, outputPath: string)

  const DefaultOutputPath: string := "./output.mp4"

  /** `options.outputPath || "./output.mp4"`: never empty; a non-empty
      path given by the caller is used as it is. */
  function OutputPath(o: Option<string>): (r: string)
    ensures r != []
    ensures TruthyStr(o) ==> r == o.value
    ensures !TruthyStr(o) ==> r == DefaultOutputPath
  {
    OrStr(o, DefaultOutputPath)
  }

  /** `_getInputStreams`: one `-i` per clip, in array order. */
  function InputStreams(clips: seq<Clip>): (r: seq<string>)
    ensures |r| == |clips| && forall k :: 0 <= k < |clips| ==> r[k] == clips[k].url
  {
    seq(|clips|, k requires 0 <= k < |clips| => clips[k].url)
  }

  function ConcatStage(videoConcatInputs: seq<Label>): Stage
  {
    Stage(videoConcatInputs, [Concat(|videoConcatInputs|)], OutV)
  }

  function AmixStage(audioConcatInputs: seq<Label>): Stage
  {
    Stage(audioConcatInputs, [Amix(|audioConcatInputs|)], OutA)
  }

  /** The `concat` and `amix` stages, each emitted when it has inputs. */
  function CombineStages(p: Pass): seq<Stage>
  {
    (if |p.videoConcatInputs| > 0 then [ConcatStage(p.videoConcatInputs)] else [])
    + (if |p.audioConcatInputs| > 0 then [AmixStage(p.audioConcatInputs)] else [])
  }

  /** The `-filter_complex` graph: the segment stages, the concat and amix
      stages, then the text overlays, in the order `export` joins them. */
  function FilterGraph(p: Pass, texts: seq<TextClip>, canvas: Canvas): seq<Stage>
  {
    p.videoStages + p.audioStages + CombineStages(p) + TextChain(texts, canvas)
  }

  /** The command `export` assembles once the gap-filling pass is done:
      the video output, then `[outa]`, each mapped and encoded when its
      track has segments. */
  function Assemble(p: Pass, clips: seq<Clip>, texts: seq<TextClip>, canvas: Canvas, outputPath: string): Command
  {
    var hasVideo := |p.videoConcatInputs| > 0;
    var hasAudio := |p.audioConcatInputs| > 0;
    var combinedVideoName := if |texts| > 0 then OutVideoAndText else OutV;
    Command(InputStreams(clips),
            FilterGraph(p, texts, canvas),
            (if hasVideo then [combinedVideoName] else []) + (if hasAudio then [OutA] else []),
            (if hasVideo then [Libx264] else []) + (if hasAudio then [Aac] else []),
            outputPath)
  }

  /** The command `export` builds from clips already in sorted order. */
  function Compile(clips: seq<Clip>, texts: seq<TextClip>, canvas: Canvas, outputPath: string): Command
  {
    Assemble(GapFill(clips, texts, |clips|, canvas), clips, texts, canvas, outputPath)
  }
}
