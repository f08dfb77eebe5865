/** What the compiled command maps and encodes, and how the combining
    stages count their inputs, stated in terms of the clips themselves. */
module Outputs {
  import opened Clips
  import opened Graph
  import opened Helpers
  import opened Timeline
  import opened TimelineProofs

  /** The concat stage exists exactly when there is a video clip, and joins
      one segment per video clip plus one per filler; the amix stage exists
      exactly when some clip has an audio stream, and mixes one input per
      such clip. */
  lemma CombineCounts(clips: seq<Clip>, texts: seq<TextClip>, canvas: Canvas)
    ensures var p := GapFill(clips, texts, |clips|, canvas);
            CombineStages(p)
            == (if VideoCount(clips, |clips|) > 0
                then [Stage(p.videoConcatInputs, [Concat(VideoCount(clips, |clips|) + p.blackConcatCount)], OutV)]
                else [])
               + (if AudioTrackCount(clips, |clips|) > 0
                  then [Stage(p.audioConcatInputs, [Amix(AudioTrackCount(clips, |clips|))], OutA)]
                  else [])
  {
    LabelCounts(clips, texts, |clips|, canvas);
  }

  /** `-map` and the encoders: the video output is mapped and encoded with
      libx264 exactly when there is a video clip, and it is the overlay
      chain's output exactly when there are also text clips; `[outa]` is
      mapped and encoded with AAC exactly when some clip has audio. */
  lemma OutputSelection(clips: seq<Clip>, texts: seq<TextClip>, canvas: Canvas, outputPath: string)
    ensures var cmd := Compile(clips, texts, canvas, outputPath);
            var hasVideo := VideoCount(clips, |clips|) > 0;
            var hasAudio := AudioTrackCount(clips, |clips|) > 0;
            && (OutV in cmd.maps <==> hasVideo && |texts| == 0)
            && (OutVideoAndText in cmd.maps <==> hasVideo && |texts| > 0)
            && (OutA in cmd.maps <==> hasAudio)
            && (Libx264 in cmd.encoders <==> hasVideo)
            && (Aac in cmd.encoders <==> hasAudio)
            && |cmd.maps| == |cmd.encoders| <= 2
            && cmd.outputPath == outputPath
  {
    LabelCounts(clips, texts, |clips|, canvas);
  }

  /** Every mapped label is written by some stage of the graph. */
  lemma MappedLabelsWritten(clips: seq<Clip>, texts: seq<TextClip>, canvas: Canvas, outputPath: string)
    ensures var cmd := Compile(clips, texts, canvas, outputPath);
            forall l :: l in cmd.maps ==>
              exists j :: 0 <= j < |cmd.filterComplex| && cmd.filterComplex[j].output == l
  {
    var p := GapFill(clips, texts, |clips|, canvas);
    var cmd := Compile(clips, texts, canvas, outputPath);
    var g := cmd.filterComplex;
    var vs, aus, comb, tc := p.videoStages, p.audioStages, CombineStages(p), TextChain(texts, canvas);
    assert g == vs + aus + comb + tc;
    var V, A, C := |vs|, |aus|, |comb|;
    forall l | l in cmd.maps
      ensures exists j :: 0 <= j < |g| && g[j].output == l
    {
      if l == OutA {
        assert g[V + A + C - 1] == comb[C - 1] == AmixStage(p.audioConcatInputs);
      } else if l == OutV {
        assert g[V + A] == comb[0] == ConcatStage(p.videoConcatInputs);
      } else {
        assert l == OutVideoAndText;
        assert g[|g| - 1] == tc[|tc| - 1];
      }
    }
  }

  /** `_loadText` always gives a text clip numeric centre offsets, so its
      overlay is centred on both axes and the absolute `x`/`y` branches
      never apply to a loaded text clip. */
  lemma LoadedTextIsCentered(d: Descriptor, canvas: Canvas)
    ensures var opts := TextOptions(TextOf(d), canvas);
            && |opts| >= 2
            && opts[0] == X(Centered(canvas.width, OrNum(d.centerX, 0.0)))
            && opts[1] == Y(Centered(canvas.height, OrNum(d.centerY, 0.0)))
            && forall k :: 2 <= k < |opts| ==> !opts[k].X? && !opts[k].Y?
  {
    var t := TextOf(d);
    var x := X(Centered(canvas.width, OrNum(d.centerX, 0.0)));
    var y := Y(Centered(canvas.height, OrNum(d.centerY, 0.0)));
    var deco := DecorationOptions(t.decor);
    DecorationOptionsUnplaced(t.decor);
    assert PlacementOption(t.centerX, t.x, canvas.width, true) == [x];
    assert PlacementOption(t.centerY, t.y, canvas.height, false) == [y];
    var opts := TextOptions(t, canvas);
    assert opts == [x] + [y] + deco;
    forall k | 2 <= k < |opts|
      ensures !opts[k].X? && !opts[k].Y?
    {
      assert opts[k] == deco[k - 2];
    }
  }

  // ------------------------------------------------------------ scenarios

  /** Two video clips, [0,5] and [7,10], on a 1280x720 canvas: one filler of
      two seconds between them, three segments concatenated, video only. */
  lemma GapBetweenTwoClips()
    ensures var a := Video("a.mp4", 0.0, 5.0, 0.0, 1.0, Some(0.0), false);
            var b := Video("b.mp4", 7.0, 10.0, 0.0, 1.0, Some(0.0), false);
            var canvas := Canvas(30.0, 1280.0, 720.0);
            var p := GapFill([a, b], [], 2, canvas);
            var cmd := Compile([a, b], [], canvas, "out.mp4");
            && p.videoConcatInputs == [ClipVideo(0), Black(0), ClipVideo(1)]
            && p.videoStages[1].ops == [BlackFill(2.0, 1280.0, 720.0)]
            && p.audioStages == []
            && cmd.inputs == ["a.mp4", "b.mp4"]
            && cmd.maps == [OutV] && cmd.encoders == [Libx264]
  {
    var a := Video("a.mp4", 0.0, 5.0, 0.0, 1.0, Some(0.0), false);
    var b := Video("b.mp4", 7.0, 10.0, 0.0, 1.0, Some(0.0), false);
    var canvas := Canvas(30.0, 1280.0, 720.0);
    var p := GapFill([a, b], [], 2, canvas);
    TwoClipsPass(a, b, canvas);
    var cmd := Compile([a, b], [], canvas, "out.mp4");
    assert cmd == Assemble(p, [a, b], [], canvas, "out.mp4");
    assert cmd.inputs == InputStreams([a, b]);
  }

  /** The pass over the two clips of `GapBetweenTwoClips`, stage by stage. */
  lemma TwoClipsPass(a: Clip, b: Clip, canvas: Canvas)
    requires a == Video("a.mp4", 0.0, 5.0, 0.0, 1.0, Some(0.0), false)
    requires b == Video("b.mp4", 7.0, 10.0, 0.0, 1.0, Some(0.0), false)
    requires canvas == Canvas(30.0, 1280.0, 720.0)
    ensures GapFill([a, b], [], 2, canvas)
            == Pass([TrimStage(a, 0, canvas), Stage([], [BlackFill(2.0, 1280.0, 720.0)], Black(0)), TrimStage(b, 1, canvas)],
                    [], [ClipVideo(0), Black(0), ClipVideo(1)], [], 1, 10.0)
  {
    var clips := [a, b];
    var p0 := GapFill(clips, [], 0, canvas);
    assert p0 == Pass([], [], [], [], 0, 0.0);
    var p1 := GapFill(clips, [], 1, canvas);
    assert p1 == Step(p0, clips, [], 0, canvas);
    assert clips[0] == a;
    assert p1 == Pass([TrimStage(a, 0, canvas)], [], [ClipVideo(0)], [], 0, 5.0);
    var p2 := GapFill(clips, [], 2, canvas);
    assert p2 == Step(p1, clips, [], 1, canvas);
    assert clips[1] == b;
    var gap := AddBlack(p1, 2.0, canvas);
    assert FillGap(p1, b, canvas) == gap;
    var added := AddVideo(gap, b, 1, canvas);
    MaxEndOfTwo(a, b);
    assert p2 == FillTail(added, clips, [], 1, canvas) == added;
  }

  lemma MaxEndOfTwo(a: Clip, b: Clip)
    requires a.end <= b.end
    ensures MaxEnd([a, b], []) == b.end
  {
  }

  /** A lone audio clip: no video segment, no concat, only its audio stage
      and the amix stage, mapped and encoded as audio. */
  lemma LoneAudioClip()
    ensures var c := Audio("a.mp3", 2.0, 6.0, 0.0, 1.0);
            var canvas := Canvas(30.0, 1920.0, 1080.0);
            var cmd := Compile([c], [], canvas, "out.mp4");
            && |cmd.filterComplex| == 2
            && cmd.filterComplex[0] == GetClipAudioString(c, 0).stage
            && cmd.filterComplex[1] == Stage([ClipAudio(0)], [Amix(1)], OutA)
            && cmd.maps == [OutA] && cmd.encoders == [Aac]
  {
    var c := Audio("a.mp3", 2.0, 6.0, 0.0, 1.0);
    var canvas := Canvas(30.0, 1920.0, 1080.0);
    var p0 := GapFill([c], [], 0, canvas);
    assert p0 == Pass([], [], [], [], 0, 0.0);
    var p := GapFill([c], [], 1, canvas);
    assert p == Step(p0, [c], [], 0, canvas);
    assert [c][0] == c;
    assert p == AddAudio(p0, c, 0);
    assert p.videoStages == [] && p.audioConcatInputs == [ClipAudio(0)];
    assert CombineStages(p) == [AmixStage([ClipAudio(0)])];
  }
}
