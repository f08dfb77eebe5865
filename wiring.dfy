/** The compiled filter graph is wired consistently: every label a stage
    reads is an input stream of the right kind, at an index that has such a
    stream, or the output of an earlier stage, and no label is written
    twice. The one exception is the one the source leaves undefined: text
    clips without any video clip make the first overlay read `[outv]`,
    which nothing writes. */
module Wiring {
  import opened Clips
  import opened Graph
  import opened Timeline
  import opened TimelineProofs

  /** A video segment is a filler with an already-counted number, or the
      trim stage of a video clip already visited. */
  predicate VideoSegmentOk(s: Stage, clips: seq<Clip>, kv: nat, blacks: nat, canvas: Canvas)
  {
    || (s.inputs == [] && s.output.Black? && s.output.count < blacks)
    || (s.output.ClipVideo? && s.output.index < kv && s.output.index < |clips|
        && clips[s.output.index].Video? && s == TrimStage(clips[s.output.index], s.output.index, canvas))
  }

  /** An audio segment reads the audio stream of an already-visited clip that has one. */
  predicate AudioSegmentOk(s: Stage, clips: seq<Clip>, ka: nat)
  {
    s.output.ClipAudio? && s.output.index < ka && s.output.index < |clips|
    && HasAudioTrack(clips[s.output.index]) && s.inputs == [AudioIn(s.output.index)]
  }

  /** The label lists are exactly the outputs of the segment stages, in
      order, and hold no label twice. */
  predicate PassWired(p: Pass, clips: seq<Clip>, kv: nat, ka: nat, canvas: Canvas)
  {
    && |p.videoStages| == |p.videoConcatInputs|
    && |p.audioStages| == |p.audioConcatInputs|
    && (forall j :: 0 <= j < |p.videoStages| ==> p.videoStages[j].output == p.videoConcatInputs[j])
    && (forall j :: 0 <= j < |p.videoStages| ==> VideoSegmentOk(p.videoStages[j], clips, kv, p.blackConcatCount, canvas))
    && (forall j :: 0 <= j < |p.audioStages| ==> p.audioStages[j].output == p.audioConcatInputs[j])
    && (forall j :: 0 <= j < |p.audioStages| ==> AudioSegmentOk(p.audioStages[j], clips, ka))
    && (forall i, j :: 0 <= i < j < |p.videoConcatInputs| ==> p.videoConcatInputs[i] != p.videoConcatInputs[j])
    && (forall i, j :: 0 <= i < j < |p.audioConcatInputs| ==> p.audioConcatInputs[i] != p.audioConcatInputs[j])
  }

  lemma WiredAddBlack(p: Pass, clips: seq<Clip>, kv: nat, ka: nat, d: real, canvas: Canvas)
    requires PassWired(p, clips, kv, ka, canvas)
    ensures PassWired(AddBlack(p, d, canvas), clips, kv, ka, canvas)
  {
    var q := AddBlack(p, d, canvas);
    forall j | 0 <= j < |p.videoConcatInputs|
      ensures p.videoConcatInputs[j] != Black(p.blackConcatCount)
    {
      assert VideoSegmentOk(p.videoStages[j], clips, kv, p.blackConcatCount, canvas);
    }
    forall j | 0 <= j < |q.videoStages|
      ensures VideoSegmentOk(q.videoStages[j], clips, kv, q.blackConcatCount, canvas)
    {
      if j < |p.videoStages| {
        assert VideoSegmentOk(p.videoStages[j], clips, kv, p.blackConcatCount, canvas);
      }
    }
  }

  lemma WiredAddSegment(p: Pass, clips: seq<Clip>, kv: nat, ka: nat, k: nat, canvas: Canvas)
    requires PassWired(p, clips, kv, ka, canvas)
    requires kv <= k < |clips| && clips[k].Video?
    ensures PassWired(p.(videoStages := p.videoStages + [TrimStage(clips[k], k, canvas)],
                         videoConcatInputs := p.videoConcatInputs + [ClipVideo(k)]),
                      clips, k + 1, ka, canvas)
  {
    var q := p.(videoStages := p.videoStages + [TrimStage(clips[k], k, canvas)],
                videoConcatInputs := p.videoConcatInputs + [ClipVideo(k)]);
    forall j | 0 <= j < |p.videoConcatInputs|
      ensures p.videoConcatInputs[j] != ClipVideo(k)
    {
      assert VideoSegmentOk(p.videoStages[j], clips, kv, p.blackConcatCount, canvas);
    }
    forall j | 0 <= j < |q.videoStages|
      ensures VideoSegmentOk(q.videoStages[j], clips, k + 1, q.blackConcatCount, canvas)
    {
      if j < |p.videoStages| {
        assert VideoSegmentOk(p.videoStages[j], clips, kv, p.blackConcatCount, canvas);
      }
    }
  }

  lemma WiredAddAudio(p: Pass, clips: seq<Clip>, kv: nat, ka: nat, k: nat, canvas: Canvas)
    requires PassWired(p, clips, kv, ka, canvas)
    requires ka <= k < |clips| && HasAudioTrack(clips[k])
    ensures PassWired(AddAudio(p, clips[k], k), clips, kv, k + 1, canvas)
  {
    var q := AddAudio(p, clips[k], k);
    forall j | 0 <= j < |p.audioConcatInputs|
      ensures p.audioConcatInputs[j] != ClipAudio(k)
    {
      assert AudioSegmentOk(p.audioStages[j], clips, ka);
    }
    forall j | 0 <= j < |q.audioStages|
      ensures AudioSegmentOk(q.audioStages[j], clips, k + 1)
    {
      if j < |p.audioStages| {
        assert AudioSegmentOk(p.audioStages[j], clips, ka);
      }
    }
  }

  lemma WiredWeaken(p: Pass, clips: seq<Clip>, kv: nat, ka: nat, kv': nat, ka': nat, canvas: Canvas)
    requires PassWired(p, clips, kv, ka, canvas) && kv <= kv' && ka <= ka'
    ensures PassWired(p, clips, kv', ka', canvas)
  {
    forall j | 0 <= j < |p.videoStages|
      ensures VideoSegmentOk(p.videoStages[j], clips, kv', p.blackConcatCount, canvas)
    {
      assert VideoSegmentOk(p.videoStages[j], clips, kv, p.blackConcatCount, canvas);
    }
    forall j | 0 <= j < |p.audioStages|
      ensures AudioSegmentOk(p.audioStages[j], clips, ka')
    {
      assert AudioSegmentOk(p.audioStages[j], clips, ka);
    }
  }

  lemma WiredFillGap(p: Pass, clip: Clip, clips: seq<Clip>, kv: nat, ka: nat, canvas: Canvas)
    requires PassWired(p, clips, kv, ka, canvas)
    ensures PassWired(FillGap(p, clip, canvas), clips, kv, ka, canvas)
  {
    if clip.position > p.currentPosition {
      WiredAddBlack(p, clips, kv, ka, clip.position - p.currentPosition, canvas);
    }
  }

  lemma WiredAddVideo(p: Pass, clips: seq<Clip>, i: nat, canvas: Canvas)
    requires PassWired(p, clips, i, i, canvas)
    requires i < |clips| && clips[i].Video?
    ensures PassWired(AddVideo(p, clips[i], i, canvas), clips, i + 1, i + 1, canvas)
  {
    var clip := clips[i];
    var s := p.(videoStages := p.videoStages + [TrimStage(clip, i, canvas)],
                videoConcatInputs := p.videoConcatInputs + [ClipVideo(i)]);
    WiredAddSegment(p, clips, i, i, i, canvas);
    if clip.hasAudio {
      WiredAddAudio(s, clips, i + 1, i, i, canvas);
      assert AddVideo(p, clip, i, canvas) == AddAudio(s, clip, i).(currentPosition := clip.end);
    } else {
      WiredWeaken(s, clips, i + 1, i, i + 1, i + 1, canvas);
      assert AddVideo(p, clip, i, canvas) == s.(currentPosition := clip.end);
    }
  }

  lemma WiredFillTail(p: Pass, clips: seq<Clip>, texts: seq<TextClip>, i: nat, kv: nat, ka: nat, canvas: Canvas)
    requires PassWired(p, clips, kv, ka, canvas) && i < |clips|
    ensures PassWired(FillTail(p, clips, texts, i, canvas), clips, kv, ka, canvas)
  {
    if i == |clips| - 1 && p.currentPosition < MaxEnd(clips, texts) {
      WiredAddBlack(p, clips, kv, ka, MaxEnd(clips, texts) - p.currentPosition, canvas);
    }
  }

  lemma WiredStep(p: Pass, q: Pass, clips: seq<Clip>, texts: seq<TextClip>, i: nat, canvas: Canvas)
    requires PassWired(p, clips, i, i, canvas) && i < |clips|
    requires q == Step(p, clips, texts, i, canvas)
    ensures PassWired(q, clips, i + 1, i + 1, canvas)
  {
    var clip := clips[i];
    if clip.Video? {
      var p1 := FillGap(p, clip, canvas);
      WiredFillGap(p, clip, clips, i, i, canvas);
      WiredAddVideo(p1, clips, i, canvas);
      WiredFillTail(AddVideo(p1, clip, i, canvas), clips, texts, i, i + 1, i + 1, canvas);
    } else {
      WiredAddAudio(p, clips, i, i, i, canvas);
      WiredWeaken(AddAudio(p, clip, i), clips, i, i + 1, i + 1, i + 1, canvas);
    }
  }

  lemma WiredGapFillStep(clips: seq<Clip>, texts: seq<TextClip>, k: nat, canvas: Canvas)
    requires 0 < k <= |clips|
    requires PassWired(GapFill(clips, texts, k - 1, canvas), clips, k - 1, k - 1, canvas)
    ensures PassWired(GapFill(clips, texts, k, canvas), clips, k, k, canvas)
  {
    WiredStep(GapFill(clips, texts, k - 1, canvas), GapFill(clips, texts, k, canvas), clips, texts, k - 1, canvas);
  }

  /** After any number of iterations the pass is wired. */
  lemma {:induction false} GapFillWired(clips: seq<Clip>, texts: seq<TextClip>, k: nat, canvas: Canvas)
    requires k <= |clips|
    ensures PassWired(GapFill(clips, texts, k, canvas), clips, k, k, canvas)
  {
    if k > 0 {
      GapFillWired(clips, texts, k - 1, canvas);
      WiredGapFillStep(clips, texts, k, canvas);
    }
  }

  /** Which part of the graph writes a label. */
  function Group(l: Label): nat
  {
    match l
    case Black(_) => 0
    case ClipVideo(_) => 0
    case ClipAudio(_) => 1
    case OutV => 2
    case OutA => 3
    case TextOut(_) => 4
    case OutVideoAndText => 4
    case VideoIn(_) => 5
    case AudioIn(_) => 6
  }

  /** The part of the graph stage `j` belongs to: segments, combiners, overlays. */
  function Region(p: Pass, j: nat): nat
  {
    if j < |p.videoStages| then 0
    else if j < |p.videoStages| + |p.audioStages| then 1
    else if j < |p.videoStages| + |p.audioStages| + |CombineStages(p)| then 2
    else 4
  }

  lemma TextStageOutput(texts: seq<TextClip>, canvas: Canvas, i: nat)
    requires i < |texts|
    ensures TextChain(texts, canvas)[i].output == if i + 1 == |texts| then OutVideoAndText else TextOut(i)
  {
  }

  /** Stage `j` of the graph, found in its region. */
  lemma FilterGraphAt(p: Pass, texts: seq<TextClip>, canvas: Canvas, j: nat)
    requires j < |FilterGraph(p, texts, canvas)|
    ensures var g, V, A, C := FilterGraph(p, texts, canvas), |p.videoStages|, |p.audioStages|, |CombineStages(p)|;
            && (j < V ==> g[j] == p.videoStages[j])
            && (V <= j < V + A ==> g[j] == p.audioStages[j - V])
            && (V + A <= j < V + A + C ==> g[j] == CombineStages(p)[j - V - A])
            && (V + A + C <= j ==> g[j] == TextChain(texts, canvas)[j - V - A - C])
  {
  }

  /** Each region writes labels of its own group only. */
  lemma GroupAt(p: Pass, clips: seq<Clip>, texts: seq<TextClip>, canvas: Canvas, j: nat)
    requires PassWired(p, clips, |clips|, |clips|, canvas)
    requires j < |FilterGraph(p, texts, canvas)|
    ensures var g := FilterGraph(p, texts, canvas);
            Region(p, j) != 2 ==> Group(g[j].output) == Region(p, j)
    ensures var g := FilterGraph(p, texts, canvas);
            Region(p, j) == 2 ==> Group(g[j].output) == 2 || Group(g[j].output) == 3
  {
    var vs, aus, comb := p.videoStages, p.audioStages, CombineStages(p);
    var V, A, C := |vs|, |aus|, |comb|;
    FilterGraphAt(p, texts, canvas, j);
    if j < V {
      assert VideoSegmentOk(vs[j], clips, |clips|, p.blackConcatCount, canvas);
    } else if j < V + A {
      assert AudioSegmentOk(aus[j - V], clips, |clips|);
    } else if j >= V + A + C {
      TextStageOutput(texts, canvas, j - V - A - C);
    }
  }

  /** Within one region no label is written twice. */
  lemma SameRegionDistinct(p: Pass, clips: seq<Clip>, texts: seq<TextClip>, canvas: Canvas, a: nat, b: nat)
    requires PassWired(p, clips, |clips|, |clips|, canvas)
    requires a < b < |FilterGraph(p, texts, canvas)| && Region(p, a) == Region(p, b)
    ensures var g := FilterGraph(p, texts, canvas); g[a].output != g[b].output
  {
    if b < |p.videoStages| + |p.audioStages| {
      SegmentsDistinct(p, clips, texts, canvas, a, b);
    } else {
      TailDistinct(p, texts, canvas, a, b);
    }
  }

  lemma SegmentsDistinct(p: Pass, clips: seq<Clip>, texts: seq<TextClip>, canvas: Canvas, a: nat, b: nat)
    requires PassWired(p, clips, |clips|, |clips|, canvas)
    requires a < b < |p.videoStages| + |p.audioStages| && Region(p, a) == Region(p, b)
    ensures var g := FilterGraph(p, texts, canvas); g[a].output != g[b].output
  {
    var g := FilterGraph(p, texts, canvas);
    var vs, aus := p.videoStages, p.audioStages;
    var V := |vs|;
    if b < V {
      assert g[a] == vs[a] && g[b] == vs[b];
    } else {
      assert g[a] == aus[a - V] && g[b] == aus[b - V];
    }
  }

  lemma TailDistinct(p: Pass, texts: seq<TextClip>, canvas: Canvas, a: nat, b: nat)
    requires |p.videoStages| + |p.audioStages| <= a < b < |FilterGraph(p, texts, canvas)|
    requires Region(p, a) == Region(p, b)
    ensures var g := FilterGraph(p, texts, canvas); g[a].output != g[b].output
  {
    var g := FilterGraph(p, texts, canvas);
    var comb, tc := CombineStages(p), TextChain(texts, canvas);
    var VA, C := |p.videoStages| + |p.audioStages|, |comb|;
    if b < VA + C {
      assert g[a] == comb[a - VA] && g[b] == comb[b - VA];
    } else {
      assert g[a] == tc[a - VA - C] && g[b] == tc[b - VA - C];
      TextStageOutput(texts, canvas, a - VA - C);
      TextStageOutput(texts, canvas, b - VA - C);
    }
  }

  /** No label is written by two stages of the graph. */
  lemma GraphOutputsDistinct(p: Pass, clips: seq<Clip>, texts: seq<TextClip>, canvas: Canvas)
    requires PassWired(p, clips, |clips|, |clips|, canvas)
    ensures var g := FilterGraph(p, texts, canvas);
            forall a, b :: 0 <= a < b < |g| ==> g[a].output != g[b].output
  {
    var g := FilterGraph(p, texts, canvas);
    forall a, b | 0 <= a < b < |g|
      ensures g[a].output != g[b].output
    {
      if Region(p, a) == Region(p, b) {
        SameRegionDistinct(p, clips, texts, canvas, a, b);
      } else {
        GroupAt(p, clips, texts, canvas, a);
        GroupAt(p, clips, texts, canvas, b);
      }
    }
  }

  /** A segment stage reads only an input stream of a clip that has it. */
  lemma SegmentReads(p: Pass, clips: seq<Clip>, texts: seq<TextClip>, canvas: Canvas, j: nat, l: Label)
    requires PassWired(p, clips, |clips|, |clips|, canvas)
    requires j < |p.videoStages| + |p.audioStages|
    requires l in FilterGraph(p, texts, canvas)[j].inputs
    ensures Available(FilterGraph(p, texts, canvas), j, l, clips)
  {
    var g := FilterGraph(p, texts, canvas);
    var vs, aus := p.videoStages, p.audioStages;
    if j < |vs| {
      assert g[j] == vs[j];
      assert VideoSegmentOk(vs[j], clips, |clips|, p.blackConcatCount, canvas);
    } else {
      assert g[j] == aus[j - |vs|];
      assert AudioSegmentOk(aus[j - |vs|], clips, |clips|);
    }
  }

  /** The concat stage reads the segment labels, the amix stage the audio ones. */
  lemma CombineReads(p: Pass, clips: seq<Clip>, texts: seq<TextClip>, canvas: Canvas, j: nat, l: Label)
    requires PassWired(p, clips, |clips|, |clips|, canvas)
    requires |p.videoStages| + |p.audioStages| <= j < |p.videoStages| + |p.audioStages| + |CombineStages(p)|
    requires l in FilterGraph(p, texts, canvas)[j].inputs
    ensures ProducedBefore(FilterGraph(p, texts, canvas), j, l)
  {
    var g := FilterGraph(p, texts, canvas);
    var vs, aus, vci, aci := p.videoStages, p.audioStages, p.videoConcatInputs, p.audioConcatInputs;
    var V, A := |vs|, |aus|;
    assert g[j] == CombineStages(p)[j - V - A];
    if |vci| > 0 && j == V + A {
      assert g[j] == ConcatStage(vci);
      var m :| 0 <= m < |vci| && vci[m] == l;
      assert g[m] == vs[m];
    } else {
      assert g[j] == AmixStage(aci);
      var m :| 0 <= m < |aci| && aci[m] == l;
      assert g[V + m] == aus[m];
    }
  }

  /** The first overlay reads `[outv]`, written by the concat stage when
      there is one; each later overlay reads what the one before wrote. */
  lemma TextReads(p: Pass, clips: seq<Clip>, texts: seq<TextClip>, canvas: Canvas, j: nat, l: Label)
    requires |p.videoConcatInputs| > 0
    requires |p.videoStages| + |p.audioStages| + |CombineStages(p)| <= j < |FilterGraph(p, texts, canvas)|
    requires l in FilterGraph(p, texts, canvas)[j].inputs
    ensures ProducedBefore(FilterGraph(p, texts, canvas), j, l)
  {
    var g := FilterGraph(p, texts, canvas);
    var vs, aus, comb, tc := p.videoStages, p.audioStages, CombineStages(p), TextChain(texts, canvas);
    var V, A, C := |vs|, |aus|, |comb|;
    var i := j - V - A - C;
    assert g[j] == tc[i] == DrawTextStage(texts, i, canvas);
    if i == 0 {
      assert l == OutV;
      assert g[V + A] == comb[0] == ConcatStage(p.videoConcatInputs);
    } else {
      assert l == TextOut(i - 1);
      assert g[j - 1] == tc[i - 1];
      TextStageOutput(texts, canvas, i - 1);
    }
  }

  /** Every stage of the graph reads only labels available to it, provided
      the pass has a video track whenever there are overlays. */
  lemma GraphReadsAvailable(p: Pass, clips: seq<Clip>, texts: seq<TextClip>, canvas: Canvas)
    requires PassWired(p, clips, |clips|, |clips|, canvas)
    requires |texts| > 0 ==> |p.videoConcatInputs| > 0
    ensures var g := FilterGraph(p, texts, canvas);
            forall j, l :: 0 <= j < |g| && l in g[j].inputs ==> Available(g, j, l, clips)
  {
    var g := FilterGraph(p, texts, canvas);
    var S := |p.videoStages| + |p.audioStages|;
    forall j, l | 0 <= j < |g| && l in g[j].inputs
      ensures Available(g, j, l, clips)
    {
      if j < S {
        SegmentReads(p, clips, texts, canvas, j, l);
      } else if j < S + |CombineStages(p)| {
        CombineReads(p, clips, texts, canvas, j, l);
        assert !l.VideoIn? && !l.AudioIn?;
      } else {
        TextReads(p, clips, texts, canvas, j, l);
        assert !l.VideoIn? && !l.AudioIn?;
      }
    }
  }

  /** What each region reads: segments read input streams only, the
      combiners read segment labels only, and overlay `i` reads `[outv]` or
      `[text{i-1}]`. */
  lemma InputsAt(p: Pass, clips: seq<Clip>, texts: seq<TextClip>, canvas: Canvas, j: nat)
    requires PassWired(p, clips, |clips|, |clips|, canvas)
    requires j < |FilterGraph(p, texts, canvas)|
    ensures var g := FilterGraph(p, texts, canvas);
            Region(p, j) < 2 ==> forall l :: l in g[j].inputs ==> l.VideoIn? || l.AudioIn?
    ensures var g := FilterGraph(p, texts, canvas);
            Region(p, j) == 2 ==> forall l :: l in g[j].inputs ==> Group(l) <= 1
    ensures var g := FilterGraph(p, texts, canvas);
            var i := j - |p.videoStages| - |p.audioStages| - |CombineStages(p)|;
            Region(p, j) == 4 ==> g[j].inputs == [if i == 0 then OutV else TextOut(i - 1)]
  {
    var vs, aus, comb := p.videoStages, p.audioStages, CombineStages(p);
    var V, A, C := |vs|, |aus|, |comb|;
    FilterGraphAt(p, texts, canvas, j);
    if j < V {
      assert VideoSegmentOk(vs[j], clips, |clips|, p.blackConcatCount, canvas);
    } else if j < V + A {
      assert AudioSegmentOk(aus[j - V], clips, |clips|);
    } else if j < V + A + C {
      CombinerInputs(p, clips, canvas, j - V - A);
    }
  }

  /** The concat and amix stages read segment labels only. */
  lemma CombinerInputs(p: Pass, clips: seq<Clip>, canvas: Canvas, c: nat)
    requires PassWired(p, clips, |clips|, |clips|, canvas)
    requires c < |CombineStages(p)|
    ensures forall l :: l in CombineStages(p)[c].inputs ==> Group(l) <= 1
  {
    var vs, aus := p.videoStages, p.audioStages;
    var vci, aci := p.videoConcatInputs, p.audioConcatInputs;
    if |vci| > 0 && c == 0 {
      assert CombineStages(p)[c] == ConcatStage(vci);
      forall l | l in vci
        ensures Group(l) <= 1
      {
        var m :| 0 <= m < |vci| && vci[m] == l;
        assert VideoSegmentOk(vs[m], clips, |clips|, p.blackConcatCount, canvas);
      }
    } else {
      assert CombineStages(p)[c] == AmixStage(aci);
      forall l | l in aci
        ensures Group(l) <= 1
      {
        var m :| 0 <= m < |aci| && aci[m] == l;
        assert AudioSegmentOk(aus[m], clips, |clips|);
      }
    }
  }

  /** `[text{i}]` is read by overlay `i + 1` and by no other stage. */
  lemma TextOutReadOnlyByNext(p: Pass, clips: seq<Clip>, texts: seq<TextClip>, canvas: Canvas, i: nat, j: nat)
    requires PassWired(p, clips, |clips|, |clips|, canvas)
    requires j < |FilterGraph(p, texts, canvas)| && TextOut(i) in FilterGraph(p, texts, canvas)[j].inputs
    ensures j == |p.videoStages| + |p.audioStages| + |CombineStages(p)| + i + 1
  {
    InputsAt(p, clips, texts, canvas, j);
  }

  /** In the compiled graph, the overlays are the last `|texts|` stages and
      `[text{i}]` is read only by the overlay right after the one writing it. */
  lemma CompiledTextOutReadOnlyByNext(clips: seq<Clip>, texts: seq<TextClip>, canvas: Canvas, outputPath: string)
    ensures var g := Compile(clips, texts, canvas, outputPath).filterComplex;
            forall i: nat, j :: 0 <= j < |g| && TextOut(i) in g[j].inputs ==> j == |g| - |texts| + i + 1
  {
    var p := GapFill(clips, texts, |clips|, canvas);
    GapFillWired(clips, texts, |clips|, canvas);
    var g := Compile(clips, texts, canvas, outputPath).filterComplex;
    assert g == FilterGraph(p, texts, canvas);
    forall i: nat, j | 0 <= j < |g| && TextOut(i) in g[j].inputs
      ensures j == |g| - |texts| + i + 1
    {
      TextOutReadOnlyByNext(p, clips, texts, canvas, i, j);
    }
  }

  /** With at least one video clip, or no text clip, the compiled graph is
      wired consistently; each `[k:v]`/`[k:a]` it reads names the `k`-th
      `-i` input, which is the `k`-th clip of the sorted array. */
  lemma CompiledGraphWellWired(clips: seq<Clip>, texts: seq<TextClip>, canvas: Canvas, outputPath: string)
    requires |texts| > 0 ==> VideoCount(clips, |clips|) > 0
    ensures var cmd := Compile(clips, texts, canvas, outputPath);
            && WellWired(cmd.filterComplex, clips)
            && |cmd.inputs| == |clips|
            && (forall k :: 0 <= k < |clips| ==> cmd.inputs[k] == clips[k].url)
  {
    var p := GapFill(clips, texts, |clips|, canvas);
    GapFillWired(clips, texts, |clips|, canvas);
    LabelCounts(clips, texts, |clips|, canvas);
    GraphReadsAvailable(p, clips, texts, canvas);
    GraphOutputsDistinct(p, clips, texts, canvas);
    assert Compile(clips, texts, canvas, outputPath).filterComplex == FilterGraph(p, texts, canvas);
  }

  /** Overlays on a pass without a video track: the first overlay reads
      `[outv]`, which no stage writes. */
  lemma PassTextDangles(p: Pass, clips: seq<Clip>, texts: seq<TextClip>, canvas: Canvas)
    requires PassWired(p, clips, |clips|, |clips|, canvas)
    requires |texts| > 0 && |p.videoConcatInputs| == 0
    ensures !WellWired(FilterGraph(p, texts, canvas), clips)
  {
    var g := FilterGraph(p, texts, canvas);
    var aus, comb, tc := p.audioStages, CombineStages(p), TextChain(texts, canvas);
    var j := |aus| + |comb|;
    assert g[j] == tc[0];
    assert OutV in g[j].inputs;
    forall i | 0 <= i < j
      ensures g[i].output != OutV
    {
      GroupAt(p, clips, texts, canvas, i);
    }
  }

  /** Text clips without any video clip: the first overlay reads `[outv]`,
      which no stage writes. */
  lemma TextWithoutVideoDangles(clips: seq<Clip>, texts: seq<TextClip>, canvas: Canvas, outputPath: string)
    requires |texts| > 0 && VideoCount(clips, |clips|) == 0
    ensures !WellWired(Compile(clips, texts, canvas, outputPath).filterComplex, clips)
  {
    var p := GapFill(clips, texts, |clips|, canvas);
    GapFillWired(clips, texts, |clips|, canvas);
    LabelCounts(clips, texts, |clips|, canvas);
    PassTextDangles(p, clips, texts, canvas);
    assert Compile(clips, texts, canvas, outputPath).filterComplex == FilterGraph(p, texts, canvas);
  }
}
