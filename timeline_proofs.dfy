/** What the compiled pass and command promise: label counts, the cursor,
    gap and trailing fillers, coverage of the timeline by the video track,
    the wiring of the filter graph, the text-overlay chain and the choice of
    stream maps and encoders. */
module TimelineProofs {
  import opened Clips
  import opened Graph
  import opened Helpers
  import opened Timeline

  // ------------------------------------------------------------- counting

  /** Video clips among the first `k`. */
  function VideoCount(clips: seq<Clip>, k: nat): nat
    requires k <= |clips|
  {
    if k == 0 then 0 else VideoCount(clips, k - 1) + (if clips[k - 1].Video? then 1 else 0)
  }

  /** Clips among the first `k` that contribute an audio stream. */
  function AudioTrackCount(clips: seq<Clip>, k: nat): nat
    requires k <= |clips|
  {
    if k == 0 then 0 else AudioTrackCount(clips, k - 1) + (if HasAudioTrack(clips[k - 1]) then 1 else 0)
  }

  /** After `k` clips there is one video label per video clip and per
      filler, one audio label per clip with an audio stream, one stage per
      label, and no filler unless some video clip was seen. */
  lemma {:induction false} LabelCounts(clips: seq<Clip>, texts: seq<TextClip>, k: nat, canvas: Canvas)
    requires k <= |clips|
    ensures var p := GapFill(clips, texts, k, canvas);
            && |p.videoConcatInputs| == VideoCount(clips, k) + p.blackConcatCount
            && |p.audioConcatInputs| == AudioTrackCount(clips, k)
            && |p.videoStages| == |p.videoConcatInputs|
            && |p.audioStages| == |p.audioConcatInputs|
            && (VideoCount(clips, k) == 0 ==> p.blackConcatCount == 0)
  {
    if k > 0 {
      LabelCounts(clips, texts, k - 1, canvas);
      StepCounts(GapFill(clips, texts, k - 1, canvas), GapFill(clips, texts, k, canvas), clips, texts, k - 1, canvas);
    }
  }

  /** One iteration adds one video label per segment or filler, one audio
      label per audio stream, one stage per label, and no filler for an
      audio clip. */
  lemma StepCounts(p: Pass, q: Pass, clips: seq<Clip>, texts: seq<TextClip>, k: nat, canvas: Canvas)
    requires k < |clips| && q == Step(p, clips, texts, k, canvas)
    ensures |q.videoConcatInputs| - |p.videoConcatInputs|
            == (if clips[k].Video? then 1 else 0) + q.blackConcatCount - p.blackConcatCount
    ensures |q.audioConcatInputs| == |p.audioConcatInputs| + (if HasAudioTrack(clips[k]) then 1 else 0)
    ensures |q.videoStages| - |p.videoStages| == |q.videoConcatInputs| - |p.videoConcatInputs|
    ensures |q.audioStages| - |p.audioStages| == |q.audioConcatInputs| - |p.audioConcatInputs|
    ensures clips[k].Audio? ==> q.blackConcatCount == p.blackConcatCount
  {
    var clip := clips[k];
    if clip.Video? {
      var p1 := FillGap(p, clip, canvas);
      var p2 := AddVideo(p1, clip, k, canvas);
      assert |p2.videoConcatInputs| == |p1.videoConcatInputs| + 1;
      assert |p2.videoStages| == |p1.videoStages| + 1;
    }
  }

  // --------------------------------------------------------------- cursor

  /** The end of the last video clip among the first `k`, or 0. */
  function LastVideoEnd(clips: seq<Clip>, k: nat): real
    requires k <= |clips|
  {
    if k == 0 then 0.0
    else if clips[k - 1].Video? then clips[k - 1].end
    else LastVideoEnd(clips, k - 1)
  }

  /** The cursor is the end of the last video clip seen: audio clips never
      move it. After the last clip it is `maxEnd` if a trailing filler was
      added. */
  lemma {:induction false} CursorFollowsVideo(clips: seq<Clip>, texts: seq<TextClip>, k: nat, canvas: Canvas)
    requires k <= |clips|
    ensures k < |clips| ==> GapFill(clips, texts, k, canvas).currentPosition == LastVideoEnd(clips, k)
    ensures k == |clips| > 0 ==>
              GapFill(clips, texts, k, canvas).currentPosition ==
                if clips[k - 1].Video? && clips[k - 1].end < MaxEnd(clips, texts)
                then MaxEnd(clips, texts) else LastVideoEnd(clips, k)
  {
    if k > 0 {
      CursorFollowsVideo(clips, texts, k - 1, canvas);
      CursorStep(GapFill(clips, texts, k - 1, canvas), GapFill(clips, texts, k, canvas), clips, texts, k - 1, canvas);
    }
  }

  /** One iteration moves the cursor to the end of a video clip, or to
      `maxEnd` after a trailing filler, and leaves it for an audio clip. */
  lemma CursorStep(p: Pass, q: Pass, clips: seq<Clip>, texts: seq<TextClip>, k: nat, canvas: Canvas)
    requires k < |clips| && q == Step(p, clips, texts, k, canvas)
    ensures q.currentPosition ==
              if clips[k].Audio? then p.currentPosition
              else if k == |clips| - 1 && clips[k].end < MaxEnd(clips, texts) then MaxEnd(clips, texts)
              else clips[k].end
  {
    var clip := clips[k];
    if clip.Video? {
      var p2 := AddVideo(FillGap(p, clip, canvas), clip, k, canvas);
      assert p2.currentPosition == clip.end;
    }
  }

  /** Before the last clip the cursor is the end of the last video clip. */
  lemma CursorBeforeLast(clips: seq<Clip>, texts: seq<TextClip>, k: nat, canvas: Canvas)
    requires k < |clips|
    ensures GapFill(clips, texts, k, canvas).currentPosition == LastVideoEnd(clips, k)
  {
    CursorFollowsVideo(clips, texts, k, canvas);
  }

  /** An audio clip touches neither the video side nor the cursor, and what
      it adds does not depend on the cursor. */
  lemma AudioStepIgnoresCursor(p: Pass, q: Pass, clips: seq<Clip>, texts: seq<TextClip>, k: nat, canvas: Canvas)
    requires k < |clips| && clips[k].Audio?
    ensures var p' := Step(p, clips, texts, k, canvas);
            && p'.videoStages == p.videoStages && p'.videoConcatInputs == p.videoConcatInputs
            && p'.blackConcatCount == p.blackConcatCount && p'.currentPosition == p.currentPosition
    ensures var p' := Step(p, clips, texts, k, canvas);
            var q' := Step(q, clips, texts, k, canvas);
            p'.audioStages[|p.audioStages|..] == q'.audioStages[|q.audioStages|..]
  {
  }

  // ------------------------------------------------------ prefixes grow

  /** `q` extends `p`: every list of `p` is a prefix of the same list of
      `q`, and the filler counter has not decreased. */
  predicate Grows(p: Pass, q: Pass)
  {
    && p.videoStages <= q.videoStages && p.videoConcatInputs <= q.videoConcatInputs
    && p.audioStages <= q.audioStages && p.audioConcatInputs <= q.audioConcatInputs
    && p.blackConcatCount <= q.blackConcatCount
  }

  lemma GrowsTransitive(p: Pass, q: Pass, r: Pass)
    requires Grows(p, q) && Grows(q, r)
    ensures Grows(p, r)
  {
    PrefixTransitive(p.videoStages, q.videoStages, r.videoStages);
    PrefixTransitive(p.videoConcatInputs, q.videoConcatInputs, r.videoConcatInputs);
    PrefixTransitive(p.audioStages, q.audioStages, r.audioStages);
    PrefixTransitive(p.audioConcatInputs, q.audioConcatInputs, r.audioConcatInputs);
  }

  lemma PrefixTransitive<T>(a: seq<T>, b: seq<T>, c: seq<T>)
    requires a <= b && b <= c
    ensures a <= c
  {
    assert a == b[..|a|] && b == c[..|b|];
    assert c[..|b|][..|a|] == c[..|a|];
  }

  /** One iteration only appends, and never decreases the filler counter. */
  lemma StepGrows(p: Pass, q: Pass, clips: seq<Clip>, texts: seq<TextClip>, k: nat, canvas: Canvas)
    requires k < |clips| && q == Step(p, clips, texts, k, canvas)
    ensures Grows(p, q)
  {
    var clip := clips[k];
    if clip.Video? {
      var p1 := FillGap(p, clip, canvas);
      var p2 := AddVideo(p1, clip, k, canvas);
      assert Grows(p, p1);
      assert Grows(p1, p2);
      assert Grows(p2, q);
      GrowsTransitive(p, p1, p2);
      GrowsTransitive(p, p2, q);
    }
  }

  /** Later iterations only append: every earlier list is a prefix of a
      later one and the filler counter never decreases. */
  lemma {:induction false} GapFillGrows(clips: seq<Clip>, texts: seq<TextClip>, k: nat, m: nat, canvas: Canvas)
    requires k <= m <= |clips|
    ensures Grows(GapFill(clips, texts, k, canvas), GapFill(clips, texts, m, canvas))
    decreases m - k
  {
    if k < m {
      var p, p', q := GapFill(clips, texts, k, canvas), GapFill(clips, texts, k + 1, canvas), GapFill(clips, texts, m, canvas);
      StepGrows(p, p', clips, texts, k, canvas);
      GapFillGrows(clips, texts, k + 1, m, canvas);
      GrowsTransitive(p, p', q);
    }
  }

  // ---------------------------------------------------------------- fillers

  /** A video clip that starts after the end of the last earlier video clip
      (or after 0) is preceded, in the final list of video segments, by
      exactly one black filler as long as the gap; otherwise its segment
      follows directly. Its segment is the trim of its own input. */
  lemma FillerBeforeVideo(clips: seq<Clip>, texts: seq<TextClip>, k: nat, canvas: Canvas)
    requires k < |clips| && clips[k].Video?
    ensures var before := GapFill(clips, texts, k, canvas);
            var final := GapFill(clips, texts, |clips|, canvas);
            var n := |before.videoConcatInputs|;
            var gap := clips[k].position - LastVideoEnd(clips, k);
            && |before.videoStages| == n
            && (gap > 0.0 ==>
                  && n + 2 <= |final.videoConcatInputs| && n + 2 <= |final.videoStages|
                  && final.videoConcatInputs[n] == Black(before.blackConcatCount)
                  && final.videoStages[n] == Stage([], [BlackFill(gap, canvas.width, canvas.height)], Black(before.blackConcatCount))
                  && final.videoConcatInputs[n + 1] == ClipVideo(k)
                  && final.videoStages[n + 1] == TrimStage(clips[k], k, canvas))
            && (gap <= 0.0 ==>
                  && n + 1 <= |final.videoConcatInputs| && n + 1 <= |final.videoStages|
                  && final.videoConcatInputs[n] == ClipVideo(k)
                  && final.videoStages[n] == TrimStage(clips[k], k, canvas))
  {
    LabelCounts(clips, texts, k, canvas);
    CursorFollowsVideo(clips, texts, k, canvas);
    GapFillGrows(clips, texts, k + 1, |clips|, canvas);
    var before := GapFill(clips, texts, k, canvas);
    var after := GapFill(clips, texts, k + 1, canvas);
    var final := GapFill(clips, texts, |clips|, canvas);
    var n := |before.videoConcatInputs|;
    assert before.currentPosition == LastVideoEnd(clips, k);
    VideoStepAppends(before, after, clips, texts, k, canvas);
    var g := if clips[k].position > before.currentPosition then 1 else 0;
    PrefixAt(after.videoConcatInputs, final.videoConcatInputs, n + g);
    PrefixAt(after.videoStages, final.videoStages, n + g);
    if g == 1 {
      PrefixAt(after.videoConcatInputs, final.videoConcatInputs, n);
      PrefixAt(after.videoStages, final.videoStages, n);
    }
  }

  lemma PrefixAt<T>(a: seq<T>, b: seq<T>, i: nat)
    requires a <= b && i < |a|
    ensures i < |b| && b[i] == a[i]
  {
  }

  /** What one iteration on a video clip appends to the video side. */
  lemma VideoStepAppends(p: Pass, q: Pass, clips: seq<Clip>, texts: seq<TextClip>, k: nat, canvas: Canvas)
    requires k < |clips| && clips[k].Video? && |p.videoStages| == |p.videoConcatInputs|
    requires q == Step(p, clips, texts, k, canvas)
    ensures var n := |p.videoConcatInputs|;
            var gap := clips[k].position - p.currentPosition;
            var g := if gap > 0.0 then 1 else 0;
            && n + g + 1 <= |q.videoConcatInputs| && n + g + 1 <= |q.videoStages|
            && (gap > 0.0 ==>
                  && q.videoConcatInputs[n] == Black(p.blackConcatCount)
                  && q.videoStages[n] == Stage([], [BlackFill(gap, canvas.width, canvas.height)], Black(p.blackConcatCount)))
            && q.videoConcatInputs[n + g] == ClipVideo(k)
            && q.videoStages[n + g] == TrimStage(clips[k], k, canvas)
  {
    var clip := clips[k];
    var p1 := FillGap(p, clip, canvas);
    var p2 := AddVideo(p1, clip, k, canvas);
    assert p2.videoConcatInputs == p1.videoConcatInputs + [ClipVideo(k)];
    assert p2.videoStages == p1.videoStages + [TrimStage(clip, k, canvas)];
    assert p2.videoConcatInputs <= q.videoConcatInputs && p2.videoStages <= q.videoStages;
  }

  /** How the video track of `q` ends after the last clip: with a filler
      `maxEnd - end` long exactly when the last clip is a video ending before
      `maxEnd`, otherwise (if it is not empty) with a clip's own segment. */
  predicate TrackTail(q: Pass, clips: seq<Clip>, texts: seq<TextClip>, canvas: Canvas)
    requires |clips| > 0
  {
    var last := clips[|clips| - 1];
    var trailing := last.Video? && last.end < MaxEnd(clips, texts);
    && |q.videoStages| == |q.videoConcatInputs|
    && (trailing ==>
          && |q.videoConcatInputs| > 0 && q.blackConcatCount > 0
          && q.videoConcatInputs[|q.videoConcatInputs| - 1] == Black(q.blackConcatCount - 1)
          && q.videoStages[|q.videoStages| - 1]
             == Stage([], [BlackFill(MaxEnd(clips, texts) - last.end, canvas.width, canvas.height)],
                      Black(q.blackConcatCount - 1)))
    && (!trailing ==> EndsWithClip(q))
  }

  /** The video track ends with a filler exactly when the last sorted clip is
      a video ending before `maxEnd`; that filler is `maxEnd - end` long.
      Otherwise the track, if any, ends with a clip's own segment. */
  lemma TrailingFiller(clips: seq<Clip>, texts: seq<TextClip>, canvas: Canvas)
    requires |clips| > 0
    ensures TrackTail(GapFill(clips, texts, |clips|, canvas), clips, texts, canvas)
  {
    var n := |clips|;
    var p := GapFill(clips, texts, n - 1, canvas);
    AlignedEndsWithClip(clips, texts, n - 1, canvas);
    LastStep(p, GapFill(clips, texts, n, canvas), clips, texts, canvas);
  }

  lemma AlignedEndsWithClip(clips: seq<Clip>, texts: seq<TextClip>, k: nat, canvas: Canvas)
    requires k < |clips|
    ensures var p := GapFill(clips, texts, k, canvas);
            |p.videoStages| == |p.videoConcatInputs| && EndsWithClip(p)
  {
    TrackEndsWithClip(clips, texts, k, canvas);
    LabelCounts(clips, texts, k, canvas);
  }

  /** The last iteration, from a pass whose track ends with a clip's own
      segment: it adds a trailing filler exactly when its clip is a video
      ending before `maxEnd`. */
  lemma LastStep(p: Pass, q: Pass, clips: seq<Clip>, texts: seq<TextClip>, canvas: Canvas)
    requires |clips| > 0 && q == Step(p, clips, texts, |clips| - 1, canvas)
    requires |p.videoStages| == |p.videoConcatInputs|
    requires EndsWithClip(p)
    ensures TrackTail(q, clips, texts, canvas)
  {
    var k := |clips| - 1;
    var clip := clips[k];
    if clip.Video? {
      var p1 := FillGap(p, clip, canvas);
      var p2 := AddVideo(p1, clip, k, canvas);
      assert |p1.videoStages| == |p1.videoConcatInputs|;
      assert p2.videoConcatInputs == p1.videoConcatInputs + [ClipVideo(k)];
      assert |p2.videoStages| == |p2.videoConcatInputs| && p2.currentPosition == clip.end;
      assert q == FillTail(p2, clips, texts, k, canvas);
    }
  }

  /** The video track is empty or ends with a clip's own segment. */
  predicate EndsWithClip(p: Pass)
  {
    |p.videoConcatInputs| == 0 || p.videoConcatInputs[|p.videoConcatInputs| - 1].ClipVideo?
  }

  /** Before the last clip, a non-empty video track always ends with a
      clip's own segment. */
  lemma {:induction false} TrackEndsWithClip(clips: seq<Clip>, texts: seq<TextClip>, k: nat, canvas: Canvas)
    requires k < |clips|
    ensures EndsWithClip(GapFill(clips, texts, k, canvas))
  {
    if k > 0 {
      TrackEndsWithClip(clips, texts, k - 1, canvas);
    }
  }

  // --------------------------------------------------------------- coverage

  /** How long a video segment plays: a filler's duration, or the length of
      a clip's trim window. */
  function SegmentLength(s: Stage): real
  {
    if |s.ops| > 0 && s.ops[0].BlackFill? then s.ops[0].duration
    else if |s.ops| > 0 && s.ops[0].Trim? then s.ops[0].end - s.ops[0].start
    else 0.0
  }

  /** How long the concatenated video track plays. */
  function TrackLength(stages: seq<Stage>): real
  {
    if stages == [] then 0.0
    else TrackLength(stages[..|stages| - 1]) + SegmentLength(stages[|stages| - 1])
  }

  lemma TrackLengthAppend(stages: seq<Stage>, s: Stage)
    ensures TrackLength(stages + [s]) == TrackLength(stages) + SegmentLength(s)
  {
    assert (stages + [s])[..|stages|] == stages;
  }

  /** Every video clip starts at or after the end of the previous one. */
  predicate NoOverlap(clips: seq<Clip>, k: nat)
    requires k <= |clips|
  {
    forall j :: 0 <= j < k && clips[j].Video? ==> clips[j].position >= LastVideoEnd(clips, j)
  }

  /** One iteration never lets the track fall further behind the cursor,
      and keeps the distance when its clip does not overlap the cursor. */
  lemma CoverStep(p: Pass, q: Pass, clips: seq<Clip>, texts: seq<TextClip>, k: nat, canvas: Canvas)
    requires k < |clips| && q == Step(p, clips, texts, k, canvas)
    ensures TrackLength(q.videoStages) - q.currentPosition >= TrackLength(p.videoStages) - p.currentPosition
    ensures clips[k].Audio? || clips[k].position >= p.currentPosition ==>
              TrackLength(q.videoStages) - q.currentPosition == TrackLength(p.videoStages) - p.currentPosition
  {
    var clip := clips[k];
    if clip.Video? {
      var p1 := FillGap(p, clip, canvas);
      var p2 := AddVideo(p1, clip, k, canvas);
      CoverFillGap(p, clip, canvas);
      CoverAddVideo(p1, clip, k, canvas);
      CoverFillTail(p2, clips, texts, k, canvas);
    }
  }

  /** The video track plays at least until the cursor, and exactly until it
      when none of the first `k` video clips overlaps the previous one. */
  predicate TrackCoversCursor(p: Pass, clips: seq<Clip>, k: nat)
    requires k <= |clips|
  {
    && TrackLength(p.videoStages) >= p.currentPosition
    && (NoOverlap(clips, k) ==> TrackLength(p.videoStages) == p.currentPosition)
  }

  /** The video track plays at least until the cursor, and exactly until it
      when no video clip overlaps the previous one. */
  lemma {:induction false} TrackReachesCursor(clips: seq<Clip>, texts: seq<TextClip>, k: nat, canvas: Canvas)
    requires k <= |clips|
    ensures TrackCoversCursor(GapFill(clips, texts, k, canvas), clips, k)
  {
    if k > 0 {
      var p, q := GapFill(clips, texts, k - 1, canvas), GapFill(clips, texts, k, canvas);
      TrackReachesCursor(clips, texts, k - 1, canvas);
      CursorBeforeLast(clips, texts, k - 1, canvas);
      CoverInduction(p, q, clips, texts, k - 1, canvas);
    }
  }

  /** The inductive step of `TrackReachesCursor`, on passes. */
  lemma CoverInduction(p: Pass, q: Pass, clips: seq<Clip>, texts: seq<TextClip>, k: nat, canvas: Canvas)
    requires k < |clips| && q == Step(p, clips, texts, k, canvas)
    requires p.currentPosition == LastVideoEnd(clips, k) && TrackCoversCursor(p, clips, k)
    ensures TrackCoversCursor(q, clips, k + 1)
  {
    CoverStep(p, q, clips, texts, k, canvas);
    if NoOverlap(clips, k + 1) {
      assert NoOverlap(clips, k);
      assert clips[k].Video? ==> clips[k].position >= p.currentPosition;
    }
  }

  lemma CoverFillGap(p: Pass, clip: Clip, canvas: Canvas)
    ensures var q := FillGap(p, clip, canvas);
            && q.currentPosition == p.currentPosition
            && TrackLength(q.videoStages) == TrackLength(p.videoStages)
               + (if clip.position > p.currentPosition then clip.position - p.currentPosition else 0.0)
  {
    if clip.position > p.currentPosition {
      TrackLengthAppend(p.videoStages, GetBlackString(clip.position - p.currentPosition, canvas.width, canvas.height, p.blackConcatCount).stage);
    }
  }

  lemma CoverAddVideo(p: Pass, clip: Clip, k: nat, canvas: Canvas)
    requires clip.Video?
    ensures var q := AddVideo(p, clip, k, canvas);
            && q.currentPosition == clip.end
            && TrackLength(q.videoStages) == TrackLength(p.videoStages) + (clip.end - clip.position)
  {
    TrackLengthAppend(p.videoStages, TrimStage(clip, k, canvas));
  }

  lemma CoverFillTail(p: Pass, clips: seq<Clip>, texts: seq<TextClip>, k: nat, canvas: Canvas)
    requires k < |clips|
    ensures var q := FillTail(p, clips, texts, k, canvas);
            TrackLength(q.videoStages) - q.currentPosition == TrackLength(p.videoStages) - p.currentPosition
  {
    if k == |clips| - 1 && p.currentPosition < MaxEnd(clips, texts) {
      TrackLengthAppend(p.videoStages, GetBlackString(MaxEnd(clips, texts) - p.currentPosition, canvas.width, canvas.height, p.blackConcatCount).stage);
    }
  }

  /** When the last sorted clip is a video, the video track plays at least
      until every media and text clip has ended, exactly until then when no
      video clip overlaps the previous one. */
  lemma VideoTrackCoversTimeline(clips: seq<Clip>, texts: seq<TextClip>, canvas: Canvas)
    requires |clips| > 0 && clips[|clips| - 1].Video?
    ensures var p := GapFill(clips, texts, |clips|, canvas);
            && TrackLength(p.videoStages) >= MaxEnd(clips, texts)
            && (NoOverlap(clips, |clips|) ==> TrackLength(p.videoStages) == MaxEnd(clips, texts))
  {
    TrackReachesCursor(clips, texts, |clips|, canvas);
    CursorFollowsVideo(clips, texts, |clips|, canvas);
  }

  /** When the last sorted clip is audio no trailing filler is added: a
      video `[0,5]` followed by an audio clip `[1,10]` gives a 5-second video
      track although the composition lasts until 10. */
  lemma AudioLastLeavesVideoShort()
    ensures var clips := [Video("v.mp4", 0.0, 5.0, 0.0, 1.0, Some(0.0), false), Audio("a.mp3", 1.0, 10.0, 0.0, 1.0)];
            var p := GapFill(clips, [], 2, Canvas(30.0, 1920.0, 1080.0));
            && MaxEnd(clips, []) == 10.0
            && TrackLength(p.videoStages) == 5.0
  {
    var v := Video("v.mp4", 0.0, 5.0, 0.0, 1.0, Some(0.0), false);
    var a := Audio("a.mp3", 1.0, 10.0, 0.0, 1.0);
    var clips := [v, a];
    var canvas := Canvas(30.0, 1920.0, 1080.0);
    var p0 := GapFill(clips, [], 0, canvas);
    var p1 := GapFill(clips, [], 1, canvas);
    var p := GapFill(clips, [], 2, canvas);
    assert p0 == Pass([], [], [], [], 0, 0.0);
    assert clips[0] == v && clips[1] == a;
    assert p1 == Step(p0, clips, [], 0, canvas);
    assert p1.videoStages == [TrimStage(v, 0, canvas)];
    assert p == Step(p1, clips, [], 1, canvas) == AddAudio(p1, a, 1);
    assert TrackLength(p.videoStages) == TrackLength([]) + SegmentLength(TrimStage(v, 0, canvas));
  }
}
