/** The `EZFFMPEG` object: the canvas fixed at construction, the clip
    lists `load` appends to, and `export`, which sorts the media clips,
    swaps in re-encoded copies of rotated videos, and builds the ffmpeg
    command. Probing, re-encoding and running ffmpeg are outside the model:
    their outcomes are parameters. */
module Composer {
  import opened Clips
  import opened Graph
  import opened Ordering
  import opened Timeline

  /** `_getTranspose`: the ffmpeg `transpose` code for a rotation in
      degrees; every rotation other than 90, -90 and 180 gets "0". */
  function Transpose(rotation: real): (r: string)
    ensures r == "1" <==> rotation == 90.0
    ensures r == "2" <==> rotation == -90.0
    ensures r == "3" <==> rotation == 180.0
    ensures r == "0" <==> rotation != 90.0 && rotation != -90.0 && rotation != 180.0
  {
    if rotation == 90.0 then "1"
    else if rotation == -90.0 then "2"
    else if rotation == 180.0 then "3"
    else "0"
  }

  /** The rotation a transpose code undoes; "0" stands for no known rotation. */
  function RotationOf(code: string): Option<real>
  {
    if code == "1" then Some(90.0)
    else if code == "2" then Some(-90.0)
    else if code == "3" then Some(180.0)
    else None
  }

  /** The three rotations with a code survive the round trip; every other
      rotation collapses to "0". */
  lemma TransposeRoundTrip(rotation: real)
    ensures RotationOf(Transpose(rotation)) == Some(rotation) <==> rotation == 90.0 || rotation == -90.0 || rotation == 180.0
    ensures RotationOf(Transpose(rotation)) == None <==> Transpose(rotation) == "0"
  {
  }

  /** The clip list after the re-encoding step: each video whose rotation
      is not 0 reads its re-encoded copy, `reencoded(i)` for the `i`-th
      clip; every other field, and every other clip, is unchanged. */
  function Unrotated(clips: seq<Clip>, reencoded: nat -> string): (r: seq<Clip>)
    ensures |r| == |clips|
    ensures forall i :: 0 <= i < |clips| ==>
              r[i] == if NeedsReencode(clips[i]) then clips[i].(url := reencoded(i)) else clips[i]
  {
    seq(|clips|, i requires 0 <= i < |clips| =>
      if NeedsReencode(clips[i]) then clips[i].(url := reencoded(i)) else clips[i])
  }

  /** The temporary files the re-encoding step creates, in clip order. */
  function ReencodedFiles(clips: seq<Clip>, reencoded: nat -> string): (r: seq<string>)
    ensures |r| <= |clips|
    ensures forall f :: f in r ==> exists i :: 0 <= i < |clips| && NeedsReencode(clips[i]) && f == reencoded(i)
  {
    if clips == [] then []
    else
      var k := |clips| - 1;
      ReencodedFiles(clips[..k], reencoded) + (if NeedsReencode(clips[k]) then [reencoded(k)] else [])
  }

  /** Re-encoding changes urls only: the timeline, and so the sort order,
      is as before. */
  lemma UnrotatedKeepsTimeline(clips: seq<Clip>, reencoded: nat -> string)
    ensures var r := Unrotated(clips, reencoded);
            && (forall i :: 0 <= i < |clips| ==>
                  r[i].position == clips[i].position && r[i].end == clips[i].end
                  && r[i].cutFrom == clips[i].cutFrom && r[i].Video? == clips[i].Video?
                  && HasAudioTrack(r[i]) == HasAudioTrack(clips[i]))
            && (SortedByPosition(clips) ==> SortedByPosition(r))
  {
    var r := Unrotated(clips, reencoded);
    if SortedByPosition(clips) {
      forall i, j | 0 <= i < j < |r|
        ensures Precedes(r[i], r[j])
      {
        assert Precedes(clips[i], clips[j]);
      }
    }
  }

  /** Visiting one more clip adds its re-encoded copy, if it needs one. */
  lemma ReencodedFilesSnoc(clips: seq<Clip>, i: nat, reencoded: nat -> string)
    requires i < |clips|
    ensures ReencodedFiles(clips[..i + 1], reencoded)
            == ReencodedFiles(clips[..i], reencoded) + (if NeedsReencode(clips[i]) then [reencoded(i)] else [])
  {
    assert clips[..i + 1][..i] == clips[..i];
  }

  /** Every video that needs re-encoding leaves exactly one temporary file. */
  lemma {:induction false} ReencodedFilesCount(clips: seq<Clip>, reencoded: nat -> string)
    ensures |ReencodedFiles(clips, reencoded)| == |set i | 0 <= i < |clips| && NeedsReencode(clips[i])|
  {
    if clips != [] {
      var k := |clips| - 1;
      ReencodedFilesCount(clips[..k], reencoded);
      var before := set i | 0 <= i < k && NeedsReencode(clips[..k][i]);
      var now := set i | 0 <= i < |clips| && NeedsReencode(clips[i]);
      assert before == set i | 0 <= i < k && NeedsReencode(clips[i]);
      if NeedsReencode(clips[k]) {
        assert now == before + {k};
      } else {
        assert now == before;
      }
    }
  }

  /** The tail of `export`: the text overlays, the filter graph, then the
      `-map` and encoder options, each added when its track has segments. */
  method BuildCommand(p: Pass, clips: seq<Clip>, texts: seq<TextClip>, canvas: Canvas, path: string)
    returns (cmd: Command)
    ensures cmd == Assemble(p, clips, texts, canvas, path)
  {
    var textStages := BuildTextChain(texts, canvas);
    var filterComplex := p.videoStages + p.audioStages + CombineStages(p) + textStages;
    var combinedVideoName := if |texts| > 0 then OutVideoAndText else OutV;
    var maps: seq<Label> := [];
    var encoders: seq<Encoder> := [];
    if |p.videoConcatInputs| > 0 {
      maps := maps + [combinedVideoName];
    }
    if |p.audioConcatInputs| > 0 {
      maps := maps + [OutA];
    }
    if |p.videoConcatInputs| > 0 {
      encoders := encoders + [Libx264];
    }
    if |p.audioConcatInputs| > 0 {
      encoders := encoders + [Aac];
    }
    cmd := Command(InputStreams(clips), filterComplex, maps, encoders, path);
  }

  /** The `sort` call: the clips inserted one by one, in array order, with
      the source's comparator. */
  method SortByPosition(clips: seq<Clip>) returns (sorted: seq<Clip>)
    ensures sorted == InsertAll(clips)
  {
    sorted := [];
    var i := 0;
    while i < |clips|
      invariant i <= |clips|
      invariant sorted == InsertAll(clips[..i])
    {
      assert clips[..i + 1][..i] == clips[..i];
      sorted := Insert(sorted, clips[i]);
      i := i + 1;
    }
    assert clips[..i] == clips;
  }

  class EzFfmpeg {
    const options: Canvas
    var videoOrAudioClips: seq<Clip>
    var textClips: seq<TextClip>
    var filesToClean: seq<string>

    /** The constructor: the canvas with its defaults, and empty lists. */
    constructor(o: CanvasOptions)
      ensures options == CanvasOf(o)
      ensures videoOrAudioClips == [] && textClips == [] && filesToClean == []
    {
      options := CanvasOf(o);
      videoOrAudioClips := [];
      textClips := [];
      filesToClean := [];
    }

    /** `load`: each descriptor is defaulted and appended to the list of its
        kind, in descriptor order; descriptors of any other kind are skipped. */
    method Load(descs: seq<Descriptor>, probe: string -> ProbeOutcome)
      modifies this
      ensures videoOrAudioClips == old(videoOrAudioClips) + LoadedMedia(descs, probe)
      ensures textClips == old(textClips) + LoadedTexts(descs)
      ensures filesToClean == old(filesToClean)
    {
      var i := 0;
      while i < |descs|
        invariant i <= |descs|
        invariant videoOrAudioClips == old(videoOrAudioClips) + LoadedMedia(descs[..i], probe)
        invariant textClips == old(textClips) + LoadedTexts(descs[..i])
        invariant filesToClean == old(filesToClean)
      {
        var d := descs[i];
        assert descs[..i + 1][..i] == descs[..i];
        assert LoadedMedia(descs[..i + 1], probe) == LoadedMedia(descs[..i], probe) + MediaOf(d, probe);
        assert LoadedTexts(descs[..i + 1]) == LoadedTexts(descs[..i]) + (if d.kind == TextKind then [TextOf(d)] else []);
        if d.kind == VideoKind || d.kind == AudioKind {
          LoadMedia(d, probe);
        } else if d.kind == TextKind {
          LoadText(d);
        } else {
          assert MediaOf(d, probe) == [];
        }
        i := i + 1;
      }
      assert descs[..i] == descs;
    }

    /** `_loadVideo` / `_loadAudio`: the defaulted clip, with the probed
        metadata for a video, is appended to the media list. */
    method LoadMedia(d: Descriptor, probe: string -> ProbeOutcome)
      requires d.kind == VideoKind || d.kind == AudioKind
      modifies this
      ensures videoOrAudioClips == old(videoOrAudioClips) + MediaOf(d, probe)
      ensures textClips == old(textClips) && filesToClean == old(filesToClean)
    {
      videoOrAudioClips := videoOrAudioClips + MediaOf(d, probe);
    }

    /** `_loadText`: the defaulted text clip is appended to the text list. */
    method LoadText(d: Descriptor)
      modifies this
      ensures textClips == old(textClips) + [TextOf(d)]
      ensures videoOrAudioClips == old(videoOrAudioClips) && filesToClean == old(filesToClean)
    {
      textClips := textClips + [TextOf(d)];
    }

    /** The `sort` at the start of `export`, as an insertion sort with the
        source's comparator. */
    method SortClips()
      modifies this
      ensures videoOrAudioClips == InsertAll(old(videoOrAudioClips))
      ensures textClips == old(textClips) && filesToClean == old(filesToClean)
    {
      videoOrAudioClips := SortByPosition(videoOrAudioClips);
    }

    /** The re-encoding step of `export`: every video whose rotation is not
        0 is re-encoded to `reencoded(i)`, which is recorded for cleanup and
        becomes the clip's url. */
    method UnrotateClips(reencoded: nat -> string)
      modifies this
      ensures videoOrAudioClips == Unrotated(old(videoOrAudioClips), reencoded)
      ensures filesToClean == old(filesToClean) + ReencodedFiles(old(videoOrAudioClips), reencoded)
      ensures textClips == old(textClips)
    {
      ghost var clips := videoOrAudioClips;
      ghost var target := Unrotated(clips, reencoded);
      var i := 0;
      while i < |videoOrAudioClips|
        invariant |videoOrAudioClips| == |clips| && i <= |clips|
        invariant forall j :: 0 <= j < i ==> videoOrAudioClips[j] == target[j]
        invariant forall j :: i <= j < |clips| ==> videoOrAudioClips[j] == clips[j]
        invariant filesToClean == old(filesToClean) + ReencodedFiles(clips[..i], reencoded)
        invariant textClips == old(textClips)
      {
        ReencodedFilesSnoc(clips, i, reencoded);
        UnrotateClip(i, reencoded);
        i := i + 1;
      }
      assert clips[..i] == clips;
    }

    /** The callback of the re-encoding step for the clip at `i`: a video
        whose rotation is not 0 is swapped for its re-encoded copy. */
    method UnrotateClip(i: nat, reencoded: nat -> string)
      requires i < |videoOrAudioClips|
      modifies this
      ensures var clip := old(videoOrAudioClips)[i];
              && videoOrAudioClips == old(videoOrAudioClips)[i := if NeedsReencode(clip) then clip.(url := reencoded(i)) else clip]
              && filesToClean == old(filesToClean) + (if NeedsReencode(clip) then [reencoded(i)] else [])
      ensures textClips == old(textClips)
    {
      var clip := videoOrAudioClips[i];
      if clip.Video? && clip.iphoneRotation != Some(0.0) {
        var unrotatedUrl := reencoded(i);
        SwapInCopy(i, unrotatedUrl);
      } else {
        assert videoOrAudioClips == videoOrAudioClips[i := clip];
      }
    }

    /** One rotated video: its re-encoded copy is recorded for cleanup and
        becomes the clip's url. */
    method SwapInCopy(i: nat, unrotatedUrl: string)
      requires i < |videoOrAudioClips|
      modifies this
      ensures videoOrAudioClips == old(videoOrAudioClips)[i := old(videoOrAudioClips)[i].(url := unrotatedUrl)]
      ensures filesToClean == old(filesToClean) + [unrotatedUrl]
      ensures textClips == old(textClips)
    {
      filesToClean := filesToClean + [unrotatedUrl];
      videoOrAudioClips := videoOrAudioClips[i := videoOrAudioClips[i].(url := unrotatedUrl)];
    }

    /** `export`: sort, re-encode, then build the command from the sorted
        clips, the text clips and the canvas. */
    method Export(outputPath: Option<string>, reencoded: nat -> string) returns (cmd: Command)
      modifies this
      ensures videoOrAudioClips == Unrotated(InsertAll(old(videoOrAudioClips)), reencoded)
      ensures filesToClean == old(filesToClean) + ReencodedFiles(InsertAll(old(videoOrAudioClips)), reencoded)
      ensures textClips == old(textClips)
      ensures cmd == Compile(videoOrAudioClips, textClips, options, OutputPath(outputPath))
    {
      var path := OrStr(outputPath, DefaultOutputPath);
      SortClips();
      UnrotateClips(reencoded);
      var clips, texts := videoOrAudioClips, textClips;
      var p := CompileClips(clips, texts, options);
      cmd := BuildCommand(p, clips, texts, options, path);
    }
  }

  /** `export` compiles clips that are sorted by position, and a permutation
      of the clips loaded, up to the urls of re-encoded videos. */
  lemma ExportedClipsSorted(loaded: seq<Clip>, reencoded: nat -> string)
    ensures var r := Unrotated(InsertAll(loaded), reencoded);
            && SortedByPosition(r)
            && |r| == |loaded|
            && multiset(InsertAll(loaded)) == multiset(loaded)
  {
    UnrotatedKeepsTimeline(InsertAll(loaded), reencoded);
    assert |multiset(InsertAll(loaded))| == |multiset(loaded)|;
  }
}
