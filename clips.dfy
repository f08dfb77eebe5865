/** Clip descriptors as the caller hands them to `load`, the clips the
    registry keeps after defaulting, the canvas options, and the probe
    metadata that decides whether a video is re-encoded.

    Numbers are `real`; JavaScript truthiness of an optional number is
    "present and not 0", of an optional string "present and not empty".
    NaN and non-number values in numeric fields are not modelled. */
module Clips {

  datatype Option<+T> = None | Some(value: T)

  predicate TruthyNum(o: Option<real>) { o.Some? && o.value != 0.0 }

  predicate TruthyStr(o: Option<string>) { o.Some? && o.value != "" }

  /** `o || d` on an optional number. */
  function OrNum(o: Option<real>, d: real): real
  {
    if TruthyNum(o) then o.value else d
  }

  /** `o || d` on an optional string. */
  function OrStr(o: Option<string>, d: string): string
  {
    if TruthyStr(o) then o.value else d
  }

  // ---------------------------------------------------------------- canvas

  /** The options object given to the constructor. */
  datatype CanvasOptions = CanvasOptions(fps: Option<real>, width: Option<real>, height: Option<real>)

  /** `this.options`: fixed for the lifetime of a composition. */
  datatype Canvas = Canvas(fps: real, width: real, height: real)

  const DefaultFps: real := 30.0
  const DefaultWidth: real := 1920.0
  const DefaultHeight: real := 1080.0

  /** Constructor defaulting: every falsy option takes its default, every
      truthy one is kept, so no canvas dimension is ever 0. */
  function CanvasOf(o: CanvasOptions): (c: Canvas)
    ensures c.fps != 0.0 && c.width != 0.0 && c.height != 0.0
    ensures c.fps == (if TruthyNum(o.fps) then o.fps.value else DefaultFps)
    ensures c.width == (if TruthyNum(o.width) then o.width.value else DefaultWidth)
    ensures c.height == (if TruthyNum(o.height) then o.height.value else DefaultHeight)
  {
    Canvas(OrNum(o.fps, DefaultFps), OrNum(o.width, DefaultWidth), OrNum(o.height, DefaultHeight))
  }

  /** Constructing from the options of an existing canvas gives that canvas back. */
  lemma CanvasOfIsIdempotent(o: CanvasOptions)
    ensures var c := CanvasOf(o);
            CanvasOf(CanvasOptions(Some(c.fps), Some(c.width), Some(c.height))) == c
  {
  }

  // ------------------------------------------------------------ descriptors

  /** The `type` field of a descriptor; any other string is `Other`. */
  datatype Kind = VideoKind | AudioKind | TextKind | OtherKind

  /** Optional decorations of a text clip, copied unchanged by `load`. */
  datatype Decorations = Decorations(
    borderColor: Option<string>, borderWidth: Option<real>,
    shadowColor: Option<string>, shadowX: Option<real>, shadowY: Option<real>,
    backgroundColor: Option<string>, backgroundOpacity: Option<real>,
    padding: Option<real>)

  /** One element of the array given to `load`. */
  datatype Descriptor = Descriptor(
    kind: Kind, url: string, position: real, end: real,
    cutFrom: Option<real>, volume: Option<real>,
    text: string, fontFile: Option<string>, fontSize: Option<real>, fontColor: Option<string>,
    centerX: Option<real>, centerY: Option<real>, x: Option<real>, y: Option<real>,
    decor: Decorations)

  // ------------------------------------------------------------------ clips

  /** An entry of `videoOrAudioClips`. A video carries what the probe
      reported; `iphoneRotation` is `None` when the probe left it undefined. */
  datatype Clip =
    | Video(url: string, position: real, end: real, cutFrom: real, volume: real,
            iphoneRotation: Option<real>, hasAudio: bool)
    | Audio(url: string, position: real, end: real, cutFrom: real, volume: real)

  /** An entry of `textClips`. `centerX`/`centerY` are `None` when the field
      is not a number; `_loadText` always makes them numbers. */
  datatype TextClip = TextClip(
    text: string, position: real, end: real,
    fontFile: string, fontSize: real, fontColor: string,
    centerX: Option<real>, centerY: Option<real>, x: Option<real>, y: Option<real>,
    decor: Decorations)

  /** The clip contributes an `[index:a]` stream to the audio mix. */
  predicate HasAudioTrack(c: Clip) { c.Audio? || c.hasAudio }

  // --------------------------------------------------------------- probing

  /** What the external probe of a video produced (the probe itself is not
      part of this model). */
  datatype ProbeOutcome =
    | ExecFailed
    | ParseFailed
    | Probed(sideDataRotation: Option<real>, hasAudioStream: bool)

  datatype Metadata = Metadata(iphoneRotation: Option<real>, hasAudio: bool)

  /** The object `_getVideoMetadata` resolves with. The failure branch of the
      probe command sets a field named `rotation`, so `iphoneRotation` stays
      undefined there, unlike the parse-failure branch. */
  function MetadataOf(o: ProbeOutcome): (m: Metadata)
    ensures o.ExecFailed? ==> m == Metadata(None, false)
    ensures o.ParseFailed? ==> m == Metadata(Some(0.0), false)
    ensures o.Probed? ==> m.hasAudio == o.hasAudioStream && m.iphoneRotation.Some?
    ensures o.Probed? && !TruthyNum(o.sideDataRotation) ==> m.iphoneRotation == Some(0.0)
    ensures o.Probed? && TruthyNum(o.sideDataRotation) ==> m.iphoneRotation == o.sideDataRotation
  {
    match o
    case ExecFailed => Metadata(None, false)
    case ParseFailed => Metadata(Some(0.0), false)
    case Probed(r, a) => Metadata(Some(OrNum(r, 0.0)), a)
  }

  /** `clip.type === "video" && clip.iphoneRotation !== 0`: audio clips are
      never re-encoded, and a video is re-encoded unless its rotation is
      exactly 0, including when the rotation was left undefined. */
  predicate NeedsReencode(c: Clip): (r: bool)
    ensures c.Audio? ==> !r
    ensures c.Video? && c.iphoneRotation.None? ==> r
    ensures c.Video? && c.iphoneRotation.Some? ==> (r <==> c.iphoneRotation.value != 0.0)
  {
    c.Video? && c.iphoneRotation != Some(0.0)
  }

  // ---------------------------------------------------------------- loading

  const DefaultFontFile: string := "./fonts/Arial-Bold.ttf"
  const DefaultFontSize: real := 100.0
  const DefaultFontColor: string := "#000000"

  /** The clips one descriptor adds to `videoOrAudioClips`: a video with its
      probe metadata, an audio clip, or nothing. `volume` and `cutFrom` are
      defaulted for both media kinds. */
  function MediaOf(d: Descriptor, probe: string -> ProbeOutcome): (r: seq<Clip>)
    ensures |r| == (if d.kind == VideoKind || d.kind == AudioKind then 1 else 0)
    ensures forall c :: c in r ==>
              c.url == d.url && c.position == d.position && c.end == d.end
              && c.volume == OrNum(d.volume, 1.0) && c.cutFrom == OrNum(d.cutFrom, 0.0)
    ensures d.kind == VideoKind ==> r[0].Video? && r[0].iphoneRotation == MetadataOf(probe(d.url)).iphoneRotation
                                    && r[0].hasAudio == MetadataOf(probe(d.url)).hasAudio
    ensures d.kind == AudioKind ==> r[0].Audio?
  {
    var volume := OrNum(d.volume, 1.0);
    var cutFrom := OrNum(d.cutFrom, 0.0);
    match d.kind
    case VideoKind =>
      var m := MetadataOf(probe(d.url));
      [Video(d.url, d.position, d.end, cutFrom, volume, m.iphoneRotation, m.hasAudio)]
    case AudioKind => [Audio(d.url, d.position, d.end, cutFrom, volume)]
    case _ => []
  }

  /** `_loadText`: font file, size and colour defaults, and centre offsets
      that are always numbers. */
  function TextOf(d: Descriptor): (t: TextClip)
    ensures t.fontFile == OrStr(d.fontFile, DefaultFontFile)
    ensures t.fontSize == OrNum(d.fontSize, DefaultFontSize)
    ensures t.fontColor == OrStr(d.fontColor, DefaultFontColor)
    ensures t.centerX == Some(OrNum(d.centerX, 0.0)) && t.centerY == Some(OrNum(d.centerY, 0.0))
    ensures t.text == d.text && t.position == d.position && t.end == d.end
    ensures t.x == d.x && t.y == d.y && t.decor == d.decor
  {
    TextClip(d.text, d.position, d.end,
             OrStr(d.fontFile, DefaultFontFile), OrNum(d.fontSize, DefaultFontSize),
             OrStr(d.fontColor, DefaultFontColor),
             Some(OrNum(d.centerX, 0.0)), Some(OrNum(d.centerY, 0.0)), d.x, d.y, d.decor)
  }

  /** All media clips a batch of descriptors adds, in descriptor order. */
  function LoadedMedia(ds: seq<Descriptor>, probe: string -> ProbeOutcome): seq<Clip>
  {
    if ds == [] then [] else LoadedMedia(ds[..|ds| - 1], probe) + MediaOf(ds[|ds| - 1], probe)
  }

  /** All text clips a batch of descriptors adds, in descriptor order. */
  function LoadedTexts(ds: seq<Descriptor>): seq<TextClip>
  {
    if ds == [] then [] else LoadedTexts(ds[..|ds| - 1]) + (if ds[|ds| - 1].kind == TextKind then [TextOf(ds[|ds| - 1])] else [])
  }

  /** Number of descriptors of a media kind. */
  function MediaCount(ds: seq<Descriptor>): nat
  {
    if ds == [] then 0
    else MediaCount(ds[..|ds| - 1]) + (if ds[|ds| - 1].kind == VideoKind || ds[|ds| - 1].kind == AudioKind then 1 else 0)
  }

  /** Every loaded media clip comes from one media descriptor, and none has a
      falsy volume: `load` replaces an absent or zero volume by 1. */
  lemma {:induction false} LoadedMediaDefaults(ds: seq<Descriptor>, probe: string -> ProbeOutcome)
    ensures |LoadedMedia(ds, probe)| == MediaCount(ds)
    ensures forall c :: c in LoadedMedia(ds, probe) ==> c.volume != 0.0
    ensures forall c :: c in LoadedMedia(ds, probe) ==> exists d :: d in ds && c.url == d.url && c.position == d.position && c.end == d.end
  {
    if ds != [] {
      var init := ds[..|ds| - 1];
      var d := ds[|ds| - 1];
      LoadedMediaDefaults(init, probe);
      forall c | c in LoadedMedia(ds, probe)
        ensures exists e :: e in ds && c.url == e.url && c.position == e.position && c.end == e.end
      {
        if c in LoadedMedia(init, probe) {
          var e :| e in init && c.url == e.url && c.position == e.position && c.end == e.end;
          assert e in ds;
        } else {
          assert c in MediaOf(d, probe);
          assert d in ds;
        }
      }
    }
  }

  /** A text clip loaded once and described again with its own fields loads
      to the same clip: `_loadText` defaulting is idempotent. */
  lemma TextDefaultsIdempotent(d: Descriptor)
    ensures var t := TextOf(d);
            TextOf(d.(fontFile := Some(t.fontFile), fontSize := Some(t.fontSize), fontColor := Some(t.fontColor),
                       centerX := t.centerX, centerY := t.centerY)) == t
  {
  }

  /** A requested volume of 0 (mute) is loaded as full volume 1. */
  lemma ZeroVolumeLoadsAsOne(d: Descriptor, probe: string -> ProbeOutcome)
    requires d.kind == AudioKind && d.volume == Some(0.0)
    ensures MediaOf(d, probe)[0].volume == 1.0
  {
  }

  /** A video whose probe command failed is re-encoded; one whose output
      could not be parsed, or which reports no truthy rotation, is not. */
  lemma ReencodeAfterProbe(d: Descriptor, probe: string -> ProbeOutcome)
    requires d.kind == VideoKind
    ensures probe(d.url).ExecFailed? ==> NeedsReencode(MediaOf(d, probe)[0])
    ensures probe(d.url).ParseFailed? ==> !NeedsReencode(MediaOf(d, probe)[0])
    ensures probe(d.url).Probed? && !TruthyNum(probe(d.url).sideDataRotation) ==> !NeedsReencode(MediaOf(d, probe)[0])
  {
  }
}
