/** The filter graph the compiler emits, as a typed, ordered list of
    stages instead of text. Every stage reads some labelled streams, applies
    a chain of filters, and writes one labelled stream; the labels are kept
    symbolic, one constructor per label shape the compiler writes. */
module Graph {
  import opened Clips

  datatype Label =
    | VideoIn(input: nat)      // `[k:v]`: video stream of the k-th `-i` input
    | AudioIn(input: nat)      // `[k:a]`: audio stream of the k-th `-i` input
    | ClipVideo(index: nat)    // `[v{k}]`
    | ClipAudio(index: nat)    // `[a{k}]`
    | Black(count: nat)        // the label getBlackString gives its count-th filler
    | OutV                     // `[outv]`
    | OutA                     // `[outa]`
    | TextOut(index: nat)      // `[text{i}]`
    | OutVideoAndText          // `[outVideoAndText]`

  /** The text handed to drawtext after `escapeSingleQuotes`; that helper's
      body is not part of this model, so the escaped text is kept as the raw
      text it was applied to. */
  datatype Escaped = Escaped(raw: string)

  /** Horizontal or vertical placement of a text overlay. */
  datatype Placement =
    | Centered(extent: real, offset: real)   // `(extent - text_w)/2 + offset`
    | Absolute(at: real)

  /** The optional drawtext settings, in the order the compiler writes them. */
  datatype TextOption =
    | X(px: Placement)
    | Y(py: Placement)
    | BorderColor(borderColor: string)
    | BorderWidth(borderWidth: real)
    | ShadowColor(shadowColor: string)
    | ShadowX(dx: real)
    | ShadowY(dy: real)
    | Box(boxColor: string, opacity: Option<real>)
    | BoxBorderWidth(boxBorder: real)

  datatype Op =
    | Trim(start: real, end: real)
    | SetPts
    | ScaleDecrease(sw: real, sh: real)       // scale, keeping aspect, to fit w:h
    | PadCenter(pw: real, ph: real)           // pad to w:h, centred
    | Volume(level: real)
    | ATrim(aStart: real, aEnd: real)
    | ADelay(left: real, right: real)         // milliseconds per channel
    | ASetPts
    | BlackFill(duration: real, bw: real, bh: real)  // the filler getBlackString emits
    | Concat(n: nat)                          // n segments, one video track, no audio
    | Amix(inputs: nat)                       // duration=longest
    | DrawText(text: Escaped, fontFile: string, fontSize: real, fontColor: string,
               from: real, to: real, options: seq<TextOption>)  // enabled on between(t,from,to)

  datatype Stage = Stage(inputs: seq<Label>, ops: seq<Op>, output: Label)

  /** Some stage before `j` writes `l`. */
  predicate ProducedBefore(g: seq<Stage>, j: int, l: Label)
  {
    exists i :: 0 <= i < j && i < |g| && g[i].output == l
  }

  /** Label `l`, read by stage `j`, exists when stage `j` runs: an input
      stream of the right kind, or the output of an earlier stage. */
  predicate Available(g: seq<Stage>, j: int, l: Label, inputs: seq<Clip>)
  {
    match l
    case VideoIn(k) => k < |inputs| && inputs[k].Video?
    case AudioIn(k) => k < |inputs| && HasAudioTrack(inputs[k])
    case _ => ProducedBefore(g, j, l)
  }

  /** Every label a stage reads is available to it, and no label is written
      by two stages. */
  predicate WellWired(g: seq<Stage>, inputs: seq<Clip>)
  {
    && (forall j, l :: 0 <= j < |g| && l in g[j].inputs ==> Available(g, j, l, inputs))
    && (forall i, j :: 0 <= i < j < |g| ==> g[i].output != g[j].output)
  }
}
