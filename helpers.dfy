/** The stage builders the compiler calls: `getClipEnd` and
    `getClipAudioString` from src/_helpers.js, and the three helpers the
    compiler calls but that file does not define (`getBlackString`,
    `getTrimEnd`, `escapeSingleQuotes`), kept as abstract as their use
    allows. */
module Helpers {
  import opened Clips
  import opened Graph

  /** A stage and the label other stages refer to it by
      (`{audioStringPart, audioConcatInput}` and `{blackStringPart, blackConcatInput}`). */
  datatype Part = Part(stage: Stage, concatInput: Label)

  /** `getClipEnd`: the source time at which a clip's trim window ends.
      Source time `cutFrom` plays at timeline `position`, so the window end
      plays exactly at timeline `end`. */
  function GetClipEnd(c: Clip): (r: real)
    ensures c.position + (r - c.cutFrom) == c.end
  {
    c.cutFrom + (c.end - c.position)
  }

  lemma GetClipEndExample()
    ensures GetClipEnd(Video("a.mp4", 0.0, 10.0, 2.0, 1.0, Some(0.0), false)) == 12.0
  {
  }

  /** `getTrimEnd` is not defined in src/_helpers.js; it is taken to be
      `getClipEnd`, the same window formula the audio stage uses. */
  function GetTrimEnd(c: Clip): real
  {
    GetClipEnd(c)
  }

  /** `escapeSingleQuotes` is not defined in src/_helpers.js; the result
      records which text it was applied to. */
  function EscapeSingleQuotes(s: string): Escaped
  {
    Escaped(s)
  }

  /** `getBlackString` is not defined in src/_helpers.js: it is taken to
      return a generator stage with no inputs whose output label depends
      only on the filler counter. */
  function GetBlackString(duration: real, width: real, height: real, count: nat): (r: Part)
    ensures r.concatInput == Black(count) && r.stage.output == r.concatInput && r.stage.inputs == []
    ensures r.stage.ops == [BlackFill(duration, width, height)]
  {
    Part(Stage([], [BlackFill(duration, width, height)], Black(count)), Black(count))
  }

  /** `getClipAudioString`: reads `[index:a]`, applies volume, then a trim
      of the source window, then the same delay on both channels, then a
      timestamp reset, and writes `[a{index}]`, which is also the label it
      returns. The trim window is as long as the clip is on the timeline,
      and the delay, in milliseconds, is the clip's timeline position. */
  function GetClipAudioString(c: Clip, index: nat): (r: Part)
    ensures r.concatInput == ClipAudio(index) && r.stage.output == r.concatInput
    ensures r.stage.inputs == [AudioIn(index)]
    ensures |r.stage.ops| == 4
    ensures r.stage.ops[0] == Volume(c.volume)
    ensures r.stage.ops[1].ATrim? && r.stage.ops[1].aStart == c.cutFrom
            && r.stage.ops[1].aEnd - r.stage.ops[1].aStart == c.end - c.position
    ensures r.stage.ops[2].ADelay? && r.stage.ops[2].left == r.stage.ops[2].right
            && r.stage.ops[2].left / 1000.0 == c.position
    ensures r.stage.ops[3] == ASetPts
  {
    var adelay := c.position * 1000.0;
    var audioConcatInput := ClipAudio(index);
    var audioStringPart := Stage([AudioIn(index)],
                                 [Volume(c.volume), ATrim(c.cutFrom, GetClipEnd(c)), ADelay(adelay, adelay), ASetPts],
                                 audioConcatInput);
    Part(audioStringPart, audioConcatInput)
  }

  lemma AudioStageExample()
    ensures GetClipAudioString(Audio("a.mp3", 3.0, 8.0, 0.0, 1.0), 0).stage.ops
            == [Volume(1.0), ATrim(0.0, 5.0), ADelay(3000.0, 3000.0), ASetPts]
  {
  }
}
