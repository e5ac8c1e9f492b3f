/** `BigImgBuilder`: a mutable configurator with asserting setters, and its
    `build`, which validates once, clamps `step` and derives `overlap` and
    the lower caption band height. */
module Builder {

  import opened Types
  import opened Arith

  /** The builder's fields. The `font` field has no setter and is always
      `None`, so it is not carried; `max_scale` is left out of the model. */
  datatype BuilderParams = BuilderParams(
    workDir: string,
    chunks: seq<Chunk>,
    screenW: U32,
    screenH: U32,
    step: U32,
    widthChunk: U32,
    textBackground: (Rgba, Rgba),
    textColor: Rgba,
    picH: U32,
    textUpH: U32,
    coverTime: U32,
    endingTime: U32,
    backgroundColor: string,
    swipSpeed: U32,
    fps: U32)

  /** What the setters guarantee: every field whose setter asserts is non-zero.
      (`step` is asserted non-zero by its setter but `build` may clamp it to 0.) */
  predicate Settable(p: BuilderParams) {
    p.screenW != 0 && p.screenH != 0 && p.widthChunk != 0 && p.picH != 0 && p.textUpH != 0
  }

  /** The values `BigImgBuilder::new` starts from. */
  function Defaults(workDir: string, chunks: seq<Chunk>): (p: BuilderParams)
    ensures Settable(p)
  {
    BuilderParams(
      workDir, chunks, 1920, 1080, 100, 480,
      (Rgba(23, 150, 235, 255), Rgba(44, 85, 153, 255)), Rgba(255, 255, 255, 255),
      520, 214, 3, 3, "white", 3, 60)
  }

  /** The three validation checks of `build`, in their order. */
  predicate ChecksPass(p: BuilderParams)
    requires p.widthChunk != 0
  {
    |p.chunks| != 0 && p.picH <= p.screenH && p.screenW % p.widthChunk == 0
  }

  /** `self.step.min(u32::try_from(len).unwrap_or(0))`. */
  function ClampStep(step: U32, len: nat): (r: U32)
    ensures r <= step
    ensures len < U32_LIMIT ==> r <= len && (r == step || r == len)
    ensures len >= U32_LIMIT ==> r == 0
  {
    Min(step, if len < U32_LIMIT then len else 0)
  }

  /** The fields `build` copies unchanged from the builder. */
  predicate CopiesFields(p: BuilderParams, b: BigImg) {
    && b.workDir == p.workDir && b.chunks == p.chunks
    && b.screenW == p.screenW && b.screenH == p.screenH && b.widthChunk == p.widthChunk
    && b.textBackground == p.textBackground && b.textColor == p.textColor
    && b.picH == p.picH && b.textUpH == p.textUpH
    && b.coverTime == p.coverTime && b.endingTime == p.endingTime
    && b.backgroundColor == p.backgroundColor && b.swipSpeed == p.swipSpeed && b.fps == p.fps
  }

  /** What every configuration `build` returns satisfies: a screen holds a
      whole number `overlap >= 1` of chunk cells, the three bands fill the
      screen height, and `step` does not exceed the chunk count. */
  predicate Configured(b: BigImg) {
    && |b.chunks| > 0
    && b.widthChunk > 0
    && b.overlap >= 1
    && Mul(b.overlap, b.widthChunk) == b.screenW
    && b.picH + b.textUpH + b.textDownH == b.screenH
    && b.step <= |b.chunks|
  }

  /** `BigImgBuilder::build` on the builder's fields. The font is always
      loaded (the builder's font is always `None`), so its outcome is a
      parameter. The `u32` subtraction giving `text_down_h` has no guard and
      panics when the caption bands are taller than the screen. */
  function Validate(p: BuilderParams, font: FontLoad): (r: Result<BigImg>)
    requires Settable(p)
    requires ChecksPass(p) ==> p.picH + p.textUpH <= p.screenH
    ensures r.Err? <==> !ChecksPass(p) || !font.Loaded?
    ensures |p.chunks| == 0 ==> r == Err(ChunksEmpty)
    ensures |p.chunks| != 0 && p.picH > p.screenH ==> r == Err(PicTooTall)
    ensures |p.chunks| != 0 && p.picH <= p.screenH && p.screenW % p.widthChunk != 0 ==>
              r == Err(WidthNotDivisible)
    ensures ChecksPass(p) && font.Unreadable? ==> r == Err(FontIo)
    ensures ChecksPass(p) && font.Invalid? ==> r == Err(InvalidFont)
    ensures r.Ok? ==>
      && Configured(r.value)
      && CopiesFields(p, r.value)
      && r.value.step == ClampStep(p.step, |p.chunks|)
      && r.value.overlap * p.widthChunk == p.screenW
      && r.value.font == font.font
  {
    if |p.chunks| == 0 then Err(ChunksEmpty)
    else if p.picH > p.screenH then Err(PicTooTall)
    else if p.screenW % p.widthChunk != 0 then Err(WidthNotDivisible)
    else
      var step := ClampStep(p.step, |p.chunks|);
      var textDownH := p.screenH - p.picH - p.textUpH;
      match font
      case Unreadable => Err(FontIo)
      case Invalid => Err(InvalidFont)
      case Loaded(f) =>
        MulIs(p.screenW / p.widthChunk, p.widthChunk);
        Ok(BigImg(
          p.workDir, p.chunks, p.screenW, p.screenH, step, p.widthChunk,
          p.screenW / p.widthChunk, p.textBackground, p.textColor,
          p.picH, p.textUpH, textDownH, f, p.coverTime, p.endingTime,
          p.backgroundColor, p.swipSpeed, p.fps))
  }

  /** `BigImg::new`: the default builder, built, expecting success. With the
      defaults a screen holds four chunks and the lower band is 346 high. */
  function NewBigImg(workDir: string, chunks: seq<Chunk>, font: FontLoad): (r: BigImg)
    requires |chunks| > 0 && font.Loaded?
    ensures r.overlap == 4 && r.textDownH == 346 && r.chunks == chunks
    ensures r.step <= 100 && (|chunks| < U32_LIMIT ==> r.step == Min(100, |chunks|))
  {
    Validate(Defaults(workDir, chunks), font).value
  }

  /** The builder object: each setter asserts its argument as the source does
      and replaces one field; `build` validates and clamps `step` in place. */
  class BigImgBuilder {
    var workDir: string
    var chunks: seq<Chunk>
    var screen: (U32, U32)
    var step: U32
    var widthChunk: U32
    var textBackgroundColor: (Rgba, Rgba)
    var textColor: Rgba
    var picH: U32
    var textUpH: U32
    var videoCoverTime: U32
    var videoEndingTime: U32
    var videoBackgroundColor: string
    var videoSwipSpeed: U32
    var videoFps: U32

    /** The builder's fields as a value. */
    function Params(): BuilderParams
      reads this
    {
      BuilderParams(
        workDir, chunks, screen.0, screen.1, step, widthChunk,
        textBackgroundColor, textColor, picH, textUpH,
        videoCoverTime, videoEndingTime, videoBackgroundColor, videoSwipSpeed, videoFps)
    }

    predicate Valid()
      reads this
    {
      Settable(Params())
    }

    /** `BigImgBuilder::new` (also `BigImg::builder`). */
    constructor (workDir: string, chunks: seq<Chunk>)
      ensures Valid() && Params() == Defaults(workDir, chunks)
    {
      this.workDir := workDir;
      this.chunks := chunks;
      screen := (1920, 1080);
      step := 100;
      widthChunk := 480;
      textBackgroundColor := (Rgba(23, 150, 235, 255), Rgba(44, 85, 153, 255));
      textColor := Rgba(255, 255, 255, 255);
      picH := 520;
      textUpH := 214;
      videoCoverTime := 3;
      videoEndingTime := 3;
      videoBackgroundColor := "white";
      videoSwipSpeed := 3;
      videoFps := 60;
    }

    method Screen(width: U32, height: U32)
      requires Valid()
      requires width != 0 && height != 0
      modifies this
      ensures Valid() && Params() == old(Params()).(screenW := width, screenH := height)
    {
      screen := (width, height);
    }

    method Step(step: U32)
      requires Valid()
      requires step != 0
      modifies this
      ensures Valid() && Params() == old(Params()).(step := step)
    {
      this.step := step;
    }

    method WidthChunk(widthChunk: U32)
      requires Valid()
      requires widthChunk != 0
      modifies this
      ensures Valid() && Params() == old(Params()).(widthChunk := widthChunk)
    {
      this.widthChunk := widthChunk;
    }

    method TextColor(textColor: Rgba)
      requires Valid()
      modifies this
      ensures Valid() && Params() == old(Params()).(textColor := textColor)
    {
      this.textColor := textColor;
    }

    method TextBackgroundColor(color: (Rgba, Rgba))
      requires Valid()
      modifies this
      ensures Valid() && Params() == old(Params()).(textBackground := color)
    {
      textBackgroundColor := color;
    }

    method PicH(picH: U32)
      requires Valid()
      requires picH != 0
      modifies this
      ensures Valid() && Params() == old(Params()).(picH := picH)
    {
      this.picH := picH;
    }

    method TextUpH(textUpH: U32)
      requires Valid()
      requires textUpH != 0
      modifies this
      ensures Valid() && Params() == old(Params()).(textUpH := textUpH)
    {
      this.textUpH := textUpH;
    }

    method VideoCoverTime(time: U32)
      requires Valid()
      modifies this
      ensures Valid() && Params() == old(Params()).(coverTime := time)
    {
      videoCoverTime := time;
    }

    method VideoEndingTime(time: U32)
      requires Valid()
      modifies this
      ensures Valid() && Params() == old(Params()).(endingTime := time)
    {
      videoEndingTime := time;
    }

    method VideoBackgroundColor(color: string)
      requires Valid()
      modifies this
      ensures Valid() && Params() == old(Params()).(backgroundColor := color)
    {
      videoBackgroundColor := color;
    }

    method VideoSwipSpeed(speed: U32)
      requires Valid()
      modifies this
      ensures Valid() && Params() == old(Params()).(swipSpeed := speed)
    {
      videoSwipSpeed := speed;
    }

    method VideoFps(fps: U32)
      requires Valid()
      modifies this
      ensures Valid() && Params() == old(Params()).(fps := fps)
    {
      videoFps := fps;
    }

    /** `build`: the checks in order, then `step` is clamped in the builder
      itself, then `text_down_h` is derived and the font loaded. */
    method Build(font: FontLoad) returns (r: Result<BigImg>)
      requires Valid()
      requires ChecksPass(Params()) ==> picH + textUpH <= screen.1
      modifies this
      ensures Valid()
      ensures r == Validate(old(Params()), font)
      ensures Params() == if ChecksPass(old(Params()))
                          then old(Params()).(step := ClampStep(old(step), |chunks|))
                          else old(Params())
    {
      if |chunks| == 0 {
        return Err(ChunksEmpty);
      }
      if picH > screen.1 {
        return Err(PicTooTall);
      }
      if screen.0 % widthChunk != 0 {
        return Err(WidthNotDivisible);
      }
      step := Min(step, if |chunks| < U32_LIMIT then |chunks| else 0);
      var textDownH := screen.1 - picH - textUpH;
      match font {
        case Unreadable =>
          return Err(FontIo);
        case Invalid =>
          return Err(InvalidFont);
        case Loaded(f) =>
          r := Ok(BigImg(
            workDir, chunks, screen.0, screen.1, step, widthChunk,
            screen.0 / widthChunk, textBackgroundColor, textColor,
            picH, textUpH, textDownH, f, videoCoverTime, videoEndingTime,
            videoBackgroundColor, videoSwipSpeed, videoFps));
      }
    }
  }

  // Configurations `build` accepts although running them panics.

  const SomeChunk: Chunk := Chunk("a.png", [], [])

  /** Three chunks with the defaults: accepted, yet `step` is clamped to 3
      while a screen holds 4 chunks, so the first thing `divide` computes,
      `len - overlap`, underflows a `usize` (a panic in a debug build);
      `step - overlap` and `chunks[..overlap]` would fail too. */
  lemma TooFewChunksAccepted(f: Font)
    ensures var r := Validate(Defaults("", [SomeChunk, SomeChunk, SomeChunk]), Loaded(f));
      r.Ok? && |r.value.chunks| < r.value.overlap && r.value.step < r.value.overlap
  {
  }

  /** Ten chunks with `step(4)`: accepted, yet `step == overlap`, so
      `divide` calls `step_by(0)`, which panics. */
  lemma StepTooSmallAccepted(f: Font)
    ensures var r := Validate(Defaults("", seq(10, _ => SomeChunk)).(step := 4), Loaded(f));
      r.Ok? && r.value.step == r.value.overlap
  {
  }

  /** `video_swip_speed(0)`: accepted, yet every mid segment divides
      `width_chunk` by the swipe speed. */
  lemma ZeroSwipeSpeedAccepted(f: Font)
    ensures var r := Validate(Defaults("", seq(10, _ => SomeChunk)).(swipSpeed := 0), Loaded(f));
      r.Ok? && r.value.swipSpeed == 0
  {
  }

  /** `text_up_h(600)` with the defaults passes every check, yet
      `1080 - 520 - 600` underflows a `u32`. */
  lemma TextBandsTooTallPass()
    ensures var p := Defaults("", [SomeChunk]).(textUpH := 600);
      ChecksPass(p) && p.picH + p.textUpH > p.screenH
  {
  }

  /** The corrected `build`: the same checks, reporting the same first
      failing error as `Validate`, followed (still before any I/O) by the
      checks that make every accepted configuration runnable. */
  function ValidateChecked(p: BuilderParams, font: FontLoad): (r: Result<BigImg>)
    requires Settable(p)
    ensures !ChecksPass(p) ==> r.Err? && r.error in {ChunksEmpty, PicTooTall, WidthNotDivisible}
    ensures !ChecksPass(p) ==> r == Validate(p, font)
    ensures r.Ok? <==>
      && ChecksPass(p)
      && p.picH + p.textUpH <= p.screenH
      && |p.chunks| > p.screenW / p.widthChunk
      && ClampStep(p.step, |p.chunks|) > p.screenW / p.widthChunk
      && p.swipSpeed != 0
      && font.Loaded?
    ensures r.Ok? ==>
      && r == Validate(p, font)
      && |r.value.chunks| > r.value.overlap
      && r.value.step > r.value.overlap
      && r.value.swipSpeed > 0
  {
    if !ChecksPass(p) then Validate(p, font)
    else if p.picH + p.textUpH > p.screenH then Err(TextBandsTooTall)
    else if |p.chunks| <= p.screenW / p.widthChunk then Err(TooFewChunks)
    else if ClampStep(p.step, |p.chunks|) <= p.screenW / p.widthChunk then Err(StepTooSmall)
    else if p.swipSpeed == 0 then Err(ZeroSwipeSpeed)
    else Validate(p, font)
  }
}
