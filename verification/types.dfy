/** Values shared by the whole model of the swiping-image pipeline: the
    unsigned integer widths the source uses, the chunk records, colours,
    errors, and the validated configuration `BigImg`. */
module Types {

  /** Rust `u32`. */
  type U32 = x: int | 0 <= x < 0x1_0000_0000

  /** Rust `u8`. */
  type U8 = x: int | 0 <= x < 0x100

  const U32_LIMIT: int := 0x1_0000_0000

  /** One visual unit of the run: a source image and two caption blocks.
      It is created by an external loader and only read here. */
  datatype Chunk = Chunk(image: string, upper: seq<string>, lower: seq<string>)

  /** `image::Rgba<u8>`. */
  datatype Rgba = Rgba(r: U8, g: U8, b: U8, a: U8)

  /** Parsed font data; its glyphs are consumed only by the renderer. */
  datatype Font = Font(data: seq<U8>)

  /** What reading and parsing the font file yields. */
  datatype FontLoad = Loaded(font: Font) | Unreadable | Invalid

  /** Every error the core can return. The first three are the builder's
      `Kind::BigImgBuilderError` cases; the last four are only returned by the
      corrected builder `Builder.ValidateChecked`. */
  datatype Error =
    | ChunksEmpty        // "chunks data is empty"
    | PicTooTall         // "pic_h > height_screen"
    | WidthNotDivisible  // "width_screen % width_chunk != 0"
    | FontIo             // the font file could not be read
    | InvalidFont        // the font bytes could not be parsed
    | EmptyChunk         // "Empty chunk": nothing to compose
    | TryFrom            // a count does not fit in a u32
    | Image              // drawing, copying or saving an image failed
    | Io                 // a file write or a process launch failed
    | FfmpegFailed       // "FFmpeg command failed": non-zero exit status
    | TextBandsTooTall
    | TooFewChunks
    | StepTooSmall
    | ZeroSwipeSpeed

  datatype Result<T> = Ok(value: T) | Err(error: Error)

  datatype Option<T> = None | Some(value: T)

  /** The validated configuration, immutable once built. `overlap` is the
      number of chunks one screen shows at a time. */
  datatype BigImg = BigImg(
    workDir: string,
    chunks: seq<Chunk>,
    screenW: U32,
    screenH: U32,
    step: U32,
    widthChunk: U32,
    overlap: U32,
    textBackground: (Rgba, Rgba),
    textColor: Rgba,
    picH: U32,
    textUpH: U32,
    textDownH: U32,
    font: Font,
    coverTime: U32,
    endingTime: U32,
    backgroundColor: string,
    swipSpeed: U32,
    fps: U32)

  function Min(a: int, b: int): int { if a <= b then a else b }
}
