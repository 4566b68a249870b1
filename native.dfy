/**
 * The native collaborators of the tile pipeline, as a stateful oracle: the OpenSlide library
 * (open, vendor detection, level count and dimensions, region read, close) and the raster
 * encoders (System.Drawing `Bitmap.Save`, the WIC conversion to premultiplied RGBA).
 * What each call answers is fixed data given at construction; every call is appended to
 * `trace`, so that the order and the set of native calls a handler makes can be stated.
 */
module Native {
  import opened Wrappers
  import opened Strings

  /** Width and height of one pyramid level, as `openslide_get_level_dimensions` reports them. */
  datatype Dim = Dim(w: int, h: int)

  /** What OpenSlide reports about one slide file it can open. */
  datatype SlideData = SlideData(
    vendor: Option<string>,
    levelCount: int,
    dims: seq<Dim>,
    /** byte `i` of the packed 32-bit pixels of the region (level, x, y, w, h) */
    sample: (int, int, int, int, int, int) -> byte)

  /** The encodings `Bitmap.Save` is asked for. */
  datatype ImageFormat = Png | Jpeg | Bmp

  /** What the raster encoders produce. */
  datatype Codec = Codec(
    /** `Bitmap.Save` of a w x h 32bpp ARGB bitmap; `None` when it throws */
    save: (ImageFormat, seq<byte>, int, int) -> Option<seq<byte>>,
    /** byte `i` of the premultiplied RGBA frame WIC decodes from a BMP stream */
    premultiplied: (seq<byte>, int) -> byte)

  /** One call into native code. */
  datatype Call =
    | Open(path: string)
    | DetectVendor(path: string)
    | LevelCount(handle: nat)
    | LevelDimensions(handle: nat, level: int)
    | ReadRegion(handle: nat, x: int, y: int, level: int, w: int, h: int)
    | Close(handle: nat)
    | Save(format: ImageFormat, w: int, h: int)
    | CopyPixels(stride: int)

  /** Appending to a trace piece by piece is appending the pieces joined. */
  lemma AppendAssociative<T>(a: seq<T>, b: seq<T>, c: seq<T>)
    ensures (a + b) + c == a + (b + c)
  {
  }

  /** `openslide_get_level_dimensions` answers -1, -1 for a level the slide does not have. */
  function LevelDim(s: SlideData, level: int): Dim {
    if 0 <= level < |s.dims| then s.dims[level] else Dim(-1, -1)
  }

  /** The `4 * w * h` bytes `openslide_read_region` writes for a w x h region. */
  function RegionBytes(s: SlideData, level: int, x: int, y: int, w: nat, h: nat): seq<byte> {
    seq(4 * w * h, i requires 0 <= i < 4 * w * h => s.sample(level, x, y, w, h, i))
  }

  /** The premultiplied frame converted from a BMP stream, `length` bytes of it. */
  function Premultiplied(c: Codec, bmp: seq<byte>, length: nat): seq<byte> {
    seq(length, i requires 0 <= i < length => c.premultiplied(bmp, i))
  }

  class Library {
    /** The slide files OpenSlide can open, by path. */
    const slides: map<string, SlideData>
    const codec: Codec
    /** The open OpenSlide handles and the path each was opened on; 0 is the null handle. */
    var handles: map<nat, string>
    var next: nat
    var trace: seq<Call>

    ghost predicate Valid()
      reads this
    {
      0 < next && forall k :: k in handles ==> 0 < k < next && handles[k] in slides
    }

    constructor (slides: map<string, SlideData>, codec: Codec)
      ensures Valid()
      ensures this.slides == slides && this.codec == codec
      ensures handles == map[] && trace == []
    {
      this.slides := slides;
      this.codec := codec;
      handles := map[];
      next := 1;
      trace := [];
    }

    /** `openslide_open`: a fresh handle for a slide it can read, the null handle otherwise. */
    method Open(path: string) returns (osr: Option<nat>)
      requires Valid()
      modifies this
      ensures Valid()
      ensures trace == old(trace) + [Call.Open(path)]
      ensures path in slides ==>
                osr == Some(old(next)) && old(next) !in old(handles)
                && handles == old(handles)[old(next) := path] && next == old(next) + 1
      ensures path !in slides ==> osr == None && handles == old(handles) && next == old(next)
    {
      trace := trace + [Call.Open(path)];
      if path in slides {
        osr := Some(next);
        handles := handles[next := path];
        next := next + 1;
      } else {
        osr := None;
      }
    }

    /** `openslide_detect_vendor`: works on the path, not on a handle; null when unknown. */
    method DetectVendor(path: string) returns (vendor: Option<string>)
      requires Valid()
      modifies this`trace
      ensures Valid()
      ensures trace == old(trace) + [Call.DetectVendor(path)]
      ensures vendor == if path in slides then slides[path].vendor else None
    {
      trace := trace + [Call.DetectVendor(path)];
      vendor := if path in slides then slides[path].vendor else None;
    }

    method LevelCount(osr: nat) returns (levels: int)
      requires Valid() && osr in handles
      modifies this`trace
      ensures Valid()
      ensures trace == old(trace) + [Call.LevelCount(osr)]
      ensures levels == slides[handles[osr]].levelCount
    {
      trace := trace + [Call.LevelCount(osr)];
      levels := slides[handles[osr]].levelCount;
    }

    method LevelDimensions(osr: nat, level: int) returns (d: Dim)
      requires Valid() && osr in handles
      modifies this`trace
      ensures Valid()
      ensures trace == old(trace) + [Call.LevelDimensions(osr, level)]
      ensures d == LevelDim(slides[handles[osr]], level)
    {
      trace := trace + [Call.LevelDimensions(osr, level)];
      d := LevelDim(slides[handles[osr]], level);
    }

    /** `openslide_read_region`: fills the caller's `4 * w * h` byte buffer with the region. */
    method ReadRegion(osr: nat, buffer: array<byte>, x: int, y: int, level: int, w: nat, h: nat)
      requires Valid() && osr in handles
      requires buffer.Length == 4 * w * h
      modifies this`trace, buffer
      ensures Valid()
      ensures trace == old(trace) + [Call.ReadRegion(osr, x, y, level, w, h)]
      ensures buffer[..] == RegionBytes(slides[handles[osr]], level, x, y, w, h)
    {
      var s := slides[handles[osr]];
      for i := 0 to buffer.Length
        modifies buffer
        invariant forall j :: 0 <= j < i ==> buffer[j] == s.sample(level, x, y, w, h, j)
      {
        buffer[i] := s.sample(level, x, y, w, h, i);
      }
      trace := trace + [Call.ReadRegion(osr, x, y, level, w, h)];
    }

    /** `openslide_close`: the handle is no longer open. */
    method Close(osr: nat)
      requires Valid() && osr in handles
      modifies this
      ensures Valid()
      ensures trace == old(trace) + [Call.Close(osr)]
      ensures handles == old(handles) - {osr} && next == old(next)
    {
      trace := trace + [Call.Close(osr)];
      handles := handles - {osr};
    }

    /** `Bitmap.Save` of the w x h pixels into one encoding; `None` when it throws. */
    method Save(format: ImageFormat, pixels: seq<byte>, w: int, h: int) returns (r: Option<seq<byte>>)
      requires Valid()
      modifies this`trace
      ensures Valid()
      ensures trace == old(trace) + [Call.Save(format, w, h)]
      ensures r == codec.save(format, pixels, w, h)
    {
      trace := trace + [Call.Save(format, w, h)];
      r := codec.save(format, pixels, w, h);
    }

    /** `FormatConverter.CopyPixels`: writes the converted frame into the caller's buffer. */
    method CopyPixels(bmp: seq<byte>, stride: int, data: array<byte>)
      requires Valid()
      modifies this`trace, data
      ensures Valid()
      ensures trace == old(trace) + [Call.CopyPixels(stride)]
      ensures data[..] == Premultiplied(codec, bmp, data.Length)
    {
      for i := 0 to data.Length
        modifies data
        invariant forall j :: 0 <= j < i ==> data[j] == codec.premultiplied(bmp, j)
      {
        data[i] := codec.premultiplied(bmp, i);
      }
      trace := trace + [Call.CopyPixels(stride)];
    }
  }
}
