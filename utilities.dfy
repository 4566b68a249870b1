/**
 * `Utilities`: the slide metadata document (`ImageDetails`) and the region renderer
 * (`CreateRegion`, with the RAW repacking of `CreateRaw`), written against the native oracle.
 */
module Utilities {
  import opened Wrappers
  import opened Numbers
  import opened Strings
  import opened FileStore
  import opened Native

  /** The encoders `CreateRegion` can hand the region to. */
  datatype Encoder = Encode(format: ImageFormat) | Raw

  /**
   * The encoder `CreateRegion` selects: null or "PNG" gives PNG, "RAW" the packed conversion,
   * "JPG" JPEG, "BMP" BMP; comparisons are case-sensitive and any other string selects none.
   */
  function EncoderFor(format: Option<string>): (r: Option<Encoder>)
    ensures r == Some(Encode(Png)) <==> format.None? || format == Some("PNG")
    ensures r == Some(Raw) <==> format == Some("RAW")
    ensures r == Some(Encode(Jpeg)) <==> format == Some("JPG")
    ensures r == Some(Encode(Bmp)) <==> format == Some("BMP")
  {
    if format.None? || format.value == "PNG" then Some(Encode(Png))
    else if format.value == "RAW" then Some(Raw)
    else if format.value == "JPG" then Some(Encode(Jpeg))
    else if format.value == "BMP" then Some(Encode(Bmp))
    else None
  }

  /**
   * `CreateRaw`: save the pixels as a BMP, convert that frame to premultiplied RGBA and copy it
   * out with stride `width * 4` into a buffer of `height * stride` bytes.  `None` when the
   * intermediate BMP cannot be written (the exception propagates).
   */
  function RawResult(c: Codec, pixels: seq<byte>, width: nat, height: nat): (r: Option<seq<byte>>)
    ensures r.Some? <==> c.save(Bmp, pixels, width, height).Some?
    ensures r.Some? ==> |r.value| == width * height * 4
  {
    match c.save(Bmp, pixels, width, height)
    case None => None
    case Some(bmp) => Some(Premultiplied(c, bmp, height * (width * 4)))
  }

  function RawCalls(c: Codec, pixels: seq<byte>, width: nat, height: nat): seq<Call> {
    [Call.Save(Bmp, width, height)]
      + (if c.save(Bmp, pixels, width, height).Some? then [Call.CopyPixels(width * 4)] else [])
  }

  /** The output of one encoder; `None` when the encoder throws. */
  function Encoded(c: Codec, e: Encoder, pixels: seq<byte>, w: nat, h: nat): Option<seq<byte>> {
    match e
    case Encode(f) => c.save(f, pixels, w, h)
    case Raw => RawResult(c, pixels, w, h)
  }

  function EncodeCalls(c: Codec, e: Option<Encoder>, pixels: seq<byte>, w: nat, h: nat): seq<Call> {
    match e
    case None => []
    case Some(Encode(f)) => [Call.Save(f, w, h)]
    case Some(Raw) => RawCalls(c, pixels, w, h)
  }

  /**
   * What `CreateRegion` returns: null when the slide cannot be opened or the format is not one
   * of the four names; otherwise the encoder's output, or an exception the encoder threw.
   */
  function Render(slides: map<string, SlideData>, c: Codec, path: string, level: int,
                  x: int, y: int, w: nat, h: nat, format: Option<string>): (r: Attempt<Option<seq<byte>>>)
    ensures path !in slides ==> r == Done(None)
    ensures path in slides ==> (r == Done(None) <==> EncoderFor(format).None?)
    ensures r.Threw? ==> path in slides && EncoderFor(format).Some?
    ensures r.Done? && r.result.Some? && format == Some("RAW") ==> |r.result.value| == w * h * 4
    ensures r.Done? && r.result.Some? ==>
              path in slides && EncoderFor(format).Some?
              && Encoded(c, EncoderFor(format).value, RegionBytes(slides[path], level, x, y, w, h), w, h)
                 == Some(r.result.value)
    ensures r.Threw? ==>
              Encoded(c, EncoderFor(format).value, RegionBytes(slides[path], level, x, y, w, h), w, h).None?
  {
    if path !in slides then Done(None)
    else
      match EncoderFor(format)
      case None => Done(None)
      case Some(e) =>
        match Encoded(c, e, RegionBytes(slides[path], level, x, y, w, h), w, h)
        case None => Threw
        case Some(b) => Done(Some(b))
  }

  /**
   * The native calls of `CreateRegion`, `osr` being the handle the open hands out: the open,
   * then (when it succeeds) the region read, the close, and only after the close the encoder.
   */
  function RenderCalls(osr: nat, slides: map<string, SlideData>, c: Codec, path: string, level: int,
                       x: int, y: int, w: nat, h: nat, format: Option<string>): seq<Call> {
    if path !in slides then [Call.Open(path)]
    else
      [Call.Open(path), Call.ReadRegion(osr, x, y, level, w, h), Call.Close(osr)]
        + EncodeCalls(c, EncoderFor(format), RegionBytes(slides[path], level, x, y, w, h), w, h)
  }

  method CreateRaw(lib: Library, pixels: seq<byte>, width: nat, height: nat) returns (r: Option<seq<byte>>)
    requires lib.Valid()
    modifies lib`trace
    ensures lib.Valid()
    ensures r == RawResult(lib.codec, pixels, width, height)
    ensures lib.trace == old(lib.trace) + RawCalls(lib.codec, pixels, width, height)
  {
    var bmp := lib.Save(Bmp, pixels, width, height);
    if bmp.None? {
      return None;
    }
    var stride := width * 4;
    var data := new byte[height * stride];
    lib.CopyPixels(bmp.value, stride, data);
    r := Some(data[..]);
  }

  /**
   * `CreateRegion`.  The bounds are those its only caller enforces before calling it; within
   * them `4 * w * h` does not overflow 32 bits.
   */
  method CreateRegion(lib: Library, name: string, level: int, x: int, y: int, w: int, h: int,
                      format: Option<string>) returns (r: Attempt<Option<seq<byte>>>)
    requires lib.Valid()
    requires 0 <= w <= 10000 && 0 <= h <= 10000
    modifies lib
    ensures lib.Valid()
    ensures r == Render(lib.slides, lib.codec, name, level, x, y, w, h, format)
    ensures lib.trace == old(lib.trace) + RenderCalls(old(lib.next), lib.slides, lib.codec, name, level, x, y, w, h, format)
    ensures lib.handles == old(lib.handles)
    ensures lib.next == old(lib.next) + (if name in lib.slides then 1 else 0)
  {
    ghost var t0 := lib.trace;
    var osr := lib.Open(name);
    if osr.None? {
      return Done(None);
    }
    var buffer := new byte[4 * w * h];
    lib.ReadRegion(osr.value, buffer, x, y, level, w, h);
    lib.Close(osr.value);
    var pixels := buffer[..];
    ghost var reading := [Call.Open(name), Call.ReadRegion(osr.value, x, y, level, w, h), Call.Close(osr.value)];
    assert lib.trace == t0 + reading;
    AppendAssociative(t0, reading, EncodeCalls(lib.codec, EncoderFor(format), pixels, w, h));
    var bytes: Option<seq<byte>> := None;
    if format.None? || format.value == "PNG" {
      bytes := lib.Save(Png, pixels, w, h);
      if bytes.None? {
        return Threw;
      }
    } else if format.value == "RAW" {
      bytes := CreateRaw(lib, pixels, w, h);
      if bytes.None? {
        return Threw;
      }
    } else if format.value == "JPG" {
      bytes := lib.Save(Jpeg, pixels, w, h);
      if bytes.None? {
        return Threw;
      }
    } else if format.value == "BMP" {
      bytes := lib.Save(Bmp, pixels, w, h);
      if bytes.None? {
        return Threw;
      }
    }
    r := Done(bytes);
  }

  /** One entry of the dimension list: `"level,width,height"`, quotes included. */
  function DimEntry(level: int, d: Dim): string {
    "\"" + IntToString(level) + "," + IntToString(d.w) + "," + IntToString(d.h) + "\""
  }

  function DimEntries(dims: seq<Dim>): seq<string> {
    seq(|dims|, l requires 0 <= l < |dims| => DimEntry(l, dims[l]))
  }

  const DIM_SEPARATOR: string := ",\r\n\t\t"

  /** The `Dimensions` array: one entry per level, level 0 first, separators between entries. */
  function DimensionList(dims: seq<Dim>): string {
    "[\r\n\t\t" + Join(DimEntries(dims), DIM_SEPARATOR) + "\r\n\t]"
  }

  /** The dimensions `ImageDetails` collects, one per level below `levels`. */
  function LevelDims(s: SlideData, levels: nat): seq<Dim> {
    seq(levels, l requires 0 <= l < levels => LevelDim(s, l))
  }

  /** The `Offset` value: the sidecar text verbatim, or the quoted literal "0,0" without a sidecar. */
  function OffsetField(sidecar: Option<string>): string {
    match sidecar
    case Some(text) => text
    case None => "\"0,0\""
  }

  /** The metadata document, fields in the order Name, Vendor, Levels, Width, Height, Dimensions, Offset. */
  function DetailsJson(fileName: string, vendor: Option<string>, dims: seq<Dim>, sidecar: Option<string>): string
    requires |dims| > 0
  {
    DetailsLayout(fileName, OrEmpty(vendor), |dims|, dims[0].w, dims[0].h, DimensionList(dims), OffsetField(sidecar))
  }

  /** The text layout of the metadata document around its already formatted parts. */
  function DetailsLayout(fileName: string, vendor: string, levels: int, width: int, height: int,
                         dimensions: string, offset: string): string
  {
    "{\r\n\t\"Name\":\"" + fileName
      + "\", \r\n\t\"Vendor\":\"" + vendor
      + "\", \r\n\t\"Levels\":" + IntToString(levels)
      + ", \r\n\t\"Width\":" + IntToString(width)
      + ", \r\n\t\"Height\":" + IntToString(height)
      + ", \r\n\t\"Dimensions\":" + dimensions
      + ", \r\n\t\"Offset\":" + offset + "\r\n}"
  }

  /** The native calls of `ImageDetails`: the open, then (when it succeeded) the queries of `DescribeCalls`. */
  function DetailsCalls(osr: nat, path: string, levels: int): seq<Call> {
    [Call.Open(path)] + DescribeCalls(osr, path, levels)
  }

  /**
   * The native calls after a successful open with handle `osr`: vendor, level count, then
   * (unless the count is negative, where allocating the arrays throws before the close) one
   * dimensions query per level in ascending order, and the close.
   */
  function DescribeCalls(osr: nat, path: string, levels: int): seq<Call> {
    [Call.DetectVendor(path)] + [Call.LevelCount(osr)]
      + (if levels < 0 then [] else DimensionCalls(osr, levels) + [Call.Close(osr)])
  }

  /** One `openslide_get_level_dimensions` call per level below `levels`, in ascending order. */
  function DimensionCalls(osr: nat, levels: nat): seq<Call> {
    if levels == 0 then [] else DimensionCalls(osr, levels - 1) + [Call.LevelDimensions(osr, levels - 1)]
  }

  /**
   * The loop of `ImageDetails`: for each level in ascending order, query its dimensions, store
   * them in `widths` and `heights` and append its entry to the dimension text, with a separator
   * after every entry but the last.
   */
  method ReadDimensions(lib: Library, osr: nat, ghost s: SlideData, levels: nat,
                        widths: array<int>, heights: array<int>, opening: string) returns (dimensions: string)
    requires lib.Valid() && osr in lib.handles && lib.slides[lib.handles[osr]] == s
    requires widths.Length == levels && heights.Length == levels && widths != heights
    modifies lib`trace, widths, heights
    ensures lib.Valid()
    ensures lib.trace == old(lib.trace) + DimensionCalls(osr, levels)
    ensures forall l :: 0 <= l < levels ==> widths[l] == LevelDim(s, l).w && heights[l] == LevelDim(s, l).h
    ensures dimensions == opening + Join(DimEntries(LevelDims(s, levels)), DIM_SEPARATOR)
  {
    dimensions := opening;
    for l := 0 to levels
      invariant lib.Valid()
      invariant lib.trace == old(lib.trace) + DimensionCalls(osr, l)
      invariant forall i :: 0 <= i < l ==> widths[i] == LevelDim(s, i).w
      invariant forall i :: 0 <= i < l ==> heights[i] == LevelDim(s, i).h
      invariant dimensions == DimensionsBuilt(opening, s, l, levels)
    {
      var d := lib.LevelDimensions(osr, l);
      AppendAssociative(old(lib.trace), DimensionCalls(osr, l), [Call.LevelDimensions(osr, l)]);
      ghost var w0, h0 := widths[..], heights[..];
      widths[l] := d.w;
      heights[l] := d.h;
      assert widths[..] == w0[l := d.w] && heights[..] == h0[l := d.h];
      dimensions := dimensions + (DimEntry(l, d) + (if l < levels - 1 then DIM_SEPARATOR else ""));
    }
    DimensionsBuiltJoin(opening, s, levels, levels);
    JoinedPrefixComplete(DimEntries(LevelDims(s, levels)), DIM_SEPARATOR);
  }

  /** The dimension text after the first `l` turns of the loop in `ImageDetails`. */
  function DimensionsBuilt(opening: string, s: SlideData, l: nat, levels: int): string {
    if l == 0 then opening
    else DimensionsBuilt(opening, s, l - 1, levels)
           + (DimEntry(l - 1, LevelDim(s, l - 1)) + (if l - 1 < levels - 1 then DIM_SEPARATOR else ""))
  }

  /** What the loop has built is the joined list of the first `l` entries, a separator pending if more follow. */
  lemma {:induction false} DimensionsBuiltJoin(opening: string, s: SlideData, l: nat, levels: nat)
    requires l <= levels
    ensures DimensionsBuilt(opening, s, l, levels) == opening + JoinedPrefix(DimEntries(LevelDims(s, levels)), l, DIM_SEPARATOR)
  {
    var entries := DimEntries(LevelDims(s, levels));
    if l > 0 {
      DimensionsBuiltJoin(opening, s, l - 1, levels);
      assert entries[l - 1] == DimEntry(l - 1, LevelDim(s, l - 1));
      JoinedPrefixStep(opening, entries, l - 1, DIM_SEPARATOR);
    } else {
      assert entries[..0] == [];
      assert JoinedPrefix(entries, 0, DIM_SEPARATOR) == "";
    }
  }

  /** The metadata document of the slide at `name`, the result `ImageDetails` gives when it succeeds. */
  function Details(s: SlideData, store: map<string, seq<byte>>, name: string, decode: seq<byte> -> string): seq<byte>
    requires s.levelCount > 0
  {
    var sidecar := if name + ".txt" in store then Some(decode(store[name + ".txt"])) else None;
    AsciiBytes(DetailsJson(FileName(name), s.vendor, LevelDims(s, s.levelCount), sidecar))
  }

  /** The document `DescribeSlide` lays out from the queried parts is the one `Details` describes. */
  lemma DetailsAssembled(s: SlideData, files: map<string, seq<byte>>, name: string, decode: seq<byte> -> string,
                         json: string)
    requires s.levelCount > 0
    requires json == DetailsLayout(FileName(name), OrEmpty(s.vendor), s.levelCount, LevelDim(s, 0).w, LevelDim(s, 0).h,
                                   DimensionList(LevelDims(s, s.levelCount)),
                                   if name + ".txt" in files then decode(files[name + ".txt"]) else "\"0,0\"")
    ensures AsciiBytes(json) == Details(s, files, name, decode)
  {
  }

  /**
   * `ImageDetails`: null when the slide cannot be opened (and no other native call is made).
   * A negative level count throws while allocating the arrays, leaving the handle open; a level
   * count of 0 throws at `widths[0]`, after the close.
   */
  method ImageDetails(lib: Library, store: Store, name: string, decode: seq<byte> -> string)
    returns (r: Attempt<Option<seq<byte>>>)
    requires lib.Valid()
    modifies lib
    ensures lib.Valid()
    ensures name !in lib.slides ==>
              r == Done(None) && lib.trace == old(lib.trace) + [Call.Open(name)]
              && lib.handles == old(lib.handles) && lib.next == old(lib.next)
    ensures name in lib.slides ==>
              var s := lib.slides[name];
              var osr := old(lib.next);
              && lib.trace == old(lib.trace) + DetailsCalls(osr, name, s.levelCount)
              && lib.handles == (if s.levelCount < 0 then old(lib.handles)[osr := name] else old(lib.handles))
              && lib.next == osr + 1
              && r == if s.levelCount <= 0 then Threw else Done(Some(Details(s, store.files, name, decode)))
  {
    var osr := lib.Open(name);
    if osr.None? {
      return Done(None);
    }
    r := DescribeSlide(lib, store, name, osr.value, decode);
    assert old(lib.handles)[osr.value := name] - {osr.value} == old(lib.handles);
  }

  /** `ImageDetails` after the open succeeded with handle `osr`. */
  method DescribeSlide(lib: Library, store: Store, name: string, osr: nat, decode: seq<byte> -> string)
    returns (r: Attempt<Option<seq<byte>>>)
    requires lib.Valid() && osr in lib.handles && lib.handles[osr] == name
    modifies lib
    ensures lib.Valid() && lib.next == old(lib.next)
    ensures var s := lib.slides[name];
            && lib.trace == old(lib.trace) + DescribeCalls(osr, name, s.levelCount)
            && lib.handles == (if s.levelCount < 0 then old(lib.handles) else old(lib.handles) - {osr})
            && r == if s.levelCount <= 0 then Threw else Done(Some(Details(s, store.files, name, decode)))
  {
    ghost var s := lib.slides[name];
    ghost var t0 := lib.trace;
    var vendor := lib.DetectVendor(name);
    var levels := lib.LevelCount(osr);
    ghost var queried := [Call.DetectVendor(name)] + [Call.LevelCount(osr)];
    AppendAssociative(t0, [Call.DetectVendor(name)], [Call.LevelCount(osr)]);
    if levels < 0 {
      assert queried + [] == queried;
      return Threw;
    }
    var widths := new int[levels];
    var heights := new int[levels];
    var dimensions := "[\r\n\t\t";
    var offset := store.LoadText(name + ".txt", decode);
    if offset.None? {
      offset := Some("\"0,0\"");
    }
    dimensions := ReadDimensions(lib, osr, s, levels, widths, heights, dimensions);
    dimensions := dimensions + "\r\n\t]";
    lib.Close(osr);
    AppendAssociative(t0 + queried, DimensionCalls(osr, levels), [Call.Close(osr)]);
    AppendAssociative(t0, queried, DimensionCalls(osr, levels) + [Call.Close(osr)]);
    if levels == 0 {
      return Threw;
    }
    var json := DetailsLayout(FileName(name), OrEmpty(vendor), levels, widths[0], heights[0], dimensions, offset.value);
    DetailsAssembled(s, store.files, name, decode, json);
    r := Done(Some(AsciiBytes(json)));
  }

  /** Every level's entry holds exactly two quotes, so the list holds exactly one entry per level. */
  lemma DimensionListCount(dims: seq<Dim>)
    ensures Count('"', DimensionList(dims)) == 2 * |dims|
  {
    var entries := DimEntries(dims);
    forall l | 0 <= l < |entries|
      ensures Count('"', entries[l]) == 2
    {
      DimEntryCount(l, dims[l]);
    }
    var open, body, close := "[\r\n\t\t", Join(entries, DIM_SEPARATOR), "\r\n\t]";
    DimensionFrameCount();
    JoinCount('"', entries, DIM_SEPARATOR, 2);
    CountConcat('"', open, body);
    CountConcat('"', open + body, close);
  }

  /** The brackets and separators of the dimension list hold no quote. */
  lemma DimensionFrameCount()
    ensures Count('"', "[\r\n\t\t") == 0 && Count('"', "\r\n\t]") == 0 && Count('"', DIM_SEPARATOR) == 0
  {
    NoCount('"', DIM_SEPARATOR);
    NoCount('"', "[\r\n\t\t");
    NoCount('"', "\r\n\t]");
  }

  lemma DimEntryCount(level: int, d: Dim)
    ensures Count('"', DimEntry(level, d)) == 2
  {
    var q, c := "\"", ",";
    var a, b, e := IntToString(level), IntToString(d.w), IntToString(d.h);
    CountIntToString('"', level);
    CountIntToString('"', d.w);
    CountIntToString('"', d.h);
    assert Count('"', q) == 1;
    NoCount('"', c);
    CountConcat('"', q, a);
    CountConcat('"', q + a, c);
    CountConcat('"', q + a + c, b);
    CountConcat('"', q + a + c + b, c);
    CountConcat('"', q + a + c + b + c, e);
    CountConcat('"', q + a + c + b + c + e, q);
  }
}
