# OpenSlideServer tile server, modelled in Dafny

This project models the core of OpenSlideServer. OpenSlideServer is a small HTTP server that serves whole-slide
microscopy images. It has four request handlers:

- `image` serves one region as PNG, JPEG, BMP or premultiplied RAW pixels. It keeps an on-disk tile cache.
- `cases` lists the case directories.
- `list` lists the slides of one case.
- `details` returns a slide's metadata as JSON.

The model follows the two core source files. Each part below is a Dafny module in its own file.

- `Utilities` (`utilities.dfy`) models the metadata builder `ImageDetails`, the region renderer
  `CreateRegion` with its RAW conversion `CreateRaw`, and the JSON document they produce. These are
  imperative code, so they are methods against the native library. Their contracts tie the results,
  the native-call trace and the handle table to specification functions: `Render`, `RenderCalls`,
  `Details` and `DetailsCalls`.
- `ImageServer` (`image_server.dfy`) models the router, the four handlers, the cache-path scheme and
  the listing builder. The response object is a class whose status, headers, body and closed flag
  the handlers set in place, in the order the source sets them. Each handler's contract says which
  response it leaves behind, as a `Reply` given by a specification function: `TileReply`,
  `ListingReply` or `DetailsReply`. It also says what becomes of the tile cache (`TileStore`) and
  which native calls are made (`TileCalls`).
- `FileStore` (`file_store.dfy`) models `LoadFile`, `LoadText` and `SaveFile` as a class holding a
  map from paths to bytes.
- `Native` (`native.dfy`) models the OpenSlide and imaging libraries as an oracle object:
  - Each slide is given as data: vendor, level count, per-level dimensions and a pixel sampler.
  - The encoders are given as functions.
  - Every native call is appended to a `trace`, so contracts can state which calls happen and in
    which order. For example, the slide is closed before encoding, and a cache hit makes no native
    call at all.
- `Numbers` (`numbers.dfy`) models `Int32`/`Int64` `ToString` and `Parse`. `Strings`
  (`strings.dfy`) models lower-casing, joining, `Path.GetFileName` and ASCII encoding. `Wrappers`
  (`wrappers.dfy`) holds `Option` and `Attempt`:
  - `None` stands for a null result.
  - `Attempt.Threw` stands for an exception that reaches the handler's `catch`.

Exceptions are values, not control flow. A parse failure, a negative array size, an out-of-range
`widths[0]`, an encoder failure and a failed directory listing all become `None` or `Threw`. The
handler then maps that value to its status code exactly as the source's `catch` blocks do.

Behaviour of the code worth knowing:

- An unknown `format` string selects no encoder in `CreateRegion`, so the tile is null and the
  reply is 404. It does not fall through to the RAW encoder.
- An encoder that throws gives 400, not 404. The exception reaches the `catch` of
  `HandleImageRequest`.
- Success replies are never closed. Only the error paths call `Response.Close`.
- The whole cache path is lower-cased, including the cache root.

Proved observations about the code as written:

- The case identifier is not part of the cache key (`CacheSharedAcrossCases`). Two cases that hold
  slides with the same file name share cache tiles.
- Comparing format names is case-sensitive (`LowerCasePngFormat`).
  - With `format=png` the cache path is the same as for `PNG`, because the path is lower-cased.
  - A cache miss for `png` is answered 404, because `png` selects no encoder.
  - A cache hit for `png` is answered 200 with no `Content-Type`.

## Model

| member | source | states |
|---|---|---|
| ImageServer.HandleRequest | OpenSlideServer/ImageServer.cs:59-88 | each recognised `command` gets exactly its handler's reply, cache effect, native calls, handle table and handle counter (those of `HandleImageRequest`, `HandleListRequest`, `HandleCasesRequest`, `HandleDetailsRequest`); an unrecognised or missing command leaves the response untouched and the cache, trace, handles and counter unchanged |
| ImageServer.Route | OpenSlideServer/ImageServer.cs:64-80 | the handler selected is `image`/`list`/`cases`/`details` exactly when the `command` parameter is that string |
| ImageServer.Get | OpenSlideServer/ImageServer.cs:64 | parameter names are matched ignoring case: a parameter is present exactly when the query carries its lower-cased name, and then has that entry's value |
| ImageServer.GetIgnoresCase | OpenSlideServer/ImageServer.cs:191-199 | two spellings of a parameter name that differ only in case find the same value |
| ImageServer.HandleImageRequest | OpenSlideServer/ImageServer.cs:185-287 | the response shows `TileReply`, the cache becomes `TileStore`, the native trace grows by `TileCalls`, no handle is left open, and the handle counter advances only when a slide is opened |
| ImageServer.ServeTile | OpenSlideServer/ImageServer.cs:211-277 | after parsing: out-of-bounds regions get 400, a cache hit is sent with the format's content type, a miss is rendered; reply, cache, trace, handles and counter are those of the parsed tile request |
| ImageServer.ServeMiss | OpenSlideServer/ImageServer.cs:234-277 | on a cache miss: exception gives 400, null gives 404, bytes are saved under the cache path and sent with the format's content type; the trace is that of one `CreateRegion` |
| ImageServer.ParseTileQuery | OpenSlideServer/ImageServer.cs:191-209 | the query parses exactly when `level`, `w`, `h` parse as 32-bit and `x`, `y` as 64-bit integers (a missing or malformed one throws); a parsed query carries `name`, `caseID` and the five parsed numbers, and its format is the `format` parameter or "PNG" when that is missing |
| ImageServer.ParseTileRequest | OpenSlideServer/ImageServer.cs:191-209 | every tile query with in-range numbers, written out as request parameters, parses back to itself |
| ImageServer.RejectedBeforeRender | OpenSlideServer/ImageServer.cs:213-217 | a query that does not parse or is out of bounds is answered 400 without touching the cache or the native library |
| ImageServer.MalformedNumberRejected | OpenSlideServer/ImageServer.cs:193-199 | a number parameter holding a character other than white space, a sign or a digit makes the query fail to parse, so the reply is 400 and the cache is unchanged |
| ImageServer.RepeatFromCache | OpenSlideServer/ImageServer.cs:230-242 | after a successfully answered tile request, the same request is answered with the same reply from the cache, with no native call, and leaves the cache as it is |
| ImageServer.CacheHitServesStored | OpenSlideServer/ImageServer.cs:230-242 | a tile whose cache path is stored is answered with the stored bytes and the format's content type, the store unchanged, no native call and no slide opened |
| ImageServer.CachePathInjective | OpenSlideServer/ImageServer.cs:223-230 | for one slide name, two requests have the same cache path string exactly when x, y, w, h and level are equal and the formats agree up to case |
| ImageServer.TileTailInjective | OpenSlideServer/ImageServer.cs:223-230 | the text of the cache key after `&x=` determines x, y, w, h, level and format |
| ImageServer.LowerTileTail | OpenSlideServer/ImageServer.cs:230 | lower-casing the key leaves the numbers and separators as they are and lower-cases only the format |
| ImageServer.SplitAtSeparator | OpenSlideServer/ImageServer.cs:223-228 | a separator whose first character occurs in neither prefix splits two equal texts at the same place |
| ImageServer.SplitAtNumber | OpenSlideServer/ImageServer.cs:223-228 | a decimal number followed by an `&`/`.` separator is recovered uniquely from the key |
| ImageServer.NumberHasNoSeparator | OpenSlideServer/ImageServer.cs:224-228 | the decimal text of a number holds neither `&` nor `.` |
| ImageServer.CacheSharedAcrossCases | OpenSlideServer/ImageServer.cs:223-236 | the cache path does not depend on the case identifier |
| ImageServer.LowerCasePngFormat | OpenSlideServer/ImageServer.cs:223-277 | with `format=png` the cache path is that of `PNG`; a cache hit is sent with no content type and a miss is answered 404 |
| ImageServer.ContentType | OpenSlideServer/ImageServer.cs:259-274 | PNG gets `image/png`, RAW `application/octet-stream`, JPG `image/jpeg`, BMP `image/bmp` (each exactly for that name), and no other format gets a content type |
| ImageServer.ContentTypeMatchesEncoder | OpenSlideServer/ImageServer.cs:259-274 | a content type is set exactly for the formats `CreateRegion` has an encoder for |
| ImageServer.RenderedTileHasType | OpenSlideServer/ImageServer.cs:255-277 | every format the encoder accepts for a rendered tile has a content type, so a fresh tile is never sent without one |
| ImageServer.BuildListing | OpenSlideServer/ImageServer.cs:97-103 | the loop builds the listing document: opening, the quoted file names joined by `, \r\n`, closing |
| ImageServer.ListingQuotes | OpenSlideServer/ImageServer.cs:99-103 | a listing holds exactly two quotes around its key and two per listed path, so one entry per path |
| ImageServer.NameEntryQuotes | OpenSlideServer/ImageServer.cs:101 | one listing entry holds exactly two quotes |
| ImageServer.ListingNamesChildren | OpenSlideServer/ImageServer.cs:128-133 | listing the children of a directory lists their own names, in order |
| ImageServer.HandleCasesRequest | OpenSlideServer/ImageServer.cs:90-119 | a failed directory listing is answered 400 and closed; otherwise the listing of the case directories is sent as ASCII JSON |
| ImageServer.HandleListRequest | OpenSlideServer/ImageServer.cs:121-151 | lists `location\caseID\`; a failed listing is answered 400, otherwise the listing of its files is sent as ASCII JSON |
| ImageServer.HandleDetailsRequest | OpenSlideServer/ImageServer.cs:153-183 | the response shows `DetailsReply`: 404 when the slide does not open, 400 when `ImageDetails` throws, the metadata document otherwise; trace, handle table and counter are those of `ImageDetails` |
| ImageServer.Reject | OpenSlideServer/ImageServer.cs:284-285 | an error reply sets the status and closes the response, nothing written |
| ImageServer.Send | OpenSlideServer/ImageServer.cs:170-174 | a success reply has status 200, the content type when one is given, the length and exactly the bytes |
| ImageServer.Response.Write | OpenSlideServer/ImageServer.cs:174 | writing appends to the body and changes nothing else |
| ImageServer.Response.SetStatusCode | OpenSlideServer/ImageServer.cs:107 | setting the status changes only the status |
| ImageServer.Response.SetContentType | OpenSlideServer/ImageServer.cs:108 | setting the content type changes only the content type |
| ImageServer.Response.SetContentLength | OpenSlideServer/ImageServer.cs:110 | setting the length changes only the length |
| ImageServer.Response.Close | OpenSlideServer/ImageServer.cs:116-117 | closing marks the response closed and changes nothing else |
| Utilities.ImageDetails | OpenSlideServer/Utilities.cs:15-68 | null, with only the open, when the slide does not open; a negative level count throws and leaves the handle open; zero levels throws after the close; otherwise the metadata document `Details`; the trace is `DetailsCalls` |
| Utilities.DescribeSlide | OpenSlideServer/Utilities.cs:24-67 | after the open: vendor, level count, one dimensions query per level in order, close; the result is `Details` or the exception |
| Utilities.ReadDimensions | OpenSlideServer/Utilities.cs:44-53 | each level's width and height are stored in order, one dimensions query per level, and the text is the opening followed by the joined `"level,w,h"` entries |
| Utilities.DimensionsBuiltJoin | OpenSlideServer/Utilities.cs:44-53 | after `l` turns the dimension text is the first `l` entries joined, with a separator pending when more follow |
| Utilities.DetailsAssembled | OpenSlideServer/Utilities.cs:59-65 | the document laid out from the queried parts is the document of the slide's level list and sidecar |
| Utilities.DimensionListCount | OpenSlideServer/Utilities.cs:44-55 | the dimension list holds exactly two quotes per level, so one entry per level |
| Utilities.DimEntryCount | OpenSlideServer/Utilities.cs:49-51 | one dimension entry holds exactly two quotes |
| Utilities.CreateRegion | OpenSlideServer/Utilities.cs:70-107 | the result is `Render` and the trace grows by `RenderCalls`: open; when it succeeds, read region, close, and only then the chosen encoder; the handle table is back as it was |
| Utilities.EncoderFor | OpenSlideServer/Utilities.cs:87-102 | null or "PNG" selects PNG, "RAW" the RAW conversion, "JPG" JPEG, "BMP" BMP, each exactly for that name (case-sensitive); any other name selects none |
| Utilities.Render | OpenSlideServer/Utilities.cs:70-107 | null exactly when the slide does not open or no encoder matches; an exception only from an encoder and exactly when the selected encoder fails on the region read; a success is the selected encoder's output on that region, and RAW output is `w * h * 4` bytes |
| Utilities.CreateRaw | OpenSlideServer/Utilities.cs:121-154 | save as BMP, then copy the premultiplied frame with stride `width * 4`; the result is `RawResult` |
| Utilities.RawResult | OpenSlideServer/Utilities.cs:121-154 | the RAW conversion succeeds exactly when the intermediate BMP is written, and then has exactly `width * height * 4` bytes |
| FileStore.Store.LoadFile | OpenSlideServer/Utilities.cs:156-163 | the stored bytes when the file exists, null otherwise |
| FileStore.Store.LoadText | OpenSlideServer/Utilities.cs:165-172 | the decoded text when the file exists, null otherwise |
| FileStore.Store.SaveFile | OpenSlideServer/Utilities.cs:174-177 | the file holds exactly the data afterwards and no other file changes |
| Native.Library.Open | OpenSlideServer/Utilities.cs:72-78 | a known slide gets a fresh handle; an unknown one gives null and changes no handle |
| Native.Library.DetectVendor | OpenSlideServer/Utilities.cs:24 | the vendor of a known slide (possibly null), null for an unknown path; the call is recorded |
| Native.Library.LevelCount | OpenSlideServer/Utilities.cs:25 | the level count of the open slide; the call is recorded |
| Native.Library.LevelDimensions | OpenSlideServer/Utilities.cs:46 | the width and height of the requested level of the open slide; the call is recorded |
| Native.Library.Close | OpenSlideServer/Utilities.cs:83 | the handle is released and the call recorded |
| Native.Library.ReadRegion | OpenSlideServer/Utilities.cs:80-82 | the buffer of `4 * w * h` bytes is filled with the region's pixels |
| Native.Library.Save | OpenSlideServer/Utilities.cs:115 | the encoder's bytes for the pixels in the given format, null when it throws; the call is recorded |
| Native.Library.CopyPixels | OpenSlideServer/Utilities.cs:139 | the buffer is filled with the premultiplied frame; the call with its stride is recorded |
| Numbers.ParseInteger | OpenSlideServer/ImageServer.cs:193-199 | a parsed value lies within the type's range; a missing parameter never parses |
| Numbers.ParseAccepts | OpenSlideServer/ImageServer.cs:193-199 | a text that parses holds only white space, signs and digits, with at least one digit: any other character, or no digit, makes the parse throw |
| Numbers.ParseRoundTrip | OpenSlideServer/ImageServer.cs:193-199 | parsing the decimal text of a number gives the number back when it is in range, and throws (overflow) when it is not |
| Numbers.IntToStringInjective | OpenSlideServer/ImageServer.cs:224-228 | different numbers have different decimal text |
| Numbers.IntToStringChars | OpenSlideServer/ImageServer.cs:224-228 | decimal text is digits after a first character that is `-` (exactly for negatives) or a digit, and it ends in a digit |
| Strings.AsciiBytes | OpenSlideServer/Utilities.cs:67 | one byte per character: its code below 128, `?` otherwise |
| Strings.LowerConcat | OpenSlideServer/ImageServer.cs:230 | lower-casing distributes over concatenation |
| Strings.FileNameSuffix | OpenSlideServer/Utilities.cs:59 | the file name is the longest suffix of the path without a separator: the character before it, if any, is a separator |
| Strings.FileNameOfChild | OpenSlideServer/ImageServer.cs:101 | the file name of `dir\name` is `name` when `name` has no separator |

## Left out

- I/O failures of the file system are not modelled. `File.Exists`, `ReadAllBytes`, `ReadAllText` and
  `WriteAllBytes` always succeed, so the 400 that an I/O exception in `SaveFile` would cause does
  not occur in the model.
- `File.ReadAllText`'s encoding detection is a parameter of the model (`decode`).
- The listing functions `Directory.GetDirectories` and `Directory.GetFiles` are parameters. `None`
  stands for any exception they throw.
- The pixel encoders (System.Drawing `Bitmap.Save`, WIC decoding and format conversion) are oracle
  functions of `Native.Codec`. Only the sizes, the order of the calls and the failure of
  `Bitmap.Save` are modelled; the WIC steps never fail in the model.
- Utilities.CreateRaw: the bytes of the premultiplied frame come from an oracle (`Premultiplied`).
  The contract states that the output length is `width * height * 4`, but not the pixel values.
  The stride and the buffer height come from `formatConverter.Size`, which the WIC decoder reports;
  the model takes the converted frame to have the bitmap's size (`width` by `height`). The WIC
  steps (`BitmapDecoder`, `FormatConverter.Initialize`, `CopyPixels`) are taken not to fail; only
  the BMP save can fail.
- The slide decoder is oracle data (`Native.SlideData`): vendor, level count, dimensions and a
  sampler for region pixels. Its file format is not modelled.
- `Marshal.AllocHGlobal`/`FreeHGlobal` become a Dafny array, so the leak when an encoder throws is
  not modelled.
- Utilities.CreateRegion: the requirement `0 <= w, h <= 10000` is the bound its only caller checks
  first. Within it, the 32-bit product `4 * w * h` cannot overflow, so no wrap-around is modelled.
- Numbers.ParseInteger: the model accepts white space, an optional sign and decimal digits in the
  invariant culture. .NET's trailing NUL characters and culture-specific signs are not modelled.
- File paths are compared as exact strings. Windows path normalisation (dropping trailing dots and
  spaces, treating `/` as `\`, resolving `..`) and the file system's case-insensitivity are not
  modelled, so paths that differ as strings but name one file on Windows (a `format=PNG.` request
  against a stored `.png` tile, or a `format` holding `\..\`) are distinct files in the model.
- Numbers.IntToString: `ToString()` uses the current culture's negative sign; the model always
  writes '-', the invariant culture's sign.
- Strings.Lower: `ToLower` is modelled as ASCII case mapping only. Culture-specific and non-ASCII
  mappings are not modelled.
- ImageServer.Get: a query parameter given twice is not modelled, nor two names that differ only in
  case (the collection treats them as one name). `QueryString.Get` would join the values with
  commas, but the model's query is a map from lower-cased names to one value each. Names are
  compared with ASCII case folding, not the invariant culture's full case mapping.
- Console logging, time stamps and `RawUrl` printing have no observable effect on replies and are
  left out.
- Threading (`ThreadPool`), the listener loop, `LoadSettings` and the `prefixes` setting are left
  out. `Settings` keeps the two fields the handlers use.
- The outer `catch` of `HandleRequest` is not modelled. Every handler catches its own exceptions,
  so in the model nothing reaches it.
- Utilities.ImageDetails: `Int64` widths and heights are modelled as unbounded integers, because
  the decoder's values are passed through unchanged.
