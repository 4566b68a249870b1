/**
 * `ImageServer`: the request router and the four handlers (tile, case list, slide list, slide
 * metadata).  A request is its query string, a map from parameter names to values; the reply is
 * written to a `Response` object whose status, headers and body the handlers set in place.
 */
module ImageServer {
  import opened Wrappers
  import opened Numbers
  import opened Strings
  import opened FileStore
  import opened Native
  import opened Utilities

  /** The server configuration: where the slides are, and the cache directory prefix. */
  datatype Settings = Settings(location: string, cache: string)

  /**
   * `QueryString.Get`: the value of a parameter, null when the request does not carry it.  The
   * collection compares parameter names ignoring case, so the query is keyed by lower-cased names
   * and a name is looked up by its lower-cased form.
   */
  function Get(query: map<string, string>, key: string): (r: Option<string>)
    ensures r.Some? <==> Lower(key) in query
    ensures r.Some? ==> r.value == query[Lower(key)]
  {
    if Lower(key) in query then Some(query[Lower(key)]) else None
  }

  /** Two spellings of a parameter name that differ only in case find the same value. */
  lemma GetIgnoresCase(query: map<string, string>, a: string, b: string)
    requires Lower(a) == Lower(b)
    ensures Get(query, a) == Get(query, b)
  {
  }

  // ---------------------------------------------------------------------------------------------
  // The HTTP response

  /** `HttpListenerResponse`, reduced to what the handlers touch. */
  class Response {
    var status: int
    var contentType: Option<string>
    var contentLength: Option<int>
    var body: seq<byte>
    var closed: bool

    /** A fresh response: status 200, no headers, nothing written, still open. */
    predicate Untouched()
      reads this
    {
      status == 200 && contentType.None? && contentLength.None? && body == [] && !closed
    }

    /** An error reply: the status set, nothing written, the response closed. */
    predicate Rejected(code: int)
      reads this
    {
      status == code && contentType.None? && contentLength.None? && body == [] && closed
    }

    /** A success reply: status 200, the content type (if any was set), the length and the body; not closed. */
    predicate Sent(kind: Option<string>, bytes: seq<byte>)
      reads this
    {
      status == 200 && contentType == kind && contentLength == Some(|bytes|) && body == bytes && !closed
    }

    /** The response `reply` describes. */
    predicate Shows(reply: Reply)
      reads this
    {
      match reply
      case Status(code) => Rejected(code)
      case Body(kind, bytes) => Sent(kind, bytes)
    }

    constructor ()
      ensures Untouched()
    {
      status := 200;
      contentType := None;
      contentLength := None;
      body := [];
      closed := false;
    }

    method SetStatusCode(code: int)
      modifies this
      ensures status == code && contentType == old(contentType) && contentLength == old(contentLength)
      ensures body == old(body) && closed == old(closed)
    {
      status := code;
    }

    method SetContentType(kind: string)
      modifies this
      ensures contentType == Some(kind) && status == old(status) && contentLength == old(contentLength)
      ensures body == old(body) && closed == old(closed)
    {
      contentType := Some(kind);
    }

    method SetContentLength(length: int)
      modifies this
      ensures contentLength == Some(length) && status == old(status) && contentType == old(contentType)
      ensures body == old(body) && closed == old(closed)
    {
      contentLength := Some(length);
    }

    /** `OutputStream.Write`: appends to the body; writing to a closed response is not possible. */
    method Write(bytes: seq<byte>)
      requires !closed
      modifies this
      ensures body == old(body) + bytes && status == old(status) && contentType == old(contentType)
      ensures contentLength == old(contentLength) && closed == old(closed)
    {
      body := body + bytes;
    }

    method Close()
      modifies this
      ensures closed && status == old(status) && contentType == old(contentType)
      ensures contentLength == old(contentLength) && body == old(body)
    {
      closed := true;
    }
  }

  /** What a handler answers: an error status on a closed response, or a body sent with status 200. */
  datatype Reply = Status(code: int) | Body(kind: Option<string>, bytes: seq<byte>)

  const OK: int := 200
  const BAD_REQUEST: int := 400
  const NOT_FOUND: int := 404

  /** Set the status and close the response, the handlers' error path. */
  method Reject(response: Response, code: int)
    requires response.Untouched()
    modifies response
    ensures response.Rejected(code)
  {
    response.SetStatusCode(code);
    response.Close();
  }

  /** Status 200, the content type when there is one, the content length, then the body. */
  method Send(response: Response, kind: Option<string>, bytes: seq<byte>)
    requires response.Untouched()
    modifies response
    ensures response.Sent(kind, bytes)
  {
    response.SetStatusCode(OK);
    if kind.Some? {
      response.SetContentType(kind.value);
    }
    response.SetContentLength(|bytes|);
    response.Write(bytes);
  }

  // ---------------------------------------------------------------------------------------------
  // Routing

  datatype Command = ImageCommand | ListCommand | CasesCommand | DetailsCommand

  /** The handler the `command` parameter selects; any other value (or none) selects no handler. */
  function Route(query: map<string, string>): (r: Option<Command>)
    ensures r == Some(ImageCommand) <==> Get(query, "command") == Some("image")
    ensures r == Some(ListCommand) <==> Get(query, "command") == Some("list")
    ensures r == Some(CasesCommand) <==> Get(query, "command") == Some("cases")
    ensures r == Some(DetailsCommand) <==> Get(query, "command") == Some("details")
  {
    var command := Get(query, "command");
    if command == Some("image") then Some(ImageCommand)
    else if command == Some("list") then Some(ListCommand)
    else if command == Some("cases") then Some(CasesCommand)
    else if command == Some("details") then Some(DetailsCommand)
    else None
  }

  /** The slide file a request names: `location\caseID\name`, a missing parameter standing for "". */
  function SlidePath(location: string, caseID: Option<string>, name: Option<string>): string {
    location + "\\" + OrEmpty(caseID) + "\\" + OrEmpty(name)
  }

  // ---------------------------------------------------------------------------------------------
  // Tile requests

  /** The parameters of a tile request once parsed; `format` already defaulted to "PNG". */
  datatype TileQuery = TileQuery(name: Option<string>, caseID: Option<string>, level: int, format: string,
                                 x: int, y: int, w: int, h: int)

  /**
   * The parsing of `HandleImageRequest`: `level`, `w` and `h` as 32-bit and `x`, `y` as 64-bit
   * integers; `None` when any of them is missing or malformed.  A missing format becomes "PNG".
   */
  function ParseTileQuery(query: map<string, string>): (r: Option<TileQuery>)
    ensures r.Some? ==> r.value.format == Get(query, "format").GetOr("PNG")
    ensures r.Some? <==>
              && ParseInt32(Get(query, "level")).Some? && ParseInt64(Get(query, "x")).Some?
              && ParseInt64(Get(query, "y")).Some? && ParseInt32(Get(query, "w")).Some?
              && ParseInt32(Get(query, "h")).Some?
    ensures r.Some? ==>
              && r.value.name == Get(query, "name") && r.value.caseID == Get(query, "caseID")
              && Some(r.value.level) == ParseInt32(Get(query, "level"))
              && Some(r.value.x) == ParseInt64(Get(query, "x")) && Some(r.value.y) == ParseInt64(Get(query, "y"))
              && Some(r.value.w) == ParseInt32(Get(query, "w")) && Some(r.value.h) == ParseInt32(Get(query, "h"))
  {
    var level := ParseInt32(Get(query, "level"));
    var x := ParseInt64(Get(query, "x"));
    var y := ParseInt64(Get(query, "y"));
    var w := ParseInt32(Get(query, "w"));
    var h := ParseInt32(Get(query, "h"));
    if level.None? || x.None? || y.None? || w.None? || h.None? then None
    else
      Some(TileQuery(Get(query, "name"), Get(query, "caseID"), level.value, Get(query, "format").GetOr("PNG"),
                     x.value, y.value, w.value, h.value))
  }

  /** The region bounds the handler accepts; anything else is a bad request. */
  predicate Acceptable(t: TileQuery) {
    !(t.w < 0 || t.h < 0 || t.w > 10000 || t.h > 10000 || t.level < 0)
  }

  /** The part of a cache file name after `&x=`: the coordinates, size and level, then the format. */
  function TileTail(x: int, y: int, w: int, h: int, level: int, format: string): string {
    IntToString(x) + "&y=" + (IntToString(y) + "&w=" + (IntToString(w) + "&h=" + (IntToString(h) + "&level="
      + (IntToString(level) + "." + format))))
  }

  /**
   * The cache file of a tile: `cache + name + "&x=" + x + "&y=" + y + "&w=" + w + "&h=" + h +
   * "&level=" + level + "." + format`, lower-cased as a whole.  The case is not part of it.
   */
  function CachePath(cache: string, t: TileQuery): string {
    Lower(cache + OrEmpty(t.name) + "&x=" + TileTail(t.x, t.y, t.w, t.h, t.level, t.format))
  }

  /** The `Content-Type` of a tile: set only for the four format names, compared case-sensitively. */
  function ContentType(format: string): (r: Option<string>)
    ensures r.Some? <==> format in {"PNG", "RAW", "JPG", "BMP"}
    ensures r == Some("image/png") <==> format == "PNG"
    ensures r == Some("application/octet-stream") <==> format == "RAW"
    ensures r == Some("image/jpeg") <==> format == "JPG"
    ensures r == Some("image/bmp") <==> format == "BMP"
  {
    if format == "PNG" then Some("image/png")
    else if format == "RAW" then Some("application/octet-stream")
    else if format == "JPG" then Some("image/jpeg")
    else if format == "BMP" then Some("image/bmp")
    else None
  }

  /**
   * The reply to a tile request: 400 when the query does not parse or the region is out of
   * bounds; the cached bytes on a cache hit; otherwise 400 when rendering threw, 404 when it
   * gave null, and the rendered bytes when it succeeded.
   */
  function TileReply(files: map<string, seq<byte>>, slides: map<string, SlideData>, c: Codec,
                     settings: Settings, query: map<string, string>): Reply
  {
    match ParseTileQuery(query)
    case None => Status(BAD_REQUEST)
    case Some(t) => ParsedTileReply(files, slides, c, settings, t)
  }

  /** The reply to a tile request once its parameters have parsed to `t`. */
  function ParsedTileReply(files: map<string, seq<byte>>, slides: map<string, SlideData>, c: Codec,
                         settings: Settings, t: TileQuery): Reply
  {
    if !Acceptable(t) then Status(BAD_REQUEST)
    else
      var path := CachePath(settings.cache, t);
      if path in files then Body(ContentType(t.format), files[path])
      else
        match Render(slides, c, SlidePath(settings.location, t.caseID, t.name), t.level, t.x, t.y, t.w, t.h,
                     Some(t.format))
        case Threw => Status(BAD_REQUEST)
        case Done(None) => Status(NOT_FOUND)
        case Done(Some(bytes)) => Body(ContentType(t.format), bytes)
  }

  /** The cache after a tile request: a successfully rendered tile is saved under its cache path. */
  function TileStore(files: map<string, seq<byte>>, slides: map<string, SlideData>, c: Codec,
                     settings: Settings, query: map<string, string>): map<string, seq<byte>>
  {
    match ParseTileQuery(query)
    case None => files
    case Some(t) => ParsedTileStore(files, slides, c, settings, t)
  }

  function ParsedTileStore(files: map<string, seq<byte>>, slides: map<string, SlideData>, c: Codec,
                         settings: Settings, t: TileQuery): map<string, seq<byte>>
  {
    if !Acceptable(t) then files
    else
      var path := CachePath(settings.cache, t);
      if path in files then files
      else
        match Render(slides, c, SlidePath(settings.location, t.caseID, t.name), t.level, t.x, t.y, t.w, t.h,
                     Some(t.format))
        case Done(Some(bytes)) => files[path := bytes]
        case _ => files
  }

  /** The native calls of a tile request: none unless the tile is rendered. */
  function TileCalls(osr: nat, files: map<string, seq<byte>>, slides: map<string, SlideData>, c: Codec,
                     settings: Settings, query: map<string, string>): seq<Call>
  {
    match ParseTileQuery(query)
    case None => []
    case Some(t) => ParsedTileCalls(osr, files, slides, c, settings, t)
  }

  function ParsedTileCalls(osr: nat, files: map<string, seq<byte>>, slides: map<string, SlideData>, c: Codec,
                           settings: Settings, t: TileQuery): seq<Call>
  {
    if !Acceptable(t) || CachePath(settings.cache, t) in files then []
    else RenderCalls(osr, slides, c, SlidePath(settings.location, t.caseID, t.name), t.level, t.x, t.y, t.w, t.h,
                     Some(t.format))
  }

  /** Whether a tile request opens a slide (and so uses up one handle number). */
  predicate TileOpens(files: map<string, seq<byte>>, slides: map<string, SlideData>, settings: Settings,
                      query: map<string, string>)
  {
    match ParseTileQuery(query)
    case None => false
    case Some(t) => ParsedTileOpens(files, slides, settings, t)
  }

  predicate ParsedTileOpens(files: map<string, seq<byte>>, slides: map<string, SlideData>, settings: Settings,
                            t: TileQuery)
  {
    Acceptable(t) && CachePath(settings.cache, t) !in files && SlidePath(settings.location, t.caseID, t.name) in slides
  }

  /** `HandleImageRequest`. */
  method HandleImageRequest(query: map<string, string>, response: Response, settings: Settings,
                            store: Store, lib: Library)
    requires response.Untouched() && lib.Valid()
    modifies response, store, lib
    ensures lib.Valid()
    ensures response.Shows(TileReply(old(store.files), lib.slides, lib.codec, settings, query))
    ensures store.files == TileStore(old(store.files), lib.slides, lib.codec, settings, query)
    ensures lib.trace == old(lib.trace) + TileCalls(old(lib.next), old(store.files), lib.slides, lib.codec, settings, query)
    ensures lib.handles == old(lib.handles)
    ensures lib.next == old(lib.next) + (if TileOpens(old(store.files), lib.slides, settings, query) then 1 else 0)
  {
    var name := Get(query, "name");
    var caseID := Get(query, "caseID");
    var level := ParseInt32(Get(query, "level"));
    var format := Get(query, "format");
    var x := ParseInt64(Get(query, "x"));
    var y := ParseInt64(Get(query, "y"));
    var w := ParseInt32(Get(query, "w"));
    var h := ParseInt32(Get(query, "h"));
    if level.None? || x.None? || y.None? || w.None? || h.None? {
      // the parse throws; the handler's catch answers 400
      Reject(response, BAD_REQUEST);
      return;
    }
    if format.None? {
      format := Some("PNG");
    }
    var t := TileQuery(name, caseID, level.value, format.value, x.value, y.value, w.value, h.value);
    assert ParseTileQuery(query) == Some(t);
    ServeTile(response, settings, store, lib, t);
  }

  /** The half of `HandleImageRequest` after parsing: the bounds test, the cache lookup, the render. */
  method ServeTile(response: Response, settings: Settings, store: Store, lib: Library, t: TileQuery)
    requires response.Untouched() && lib.Valid()
    modifies response, store, lib
    ensures lib.Valid()
    ensures response.Shows(ParsedTileReply(old(store.files), lib.slides, lib.codec, settings, t))
    ensures store.files == ParsedTileStore(old(store.files), lib.slides, lib.codec, settings, t)
    ensures lib.trace == old(lib.trace) + ParsedTileCalls(old(lib.next), old(store.files), lib.slides, lib.codec, settings, t)
    ensures lib.handles == old(lib.handles)
    ensures lib.next == old(lib.next) + (if ParsedTileOpens(old(store.files), lib.slides, settings, t) then 1 else 0)
  {
    if t.w < 0 || t.h < 0 || t.w > 10000 || t.h > 10000 || t.level < 0 {
      Reject(response, BAD_REQUEST);
      return;
    }
    var path := CachePath(settings.cache, t);
    var cached := store.LoadFile(path);
    if cached.Some? {
      Send(response, ContentType(t.format), cached.value);
      return;
    }
    ServeMiss(response, settings, store, lib, t, path);
  }

  /** The cache-miss half of `HandleImageRequest`: render, save on success, answer. */
  method ServeMiss(response: Response, settings: Settings, store: Store, lib: Library, t: TileQuery, path: string)
    requires response.Untouched() && lib.Valid() && Acceptable(t)
    requires path == CachePath(settings.cache, t) && path !in store.files
    modifies response, store, lib
    ensures lib.Valid()
    ensures var outcome := Render(lib.slides, lib.codec, SlidePath(settings.location, t.caseID, t.name),
                                  t.level, t.x, t.y, t.w, t.h, Some(t.format));
            && response.Shows(match outcome
                              case Threw => Status(BAD_REQUEST)
                              case Done(None) => Status(NOT_FOUND)
                              case Done(Some(bytes)) => Body(ContentType(t.format), bytes))
            && store.files == (if outcome.Done? && outcome.result.Some? then old(store.files)[path := outcome.result.value]
                               else old(store.files))
    ensures lib.trace == old(lib.trace) + RenderCalls(old(lib.next), lib.slides, lib.codec,
                                                      SlidePath(settings.location, t.caseID, t.name),
                                                      t.level, t.x, t.y, t.w, t.h, Some(t.format))
    ensures lib.handles == old(lib.handles)
    ensures lib.next == old(lib.next) + (if SlidePath(settings.location, t.caseID, t.name) in lib.slides then 1 else 0)
  {
    var outcome := CreateRegion(lib, settings.location + "\\" + OrEmpty(t.caseID) + "\\" + OrEmpty(t.name),
                                t.level, t.x, t.y, t.w, t.h, Some(t.format));
    if outcome.Threw? {
      Reject(response, BAD_REQUEST);
      return;
    }
    var bytes := outcome.result;
    if bytes.Some? {
      store.SaveFile(path, bytes.value);
    }
    if bytes.None? {
      Reject(response, NOT_FOUND);
    } else {
      Send(response, ContentType(t.format), bytes.value);
    }
  }

  // ---------------------------------------------------------------------------------------------
  // Properties of tile requests

  /** A tile is answered with a content type exactly when its format names one of the encoders. */
  lemma ContentTypeMatchesEncoder(format: string)
    ensures ContentType(format).Some? <==> EncoderFor(Some(format)).Some?
  {
  }

  /** A rendered tile is always sent with a content type: only the four named formats render. */
  lemma RenderedTileHasType(slides: map<string, SlideData>, c: Codec, path: string, level: int,
                            x: int, y: int, w: nat, h: nat, format: string)
    requires Render(slides, c, path, level, x, y, w, h, Some(format)).Done?
    requires Render(slides, c, path, level, x, y, w, h, Some(format)).result.Some?
    ensures ContentType(format).Some?
  {
    ContentTypeMatchesEncoder(format);
  }

  /**
   * A tile whose cache path is already stored is sent from the store with the format's content
   * type; the store does not change and no native call is made.
   */
  lemma CacheHitServesStored(files: map<string, seq<byte>>, slides: map<string, SlideData>, c: Codec,
                             settings: Settings, query: map<string, string>, osr: nat)
    requires ParseTileQuery(query).Some? && Acceptable(ParseTileQuery(query).value)
    requires CachePath(settings.cache, ParseTileQuery(query).value) in files
    ensures var t := ParseTileQuery(query).value;
      && TileReply(files, slides, c, settings, query) == Body(ContentType(t.format), files[CachePath(settings.cache, t)])
      && TileStore(files, slides, c, settings, query) == files
      && TileCalls(osr, files, slides, c, settings, query) == []
      && !TileOpens(files, slides, settings, query)
  {
  }

  /**
   * Repeating a tile request after it succeeded is answered from the cache with the same bytes,
   * without any native call and without changing the cache again.
   */
  lemma RepeatFromCache(files: map<string, seq<byte>>, slides: map<string, SlideData>, c: Codec,
                           settings: Settings, query: map<string, string>, osr: nat)
    requires TileReply(files, slides, c, settings, query).Body?
    ensures var saved := TileStore(files, slides, c, settings, query);
            && TileReply(saved, slides, c, settings, query) == TileReply(files, slides, c, settings, query)
            && TileStore(saved, slides, c, settings, query) == saved
            && TileCalls(osr, saved, slides, c, settings, query) == []
  {
    var t := ParseTileQuery(query).value;
    var path := CachePath(settings.cache, t);
    var saved := TileStore(files, slides, c, settings, query);
    assert path in saved;
  }

  /** Parsing and bounds rejection never touches the cache or the slides. */
  lemma RejectedBeforeRender(files: map<string, seq<byte>>, slides: map<string, SlideData>, c: Codec,
                             settings: Settings, query: map<string, string>, osr: nat)
    requires ParseTileQuery(query).None? || !Acceptable(ParseTileQuery(query).value)
    ensures TileReply(files, slides, c, settings, query) == Status(BAD_REQUEST)
    ensures TileStore(files, slides, c, settings, query) == files
    ensures TileCalls(osr, files, slides, c, settings, query) == []
  {
  }

  /** The query string of a tile request for `t`, with its numbers written as decimal text. */
  function TileRequest(t: TileQuery): map<string, string> {
    var q := map["command" := "image", "level" := IntToString(t.level), "format" := t.format,
                 "x" := IntToString(t.x), "y" := IntToString(t.y), "w" := IntToString(t.w), "h" := IntToString(t.h)];
    var q' := if t.name.Some? then q["name" := t.name.value] else q;
    if t.caseID.Some? then q'["caseid" := t.caseID.value] else q'
  }

  /** The lower-cased names of the tile parameters, as the query is keyed. */
  lemma TileParameterNames()
    ensures Lower("level") == "level" && Lower("x") == "x" && Lower("y") == "y"
    ensures Lower("w") == "w" && Lower("h") == "h" && Lower("name") == "name"
    ensures Lower("caseID") == "caseid" && Lower("format") == "format"
  {
    assert Lower("level") == "level" && Lower("x") == "x" && Lower("y") == "y";
    assert Lower("w") == "w" && Lower("h") == "h" && Lower("name") == "name";
    assert Lower("caseID") == "caseid" && Lower("format") == "format";
  }

  /** Every parameter set in range produces a query that parses back to it. */
  lemma ParseTileRequest(t: TileQuery)
    requires INT32_MIN <= t.level <= INT32_MAX && INT32_MIN <= t.w <= INT32_MAX && INT32_MIN <= t.h <= INT32_MAX
    requires INT64_MIN <= t.x <= INT64_MAX && INT64_MIN <= t.y <= INT64_MAX
    ensures ParseTileQuery(TileRequest(t)) == Some(t)
  {
    var q := TileRequest(t);
    TileParameterNames();
    assert Get(q, "level") == Some(IntToString(t.level));
    assert Get(q, "x") == Some(IntToString(t.x));
    assert Get(q, "y") == Some(IntToString(t.y));
    assert Get(q, "w") == Some(IntToString(t.w));
    assert Get(q, "h") == Some(IntToString(t.h));
    assert Get(q, "name") == t.name;
    assert Get(q, "caseID") == t.caseID;
    assert Get(q, "format") == Some(t.format);
    ParseRoundTrip(t.level, INT32_MIN, INT32_MAX);
    ParseRoundTrip(t.x, INT64_MIN, INT64_MAX);
    ParseRoundTrip(t.y, INT64_MIN, INT64_MAX);
    ParseRoundTrip(t.w, INT32_MIN, INT32_MAX);
    ParseRoundTrip(t.h, INT32_MIN, INT32_MAX);
  }

  /**
   * A number parameter holding a character that is not white space, a sign or a digit makes the
   * parse throw, and the request is answered 400 without touching the cache or the slides.
   */
  lemma MalformedNumberRejected(files: map<string, seq<byte>>, slides: map<string, SlideData>, c: Codec,
                                settings: Settings, query: map<string, string>, key: string, i: int)
    requires key == "level" || key == "x" || key == "y" || key == "w" || key == "h"
    requires Get(query, key).Some? && 0 <= i < |Get(query, key).value| && !NumberChar(Get(query, key).value[i])
    ensures ParseTileQuery(query).None?
    ensures TileReply(files, slides, c, settings, query) == Status(BAD_REQUEST)
    ensures TileStore(files, slides, c, settings, query) == files
  {
    if ParseTileQuery(query).Some? {
      if key == "x" || key == "y" {
        ParseAccepts(Get(query, key).value, INT64_MIN, INT64_MAX);
      } else {
        ParseAccepts(Get(query, key).value, INT32_MIN, INT32_MAX);
      }
      assert false;
    }
  }

  /**
   * Format names are compared case-sensitively but the cache path is lower-cased: a `png` tile has
   * the cache path of the `PNG` tile; a hit is sent with no content type, a miss is a 404.
   */
  lemma LowerCasePngFormat(files: map<string, seq<byte>>, slides: map<string, SlideData>, c: Codec,
                           settings: Settings, query: map<string, string>)
    requires ParseTileQuery(query).Some? && ParseTileQuery(query).value.format == "png"
    requires Acceptable(ParseTileQuery(query).value)
    ensures var t := ParseTileQuery(query).value;
            && CachePath(settings.cache, t) == CachePath(settings.cache, t.(format := "PNG"))
            && TileReply(files, slides, c, settings, query)
               == if CachePath(settings.cache, t) in files then Body(None, files[CachePath(settings.cache, t)])
                  else Status(NOT_FOUND)
  {
    var t := ParseTileQuery(query).value;
    assert Lower("png") == Lower("PNG");
    CachePathInjective(settings.cache, t, t.(format := "PNG"));
  }

  /** Two tiles of one slide that differ only in their case directory share one cache path. */
  lemma CacheSharedAcrossCases(cache: string, t: TileQuery, otherCase: Option<string>)
    ensures CachePath(cache, t.(caseID := otherCase)) == CachePath(cache, t)
  {
  }

  /** A separator whose first character occurs in neither prefix splits both texts at the same place. */
  lemma SplitAtSeparator(a: string, b: string, sep: string, s: string, t: string)
    requires |sep| > 0
    requires forall i :: 0 <= i < |a| ==> a[i] != sep[0]
    requires forall i :: 0 <= i < |b| ==> b[i] != sep[0]
    ensures a + sep + s == b + sep + t <==> a == b && s == t
  {
    if a + sep + s == b + sep + t {
      var u := a + sep + s;
      assert u[|a|] == sep[0];
      assert forall i :: 0 <= i < |a| ==> u[i] != sep[0];
      assert u == b + sep + t;
      assert u[|b|] == sep[0];
      assert forall i :: 0 <= i < |b| ==> u[i] != sep[0];
      assert |a| == |b|;
      assert a == u[..|a|] == b;
      assert s == u[|a| + |sep|..] == t;
    }
  }

  /** Decimal text holds neither '&' nor '.'. */
  lemma NumberHasNoSeparator(n: int)
    ensures var s := IntToString(n);
      forall i :: 0 <= i < |s| ==> s[i] != '&' && s[i] != '.'
  {
    IntToStringChars(n);
  }

  /** Peel one number and the separator after it off two texts. */
  lemma SplitAtNumber(m: int, n: int, sep: string, s: string, t: string)
    requires |sep| > 0 && (sep[0] == '&' || sep[0] == '.')
    ensures IntToString(m) + sep + s == IntToString(n) + sep + t <==> m == n && s == t
  {
    NumberHasNoSeparator(m);
    NumberHasNoSeparator(n);
    SplitAtSeparator(IntToString(m), IntToString(n), sep, s, t);
    IntToStringInjective(m, n);
  }

  /** The tail of a cache file name determines the coordinates, the size, the level and the format. */
  lemma TileTailInjective(x: int, y: int, w: int, h: int, level: int, format: string,
                          x': int, y': int, w': int, h': int, level': int, format': string)
    ensures TileTail(x, y, w, h, level, format) == TileTail(x', y', w', h', level', format')
            <==> x == x' && y == y' && w == w' && h == h' && level == level' && format == format'
  {
    var r4, r4' := IntToString(level) + "." + format, IntToString(level') + "." + format';
    var r3, r3' := IntToString(h) + "&level=" + r4, IntToString(h') + "&level=" + r4';
    var r2, r2' := IntToString(w) + "&h=" + r3, IntToString(w') + "&h=" + r3';
    var r1, r1' := IntToString(y) + "&w=" + r2, IntToString(y') + "&w=" + r2';
    SplitAtNumber(x, x', "&y=", r1, r1');
    SplitAtNumber(y, y', "&w=", r2, r2');
    SplitAtNumber(w, w', "&h=", r3, r3');
    SplitAtNumber(h, h', "&level=", r4, r4');
    SplitAtNumber(level, level', ".", format, format');
  }

  /** Lower-casing text that starts with a number and a lower-case separator lower-cases only the rest. */
  lemma LowerAfterNumber(n: int, sep: string, rest: string)
    requires Lower(sep) == sep
    ensures Lower(IntToString(n) + sep + rest) == IntToString(n) + sep + Lower(rest)
  {
    LowerConcat(IntToString(n) + sep, rest);
    LowerConcat(IntToString(n), sep);
    LowerIntToString(n);
  }

  lemma LowerTileTail(x: int, y: int, w: int, h: int, level: int, format: string)
    ensures Lower(TileTail(x, y, w, h, level, format)) == TileTail(x, y, w, h, level, Lower(format))
  {
    assert Lower("&y=") == "&y=";
    assert Lower("&w=") == "&w=";
    assert Lower("&h=") == "&h=";
    assert Lower("&level=") == "&level=";
    assert Lower(".") == ".";
    var r4 := IntToString(level) + "." + format;
    var r3 := IntToString(h) + "&level=" + r4;
    var r2 := IntToString(w) + "&h=" + r3;
    var r1 := IntToString(y) + "&w=" + r2;
    LowerAfterNumber(level, ".", format);
    LowerAfterNumber(h, "&level=", r4);
    LowerAfterNumber(w, "&h=", r3);
    LowerAfterNumber(y, "&w=", r2);
    LowerAfterNumber(x, "&y=", r1);
  }

  /**
   * Within one slide name, cache paths of different tiles are different strings: two requests
   * have the same cache path exactly when they ask for the same region at the same level, in formats that
   * agree up to case.
   */
  lemma CachePathInjective(cache: string, t: TileQuery, t': TileQuery)
    requires t.name == t'.name
    ensures CachePath(cache, t) == CachePath(cache, t')
            <==> t.x == t'.x && t.y == t'.y && t.w == t'.w && t.h == t'.h && t.level == t'.level
                 && Lower(t.format) == Lower(t'.format)
  {
    var head := cache + OrEmpty(t.name) + "&x=";
    var tail := TileTail(t.x, t.y, t.w, t.h, t.level, t.format);
    var tail' := TileTail(t'.x, t'.y, t'.w, t'.h, t'.level, t'.format);
    LowerConcat(head, tail);
    LowerConcat(head, tail');
    LowerTileTail(t.x, t.y, t.w, t.h, t.level, t.format);
    LowerTileTail(t'.x, t'.y, t'.w, t'.h, t'.level, t'.format);
    var low := TileTail(t.x, t.y, t.w, t.h, t.level, Lower(t.format));
    var low' := TileTail(t'.x, t'.y, t'.w, t'.h, t'.level, Lower(t'.format));
    assert CachePath(cache, t) == Lower(head) + low;
    assert CachePath(cache, t') == Lower(head) + low';
    if Lower(head) + low == Lower(head) + low' {
      assert low == (Lower(head) + low)[|Lower(head)|..];
      assert low' == (Lower(head) + low')[|Lower(head)|..];
    }
    TileTailInjective(t.x, t.y, t.w, t.h, t.level, Lower(t.format), t'.x, t'.y, t'.w, t'.h, t'.level, Lower(t'.format));
  }

  // ---------------------------------------------------------------------------------------------
  // Listings

  /** One entry of a listing: the file name of `path`, quoted and indented. */
  function NameEntry(path: string): string {
    "\t\t\"" + FileName(path) + "\""
  }

  function NameEntries(paths: seq<string>): seq<string> {
    seq(|paths|, i requires 0 <= i < |paths| => NameEntry(paths[i]))
  }

  const NAME_SEPARATOR: string := ", \r\n"

  function ListingOpening(key: string): string {
    "{\r\n\t\"" + key + "\":[\r\n"
  }

  /** The listing document: `{"key":[ ... ]}` with one quoted file name per path, in order. */
  function Listing(key: string, paths: seq<string>): string {
    ListingOpening(key) + Join(NameEntries(paths), NAME_SEPARATOR) + "\r\n\t]\r\n}"
  }

  /** The loop `HandleCasesRequest` and `HandleListRequest` share: build the listing of `paths`. */
  method BuildListing(key: string, paths: seq<string>) returns (json: string)
    ensures json == Listing(key, paths)
  {
    ghost var entries := NameEntries(paths);
    json := ListingOpening(key);
    for i := 0 to |paths|
      invariant json == ListingOpening(key) + JoinedPrefix(entries, i, NAME_SEPARATOR)
    {
      JoinedPrefixStep(ListingOpening(key), entries, i, NAME_SEPARATOR);
      json := json + ("\t\t\"" + FileName(paths[i]) + "\"" + (if i < |paths| - 1 then NAME_SEPARATOR else ""));
    }
    JoinedPrefixComplete(entries, NAME_SEPARATOR);
    json := json + "\r\n\t]\r\n}";
  }

  /** The reply to a listing request: 400 when the directory cannot be listed, else the JSON document. */
  function ListingReply(key: string, listing: Option<seq<string>>): Reply {
    match listing
    case None => Status(BAD_REQUEST)
    case Some(paths) => Body(Some("application/json"), AsciiBytes(Listing(key, paths)))
  }

  /** The directory of a case's slides, as `HandleListRequest` lists it. */
  function CaseDirectory(location: string, caseID: Option<string>): string {
    location + "\\" + OrEmpty(caseID) + "\\"
  }

  /**
   * `HandleCasesRequest`: list the sub-directories of the slide location.  `directories` stands
   * for `Directory.GetDirectories`; `None` is the exception it throws.
   */
  method HandleCasesRequest(response: Response, settings: Settings, directories: string -> Option<seq<string>>)
    requires response.Untouched()
    modifies response
    ensures response.Shows(ListingReply("Cases", directories(settings.location)))
  {
    var dirs := directories(settings.location);
    if dirs.None? {
      Reject(response, BAD_REQUEST);
      return;
    }
    var json := BuildListing("Cases", dirs.value);
    Send(response, Some("application/json"), AsciiBytes(json));
  }

  /**
   * `HandleListRequest`: list the files of one case's directory.  `files` stands for
   * `Directory.GetFiles`; `None` is the exception it throws.
   */
  method HandleListRequest(query: map<string, string>, response: Response, settings: Settings,
                           files: string -> Option<seq<string>>)
    requires response.Untouched()
    modifies response
    ensures response.Shows(ListingReply("Images", files(CaseDirectory(settings.location, Get(query, "caseID")))))
  {
    var caseID := Get(query, "caseID");
    var listing := files(settings.location + "\\" + OrEmpty(caseID) + "\\");
    if listing.None? {
      Reject(response, BAD_REQUEST);
      return;
    }
    var json := BuildListing("Images", listing.value);
    Send(response, Some("application/json"), AsciiBytes(json));
  }

  /** The files of a directory are listed by their own names. */
  lemma ListingNamesChildren(dir: string, names: seq<string>)
    requires forall i :: 0 <= i < |names| ==> forall j :: 0 <= j < |names[i]| ==> !IsSeparator(names[i][j])
    ensures NameEntries(seq(|names|, i requires 0 <= i < |names| => dir + "\\" + names[i]))
            == seq(|names|, i requires 0 <= i < |names| => "\t\t\"" + names[i] + "\"")
  {
    forall i | 0 <= i < |names|
      ensures FileName(dir + "\\" + names[i]) == names[i]
    {
      FileNameOfChild(dir, names[i]);
    }
  }

  /**
   * File names cannot hold a double quote, so a listing holds two quotes around its key and two
   * per entry: exactly one entry per path.
   */
  lemma ListingQuotes(key: string, paths: seq<string>)
    requires forall j :: 0 <= j < |key| ==> key[j] != '"'
    requires forall i :: 0 <= i < |paths| ==> forall j :: 0 <= j < |FileName(paths[i])| ==> FileName(paths[i])[j] != '"'
    ensures Count('"', Listing(key, paths)) == 2 + 2 * |paths|
  {
    var entries := NameEntries(paths);
    forall i | 0 <= i < |entries|
      ensures Count('"', entries[i]) == 2
    {
      NameEntryQuotes(paths[i]);
    }
    NoCount('"', NAME_SEPARATOR);
    JoinCount('"', entries, NAME_SEPARATOR, 2);
    var front, back := "{\r\n\t\"", "\":[\r\n";
    assert front == "{\r\n\t" + "\"";
    assert back == "\"" + ":[\r\n";
    assert Count('"', "\"") == 1;
    NoCount('"', "{\r\n\t");
    NoCount('"', ":[\r\n");
    NoCount('"', "\r\n\t]\r\n}");
    NoCount('"', key);
    CountConcat('"', "{\r\n\t", "\"");
    CountConcat('"', "\"", ":[\r\n");
    CountConcat('"', front, key);
    CountConcat('"', front + key, back);
    CountConcat('"', ListingOpening(key), Join(entries, NAME_SEPARATOR));
    CountConcat('"', ListingOpening(key) + Join(entries, NAME_SEPARATOR), "\r\n\t]\r\n}");
  }

  lemma NameEntryQuotes(path: string)
    requires forall j :: 0 <= j < |FileName(path)| ==> FileName(path)[j] != '"'
    ensures Count('"', NameEntry(path)) == 2
  {
    NoCount('"', "\t\t");
    NoCount('"', FileName(path));
    assert Count('"', "\"") == 1;
    CountConcat('"', "\t\t", "\"");
    CountConcat('"', "\t\t\"", FileName(path));
    CountConcat('"', "\t\t\"" + FileName(path), "\"");
  }

  // ---------------------------------------------------------------------------------------------
  // Metadata requests

  /** The reply to a metadata request: what `ImageDetails` does with the named slide. */
  function DetailsReply(slides: map<string, SlideData>, files: map<string, seq<byte>>, decode: seq<byte> -> string,
                        location: string, query: map<string, string>): Reply
  {
    var path := SlidePath(location, Get(query, "caseID"), Get(query, "name"));
    if path !in slides then Status(NOT_FOUND)
    else if slides[path].levelCount <= 0 then Status(BAD_REQUEST)
    else Body(Some("application/json"), Details(slides[path], files, path, decode))
  }

  /** `HandleDetailsRequest`: 404 for a slide that does not open, 400 when reading it throws. */
  method HandleDetailsRequest(query: map<string, string>, response: Response, settings: Settings,
                              store: Store, lib: Library, decode: seq<byte> -> string)
    requires response.Untouched() && lib.Valid()
    modifies response, lib
    ensures lib.Valid()
    ensures response.Shows(DetailsReply(lib.slides, store.files, decode, settings.location, query))
    ensures var path := SlidePath(settings.location, Get(query, "caseID"), Get(query, "name"));
            && lib.trace == old(lib.trace) + (if path in lib.slides then DetailsCalls(old(lib.next), path, lib.slides[path].levelCount)
                                              else [Call.Open(path)])
            && lib.next == old(lib.next) + (if path in lib.slides then 1 else 0)
            && lib.handles == (if path in lib.slides && lib.slides[path].levelCount < 0
                               then old(lib.handles)[old(lib.next) := path] else old(lib.handles))
  {
    var name := Get(query, "name");
    var caseID := Get(query, "caseID");
    var bytes := ImageDetails(lib, store, settings.location + "\\" + OrEmpty(caseID) + "\\" + OrEmpty(name), decode);
    if bytes.Threw? {
      Reject(response, BAD_REQUEST);
    } else if bytes.result.None? {
      Reject(response, NOT_FOUND);
    } else {
      Send(response, Some("application/json"), bytes.result.value);
    }
  }

  // ---------------------------------------------------------------------------------------------
  // The router

  /**
   * `HandleRequest`: dispatch on the `command` parameter.  A request without a known command is
   * left unanswered: the response, the cache and the native library are not touched.
   */
  method HandleRequest(query: map<string, string>, response: Response, settings: Settings, store: Store,
                       lib: Library, decode: seq<byte> -> string, directories: string -> Option<seq<string>>,
                       files: string -> Option<seq<string>>)
    requires response.Untouched() && lib.Valid()
    modifies response, store, lib
    ensures lib.Valid()
    ensures Route(query).None? ==>
              response.Untouched() && store.files == old(store.files)
              && lib.trace == old(lib.trace) && lib.handles == old(lib.handles) && lib.next == old(lib.next)
    ensures Route(query) == Some(ImageCommand) ==>
              response.Shows(TileReply(old(store.files), lib.slides, lib.codec, settings, query))
              && store.files == TileStore(old(store.files), lib.slides, lib.codec, settings, query)
              && lib.trace == old(lib.trace) + TileCalls(old(lib.next), old(store.files), lib.slides, lib.codec, settings, query)
              && lib.handles == old(lib.handles)
              && lib.next == old(lib.next) + (if TileOpens(old(store.files), lib.slides, settings, query) then 1 else 0)
    ensures Route(query) == Some(ListCommand) ==>
              response.Shows(ListingReply("Images", files(CaseDirectory(settings.location, Get(query, "caseID")))))
              && store.files == old(store.files)
              && lib.trace == old(lib.trace) && lib.handles == old(lib.handles) && lib.next == old(lib.next)
    ensures Route(query) == Some(CasesCommand) ==>
              response.Shows(ListingReply("Cases", directories(settings.location)))
              && store.files == old(store.files)
              && lib.trace == old(lib.trace) && lib.handles == old(lib.handles) && lib.next == old(lib.next)
    ensures Route(query) == Some(DetailsCommand) ==>
              response.Shows(DetailsReply(lib.slides, old(store.files), decode, settings.location, query))
              && store.files == old(store.files)
              && var path := SlidePath(settings.location, Get(query, "caseID"), Get(query, "name"));
              && lib.trace == old(lib.trace) + (if path in lib.slides then DetailsCalls(old(lib.next), path, lib.slides[path].levelCount)
                                                else [Call.Open(path)])
              && lib.next == old(lib.next) + (if path in lib.slides then 1 else 0)
              && lib.handles == (if path in lib.slides && lib.slides[path].levelCount < 0
                                 then old(lib.handles)[old(lib.next) := path] else old(lib.handles))
  {
    var command := Get(query, "command");
    if command == Some("image") {
      HandleImageRequest(query, response, settings, store, lib);
    } else if command == Some("list") {
      HandleListRequest(query, response, settings, files);
    } else if command == Some("cases") {
      HandleCasesRequest(response, settings, directories);
    } else if command == Some("details") {
      HandleDetailsRequest(query, response, settings, store, lib, decode);
    }
  }
}
