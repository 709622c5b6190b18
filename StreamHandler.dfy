/**
 * The request handler of the CBBC stream relay: a CORS preflight answer, a
 * debug page, the `/stream.m3u8` endpoint (a looping playlist of a fallback
 * video at night, the proxied live playlist by day, a one-entry fallback
 * playlist when the live stream cannot be had) and a 404 for everything else.
 *
 * The clock and the network are inputs: the current UK hour is a parameter,
 * and the outcome of fetching the live playlist is an `Upstream` value that
 * the handler consults only on the path where it fetches.
 */
module StreamHandler {
  import opened Wrappers
  import opened Schedule
  import Hls
  import Lines

  /** The video played at night and whenever the live stream is unavailable. */
  const FALLBACK_VIDEO := "https://files.catbox.moe/hem4g0.mp4"

  const STREAM_PATH := "/stream.m3u8"
  const NOT_FOUND := "Not Found"

  const ALLOW_ORIGIN := "Access-Control-Allow-Origin"
  const ALLOW_METHODS := "Access-Control-Allow-Methods"
  const ALLOW_HEADERS := "Access-Control-Allow-Headers"
  const CONTENT_TYPE := "Content-Type"
  const CACHE_CONTROL := "Cache-Control"

  const HTML_TYPE := "text/html; charset=utf-8"
  const HLS_TYPE := "application/vnd.apple.mpegurl"
  const PLAIN_TYPE := "text/plain"
  const NO_CACHE := "no-cache, no-store, must-revalidate"

  /** The headers every response starts from. */
  const CORS_HEADERS: map<string, string> :=
    map[ALLOW_ORIGIN := "*", ALLOW_METHODS := "GET, POST, OPTIONS", ALLOW_HEADERS := CONTENT_TYPE]

  /** What the handler reads from a request: its method (verb), its URL's path and its `mode` query parameter. */
  datatype Request = Request(verb: string, path: string, modeParam: Option<string>)

  /**
   * How fetching the upstream live playlist turned out: a response with its status, its status
   * text and its body text (None when reading the body failed), or a failure
   * before any response arrived.
   */
  datatype Upstream = Responded(status: int, statusText: string, text: Option<string>) | Threw

  /** A response body: none, a text, or the HTML debug page reporting the hour and the mode. */
  datatype Body = Null | Text(content: string) | DebugPage(hour: Hour, mode: Mode)

  datatype Response = Response(status: int, body: Body, headers: map<string, string>)

  /** The Fetch standard's "ok status": a status in the range 200 to 299. */
  predicate IsOkStatus(status: int) {
    200 <= status <= 299
  }

  /** The live playlist, when the upstream answered with an ok status and its body could be read. */
  function LiveContent(upstream: Upstream): Option<string> {
    if upstream.Responded? && IsOkStatus(upstream.status) && upstream.text.Some? then Some(upstream.text.value)
    else None
  }

  /** Three one-hour entries of a video, with no end tag, so that players keep reloading it. */
  function NightPlaylist(video: string): string {
    Hls.Playlist([video, video, video], false)
  }

  /** A single one-hour entry of a video, closed by the end tag. */
  function FallbackPlaylist(video: string): string {
    Hls.Playlist([video], true)
  }

  /** Whether handling the request fetches the upstream live playlist: only a day-mode request for the stream does. */
  predicate FetchesUpstream(req: Request, hour: Hour) {
    req.verb != "OPTIONS" && req.path == STREAM_PATH
    && SelectMode(req.modeParam, hour) == Day
  }

  /** The handler: the response to a request at a given UK hour, given how fetching the live stream turns out. */
  function Handle(req: Request, hour: Hour, upstream: Upstream): (r: Response)
    ensures forall name :: name in CORS_HEADERS ==> name in r.headers && r.headers[name] == CORS_HEADERS[name]
    ensures r.status == 404 <==> req.verb != "OPTIONS" && req.path !in {"/", "", STREAM_PATH}
  {
    if req.verb == "OPTIONS" then
      Response(200, Null, CORS_HEADERS)
    else
      var mode := SelectMode(req.modeParam, hour);
      if req.path == "/" || req.path == "" then
        Response(200, DebugPage(hour, mode), CORS_HEADERS[CONTENT_TYPE := HTML_TYPE])
      else if req.path == STREAM_PATH then
        if mode == Night then
          Response(200, Text(NightPlaylist(FALLBACK_VIDEO)), CORS_HEADERS[CONTENT_TYPE := HLS_TYPE][CACHE_CONTROL := NO_CACHE])
        else
          match LiveContent(upstream)
          case Some(content) =>
            Response(200, Text(content), CORS_HEADERS[CONTENT_TYPE := HLS_TYPE][CACHE_CONTROL := NO_CACHE])
          case None =>
            Response(200, Text(FallbackPlaylist(FALLBACK_VIDEO)), CORS_HEADERS[CONTENT_TYPE := HLS_TYPE])
      else
        Response(404, Text(NOT_FOUND), CORS_HEADERS[CONTENT_TYPE := PLAIN_TYPE])
  }

  /** An OPTIONS request, whatever its path and mode, gets an empty 200 with exactly the three CORS headers. */
  lemma Preflight(req: Request, hour: Hour, upstream: Upstream)
    requires req.verb == "OPTIONS"
    ensures Handle(req, hour, upstream) == Response(200, Null, CORS_HEADERS)
    ensures Handle(req, hour, upstream).headers.Keys == {ALLOW_ORIGIN, ALLOW_METHODS, ALLOW_HEADERS}
    ensures |Handle(req, hour, upstream).headers| == 3
  {
    assert CORS_HEADERS.Keys == {ALLOW_ORIGIN, ALLOW_METHODS, ALLOW_HEADERS};
  }

  /** Every response, whichever branch produced it, allows any origin. */
  lemma AnyOriginAllowed(req: Request, hour: Hour, upstream: Upstream)
    ensures ALLOW_ORIGIN in Handle(req, hour, upstream).headers
    ensures Handle(req, hour, upstream).headers[ALLOW_ORIGIN] == "*"
  {
  }

  /** `/` and the empty path serve the HTML debug page, which reports the hour and the mode in force. */
  lemma DebugPageServed(req: Request, hour: Hour, upstream: Upstream)
    requires req.verb != "OPTIONS" && (req.path == "/" || req.path == "")
    ensures Handle(req, hour, upstream).status == 200
    ensures Handle(req, hour, upstream).body == DebugPage(hour, SelectMode(req.modeParam, hour))
    ensures Handle(req, hour, upstream).headers == CORS_HEADERS[CONTENT_TYPE := HTML_TYPE]
  {
  }

  /**
   * At night `/stream.m3u8` is the looping playlist, marked not cacheable, and
   * the response does not depend on the live stream at all. Read line by line,
   * its body opens with `#EXTM3U`, names FALLBACK_VIDEO three times, each time
   * right after `#EXTINF:3600.0,`, and has no `#EXT-X-ENDLIST`.
   */
  lemma NightStream(req: Request, hour: Hour, upstream: Upstream, other: Upstream)
    requires req.verb != "OPTIONS" && req.path == STREAM_PATH
    requires SelectMode(req.modeParam, hour) == Night
    ensures Handle(req, hour, upstream) == Handle(req, hour, other)
    ensures Handle(req, hour, upstream) ==
            Response(200, Text(NightPlaylist(FALLBACK_VIDEO)), CORS_HEADERS[CONTENT_TYPE := HLS_TYPE][CACHE_CONTROL := NO_CACHE])
    ensures Handle(req, hour, upstream).headers[CACHE_CONTROL] == NO_CACHE
    ensures var lines := Lines.Split(Handle(req, hour, upstream).body.content);
            && lines[0] == Hls.EXTM3U
            && multiset(lines)[FALLBACK_VIDEO] == 3
            && (forall i :: 0 <= i < |lines| && lines[i] == FALLBACK_VIDEO ==> i > 0 && lines[i - 1] == Hls.EXTINF)
            && Hls.ENDLIST !in lines
  {
    FallbackVideoIsSegmentUri();
    NightPlaylistShape(FALLBACK_VIDEO);
  }

  /**
   * The night playlist of a segment URI opens with `#EXTM3U`, names the URI on
   * three lines, each right after `#EXTINF:3600.0,`, and has no `#EXT-X-ENDLIST`.
   */
  lemma NightPlaylistShape(video: string)
    requires Hls.IsSegmentUri(video)
    ensures NightPlaylist(video)[..|Hls.EXTM3U|] == Hls.EXTM3U
    ensures Lines.Split(NightPlaylist(video))[0] == Hls.EXTM3U
    ensures multiset(Lines.Split(NightPlaylist(video)))[video] == 3
    ensures forall i :: 0 <= i < |Lines.Split(NightPlaylist(video))| && Lines.Split(NightPlaylist(video))[i] == video ==>
              i > 0 && Lines.Split(NightPlaylist(video))[i - 1] == Hls.EXTINF
    ensures Hls.ENDLIST !in Lines.Split(NightPlaylist(video))
  {
    var uris := [video, video, video];
    Hls.PlaylistOpens(uris, false);
    Hls.PlaylistRead(uris, false);
    NightLines(video);
  }

  /** The lines of the night playlist, before they are joined into its text. */
  lemma NightLines(video: string)
    requires Hls.IsSegmentUri(video)
    ensures multiset(Hls.PlaylistLines([video, video, video], false))[video] == 3
    ensures forall i :: 0 <= i < |Hls.PlaylistLines([video, video, video], false)| &&
                        Hls.PlaylistLines([video, video, video], false)[i] == video ==>
              i > 0 && Hls.PlaylistLines([video, video, video], false)[i - 1] == Hls.EXTINF
    ensures Hls.ENDLIST !in Hls.PlaylistLines([video, video, video], false)
  {
    var uris := [video, video, video];
    Hls.PlaylistCount(uris, false, video);
    assert multiset(uris)[video] == 3;
    Hls.PlaylistUrisAnnounced(uris, false);
    Hls.PlaylistEndList(uris, false);
  }

  /** By day, a live playlist that arrived with an ok status is relayed unchanged, marked not cacheable. */
  lemma DayLiveRelayed(req: Request, hour: Hour, status: int, statusText: string, content: string)
    requires req.verb != "OPTIONS" && req.path == STREAM_PATH
    requires SelectMode(req.modeParam, hour) == Day
    requires IsOkStatus(status)
    ensures Handle(req, hour, Responded(status, statusText, Some(content))) ==
            Response(200, Text(content), CORS_HEADERS[CONTENT_TYPE := HLS_TYPE][CACHE_CONTROL := NO_CACHE])
  {
  }

  /**
   * By day, when the live stream cannot be had (an error status, a body that
   * cannot be read, or a fetch that fails), `/stream.m3u8` is the fallback
   * playlist, with no Cache-Control header.
   */
  lemma DayFallback(req: Request, hour: Hour, upstream: Upstream)
    requires req.verb != "OPTIONS" && req.path == STREAM_PATH
    requires SelectMode(req.modeParam, hour) == Day
    requires upstream.Threw? || !IsOkStatus(upstream.status) || upstream.text.None?
    ensures Handle(req, hour, upstream) == Response(200, Text(FallbackPlaylist(FALLBACK_VIDEO)), CORS_HEADERS[CONTENT_TYPE := HLS_TYPE])
    ensures CACHE_CONTROL !in Handle(req, hour, upstream).headers
  {
  }

  /**
   * Read line by line, the day-mode fallback body opens with `#EXTM3U`, names
   * FALLBACK_VIDEO once and ends with `#EXT-X-ENDLIST`.
   */
  lemma DayFallbackBody(req: Request, hour: Hour, upstream: Upstream)
    requires req.verb != "OPTIONS" && req.path == STREAM_PATH
    requires SelectMode(req.modeParam, hour) == Day
    requires upstream.Threw? || !IsOkStatus(upstream.status) || upstream.text.None?
    ensures Handle(req, hour, upstream).body.Text?
    ensures var lines := Lines.Split(Handle(req, hour, upstream).body.content);
            && lines[0] == Hls.EXTM3U
            && multiset(lines)[FALLBACK_VIDEO] == 1
            && lines[|lines| - 1] == Hls.ENDLIST
  {
    DayFallback(req, hour, upstream);
    FallbackVideoIsSegmentUri();
    FallbackPlaylistShape(FALLBACK_VIDEO);
  }

  /** The fallback playlist of a segment URI opens with `#EXTM3U`, names the URI once and ends with `#EXT-X-ENDLIST`. */
  lemma FallbackPlaylistShape(video: string)
    requires Hls.IsSegmentUri(video)
    ensures FallbackPlaylist(video)[..|Hls.EXTM3U|] == Hls.EXTM3U
    ensures Lines.Split(FallbackPlaylist(video))[0] == Hls.EXTM3U
    ensures multiset(Lines.Split(FallbackPlaylist(video)))[video] == 1
    ensures Lines.Split(FallbackPlaylist(video))[|Lines.Split(FallbackPlaylist(video))| - 1] == Hls.ENDLIST
  {
    var uris := [video];
    Hls.PlaylistOpens(uris, true);
    Hls.PlaylistRead(uris, true);
    FallbackLines(video);
  }

  /** The lines of the fallback playlist, before they are joined into its text. */
  lemma FallbackLines(video: string)
    requires Hls.IsSegmentUri(video)
    ensures multiset(Hls.PlaylistLines([video], true))[video] == 1
    ensures Hls.PlaylistLines([video], true)[|Hls.PlaylistLines([video], true)| - 1] == Hls.ENDLIST
  {
    Hls.PlaylistCount([video], true, video);
    Hls.PlaylistEndList([video], true);
  }

  /** Any other path gets a plain-text 404. */
  lemma NotFoundElsewhere(req: Request, hour: Hour, upstream: Upstream)
    requires req.verb != "OPTIONS" && req.path !in {"/", "", STREAM_PATH}
    ensures Handle(req, hour, upstream) == Response(404, Text(NOT_FOUND), CORS_HEADERS[CONTENT_TYPE := PLAIN_TYPE])
  {
  }

  /** The live stream matters only where it is fetched: anywhere else any two outcomes give the same response. */
  lemma UpstreamOnlyWhenFetched(req: Request, hour: Hour, upstream: Upstream, other: Upstream)
    requires !FetchesUpstream(req, hour)
    ensures Handle(req, hour, upstream) == Handle(req, hour, other)
  {
  }

  /** Where the live stream is fetched, its outcome does matter: a failed fetch and a relayed empty playlist differ. */
  lemma UpstreamMattersWhenFetched(req: Request, hour: Hour, statusText: string)
    requires FetchesUpstream(req, hour)
    ensures Handle(req, hour, Threw) != Handle(req, hour, Responded(200, statusText, Some("")))
  {
    Hls.PlaylistOpens([FALLBACK_VIDEO], true);
    assert |FallbackPlaylist(FALLBACK_VIDEO)| > 0;
  }

  /** FALLBACK_VIDEO can stand on a playlist line of its own as a segment URI. */
  lemma FallbackVideoIsSegmentUri()
    ensures Hls.IsUriLine(FALLBACK_VIDEO) && Hls.IsSegmentUri(FALLBACK_VIDEO)
  {
    assert FALLBACK_VIDEO[0] == 'h';
  }

  /**
   * The night playlist is the handler's template around the video's URI: its
   * text is made of exactly these lines (and, as Join and Split are inverses,
   * is the only text that is).
   */
  lemma NightPlaylistText(video: string)
    requires Hls.IsSegmentUri(video)
    ensures Lines.Split(NightPlaylist(video)) ==
      ["#EXTM3U", "#EXT-X-VERSION:3", "#EXT-X-TARGETDURATION:3600", "#EXT-X-MEDIA-SEQUENCE:0",
       "#EXTINF:3600.0,", video, "#EXTINF:3600.0,", video, "#EXTINF:3600.0,", video]
    ensures NightPlaylist(video) ==
      Lines.Join(["#EXTM3U", "#EXT-X-VERSION:3", "#EXT-X-TARGETDURATION:3600", "#EXT-X-MEDIA-SEQUENCE:0",
                  "#EXTINF:3600.0,", video, "#EXTINF:3600.0,", video, "#EXTINF:3600.0,", video])
  {
    Hls.PlaylistRead([video, video, video], false);
    Lines.JoinSplit(NightPlaylist(video));
    assert [video, video, video][1..] == [video, video] && [video, video][1..] == [video] && [video][1..] == [];
    assert Hls.SegmentLines([video]) == [Hls.EXTINF, video];
    assert Hls.SegmentLines([video, video]) == [Hls.EXTINF, video] + Hls.SegmentLines([video]);
    assert Hls.SegmentLines([video, video, video]) == [Hls.EXTINF, video] + Hls.SegmentLines([video, video]);
  }

  /** The fallback playlist is the handler's template around the video's URI, line for line. */
  lemma FallbackPlaylistText(video: string)
    requires Hls.IsSegmentUri(video)
    ensures Lines.Split(FallbackPlaylist(video)) ==
      ["#EXTM3U", "#EXT-X-VERSION:3", "#EXT-X-TARGETDURATION:3600", "#EXT-X-MEDIA-SEQUENCE:0",
       "#EXTINF:3600.0,", video, "#EXT-X-ENDLIST"]
    ensures FallbackPlaylist(video) ==
      Lines.Join(["#EXTM3U", "#EXT-X-VERSION:3", "#EXT-X-TARGETDURATION:3600", "#EXT-X-MEDIA-SEQUENCE:0",
                  "#EXTINF:3600.0,", video, "#EXT-X-ENDLIST"])
  {
    Hls.PlaylistRead([video], true);
    Lines.JoinSplit(FallbackPlaylist(video));
  }
}
