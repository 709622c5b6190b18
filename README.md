# CBBC stream relay — a verified model of its request handler

The repository's `main.js` is a Deno Deploy HTTP handler that relays the CBBC live
HLS stream by day and plays a fallback video at night. This project models the
decision logic of that handler as total, deterministic Dafny functions and proves
what it promises:

- **Mode selection.** A `mode` query value of `night` or `day` forces that mode.
  Otherwise the UK hour decides: night from 19:00 up to, but not including, 07:00.
- **Dispatch.** Requests are handled in this order:
  - an `OPTIONS` preflight gets an empty answer, whatever its path;
  - `/` and the empty path get the HTML debug page;
  - `/stream.m3u8` gets the looping night playlist at night;
  - by day it gets the relayed live playlist, or the one-entry fallback playlist
    when the live stream cannot be fetched;
  - every other path gets a plain-text 404.
- **Playlists and headers.** The model gives the exact lines of both generated
  HLS media playlists (RFC 8216, section 4.3). It also gives the exact header map
  of each response, and every one of those maps carries the CORS headers.

Modules:

- `Lines` (Lines.dfy) covers LF-separated text. `Join` builds it. `Split` reads it
  the way a client does. The two are proved inverse in both directions.
- `Hls` (Hls.dfy) builds the playlists. Each is a fixed four-tag header, then one
  `#EXTINF:3600.0,` tag and one URI line per segment, then an optional
  `#EXT-X-ENDLIST`. These lemmas hold for any segment list:
  - `#EXTM3U` comes first (RFC 8216, section 4.3.1.1);
  - every URI line comes right after its `#EXTINF` tag (section 4.3.2.1);
  - each URI appears as many times as the segment list holds it;
  - `#EXT-X-ENDLIST` appears exactly when it was asked for, as the last line
    (section 4.3.3.4).
- `Schedule` (Schedule.dfy) is the day/night rule. It is checked against an
  independent definition of the night window that counts hours round the clock.
- `StreamHandler` (StreamHandler.dfy) has the request, upstream and response
  datatypes, the handler `Handle` and the lemmas about each branch.
- `Wrappers` (Wrappers.dfy) holds the `Option` datatype.

Inputs in place of effects:

- The current UK hour is a parameter `hour` of type `Hour` (0..23).
- The outcome of fetching the live playlist is a parameter of type `Upstream`.
  It is either `Responded(status, statusText, text)` or `Threw`. `text` is `None`
  when reading the body failed. "Ok" means a status from 200 to 299, the Fetch
  standard's ok status. The lemmas `UpstreamOnlyWhenFetched` and
  `UpstreamMattersWhenFetched` show that the outcome matters exactly on the one
  path where the handler fetches.
- A response is a plain datatype: a status, a body (`Null`, `Text` or
  `DebugPage(hour, mode)`) and a header map. Each header map is the CORS map
  updated with the branch's own headers, as the source's object spread
  `{ ...corsHeaders, ... }` does. A response built without an explicit status
  has status 200, as the JavaScript `Response` constructor gives it.

`.github/scripts/test_playlists.py` is a separate URL-checking script and is not
modelled.

## Model

| member | source | states |
|---|---|---|
| Schedule.SelectMode | main.js:24-33 | `night` forces Night and `day` forces Day. For any other or missing value, Night holds exactly when the hour lies in the independently defined 19:00–07:00 window. |
| Schedule.ForcedNight | main.js:27-28 | `?mode=night` gives night mode at every hour. This names an instance of SelectMode's first ensures. |
| Schedule.ForcedDay | main.js:29-30 | `?mode=day` gives day mode at every hour. This names an instance of SelectMode's second ensures. |
| Schedule.ScheduledMode | main.js:31-32 | With no forcing override, hours 7 to 18 are day and hours 19 to 23 and 0 to 6 are night, in both directions. |
| Schedule.NightWindowHours | main.js:32 | The night window is exactly the twelve hours 19–23 and 0–6. |
| StreamHandler.Handle | main.js:5-239 | Every response carries the three CORS headers with their values. The status is 404 exactly for a non-OPTIONS request whose path is not `/`, `''` or `/stream.m3u8`. |
| StreamHandler.Preflight | main.js:16-18 | An OPTIONS request, for any path, mode or upstream, gets status 200 and a null body. Its headers are exactly the three CORS headers. |
| StreamHandler.AnyOriginAllowed | main.js:10-14 | Every response has `Access-Control-Allow-Origin: *`. |
| StreamHandler.DebugPageServed | main.js:38-157 | `/` and `''` get status 200, the HTML page built for the current hour and selected mode, and the CORS headers plus `Content-Type: text/html; charset=utf-8`. |
| StreamHandler.NightStream | main.js:164-185 | At night `/stream.m3u8` gets the looping playlist with the HLS content type and the no-cache header. The response is the same for every upstream outcome, so the live stream is not fetched. In the body, `#EXTM3U` is the first line and FALLBACK_VIDEO appears on exactly three lines, each right after `#EXTINF:3600.0,`. There is no `#EXT-X-ENDLIST` line. |
| StreamHandler.DayLiveRelayed | main.js:199-212 | By day, an ok upstream response whose body was read is relayed with that body text unchanged, the HLS content type and the no-cache header. |
| StreamHandler.DayFallback | main.js:199-230 | By day, an error status, an unreadable body or a failed fetch gets the fallback playlist. Its headers are CORS plus the HLS content type, with no Cache-Control. |
| StreamHandler.DayFallbackBody | main.js:217-223 | The fallback body opens with `#EXTM3U`, holds FALLBACK_VIDEO on exactly one line and ends with `#EXT-X-ENDLIST`. |
| StreamHandler.NotFoundElsewhere | main.js:235-238 | Any other path gets status 404, body `Not Found` and the CORS headers plus `Content-Type: text/plain`. |
| StreamHandler.UpstreamOnlyWhenFetched | main.js:186-197 | Except for a day-mode request for `/stream.m3u8`, the response does not depend on the upstream outcome. |
| StreamHandler.UpstreamMattersWhenFetched | main.js:186-230 | For a day-mode request for `/stream.m3u8`, a failed fetch and an ok empty playlist give different responses. |
| StreamHandler.IsOkStatus | main.js:199-201 | The Fetch standard's ok status, 200 to 299. DayLiveRelayed proves that an ok status with a readable body is relayed; DayFallback proves that any other status gets the fallback playlist. |
| StreamHandler.LiveContent | main.js:199-203 | The live playlist text, present only for an ok status whose body was read. DayLiveRelayed proves that a present text is relayed unchanged; DayFallback proves that an absent one (error status, unreadable body, failed fetch) gives the fallback playlist. |
| StreamHandler.FetchesUpstream | main.js:161-164 | Only a non-OPTIONS day-mode request for `/stream.m3u8` reaches the fetch at main.js:186-191. UpstreamOnlyWhenFetched proves that no other response depends on the upstream outcome; UpstreamMattersWhenFetched proves that this one does. |
| StreamHandler.NightPlaylist | main.js:166-175 | The looping night template for a video. NightPlaylistText proves its exact ten lines and its exact text; NightPlaylistShape proves the `#EXTM3U` opening, three announced entries and no `#EXT-X-ENDLIST`. |
| StreamHandler.FallbackPlaylist | main.js:217-223 | The one-entry fallback template for a video. FallbackPlaylistText proves its exact seven lines and its exact text; FallbackPlaylistShape proves the `#EXTM3U` opening, one entry and the closing `#EXT-X-ENDLIST`. |
| StreamHandler.NightPlaylistText | main.js:166-175 | The night playlist's text reads back as exactly the template's ten lines, and it is exactly those ten lines joined by LF. |
| StreamHandler.FallbackPlaylistText | main.js:217-223 | The fallback playlist's text reads back as exactly the template's seven lines, and it is exactly those seven lines joined by LF. |
| StreamHandler.NightPlaylistShape | main.js:166-175 | For any segment URI: the night playlist starts with `#EXTM3U`, has the URI on three lines, each after `#EXTINF:3600.0,`, and has no `#EXT-X-ENDLIST`. |
| StreamHandler.NightLines | main.js:170-175 | The night playlist's lines name the URI three times, always after `#EXTINF`, and never `#EXT-X-ENDLIST`. |
| StreamHandler.FallbackPlaylistShape | main.js:217-223 | For any segment URI: the fallback playlist starts with `#EXTM3U`, has the URI once and ends with `#EXT-X-ENDLIST`. |
| StreamHandler.FallbackLines | main.js:221-223 | The fallback playlist's lines name the URI once and end with `#EXT-X-ENDLIST`. |
| StreamHandler.FallbackVideoIsSegmentUri | main.js:3 | FALLBACK_VIDEO can stand alone on a playlist line as a segment URI. |
| Hls.SegmentLines | main.js:170-175 | There are two lines per segment. |
| Hls.SegmentLineAt | main.js:170-175 | Even positions hold `#EXTINF:3600.0,`, and odd position i holds the URI of segment i / 2. |
| Hls.PlaylistLines | main.js:166-175 | The layout both templates share: the four header tags, an `#EXTINF:3600.0,` tag and a URI per segment, then `#EXT-X-ENDLIST` when asked for. PlaylistLineAt, PlaylistCount, PlaylistUrisAnnounced and PlaylistEndList prove its line-by-line properties. |
| Hls.Playlist | main.js:217-223 | A playlist's text: its lines joined by LF. PlaylistRead proves that reading it gives back exactly PlaylistLines; PlaylistOpens proves that it starts with `#EXTM3U`. |
| Hls.SegmentPairAt | main.js:170-175 | Segment k occupies lines 2k and 2k + 1: its `#EXTINF:3600.0,` tag, then its URI. |
| Hls.SegmentLinesCount | main.js:170-175 | The segment lines hold each URI as often as the segment list does. |
| Hls.SegmentUriAnnounced | main.js:170-175 | Among segment lines of URI-safe segments, a line is a URI line exactly at odd positions, and each one follows an `#EXTINF:3600.0,` tag. |
| Hls.PlaylistRead | main.js:166-175 | Reading a playlist's text gives back exactly its lines. |
| Hls.PlaylistLineAt | main.js:166-175 | Each line of a playlist holds no LF. A URI line always comes right after `#EXTINF`. `#EXT-X-ENDLIST` occurs only as the last line, and only when asked for. |
| Hls.PlaylistCount | main.js:217-223 | A playlist names each URI as often as its segment list does. |
| Hls.PlaylistOpens | main.js:166 | A playlist's first line, and the first seven characters of its text, are `#EXTM3U`. |
| Hls.PlaylistUrisAnnounced | main.js:170-175 | In a playlist, every URI line directly follows an `#EXTINF` tag. |
| Hls.PlaylistEndList | main.js:223 | `#EXT-X-ENDLIST` is a line exactly when it was asked for, and then it is the last line. |
| Lines.Join | main.js:166-175 | Lines separated by LF, with no LF after the last, as the template literals are written. SplitJoin and JoinSplit prove it inverse to Split; JoinStartsWithFirst proves that the text begins with the first line. |
| Lines.Split | main.js:166-175 | Reading LF-separated text gives at least one line, and no line holds an LF. |
| Lines.SplitJoin | main.js:166-175 | Reading a text joined from LF-free lines gives back exactly those lines. |
| Lines.JoinSplit | main.js:217-223 | Joining the lines read from any text gives back the text. |
| Lines.JoinStartsWithFirst | main.js:166 | A joined text begins with its first line. |

## Left out

- The UK clock (main.js:21-23): `Date` and the `Europe/London` time-zone conversion belong to the runtime's library. The hour is a parameter of type 0..23.
- The network fetch of the live stream URL (main.js:2) with its User-Agent header (main.js:191-195) is a network call. Its outcome is the `Upstream` parameter.
- Parsing the request URL (main.js:6, 24) is left to the runtime. The model takes `url.pathname` as the URL parser yields it, with dot segments resolved and percent-escapes kept: `/stream%2Em3u8` is not `/stream.m3u8` and gets the 404. It takes `mode` as the first percent-decoded value that `searchParams.get` returns. Repeated parameters are not modelled.
- `Upstream.text` is the body after `response.text()` (main.js:203) decoded it as UTF-8: a leading byte-order mark is dropped and invalid bytes become U+FFFD. The relayed body equals that decoded text, not the upstream bytes. The decoding itself is not modelled.
- The HTML text of the debug page and its browser script (main.js:39-153) are UI and client-side code. The body is the abstract `DebugPage(hour, mode)`, which carries the hour and mode the page reports.
- `Deno.serve` and the async request/response machinery (main.js:241) are server I/O.
- The `console.log` and `console.error` calls, including the thrown error's message text (main.js:8, 35, 162, 177, 189, 197, 200, 204, 214), are logging that nobody observes.
- Headers that the JavaScript `Response` object adds or normalises by itself (case-insensitive names, a default content type) are not modelled. Header names are compared exactly as written in the source.
- The request method is compared as an exact string, as `request.method === 'OPTIONS'` does. Method normalisation done by the runtime is not modelled.
- StreamHandler.NightStream: counts FALLBACK_VIDEO as whole lines of the body read by `Lines.Split`, not as arbitrary substrings. NightPlaylistText and FallbackPlaylistText pin down the full line lists. Because `Join` and `Split` are inverses, those lists fix each text exactly.
