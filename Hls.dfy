/**
 * The HLS media playlists the handler writes out (RFC 8216, section 4.3): one
 * fixed header, then one `#EXTINF` tag and one URI line per media segment, and
 * optionally the `#EXT-X-ENDLIST` tag that says no segment will be added.
 */
module Hls {
  import Lines

  const EXTM3U := "#EXTM3U"
  const VERSION := "#EXT-X-VERSION:3"
  const TARGET_DURATION := "#EXT-X-TARGETDURATION:3600"
  const MEDIA_SEQUENCE := "#EXT-X-MEDIA-SEQUENCE:0"
  /** Every segment is announced as lasting 3600.0 seconds, with an empty title. */
  const EXTINF := "#EXTINF:3600.0,"
  const ENDLIST := "#EXT-X-ENDLIST"

  const HEADER: seq<string> := [EXTM3U, VERSION, TARGET_DURATION, MEDIA_SEQUENCE]

  /** A line that a client reads as a segment URI: not blank and not a tag or comment. */
  predicate IsUriLine(line: string) {
    |line| > 0 && line[0] != '#'
  }

  /** A URI the handler may place on a line of its own. */
  predicate IsSegmentUri(uri: string) {
    IsUriLine(uri) && Lines.IsLine(uri)
  }

  /** The `#EXTINF` and URI lines of the segments, in order. */
  function SegmentLines(uris: seq<string>): (lines: seq<string>)
    ensures |lines| == 2 * |uris|
    decreases |uris|
  {
    if uris == [] then [] else [EXTINF, uris[0]] + SegmentLines(uris[1..])
  }

  /** Line i of the segment lines: an `#EXTINF` tag at even positions, segment i / 2's URI at odd ones. */
  lemma {:induction false} SegmentLineAt(uris: seq<string>, i: int)
    requires 0 <= i < 2 * |uris|
    ensures SegmentLines(uris)[i] == if i % 2 == 0 then EXTINF else uris[i / 2]
    decreases |uris|
  {
    if i >= 2 {
      SegmentLineAt(uris[1..], i - 2);
      assert SegmentLines(uris)[i] == SegmentLines(uris[1..])[i - 2];
      assert (i - 2) % 2 == i % 2 && (i - 2) / 2 + 1 == i / 2;
    }
  }

  /** Every line of a media playlist. */
  function PlaylistLines(uris: seq<string>, endList: bool): seq<string> {
    HEADER + SegmentLines(uris) + (if endList then [ENDLIST] else [])
  }

  /** The playlist text: its lines separated by LF, no LF after the last line. */
  function Playlist(uris: seq<string>, endList: bool): string {
    Lines.Join(PlaylistLines(uris, endList))
  }

  /** The segment lines name every URI as often as the list does. */
  lemma {:induction false} SegmentLinesCount(uris: seq<string>, u: string)
    requires u != EXTINF
    ensures multiset(SegmentLines(uris))[u] == multiset(uris)[u]
    decreases |uris|
  {
    if uris != [] {
      var rest := SegmentLines(uris[1..]);
      SegmentLinesCount(uris[1..], u);
      assert SegmentLines(uris) == [EXTINF, uris[0]] + rest;
      assert multiset(SegmentLines(uris)) == multiset([EXTINF, uris[0]]) + multiset(rest);
      assert uris == [uris[0]] + uris[1..];
      assert multiset(uris) == multiset([uris[0]]) + multiset(uris[1..]);
    }
  }

  /** Segment k is the pair of lines 2k and 2k + 1: its `#EXTINF` tag, then its URI. */
  lemma {:induction false} SegmentPairAt(uris: seq<string>, k: int)
    requires 0 <= k < |uris|
    ensures SegmentLines(uris)[2 * k] == EXTINF && SegmentLines(uris)[2 * k + 1] == uris[k]
    decreases |uris|
  {
    if k > 0 {
      SegmentPairAt(uris[1..], k - 1);
      assert SegmentLines(uris) == [EXTINF, uris[0]] + SegmentLines(uris[1..]);
    }
  }

  /** Each URI line among the segment lines directly follows an `#EXTINF` tag. */
  lemma SegmentUriAnnounced(uris: seq<string>, i: int)
    requires forall k :: 0 <= k < |uris| ==> IsSegmentUri(uris[k])
    requires 0 <= i < 2 * |uris|
    ensures IsUriLine(SegmentLines(uris)[i]) <==> i % 2 == 1
    ensures i % 2 == 1 ==> SegmentLines(uris)[i - 1] == EXTINF
  {
    assert !IsUriLine(EXTINF) by { assert EXTINF[0] == '#'; }
    var k := i / 2;
    SegmentPairAt(uris, k);
    assert IsSegmentUri(uris[k]);
    if i == 2 * k {
      assert i % 2 == 0 && SegmentLines(uris)[i] == EXTINF;
    } else {
      assert i == 2 * k + 1 && i % 2 == 1;
      assert SegmentLines(uris)[i] == uris[k] && SegmentLines(uris)[i - 1] == EXTINF;
    }
  }

  /** The header lines are all tags, so none of them is a URI line. */
  lemma HeaderHoldsNoUri(u: string)
    requires IsUriLine(u)
    ensures multiset(HEADER)[u] == 0
  {
    assert EXTM3U[0] == '#' && VERSION[0] == '#' && TARGET_DURATION[0] == '#' && MEDIA_SEQUENCE[0] == '#';
    assert u !in HEADER;
    assert u !in multiset(HEADER);
  }

  /** Every line of a media playlist, by position: header, segment lines, then the trailer. */
  lemma PlaylistLineAt(uris: seq<string>, endList: bool, i: int)
    requires forall k :: 0 <= k < |uris| ==> IsSegmentUri(uris[k])
    requires 0 <= i < |PlaylistLines(uris, endList)|
    ensures Lines.IsLine(PlaylistLines(uris, endList)[i])
    ensures IsUriLine(PlaylistLines(uris, endList)[i]) ==> i > 0 && PlaylistLines(uris, endList)[i - 1] == EXTINF
    ensures PlaylistLines(uris, endList)[i] == ENDLIST ==> endList && i == |PlaylistLines(uris, endList)| - 1
  {
    var segs := SegmentLines(uris);
    var tail: seq<string> := if endList then [ENDLIST] else [];
    var lines := HEADER + segs + tail;
    assert lines == PlaylistLines(uris, endList);
    if i < 4 {
      assert lines[i] == HEADER[i];
      assert HEADER[i][0] == '#' && HEADER[i] != ENDLIST;
      assert Lines.IsLine(HEADER[i]);
    } else if i < 4 + |segs| {
      assert lines[i] == segs[i - 4];
      SegmentUriAnnounced(uris, i - 4);
      SegmentLineAt(uris, i - 4);
      if (i - 4) % 2 == 1 {
        assert i > 4 && lines[i - 1] == segs[i - 5];
        assert uris[(i - 4) / 2] != ENDLIST by { assert ENDLIST[0] == '#'; }
      } else {
        assert Lines.IsLine(EXTINF) && EXTINF != ENDLIST && !IsUriLine(EXTINF);
      }
    } else {
      assert lines[i] == ENDLIST && endList && i == |lines| - 1;
      assert Lines.IsLine(ENDLIST) && !IsUriLine(ENDLIST);
    }
  }

  /** Reading the text of a media playlist gives back exactly its lines. */
  lemma PlaylistRead(uris: seq<string>, endList: bool)
    requires forall k :: 0 <= k < |uris| ==> IsSegmentUri(uris[k])
    ensures Lines.Split(Playlist(uris, endList)) == PlaylistLines(uris, endList)
  {
    var lines := PlaylistLines(uris, endList);
    forall i | 0 <= i < |lines|
      ensures Lines.IsLine(lines[i])
    {
      PlaylistLineAt(uris, endList, i);
    }
    Lines.SplitJoin(lines);
  }

  /** A media playlist names each URI as many times as its segment list does. */
  lemma PlaylistCount(uris: seq<string>, endList: bool, u: string)
    requires IsUriLine(u)
    ensures multiset(PlaylistLines(uris, endList))[u] == multiset(uris)[u]
  {
    var tail: seq<string> := if endList then [ENDLIST] else [];
    assert PlaylistLines(uris, endList) == HEADER + SegmentLines(uris) + tail;
    assert u != EXTINF by { assert EXTINF[0] == '#'; }
    SegmentLinesCount(uris, u);
    HeaderHoldsNoUri(u);
    assert multiset(tail)[u] == 0 by { assert ENDLIST[0] == '#'; assert u !in tail; }
  }

  /** A media playlist opens with `#EXTM3U`, as its first line and as the first characters of its text. */
  lemma PlaylistOpens(uris: seq<string>, endList: bool)
    ensures PlaylistLines(uris, endList)[0] == EXTM3U
    ensures |EXTM3U| <= |Playlist(uris, endList)| && Playlist(uris, endList)[..|EXTM3U|] == EXTM3U
  {
    var lines := PlaylistLines(uris, endList);
    assert lines[0] == EXTM3U;
    Lines.JoinStartsWithFirst(lines);
  }

  /** Every URI line of a media playlist comes right after an `#EXTINF` tag. */
  lemma PlaylistUrisAnnounced(uris: seq<string>, endList: bool)
    requires forall k :: 0 <= k < |uris| ==> IsSegmentUri(uris[k])
    ensures forall i :: 0 <= i < |PlaylistLines(uris, endList)| && IsUriLine(PlaylistLines(uris, endList)[i]) ==>
              i > 0 && PlaylistLines(uris, endList)[i - 1] == EXTINF
  {
    var lines := PlaylistLines(uris, endList);
    forall i | 0 <= i < |lines| && IsUriLine(lines[i])
      ensures i > 0 && lines[i - 1] == EXTINF
    {
      PlaylistLineAt(uris, endList, i);
    }
  }

  /** `#EXT-X-ENDLIST` is a line of a media playlist exactly when it was asked for, and then it is the last line. */
  lemma PlaylistEndList(uris: seq<string>, endList: bool)
    requires forall k :: 0 <= k < |uris| ==> IsSegmentUri(uris[k])
    ensures ENDLIST in PlaylistLines(uris, endList) <==> endList
    ensures endList ==> PlaylistLines(uris, endList)[|PlaylistLines(uris, endList)| - 1] == ENDLIST
  {
    var lines := PlaylistLines(uris, endList);
    if ENDLIST in lines {
      var i :| 0 <= i < |lines| && lines[i] == ENDLIST;
      PlaylistLineAt(uris, endList, i);
    }
    if endList {
      assert lines[|lines| - 1] == ENDLIST;
    }
  }
}
