/**
 * Text made of lines separated by a line feed, the layout of every playlist the
 * handler produces (its template literals put exactly one LF between lines and
 * none after the last one). Join builds such a text; Split is the reading a
 * client performs, and the two are proved to be inverses.
 */
module Lines {

  const LF: char := '\n'

  /** A line never holds the separator itself. */
  predicate IsLine(s: string) {
    LF !in s
  }

  /** Glues the lines together with exactly one LF between neighbours. */
  function Join(lines: seq<string>): (s: string)
    requires |lines| > 0
    decreases |lines|
  {
    if |lines| == 1 then lines[0] else lines[0] + [LF] + Join(lines[1..])
  }

  /** Cuts a text at every LF into lines that hold no LF. */
  function Split(s: string): (lines: seq<string>)
    ensures |lines| > 0
    ensures forall i :: 0 <= i < |lines| ==> IsLine(lines[i])
    decreases |s|
  {
    if |s| == 0 then [""]
    else
      var rest := Split(s[1..]);
      if s[0] == LF then [""] + rest
      else [[s[0]] + rest[0]] + rest[1..]
  }

  /** A text without a separator is a single line. */
  lemma {:induction false} SplitLine(a: string)
    requires IsLine(a)
    ensures Split(a) == [a]
    decreases |a|
  {
    if |a| > 0 {
      assert IsLine(a[1..]) by { assert a == [a[0]] + a[1..]; }
      SplitLine(a[1..]);
      assert [a[0]] + a[1..] == a;
    }
  }

  /** Reading past the first line leaves the rest of the text to be read. */
  lemma {:induction false} SplitAfterLine(a: string, b: string)
    requires IsLine(a)
    ensures Split(a + [LF] + b) == [a] + Split(b)
    decreases |a|
  {
    var s := a + [LF] + b;
    if |a| == 0 {
      assert s[0] == LF && s[1..] == b;
    } else {
      assert s[0] == a[0] && a[0] != LF;
      assert s[1..] == a[1..] + [LF] + b;
      assert IsLine(a[1..]) by { assert a == [a[0]] + a[1..]; }
      SplitAfterLine(a[1..], b);
      assert [a[0]] + a[1..] == a;
    }
  }

  /** Reading a joined text gives back exactly the lines it was joined from. */
  lemma {:induction false} SplitJoin(lines: seq<string>)
    requires |lines| > 0
    requires forall i :: 0 <= i < |lines| ==> IsLine(lines[i])
    ensures Split(Join(lines)) == lines
    decreases |lines|
  {
    if |lines| == 1 {
      SplitLine(lines[0]);
    } else {
      SplitAfterLine(lines[0], Join(lines[1..]));
      SplitJoin(lines[1..]);
      assert [lines[0]] + lines[1..] == lines;
    }
  }

  /** Joining the lines of a text gives back the text. */
  lemma {:induction false} JoinSplit(s: string)
    ensures Join(Split(s)) == s
    decreases |s|
  {
    if |s| > 0 {
      JoinSplit(s[1..]);
      if s[0] == LF {
        JoinSplitAtBreak(s);
      } else {
        JoinSplitInLine(s);
      }
    }
  }

  /** A text that starts with a separator: an empty first line, then the rest. */
  lemma JoinSplitAtBreak(s: string)
    requires |s| > 0 && s[0] == LF
    requires Join(Split(s[1..])) == s[1..]
    ensures Join(Split(s)) == s
  {
    var rest := Split(s[1..]);
    assert Split(s) == [""] + rest;
    JoinCons("", rest);
    assert s == [LF] + s[1..];
  }

  /** A text that starts with an ordinary character: it opens the first line. */
  lemma JoinSplitInLine(s: string)
    requires |s| > 0 && s[0] != LF
    requires Join(Split(s[1..])) == s[1..]
    ensures Join(Split(s)) == s
  {
    var c, rest := s[0], Split(s[1..]);
    assert Split(s) == [[c] + rest[0]] + rest[1..];
    JoinExtend(c, rest[0], rest[1..]);
    assert [rest[0]] + rest[1..] == rest;
    assert s == [c] + s[1..];
  }

  /** Putting a character in front of the first line puts it in front of the text. */
  lemma JoinExtend(c: char, first: string, more: seq<string>)
    ensures Join([[c] + first] + more) == [c] + Join([first] + more)
  {
    if |more| > 0 {
      JoinCons(first, more);
      JoinCons([c] + first, more);
    } else {
      assert [[c] + first] + more == [[c] + first];
      assert [first] + more == [first];
    }
  }

  /** Joining a first line in front of further lines. */
  lemma JoinCons(a: string, more: seq<string>)
    requires |more| > 0
    ensures Join([a] + more) == a + [LF] + Join(more)
  {
    assert ([a] + more)[1..] == more;
  }

  /** A joined text opens with its first line. */
  lemma JoinStartsWithFirst(lines: seq<string>)
    requires |lines| > 0
    ensures |lines[0]| <= |Join(lines)| && Join(lines)[..|lines[0]|] == lines[0]
  {
    if |lines| > 1 {
      var rest := Join(lines[1..]);
      assert Join(lines) == lines[0] + ([LF] + rest);
    }
  }
}
