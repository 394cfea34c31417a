/** Playlist ingestion in playa.py's main: which source the track list comes
    from, and how lines read from standard input or a playlist file are
    cleaned. The streams themselves are given as sequences of lines. */
module Ingest {
  import opened Wrappers

  /** The characters Python's str.strip() removes when called without
      arguments (str.isspace). */
  predicate IsSpace(c: char)
  {
    || c == ' ' || c == '\t' || c == '\n' || c == '\r' || c == '\U{0B}' || c == '\U{0C}'
    || '\U{1C}' <= c <= '\U{1F}'
    || c == '\U{85}' || c == '\U{A0}' || c == '\U{1680}'
    || '\U{2000}' <= c <= '\U{200A}'
    || c == '\U{2028}' || c == '\U{2029}' || c == '\U{202F}' || c == '\U{205F}' || c == '\U{3000}'
  }

  predicate Blank(s: string)
  {
    forall i :: 0 <= i < |s| ==> IsSpace(s[i])
  }

  /** s without its leading whitespace: a suffix of s, whatever was dropped
      is whitespace, and what is left does not start with whitespace. */
  function StripStart(s: string): (r: string)
    ensures |r| <= |s| && r == s[|s| - |r|..]
    ensures Blank(s[..|s| - |r|])
    ensures r != [] ==> !IsSpace(r[0])
    decreases |s|
  {
    if s != [] && IsSpace(s[0]) then
      var r := StripStart(s[1..]);
      assert s[..|s| - |r|] == [s[0]] + s[1..][..|s[1..]| - |r|];
      r
    else s
  }

  /** s without its trailing whitespace: a prefix of s, whatever was dropped
      is whitespace, and what is left does not end with whitespace. */
  function StripEnd(s: string): (r: string)
    ensures |r| <= |s| && r == s[..|r|]
    ensures Blank(s[|r|..])
    ensures r != [] ==> !IsSpace(r[|r| - 1])
    decreases |s|
  {
    if s != [] && IsSpace(s[|s| - 1]) then
      var r := StripEnd(s[..|s| - 1]);
      assert s[|r|..] == s[..|s| - 1][|r|..] + [s[|s| - 1]];
      r
    else s
  }

  /** str.strip(): s without whitespace at either end (StripSlice shows it
      is a slice of s). It is empty exactly when s is blank. */
  function Strip(s: string): (r: string)
    ensures |r| <= |s|
    ensures r != [] ==> !IsSpace(r[0]) && !IsSpace(r[|r| - 1])
    ensures r == [] <==> Blank(s)
  {
    var t := StripStart(s);
    var r := StripEnd(t);
    StripParts(s, t, r);
    r
  }

  /** The facts Strip needs about its two halves. */
  lemma StripParts(s: string, t: string, r: string)
    requires t == StripStart(s) && r == StripEnd(t)
    ensures r != [] ==> !IsSpace(r[0])
    ensures r == [] <==> Blank(s)
  {
    var start := |s| - |t|;
    if r != [] {
      assert r[0] == t[0];
    }
    if r == [] {
      assert t == [];
      assert s[..start] == s;
    }
  }

  /** Strip(s) is the slice of s that lies between a blank prefix and a
      blank suffix. */
  lemma StripSlice(s: string) returns (start: nat)
    ensures start + |Strip(s)| <= |s| && Strip(s) == s[start..start + |Strip(s)|]
    ensures Blank(s[..start]) && Blank(s[start + |Strip(s)|..])
  {
    var t := StripStart(s);
    var r := StripEnd(t);
    start := |s| - |t|;
    assert t[|r|..] == s[start + |r|..];
  }

  /** [line.strip() for line in lines if line.strip()]: the stripped
      non-blank lines, in order. */
  function CleanLines(lines: seq<string>): (r: seq<string>)
    ensures |r| <= |lines|
    ensures forall i :: 0 <= i < |r| ==> r[i] != []
    decreases |lines|
  {
    if lines == [] then []
    else
      var rest := CleanLines(lines[1..]);
      var line := Strip(lines[0]);
      if line != [] then [line] + rest else rest
  }

  /** Why the front end exits before a player exists. */
  datatype Exit = Exit(status: int, message: string)

  const NoInput: Exit := Exit(1, "No input files provided")

  /** The track list main hands to the player: from standard input when "-"
      is among the positional arguments, else from the -f playlist file, else
      the positional arguments themselves, else the "no input" exit. */
  function SelectPlaylist(files: seq<string>, stdinLines: seq<string>, playlistFile: Option<seq<string>>)
    : (r: Result<seq<string>, Exit>)
    ensures r.Err? <==> files == [] && playlistFile.None?
    ensures r.Err? ==> r.error == NoInput && r.error.status != 0
  {
    if "-" in files then Ok(CleanLines(stdinLines))
    else if playlistFile.Some? then Ok(CleanLines(playlistFile.value))
    else if files != [] then Ok(files)
    else Err(NoInput)
  }

  // ---------------------------------------------------------------------
  // Lemmas
  // ---------------------------------------------------------------------

  /** Stripping twice is stripping once. */
  lemma StripIdempotent(s: string)
    ensures Strip(Strip(s)) == Strip(s)
  {
    var r := Strip(s);
    StripNoop(r);
  }

  /** A string with no whitespace at either end is its own strip. */
  lemma StripNoop(s: string)
    requires s != [] ==> !IsSpace(s[0]) && !IsSpace(s[|s| - 1])
    ensures Strip(s) == s
  {
    assert StripStart(s) == s;
    assert StripEnd(s) == s;
  }

  /** Every line of the playlist is already stripped. */
  lemma {:induction false} CleanLinesStripped(lines: seq<string>)
    ensures forall x :: x in CleanLines(lines) ==> Strip(x) == x
    decreases |lines|
  {
    if lines != [] {
      CleanLinesStripped(lines[1..]);
      StripIdempotent(lines[0]);
    }
  }

  /** Cleaning keeps line order and splits over concatenation: the lines of
      two parts of a stream are cleaned independently. */
  lemma {:induction false} CleanLinesAppend(a: seq<string>, b: seq<string>)
    ensures CleanLines(a + b) == CleanLines(a) + CleanLines(b)
    decreases |a|
  {
    if a == [] {
      assert a + b == b;
    } else {
      assert (a + b)[1..] == a[1..] + b;
      CleanLinesAppend(a[1..], b);
    }
  }

  /** Every line that is not blank reaches the playlist, stripped. */
  lemma {:induction false} CleanLinesKeepsNonBlank(lines: seq<string>, i: int)
    requires 0 <= i < |lines| && !Blank(lines[i])
    ensures Strip(lines[i]) in CleanLines(lines)
    decreases |lines|
  {
    var head := Strip(lines[0]);
    assert CleanLines(lines) == (if head != [] then [head] else []) + CleanLines(lines[1..]);
    if i > 0 {
      assert lines[1..][i - 1] == lines[i];
      CleanLinesKeepsNonBlank(lines[1..], i - 1);
    }
  }

  /** Every playlist entry is the strip of some non-blank line. */
  lemma {:induction false} CleanLinesFromNonBlank(lines: seq<string>, x: string)
    requires x in CleanLines(lines)
    ensures exists i :: 0 <= i < |lines| && !Blank(lines[i]) && Strip(lines[i]) == x
    decreases |lines|
  {
    var head := Strip(lines[0]);
    assert CleanLines(lines) == (if head != [] then [head] else []) + CleanLines(lines[1..]);
    if head != [] && x == head {
      assert !Blank(lines[0]);
    } else {
      CleanLinesFromNonBlank(lines[1..], x);
      var i :| 0 <= i < |lines[1..]| && !Blank(lines[1..][i]) && Strip(lines[1..][i]) == x;
      assert lines[i + 1] == lines[1..][i];
    }
  }

  /** Lines that are already stripped and non-blank pass through unchanged. */
  lemma {:induction false} CleanLinesKeepsClean(lines: seq<string>)
    requires forall i :: 0 <= i < |lines| ==> lines[i] != [] && Strip(lines[i]) == lines[i]
    ensures CleanLines(lines) == lines
    decreases |lines|
  {
    if lines != [] {
      var tail := lines[1..];
      assert forall i :: 0 <= i < |tail| ==> tail[i] == lines[i + 1];
      CleanLinesKeepsClean(tail);
      assert Strip(lines[0]) == lines[0] != [];
      assert lines == [lines[0]] + tail;
    }
  }

  /** "-" among the positional arguments wins: the playlist is the cleaned
      lines of standard input, and the playlist file and the other arguments
      are not looked at. */
  lemma StdinFirst(files: seq<string>, stdinLines: seq<string>, playlistFile: Option<seq<string>>)
    requires "-" in files
    ensures SelectPlaylist(files, stdinLines, playlistFile) == SelectPlaylist(["-"], stdinLines, None)
    ensures SelectPlaylist(files, stdinLines, playlistFile) == Ok(CleanLines(stdinLines))
  {
  }

  /** Without "-", a playlist file wins over positional arguments, and
      standard input is not read. */
  lemma FileBeforeArguments(files: seq<string>, stdinLines: seq<string>, lines: seq<string>)
    requires "-" !in files
    ensures SelectPlaylist(files, stdinLines, Some(lines)) == SelectPlaylist([], [], Some(lines))
    ensures SelectPlaylist(files, stdinLines, Some(lines)) == Ok(CleanLines(lines))
  {
  }

  /** With only positional arguments, they are the playlist as given:
      neither stripped nor filtered. */
  lemma ArgumentsAsGiven(files: seq<string>, stdinLines: seq<string>)
    requires "-" !in files && files != []
    ensures SelectPlaylist(files, stdinLines, None) == Ok(files)
  {
  }

  /** Standard input of blank lines only (or none) gives an empty playlist,
      not the "no input" exit. */
  lemma BlankStdinGivesEmptyPlaylist(stdinLines: seq<string>)
    requires forall i :: 0 <= i < |stdinLines| ==> Blank(stdinLines[i])
    ensures SelectPlaylist(["-"], stdinLines, None) == Ok([])
  {
    if CleanLines(stdinLines) != [] {
      CleanLinesFromNonBlank(stdinLines, CleanLines(stdinLines)[0]);
    }
  }
}
