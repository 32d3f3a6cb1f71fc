/**
 * The output key of a job: `fileKey.replace(/\.[^/.]+$/, ".mp3")`.
 *
 * The regular expression has no `g` and no `m` flag, so `replace` rewrites the
 * leftmost match only and `$` anchors at the very end of the key. A match is a
 * `.` followed by one or more characters, none of which is `/` or `.`, running
 * to the end of the key; the whole match is replaced by ".mp3".
 */
module OutputKeys {
  import opened Base

  /** The replacement text, also the extension every converted object gets. */
  const Mp3: string := ".mp3"

  /** `\.[^/.]+$` matches starting at position `p` of `s`. */
  predicate MatchesAt(s: string, p: nat)
  {
    p + 1 < |s| && s[p] == '.' &&
    forall k | p < k < |s| :: s[k] != '/' && s[k] != '.'
  }

  /** The regex engine's leftmost search for a match, trying positions p, p+1, ... */
  function FirstMatch(s: string, p: nat): (r: Option<nat>)
    requires p <= |s|
    ensures r.Some? ==> p <= r.value < |s| && MatchesAt(s, r.value)
    ensures r.Some? ==> forall q :: p <= q < r.value ==> !MatchesAt(s, q)
    ensures r.None? ==> forall q :: p <= q < |s| ==> !MatchesAt(s, q)
    decreases |s| - p
  {
    if p == |s| then None
    else if MatchesAt(s, p) then Some(p)
    else FirstMatch(s, p + 1)
  }

  /** The key under which the converted file is stored locally and uploaded:
      either the key itself, or a prefix of it followed by ".mp3". */
  function OutputKey(s: string): (r: string)
    ensures r == s || (|Mp3| <= |r| && r[..|r| - |Mp3|] <= s && r[|r| - |Mp3|..] == Mp3)
  {
    match FirstMatch(s, 0)
    case None => s
    case Some(p) => s[..p] + Mp3
  }

  // ----- An independent specification: the extension after the last dot -----

  /** JavaScript's `s.lastIndexOf(c)`, searching from the end. */
  function LastIndexOf(s: string, c: char): (r: Option<nat>)
    ensures r.Some? ==> r.value < |s| && s[r.value] == c
    ensures r.Some? ==> forall k :: r.value < k < |s| ==> s[k] != c
    ensures r.None? ==> forall k :: 0 <= k < |s| ==> s[k] != c
  {
    if |s| == 0 then None
    else if s[|s| - 1] == c then Some(|s| - 1)
    else LastIndexOf(s[..|s| - 1], c)
  }

  /** The final path segment of `s` has an extension starting at the dot at `i`:
      `i` is the last dot, at least one character follows it, and no `/` does. */
  predicate ExtensionAt(s: string, i: nat)
  {
    LastIndexOf(s, '.') == Some(i) && i + 1 < |s| &&
    forall k | i < k < |s| :: s[k] != '/'
  }

  /** The output key as "replace the extension after the last dot, if any". */
  function LastDotSpec(s: string): string
  {
    match LastIndexOf(s, '.')
    case None => s
    case Some(i) => if ExtensionAt(s, i) then s[..i] + Mp3 else s
  }

  /** A regex match can only start at the last dot, and does exactly when that
      dot begins an extension. */
  lemma MatchesAtIffExtension(s: string, p: nat)
    ensures MatchesAt(s, p) <==> ExtensionAt(s, p)
  {
  }

  /** The regex replacement agrees with the last-dot specification on every key. */
  lemma OutputKeyIsLastDotSpec(s: string)
    ensures OutputKey(s) == LastDotSpec(s)
  {
    var m := FirstMatch(s, 0);
    if m.Some? {
      MatchesAtIffExtension(s, m.value);
    } else if LastIndexOf(s, '.').Some? {
      MatchesAtIffExtension(s, LastIndexOf(s, '.').value);
    }
  }

  /** When the final segment has an extension after the last dot, everything
      before that dot is kept and the extension becomes ".mp3". */
  lemma ExtensionReplaced(s: string, i: nat)
    requires ExtensionAt(s, i)
    ensures OutputKey(s) == s[..i] + Mp3
  {
    OutputKeyIsLastDotSpec(s);
  }

  /** With no extension in the final segment the key comes back unchanged:
      nothing is appended. */
  lemma NoExtensionUnchanged(s: string)
    requires forall i: nat :: !ExtensionAt(s, i)
    ensures OutputKey(s) == s
  {
    OutputKeyIsLastDotSpec(s);
    match LastIndexOf(s, '.')
    case None =>
    case Some(i) =>
      assert !ExtensionAt(s, i);
  }

  /** Whenever a replacement happens the key ends in ".mp3". */
  lemma ReplacedEndsInMp3(s: string)
    requires exists i: nat :: ExtensionAt(s, i)
    ensures |OutputKey(s)| >= |Mp3| && OutputKey(s)[|OutputKey(s)| - |Mp3|..] == Mp3
  {
    var i: nat :| ExtensionAt(s, i);
    ExtensionReplaced(s, i);
    var r := s[..i] + Mp3;
    assert r[|r| - |Mp3|..] == Mp3;
  }

  /** Converting an output key again changes nothing. */
  lemma {:induction false} OutputKeyIdempotent(s: string)
    ensures OutputKey(OutputKey(s)) == OutputKey(s)
  {
    OutputKeyIsLastDotSpec(s);
    match LastIndexOf(s, '.')
    case None =>
    case Some(i) =>
      if ExtensionAt(s, i) {
        var r := s[..i] + Mp3;
        assert r[i] == '.' && r[i + 1] == 'm' && r[i + 2] == 'p' && r[i + 3] == '3';
        assert MatchesAt(r, i);
        MatchesAtIffExtension(r, i);
        ExtensionReplaced(r, i);
        assert r[..i] == s[..i];
      }
  }

  /** Wherever the regex matches, the replacement happens there: the match is
      the only one. */
  lemma MatchReplaced(s: string, p: nat)
    requires MatchesAt(s, p)
    ensures OutputKey(s) == s[..p] + Mp3
  {
    MatchesAtIffExtension(s, p);
    ExtensionReplaced(s, p);
  }

  /** Worked example: only the extension after the last dot is replaced. */
  lemma ExampleTwoDots()
    ensures OutputKey("a.b.wav") == "a.b.mp3"
  {
    assert MatchesAt("a.b.wav", 3);
    MatchReplaced("a.b.wav", 3);
  }

  /** Worked example: a plain extension. */
  lemma ExampleTrack()
    ensures OutputKey("track.wav") == "track.mp3"
  {
    assert MatchesAt("track.wav", 5);
    MatchReplaced("track.wav", 5);
  }

  /** Worked example: the directories before the file name are kept. */
  lemma ExampleNested()
    ensures OutputKey("nested/path/file.flac") == "nested/path/file.mp3"
  {
    assert MatchesAt("nested/path/file.flac", 16);
    MatchReplaced("nested/path/file.flac", 16);
  }

  /** Where the regex matches nowhere, the key is unchanged. */
  lemma NoMatchUnchanged(s: string)
    requires forall p :: 0 <= p < |s| ==> !MatchesAt(s, p)
    ensures OutputKey(s) == s
  {
    assert FirstMatch(s, 0).None?;
  }

  /** Worked example: a key without a dot is unchanged. */
  lemma ExampleNoExtension()
    ensures OutputKey("noext") == "noext"
  {
    var s := "noext";
    assert forall p :: 0 <= p < |s| ==> s[p] != '.';
    NoMatchUnchanged(s);
  }

  /** Worked example: a dot in a directory name is not an extension. */
  lemma ExampleDotInDirectory()
    ensures OutputKey("dir.d/file") == "dir.d/file"
  {
    var s := "dir.d/file";
    assert forall p :: 0 <= p < |s| && p != 3 ==> s[p] != '.';
    assert s[5] == '/';
    assert !MatchesAt(s, 3);
    NoMatchUnchanged(s);
  }

  /** Worked example: a trailing dot is not an extension. */
  lemma ExampleTrailingDot()
    ensures OutputKey("file.") == "file."
  {
    var s := "file.";
    assert forall p :: 0 <= p < |s| - 1 ==> s[p] != '.';
    NoMatchUnchanged(s);
  }

  /** Worked example: an ".mp3" key is rewritten to itself. */
  lemma ExampleAlreadyMp3()
    ensures OutputKey("song.mp3") == "song.mp3"
  {
    assert MatchesAt("song.mp3", 4);
    MatchReplaced("song.mp3", 4);
  }
}
