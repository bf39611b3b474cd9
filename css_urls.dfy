/** The `url(...)` token pattern of the asset embedder,
    `url\(["']?([^"')\s]+)["']?\)`, as a scanner: `findall` collects the
    captured references left to right, `sub` rewrites each match.  The
    pattern cannot backtrack into a different match (the capture stops at
    the first quote, `)` or white space), so the scanner is a straight
    left-to-right reading of it. */
module CssUrls {
  import opened Wrappers
  import opened Text

  predicate IsQuote(c: char) {
    c == '"' || c == '\''
  }

  /** The characters the capture group excludes. */
  predicate Stops(c: char) {
    IsQuote(c) || c == ')' || IsWhitespace(c)
  }

  /** The end of the run of non-stop characters starting at `i`. */
  function RunEnd(s: string, i: nat): (j: nat)
    requires i <= |s|
    ensures i <= j <= |s| && (j < |s| ==> Stops(s[j]))
    decreases |s| - i
  {
    if i < |s| && !Stops(s[i]) then RunEnd(s, i + 1) else i
  }

  lemma {:induction false} RunEndClean(s: string, i: nat)
    requires i <= |s|
    ensures forall k :: i <= k < RunEnd(s, i) ==> !Stops(s[k])
    decreases |s| - i
  {
    if i < |s| && !Stops(s[i]) {
      RunEndClean(s, i + 1);
    }
  }

  /** A match: the captured reference and the index just after `)`. */
  datatype Match = Match(start: nat, ref: string, end: nat)

  /** The match of the pattern starting at `i`, if any. */
  function MatchAt(s: string, i: nat): (r: Option<Match>)
    requires i <= |s|
    ensures r.Some? ==> r.value.start == i && i < r.value.end <= |s| && r.value.ref != []
  {
    if !OccursAt(s, "url(", i) then None
    else
      var a := i + 4;
      var b := if a < |s| && IsQuote(s[a]) then a + 1 else a;
      var c := RunEnd(s, b);
      if c == b then None
      else
        var d := if c < |s| && IsQuote(s[c]) then c + 1 else c;
        if d < |s| && s[d] == ')' then Some(Match(i, s[b..c], d + 1)) else None
  }

  /** A captured reference is non-empty and holds no quote, `)` or white
      space, and it occurs in the text. */
  predicate CleanRef(ref: string) {
    ref != [] && forall k :: 0 <= k < |ref| ==> !Stops(ref[k])
  }

  lemma MatchAtClean(s: string, i: nat)
    requires i <= |s| && MatchAt(s, i).Some?
    ensures CleanRef(MatchAt(s, i).value.ref)
    ensures Contains(s, MatchAt(s, i).value.ref)
  {
    var a := i + 4;
    var b := if a < |s| && IsQuote(s[a]) then a + 1 else a;
    var c := RunEnd(s, b);
    RunEndClean(s, b);
    var ref := s[b..c];
    assert ref == MatchAt(s, i).value.ref;
    assert forall k :: 0 <= k < |ref| ==> ref[k] == s[b + k];
    assert OccursAt(s, ref, b);
  }

  /** `re.findall` from position `i`. */
  function FindFrom(s: string, i: nat): seq<string>
    requires i <= |s|
    decreases |s| - i
  {
    if i == |s| then []
    else
      match MatchAt(s, i)
      case Some(m) => [m.ref] + FindFrom(s, m.end)
      case None => FindFrom(s, i + 1)
  }

  function FindUrls(s: string): seq<string> {
    FindFrom(s, 0)
  }

  lemma {:induction false} FindFromClean(s: string, i: nat)
    requires i <= |s|
    ensures forall k :: 0 <= k < |FindFrom(s, i)| ==> CleanRef(FindFrom(s, i)[k]) && Contains(s, FindFrom(s, i)[k])
    decreases |s| - i
  {
    if i < |s| {
      match MatchAt(s, i)
      case Some(m) =>
        MatchAtClean(s, i);
        FindFromClean(s, m.end);
      case None =>
        FindFromClean(s, i + 1);
    }
  }

  /** Every reference `findall` returns is non-empty, holds no quote, `)`
      or white space, and occurs in the text. */
  lemma FindUrlsClean(s: string)
    ensures forall k :: 0 <= k < |FindUrls(s)| ==> CleanRef(FindUrls(s)[k]) && Contains(s, FindUrls(s)[k])
  {
    FindFromClean(s, 0);
  }

  lemma UrlReferenceExample()
    ensures FindUrls("url('a.png')") == ["a.png"]
  {
    var s := "url('a.png')";
    assert OccursAt(s, "url(", 0);
    assert IsQuote(s[4]) && IsQuote(s[10]) && s[11] == ')';
    assert RunEnd(s, 10) == 10;
    assert RunEnd(s, 5) == 10;
    assert s[5..10] == "a.png";
    assert MatchAt(s, 0) == Some(Match(0, "a.png", 12));
  }

  /** `re.sub` from position `i`: a match whose reference `repl` maps to
      Some text becomes that text, any other match and every character
      outside a match is copied. */
  function SubFrom(s: string, i: nat, repl: string -> Option<string>): string
    requires i <= |s|
    decreases |s| - i
  {
    if i == |s| then []
    else
      match MatchAt(s, i)
      case Some(m) =>
        var replaced := match repl(m.ref) case Some(t) => t case None => s[i..m.end];
        replaced + SubFrom(s, m.end, repl)
      case None => [s[i]] + SubFrom(s, i + 1, repl)
  }

  function Sub(s: string, repl: string -> Option<string>): string {
    SubFrom(s, 0, repl)
  }

  lemma {:induction false} SubFromIdentity(s: string, i: nat, repl: string -> Option<string>)
    requires i <= |s|
    requires forall ref :: repl(ref).None?
    ensures SubFrom(s, i, repl) == s[i..]
    decreases |s| - i
  {
    if i < |s| {
      match MatchAt(s, i)
      case Some(m) =>
        SubFromIdentity(s, m.end, repl);
        assert s[i..m.end] + s[m.end..] == s[i..];
      case None =>
        SubFromIdentity(s, i + 1, repl);
        assert [s[i]] + s[i + 1..] == s[i..];
    }
  }

  /** With nothing to replace, `sub` returns the text unchanged. */
  lemma SubIdentity(s: string, repl: string -> Option<string>)
    requires forall ref :: repl(ref).None?
    ensures Sub(s, repl) == s
  {
    SubFromIdentity(s, 0, repl);
  }

  const BackgroundImage: string := "background-image:"

  /** The match of `background-image:\s*url\(...\)` starting at `i`. */
  function BackgroundAt(s: string, i: nat): (r: Option<Match>)
    requires i <= |s|
    ensures r.Some? ==> i < r.value.end <= |s| && r.value.ref != []
  {
    if !OccursAt(s, BackgroundImage, i) then None
    else
      match MatchAt(s, SkipWhitespace(s, i + |BackgroundImage|))
      case Some(m) => Some(m.(start := i))
      case None => None
  }

  function BackgroundFrom(s: string, i: nat): seq<string>
    requires i <= |s|
    decreases |s| - i
  {
    if i == |s| then []
    else
      match BackgroundAt(s, i)
      case Some(m) => [m.ref] + BackgroundFrom(s, m.end)
      case None => BackgroundFrom(s, i + 1)
  }

  /** `re.findall` of the background-image pattern. */
  function BackgroundUrls(s: string): seq<string> {
    BackgroundFrom(s, 0)
  }

  lemma {:induction false} BackgroundFromClean(s: string, i: nat)
    requires i <= |s|
    ensures forall k :: 0 <= k < |BackgroundFrom(s, i)| ==> CleanRef(BackgroundFrom(s, i)[k])
    decreases |s| - i
  {
    if i < |s| {
      match BackgroundAt(s, i)
      case Some(m) =>
        MatchAtClean(s, SkipWhitespace(s, i + |BackgroundImage|));
        BackgroundFromClean(s, m.end);
      case None =>
        BackgroundFromClean(s, i + 1);
    }
  }

  /** The background references are clean in the same sense. */
  lemma BackgroundUrlsClean(s: string)
    ensures forall k :: 0 <= k < |BackgroundUrls(s)| ==> CleanRef(BackgroundUrls(s)[k])
  {
    BackgroundFromClean(s, 0);
  }
}
