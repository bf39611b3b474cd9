/** URLs as the five components of RFC 3986 section 3, the generic parser of
    RFC 3986 appendix B (with the scheme syntax of section 3.1, which is also
    what Python's `urlsplit` checks), recomposition (section 5.3) and
    reference resolution (sections 5.2.2 to 5.2.4) with the shortcuts that
    Python's `urljoin` takes before resolving. */
module Urls {
  import opened Wrappers
  import opened Text

  /** An absent component (`None`) differs from an empty one (`Some("")`). */
  datatype Url = Url(scheme: Option<string>, authority: Option<string>, path: string,
                     query: Option<string>, fragment: Option<string>)

  predicate IsAlpha(c: char) {
    'a' <= c <= 'z' || 'A' <= c <= 'Z'
  }

  predicate IsSchemeChar(c: char) {
    IsAlpha(c) || '0' <= c <= '9' || c == '+' || c == '-' || c == '.'
  }

  /** scheme = ALPHA *( ALPHA / DIGIT / "+" / "-" / "." ) */
  predicate ValidScheme(s: string) {
    s != [] && IsAlpha(s[0]) && forall i :: 0 < i < |s| ==> IsSchemeChar(s[i])
  }

  const SchemeEnd: set<char> := {':', '/', '?', '#'}
  const AuthorityEnd: set<char> := {'/', '?', '#'}
  const PathEnd: set<char> := {'?', '#'}
  const QueryEnd: set<char> := {'#'}

  /** No character of `s` is in `cs`. */
  predicate NoneIn(s: string, cs: set<char>) {
    forall i :: 0 <= i < |s| ==> s[i] !in cs
  }

  /** Index just past `scheme ":"`, or 0 when `s` does not start with a scheme. */
  function AfterScheme(s: string): (n: nat)
    ensures n <= |s|
    ensures n > 0 ==> s[n - 1] == ':'
  {
    var i := IndexOfAny(s, SchemeEnd);
    if i < |s| && s[i] == ':' && ValidScheme(s[..i]) then i + 1 else 0
  }

  /** An authority, introduced by "//", starts at index `k`. */
  predicate AuthorityAt(s: string, k: nat) {
    k + 2 <= |s| && s[k] == '/' && s[k + 1] == '/'
  }

  /** Where the path starts, given that the hierarchical part starts at `k`. */
  function PathStart(s: string, k: nat): (a: nat)
    requires k <= |s|
    ensures k <= a <= |s|
    ensures AuthorityAt(s, k) ==> k + 2 <= a
  {
    if AuthorityAt(s, k) then IndexOfAnyFrom(s, AuthorityEnd, k + 2) else k
  }

  /** Where the fragment delimiter is (or `|s|`), given that the path ends at `p`. */
  function QueryStop(s: string, p: nat): (q: nat)
    requires p <= |s|
    ensures p <= q <= |s|
  {
    if p < |s| && s[p] == '?' then IndexOfAnyFrom(s, QueryEnd, p + 1) else p
  }

  /** The parser of RFC 3986 appendix B: `^(([^:/?#]+):)?(//([^/?#]*))?([^?#]*)(\?([^#]*))?(#(.*))?`,
      with a scheme taken only when it is syntactically valid. */
  function Parse(s: string): Url {
    var k := AfterScheme(s);
    var a := PathStart(s, k);
    var p := IndexOfAnyFrom(s, PathEnd, a);
    var q := QueryStop(s, p);
    Url(if k > 0 then Some(s[..k - 1]) else None,
        if AuthorityAt(s, k) then Some(s[k + 2..a]) else None,
        s[a..p],
        if p < |s| && s[p] == '?' then Some(s[p + 1..q]) else None,
        if q < |s| then Some(s[q + 1..]) else None)
  }

  function SchemePart(u: Url): string {
    if u.scheme.Some? then u.scheme.value + ":" else ""
  }

  function AuthorityPart(u: Url): string {
    if u.authority.Some? then "//" + u.authority.value else ""
  }

  function QueryPart(u: Url): string {
    if u.query.Some? then "?" + u.query.value else ""
  }

  function FragmentPart(u: Url): string {
    if u.fragment.Some? then "#" + u.fragment.value else ""
  }

  /** Component recomposition, RFC 3986 section 5.3. */
  function Recompose(u: Url): string {
    SchemePart(u) + AuthorityPart(u) + u.path + QueryPart(u) + FragmentPart(u)
  }

  /** Parsing loses nothing: recomposing the components gives the text back. */
  lemma RecomposeParse(s: string)
    ensures Recompose(Parse(s)) == s
  {
    var u := Parse(s);
    var k := AfterScheme(s);
    var a := PathStart(s, k);
    var p := IndexOfAnyFrom(s, PathEnd, a);
    var q := QueryStop(s, p);
    ParsedSchemePart(s);
    ParsedAuthorityPart(s);
    ParsedQueryPart(s);
    ParsedFragmentPart(s);
    SliceSplit(s, k, a, p, q);
  }

  lemma ParsedSchemePart(s: string)
    ensures SchemePart(Parse(s)) == s[..AfterScheme(s)]
  {
    var k := AfterScheme(s);
    if k > 0 { assert s[..k] == s[..k - 1] + [s[k - 1]]; }
  }

  lemma ParsedAuthorityPart(s: string)
    ensures var k := AfterScheme(s); AuthorityPart(Parse(s)) == s[k..PathStart(s, k)]
  {
    var k := AfterScheme(s);
    var a := PathStart(s, k);
    if AuthorityAt(s, k) { AuthoritySlice(s, k, a); }
  }

  lemma AuthoritySlice(s: string, k: nat, a: nat)
    requires AuthorityAt(s, k) && k + 2 <= a <= |s|
    ensures s[k..a] == "//" + s[k + 2..a]
  {
    assert s[k..a] == s[k..k + 2] + s[k + 2..a];
  }

  lemma ParsedQueryPart(s: string)
    ensures var p := IndexOfAnyFrom(s, PathEnd, PathStart(s, AfterScheme(s)));
      QueryPart(Parse(s)) == s[p..QueryStop(s, p)]
  {
    var p := IndexOfAnyFrom(s, PathEnd, PathStart(s, AfterScheme(s)));
    var q := QueryStop(s, p);
    if p < |s| && s[p] == '?' { assert s[p..q] == [s[p]] + s[p + 1..q]; }
  }

  lemma ParsedFragmentPart(s: string)
    ensures var p := IndexOfAnyFrom(s, PathEnd, PathStart(s, AfterScheme(s)));
      FragmentPart(Parse(s)) == s[QueryStop(s, p)..]
  {
    var p := IndexOfAnyFrom(s, PathEnd, PathStart(s, AfterScheme(s)));
    var q := QueryStop(s, p);
    if q < |s| {
      if !(p < |s| && s[p] == '?') { assert q == p && s[p] in PathEnd; }
      FragmentSlice(s, q);
    }
  }

  lemma FragmentSlice(s: string, q: nat)
    requires q < |s| && s[q] == '#'
    ensures s[q..] == "#" + s[q + 1..]
  {
    assert s[q..] == [s[q]] + s[q + 1..];
  }

  lemma SliceSplit(s: string, k: nat, a: nat, p: nat, q: nat)
    requires k <= a <= p <= q <= |s|
    ensures s == s[..k] + s[k..a] + s[a..p] + s[p..q] + s[q..]
  {
    assert s[..a] == s[..k] + s[k..a];
    assert s[..p] == s[..a] + s[a..p];
    assert s[..q] == s[..p] + s[p..q];
    assert s == s[..q] + s[q..];
  }

  /** The component values that `Parse` can produce, and that `Recompose`
      writes so that they parse back unchanged. */
  predicate WellFormed(u: Url) {
    && (u.scheme.Some? ==> ValidScheme(u.scheme.value))
    && (u.authority.Some? ==> NoneIn(u.authority.value, AuthorityEnd))
    && NoneIn(u.path, PathEnd)
    && (u.query.Some? ==> NoneIn(u.query.value, QueryEnd))
    && (u.authority.Some? ==> u.path == [] || u.path[0] == '/')
    && (u.authority.None? ==> !StartsWith(u.path, "//"))
    && (u.scheme.None? && u.authority.None? ==> AfterScheme(u.path + QueryPart(u) + FragmentPart(u)) == 0)
  }

  /** Scanning `x + y` from inside `x`, when `x` has no character of `cs`,
      reaches `y`'s first one. */
  lemma ScanIntoSuffix(x: string, y: string, cs: set<char>, from: nat)
    requires from <= |x|
    requires forall i :: from <= i < |x| ==> x[i] !in cs
    requires y == [] || y[0] in cs
    ensures IndexOfAnyFrom(x + y, cs, from) == |x|
  {
    IndexOfAnyFromIs(x + y, cs, from, |x|);
  }

  /** A scheme followed by ":" is read back. */
  lemma SchemeScan(s: string, x: string)
    requires ValidScheme(x) && StartsWith(s, x + ":")
    ensures AfterScheme(s) == |x| + 1
  {
    assert s[..|x|] == x && s[|x|] == ':' by {
      assert s[..|x| + 1] == x + ":";
      assert s[..|x|] == s[..|x| + 1][..|x|];
    }
    forall i | 0 <= i < |x| ensures s[i] !in SchemeEnd {
      assert s[i] == x[i];
    }
    IndexOfAnyFromIs(s, SchemeEnd, 0, |x|);
  }

  /** "//" and an authority, followed by a delimiter or the end, are read back. */
  lemma AuthorityScan(s: string, k: nat, au: string)
    requires k + 2 + |au| <= |s| && s[k..k + 2] == "//" && s[k + 2..k + 2 + |au|] == au
    requires NoneIn(au, AuthorityEnd)
    requires k + 2 + |au| == |s| || s[k + 2 + |au|] in AuthorityEnd
    ensures AuthorityAt(s, k) && PathStart(s, k) == k + 2 + |au|
  {
    assert s[k] == '/' && s[k + 1] == '/' by {
      assert s[k..k + 2][0] == s[k] && s[k..k + 2][1] == s[k + 1];
    }
    forall i | k + 2 <= i < k + 2 + |au| ensures s[i] !in AuthorityEnd {
      assert s[i] == au[i - k - 2];
    }
    IndexOfAnyFromIs(s, AuthorityEnd, k + 2, k + 2 + |au|);
  }

  /** A path followed by "?" or "#" or the end is read back. */
  lemma PathScan(s: string, a: nat, path: string)
    requires a + |path| <= |s| && s[a..a + |path|] == path
    requires NoneIn(path, PathEnd)
    requires a + |path| == |s| || s[a + |path|] in PathEnd
    ensures IndexOfAnyFrom(s, PathEnd, a) == a + |path|
  {
    forall i | a <= i < a + |path| ensures s[i] !in PathEnd {
      assert s[i] == path[i - a];
    }
    IndexOfAnyFromIs(s, PathEnd, a, a + |path|);
  }

  /** "?" and a query followed by "#" or the end are read back. */
  lemma QueryScan(s: string, p: nat, query: string)
    requires p + 1 + |query| <= |s| && s[p] == '?' && s[p + 1..p + 1 + |query|] == query
    requires NoneIn(query, QueryEnd)
    requires p + 1 + |query| == |s| || s[p + 1 + |query|] == '#'
    ensures QueryStop(s, p) == p + 1 + |query|
  {
    forall i | p + 1 <= i < p + 1 + |query| ensures s[i] !in QueryEnd {
      assert s[i] == query[i - p - 1];
    }
    IndexOfAnyFromIs(s, QueryEnd, p + 1, p + 1 + |query|);
  }

  /** Recomposition lays the components out one after the other. */
  lemma RecomposeLayout(u: Url)
    ensures var s, sp, ap, qp, fp := Recompose(u), SchemePart(u), AuthorityPart(u), QueryPart(u), FragmentPart(u);
      var k, a, p, q := |sp|, |sp| + |ap|, |sp| + |ap| + |u.path|, |sp| + |ap| + |u.path| + |qp|;
      && q <= |s| && s[..k] == sp && s[k..a] == ap && s[a..p] == u.path && s[p..q] == qp && s[q..] == fp
  {
    var sp, ap, qp, fp := SchemePart(u), AuthorityPart(u), QueryPart(u), FragmentPart(u);
    assert Recompose(u) == sp + ap + u.path + qp + fp;
  }

  /** `AfterScheme` finds the scheme of `u` at the start of `s`, ending before index `k`. */
  predicate SchemeFound(s: string, k: nat, u: Url) {
    && k <= |s| && AfterScheme(s) == k
    && (k > 0 <==> u.scheme.Some?)
    && (u.scheme.Some? ==> k == |u.scheme.value| + 1 && s[..k - 1] == u.scheme.value)
  }

  /** `PathStart` finds the authority of `u` between indices `k` and `a`. */
  predicate AuthorityFound(s: string, k: nat, a: nat, u: Url) {
    && k <= a <= |s| && PathStart(s, k) == a
    && (AuthorityAt(s, k) <==> u.authority.Some?)
    && (u.authority.Some? ==> s[k + 2..a] == u.authority.value)
  }

  /** The query and fragment of `u` are found at indices `p` and `q`. */
  predicate QueryFound(s: string, p: nat, q: nat, u: Url) {
    && p <= q <= |s| && QueryStop(s, p) == q
    && ((p < |s| && s[p] == '?') <==> u.query.Some?)
    && (u.query.Some? ==> s[p + 1..q] == u.query.value)
    && (q < |s| <==> u.fragment.Some?)
    && (u.fragment.Some? ==> s[q + 1..] == u.fragment.value)
  }

  lemma RecomposeScheme(u: Url)
    requires WellFormed(u)
    ensures SchemeFound(Recompose(u), |SchemePart(u)|, u)
  {
    if u.scheme.Some? {
      RecomposeSchemeSome(u);
      RecomposeStartsWithScheme(u);
      var s, k := Recompose(u), |SchemePart(u)|;
      assert s[..k - 1] == s[..k][..k - 1];
    } else if u.authority.Some? {
      RecomposeSchemeNone(u);
    } else {
      assert Recompose(u) == u.path + QueryPart(u) + FragmentPart(u);
    }
  }

  lemma RecomposeSchemeSome(u: Url)
    requires WellFormed(u) && u.scheme.Some?
    ensures AfterScheme(Recompose(u)) == |SchemePart(u)|
  {
    RecomposeStartsWithScheme(u);
    SchemeScan(Recompose(u), u.scheme.value);
  }

  lemma RecomposeStartsWithScheme(u: Url)
    requires u.scheme.Some?
    ensures StartsWith(Recompose(u), u.scheme.value + ":")
  {
    assert Recompose(u) == SchemePart(u) + (AuthorityPart(u) + u.path + QueryPart(u) + FragmentPart(u));
  }

  lemma RecomposeSchemeNone(u: Url)
    requires u.scheme.None? && u.authority.Some?
    ensures AfterScheme(Recompose(u)) == 0
  {
    RecomposeStartsWithSlash(u);
    SlashHasNoScheme(Recompose(u));
  }

  lemma RecomposeStartsWithSlash(u: Url)
    requires u.scheme.None? && u.authority.Some?
    ensures Recompose(u) != [] && Recompose(u)[0] == '/'
  {
    assert Recompose(u) == AuthorityPart(u) + (u.path + QueryPart(u) + FragmentPart(u));
  }

  /** A text that starts with "/" has no scheme. */
  lemma SlashHasNoScheme(s: string)
    requires s != [] && s[0] == '/'
    ensures AfterScheme(s) == 0
  {
    IndexOfAnyFromIs(s, SchemeEnd, 0, 0);
  }

  /** Where the pieces of `x + y + z` lie when it is found at index `a` of `s`. */
  lemma Slices3(s: string, a: nat, x: string, y: string, z: string)
    requires a <= |s| && s[a..] == x + y + z
    ensures a + |x| + |y| + |z| == |s|
    ensures s[a..a + |x|] == x && s[a + |x|..a + |x| + |y|] == y && s[a + |x| + |y|..] == z
    ensures s[a + |x|..] == y + z
  {
    assert s[a..][|x|..] == y + z;
    assert s[a..][..|x|] == x;
    assert s[a..][|x|..|x| + |y|] == y;
    assert s[a..][|x| + |y|..] == z;
  }

  /** `Recompose(u)` from the authority on. */
  lemma RecomposeFromAuthority(u: Url)
    ensures |SchemePart(u)| <= |Recompose(u)|
    ensures Recompose(u)[|SchemePart(u)|..] == AuthorityPart(u) + (u.path + QueryPart(u) + FragmentPart(u))
  {
    assert Recompose(u) == SchemePart(u) + (AuthorityPart(u) + (u.path + QueryPart(u) + FragmentPart(u)));
  }

  /** `Recompose(u)` from the path on. */
  lemma RecomposeFromPath(u: Url)
    ensures |SchemePart(u)| + |AuthorityPart(u)| <= |Recompose(u)|
    ensures Recompose(u)[|SchemePart(u)| + |AuthorityPart(u)|..] == u.path + QueryPart(u) + FragmentPart(u)
  {
    assert Recompose(u) == (SchemePart(u) + AuthorityPart(u)) + (u.path + QueryPart(u) + FragmentPart(u));
  }

  /** Without "//" at index `k`, there is no authority and the path starts at `k`. */
  lemma NoAuthorityScan(s: string, k: nat)
    requires k <= |s| && !StartsWith(s[k..], "//")
    ensures !AuthorityAt(s, k) && PathStart(s, k) == k
  {
    if k + 2 <= |s| {
      assert s[k..][..2] == s[k..k + 2];
    }
  }

  /** A well-formed URL without authority does not recompose to "//" after its scheme. */
  lemma NoAuthorityRest(u: Url)
    requires !StartsWith(u.path, "//")
    ensures !StartsWith(u.path + QueryPart(u) + FragmentPart(u), "//")
  {
    var rest := u.path + QueryPart(u) + FragmentPart(u);
    var tail := QueryPart(u) + FragmentPart(u);
    assert rest == u.path + tail;
    if |u.path| >= 2 {
      assert rest[..2] == u.path[..2];
    } else if u.path == [] {
      assert rest == tail;
      assert tail == [] || tail[0] == '?' || tail[0] == '#';
    } else if |rest| >= 2 {
      assert rest[1] == tail[0];
    }
  }

  lemma RecomposeAuthority(u: Url, s: string, k: nat)
    requires WellFormed(u)
    requires k <= |s| && s[k..] == AuthorityPart(u) + (u.path + QueryPart(u) + FragmentPart(u))
    ensures AuthorityFound(s, k, k + |AuthorityPart(u)|, u)
  {
    if u.authority.Some? {
      RecomposeSomeAuthority(u, s, k);
    } else {
      NoAuthorityRest(u);
      assert AuthorityPart(u) == [];
      NoAuthorityScan(s, k);
    }
  }

  /** An authority with no delimiter in it, followed by an empty path or
      one that starts with "/", is found between "//" and the path. */
  lemma RecomposeSomeAuthority(u: Url, s: string, k: nat)
    requires u.authority.Some? && NoneIn(u.authority.value, AuthorityEnd)
    requires u.path == [] || u.path[0] == '/'
    requires k <= |s| && s[k..] == AuthorityPart(u) + (u.path + QueryPart(u) + FragmentPart(u))
    ensures AuthorityFound(s, k, k + |AuthorityPart(u)|, u)
  {
    var au := u.authority.value;
    var rest := u.path + QueryPart(u) + FragmentPart(u);
    assert rest == [] || rest[0] in AuthorityEnd by {
      RestStart(u.path, QueryPart(u) + FragmentPart(u));
    }
    assert s[k..] == "//" + au + rest && |AuthorityPart(u)| == 2 + |au| by {
      assert AuthorityPart(u) == "//" + au;
    }
    AuthorityThenRest(s, k, au, rest);
  }

  /** A rest of a URL after its authority starts with a delimiter. */
  lemma RestStart(path: string, tail: string)
    requires path == [] || path[0] == '/'
    requires tail == [] || tail[0] == '?' || tail[0] == '#'
    ensures var rest := path + tail; rest == [] || rest[0] in AuthorityEnd
  {
    if path == [] { assert path + tail == tail; }
  }

  /** "//", an authority and a rest that starts with a delimiter, found at
      index `k` of `s`. */
  lemma AuthorityThenRest(s: string, k: nat, au: string, rest: string)
    requires k <= |s| && s[k..] == "//" + au + rest
    requires NoneIn(au, AuthorityEnd) && (rest == [] || rest[0] in AuthorityEnd)
    ensures AuthorityAt(s, k) && PathStart(s, k) == k + 2 + |au| && s[k + 2..k + 2 + |au|] == au
  {
    Slices3(s, k, "//", au, rest);
    assert k + 2 + |au| < |s| ==> s[k + 2 + |au|] == rest[0];
    AuthorityScan(s, k, au);
  }

  /** The path of `u` ends at `p` and its query at `q`, past index `a` of `s`. */
  lemma RecomposeTail(u: Url, s: string, a: nat) returns (p: nat, q: nat)
    requires NoneIn(u.path, PathEnd) && (u.query.Some? ==> NoneIn(u.query.value, QueryEnd))
    requires a <= |s| && s[a..] == u.path + QueryPart(u) + FragmentPart(u)
    ensures a <= p <= |s| && IndexOfAnyFrom(s, PathEnd, a) == p && s[a..p] == u.path
    ensures QueryFound(s, p, q, u)
  {
    PathThenTail(s, a, u.path, QueryPart(u), FragmentPart(u));
    p := a + |u.path|;
    FragmentStop(u, s, p);
    q := p + |QueryPart(u)|;
  }

  /** A path without delimiters, followed by a query part and a fragment
      part, found at index `a` of `s`. */
  lemma PathThenTail(s: string, a: nat, path: string, qp: string, fp: string)
    requires a <= |s| && s[a..] == path + qp + fp
    requires NoneIn(path, PathEnd) && (qp == [] || qp[0] == '?') && (fp == [] || fp[0] == '#')
    ensures a + |path| <= |s| && IndexOfAnyFrom(s, PathEnd, a) == a + |path|
    ensures s[a..a + |path|] == path && s[a + |path|..] == qp + fp
  {
    var tail := qp + fp;
    assert s[a..] == path + tail;
    assert tail == [] || tail[0] in PathEnd by {
      if qp == [] { assert tail == fp; }
    }
    assert s[a..][..|path|] == path && s[a..][|path|..] == tail;
    assert a + |path| < |s| ==> s[a + |path|] == tail[0];
    PathScan(s, a, path);
  }

  /** The query and fragment of a well-formed URL found at index `p` of `s`. */
  lemma FragmentStop(u: Url, s: string, p: nat)
    requires u.query.Some? ==> NoneIn(u.query.value, QueryEnd)
    requires p <= |s| && s[p..] == QueryPart(u) + FragmentPart(u)
    ensures QueryFound(s, p, p + |QueryPart(u)|, u)
  {
    var fp := FragmentPart(u);
    var q := p + |QueryPart(u)|;
    assert fp == [] || fp[0] == '#';
    if u.query.Some? {
      var qv := u.query.value;
      assert s[p..] == "?" + qv + fp;
      QueryThenFragment(s, p, qv, fp);
    } else {
      assert s[p..] == fp;
      NoQuery(s, p, fp);
    }
    FragmentAt(s, q, fp);
    if u.fragment.Some? {
      assert fp[1..] == u.fragment.value;
    }
  }

  /** "?", a query without "#" and a rest that is empty or starts with
      "#", found at index `p` of `s`. */
  lemma QueryThenFragment(s: string, p: nat, qv: string, fp: string)
    requires p <= |s| && s[p..] == "?" + qv + fp
    requires NoneIn(qv, QueryEnd) && (fp == [] || fp[0] == '#')
    ensures p < |s| && s[p] == '?' && QueryStop(s, p) == p + 1 + |qv|
    ensures s[p + 1..p + 1 + |qv|] == qv && s[p + 1 + |qv|..] == fp
  {
    Slices3(s, p, "?", qv, fp);
    assert s[p] == s[p..p + 1][0];
    assert p + 1 + |qv| < |s| ==> s[p + 1 + |qv|] == fp[0];
    QueryScan(s, p, qv);
  }

  /** Without "?" at index `p`, the query is absent. */
  lemma NoQuery(s: string, p: nat, fp: string)
    requires p <= |s| && s[p..] == fp && (fp == [] || fp[0] == '#')
    ensures !(p < |s| && s[p] == '?') && QueryStop(s, p) == p
  {
    if p < |s| { assert s[p] == fp[0]; }
  }

  /** The fragment part found at index `q` of `s`. */
  lemma FragmentAt(s: string, q: nat, fp: string)
    requires q <= |s| && s[q..] == fp
    ensures q < |s| <==> fp != []
    ensures q < |s| ==> s[q + 1..] == fp[1..]
  {
    if q < |s| { assert s[q + 1..] == s[q..][1..]; }
  }

  /** Well-formed components survive a recomposition followed by a parse. */
  lemma ParseRecompose(u: Url)
    requires WellFormed(u)
    ensures Parse(Recompose(u)) == u
  {
    ParseRecomposeScheme(u);
    ParseRecomposeAuthority(u);
    ParseRecomposeTail(u);
  }

  lemma ParseRecomposeScheme(u: Url)
    requires WellFormed(u)
    ensures Parse(Recompose(u)).scheme == u.scheme
  {
    RecomposeScheme(u);
  }

  lemma ParseRecomposeAuthority(u: Url)
    requires WellFormed(u)
    ensures Parse(Recompose(u)).authority == u.authority
  {
    RecomposeScheme(u);
    RecomposeFromAuthority(u);
    RecomposeAuthority(u, Recompose(u), |SchemePart(u)|);
  }

  lemma ParseRecomposeTail(u: Url)
    requires WellFormed(u)
    ensures var v := Parse(Recompose(u)); v.path == u.path && v.query == u.query && v.fragment == u.fragment
  {
    var s, k := Recompose(u), |SchemePart(u)|;
    var a := k + |AuthorityPart(u)|;
    RecomposeScheme(u);
    RecomposeFromAuthority(u);
    RecomposeAuthority(u, s, k);
    RecomposeFromPath(u);
    ParseFromPath(u, s, a);
  }

  /** Once the path of `s` is known to start at `a` with the path of `u`,
      the path, query and fragment of `u` are read back. */
  lemma ParseFromPath(u: Url, s: string, a: nat)
    requires NoneIn(u.path, PathEnd) && (u.query.Some? ==> NoneIn(u.query.value, QueryEnd))
    requires a <= |s| && PathStart(s, AfterScheme(s)) == a
    requires s[a..] == u.path + QueryPart(u) + FragmentPart(u)
    ensures var v := Parse(s); v.path == u.path && v.query == u.query && v.fragment == u.fragment
  {
    var p, q := RecomposeTail(u, s, a);
    ParseTailAt(s, a, p, q, u);
  }

  /** Once the path is known to start at `a`, the rest of `Parse` follows. */
  lemma ParseTailAt(s: string, a: nat, p: nat, q: nat, u: Url)
    requires a <= |s| && PathStart(s, AfterScheme(s)) == a
    requires a <= p <= |s| && IndexOfAnyFrom(s, PathEnd, a) == p && s[a..p] == u.path
    requires QueryFound(s, p, q, u)
    ensures var v := Parse(s); v.path == u.path && v.query == u.query && v.fragment == u.fragment
  {
  }

  /** What `Parse` returns is well formed. */
  lemma ParsedWellFormed(s: string)
    ensures WellFormed(Parse(s))
  {
    ParsedAuthorityWellFormed(s);
    ParsedPathWellFormed(s);
    ParsedQueryWellFormed(s);
    ParsedNoSchemeWellFormed(s);
  }

  lemma ParsedAuthorityWellFormed(s: string)
    ensures var u := Parse(s);
      && (u.authority.Some? ==> NoneIn(u.authority.value, AuthorityEnd))
      && (u.authority.Some? ==> u.path == [] || u.path[0] == '/')
  {
    var k := AfterScheme(s);
    if AuthorityAt(s, k) {
      var a := PathStart(s, k);
      IndexOfAnyFromFirst(s, AuthorityEnd, k + 2);
      var au := s[k + 2..a];
      assert forall i :: 0 <= i < |au| ==> au[i] == s[k + 2 + i];
      var p := IndexOfAnyFrom(s, PathEnd, a);
      if a < p {
        IndexOfAnyFromFirst(s, PathEnd, a);
        assert Parse(s).path[0] == s[a];
      }
    }
  }

  lemma ParsedPathWellFormed(s: string)
    ensures var u := Parse(s);
      && NoneIn(u.path, PathEnd)
      && (u.authority.None? ==> !StartsWith(u.path, "//"))
  {
    var k := AfterScheme(s);
    var a := PathStart(s, k);
    var p := IndexOfAnyFrom(s, PathEnd, a);
    var path := s[a..p];
    IndexOfAnyFromFirst(s, PathEnd, a);
    assert forall i :: 0 <= i < |path| ==> path[i] == s[a + i];
    if !AuthorityAt(s, k) && |path| >= 2 {
      assert path[0] == s[k] && path[1] == s[k + 1];
    }
  }

  lemma ParsedQueryWellFormed(s: string)
    ensures var u := Parse(s); u.query.Some? ==> NoneIn(u.query.value, QueryEnd)
  {
    var k := AfterScheme(s);
    var a := PathStart(s, k);
    var p := IndexOfAnyFrom(s, PathEnd, a);
    if p < |s| && s[p] == '?' {
      var q := QueryStop(s, p);
      IndexOfAnyFromFirst(s, QueryEnd, p + 1);
      var qv := s[p + 1..q];
      assert forall i :: 0 <= i < |qv| ==> qv[i] == s[p + 1 + i];
    }
  }

  lemma ParsedNoSchemeWellFormed(s: string)
    ensures var u := Parse(s);
      u.scheme.None? && u.authority.None? ==> AfterScheme(u.path + QueryPart(u) + FragmentPart(u)) == 0
  {
    var u := Parse(s);
    if u.scheme.None? && u.authority.None? {
      RecomposeParse(s);
      assert AfterScheme(s) == 0;
      RecomposeWithoutPrefix(u);
    }
  }

  /** Without a scheme and an authority, a URL is written from its path on. */
  lemma RecomposeWithoutPrefix(u: Url)
    requires u.scheme.None? && u.authority.None?
    ensures Recompose(u) == u.path + QueryPart(u) + FragmentPart(u)
  {
    assert SchemePart(u) == [] && AuthorityPart(u) == [];
  }

  /** `urlparse(s).path`: the path with the `;params` of its last segment cut off. */
  function UrlparsePath(s: string): string {
    CutParams(Parse(s).path)
  }

  /** The path up to the first ";" of its last segment. */
  function CutParams(path: string): (r: string)
    ensures StartsWith(path, r)
    ensures ';' !in path ==> r == path
  {
    var slash := LastIndexOf(path, '/');
    var semi := IndexOfAnyFrom(path, {';'}, slash + 1);
    path[..semi]
  }

  /** `urlparse(s).netloc`: the authority, or "" if there is none. */
  function Netloc(s: string): string {
    Parse(s).authority.GetOr("")
  }

  /** Output buffer of RFC 3986 section 5.2.4, step 2C: drop the last
      segment and the "/" before it. */
  function DropLastSegment(output: string): (r: string)
    ensures StartsWith(output, r)
  {
    var k := LastIndexOf(output, '/');
    if k >= 0 then output[..k] else ""
  }

  /** Length of the first path segment, with its leading "/" if any. */
  function FirstSegmentLength(input: string): (n: nat)
    requires input != []
    ensures 0 < n <= |input|
  {
    if input[0] == '/' then IndexOfAnyFrom(input, {'/'}, 1)
    else if IndexOfAny(input, {'/'}) == 0 then 1
    else IndexOfAny(input, {'/'})
  }

  /** The loop of RFC 3986 section 5.2.4, one step per call. */
  function RemoveDots(input: string, output: string): string
    decreases |input|
  {
    if input == [] then output
    else if StartsWith(input, "../") then RemoveDots(input[3..], output)
    else if StartsWith(input, "./") then RemoveDots(input[2..], output)
    else if StartsWith(input, "/./") then RemoveDots("/" + input[3..], output)
    else if input == "/." then RemoveDots("/", output)
    else if StartsWith(input, "/../") then RemoveDots("/" + input[4..], DropLastSegment(output))
    else if input == "/.." then RemoveDots("/", DropLastSegment(output))
    else if input == "." || input == ".." then output
    else
      var n := FirstSegmentLength(input);
      RemoveDots(input[n..], output + input[..n])
  }

  function RemoveDotSegments(path: string): string {
    RemoveDots(path, "")
  }

  /** A path with no "." in it has no dot segments and is left as it is. */
  lemma {:induction false} RemoveDotsWithoutDots(input: string, output: string)
    requires '.' !in input
    ensures RemoveDots(input, output) == output + input
    decreases |input|
  {
    if input != [] {
      assert input[0] != '.';
      assert !StartsWith(input, "../") && !StartsWith(input, "./");
      assert !StartsWith(input, "/./") && input != "/." by {
        if |input| >= 2 { assert input[1] != '.'; }
      }
      assert !StartsWith(input, "/../") && input != "/.." by {
        if |input| >= 2 { assert input[1] != '.'; }
      }
      var n := FirstSegmentLength(input);
      assert input == input[..n] + input[n..];
      assert '.' !in input[n..] by {
        forall i | 0 <= i < |input[n..]| ensures input[n..][i] != '.' {
          assert input[n..][i] == input[n + i];
        }
      }
      RemoveDotsWithoutDots(input[n..], output + input[..n]);
    }
  }

  /** An absolute path stays absolute. */
  lemma {:induction false} RemoveDotsKeepsRoot(input: string, output: string)
    requires (output != [] && output[0] == '/') || (output == [] && input != [] && input[0] == '/')
    ensures var r := RemoveDots(input, output); r != [] && r[0] == '/'
    decreases |input|
  {
    if input == [] {
    } else if StartsWith(input, "../") {
      RemoveDotsKeepsRoot(input[3..], output);
    } else if StartsWith(input, "./") {
      RemoveDotsKeepsRoot(input[2..], output);
    } else if StartsWith(input, "/./") {
      RemoveDotsKeepsRoot("/" + input[3..], output);
    } else if input == "/." {
      RemoveDotsKeepsRoot("/", output);
    } else if StartsWith(input, "/../") {
      RemoveDotsKeepsRoot("/" + input[4..], DropLastSegment(output));
    } else if input == "/.." {
      RemoveDotsKeepsRoot("/", DropLastSegment(output));
    } else if input == "." || input == ".." {
    } else {
      var n := FirstSegmentLength(input);
      RemoveDotsKeepsRoot(input[n..], output + input[..n]);
    }
  }

  /** Dot removal never introduces a "?" or "#". */
  lemma {:induction false} RemoveDotsNoDelimiters(input: string, output: string)
    requires NoneIn(input, PathEnd) && NoneIn(output, PathEnd)
    ensures NoneIn(RemoveDots(input, output), PathEnd)
    decreases |input|
  {
    if input == [] {
    } else if StartsWith(input, "../") {
      RemoveDotsNoDelimiters(input[3..], output);
    } else if StartsWith(input, "./") {
      RemoveDotsNoDelimiters(input[2..], output);
    } else if StartsWith(input, "/./") {
      RemoveDotsNoDelimiters("/" + input[3..], output);
    } else if input == "/." {
      RemoveDotsNoDelimiters("/", output);
    } else if StartsWith(input, "/../") {
      RemoveDotsNoDelimiters("/" + input[4..], DropLastSegment(output));
    } else if input == "/.." {
      RemoveDotsNoDelimiters("/", DropLastSegment(output));
    } else if input == "." || input == ".." {
    } else {
      var n := FirstSegmentLength(input);
      RemoveDotsNoDelimiters(input[n..], output + input[..n]);
    }
  }

  /** Merging a relative-path reference with the base path, RFC 3986 section 5.2.3. */
  function Merge(base: Url, refPath: string): string {
    if base.authority.Some? && base.path == [] then "/" + refPath
    else base.path[..LastIndexOf(base.path, '/') + 1] + refPath
  }

  /** Transform References, RFC 3986 section 5.2.2, for a reference whose
      scheme is absent (or was dropped as the non-strict variant allows). */
  function Resolve(base: Url, r: Url): Url {
    if r.authority.Some? then
      Url(base.scheme, r.authority, RemoveDotSegments(r.path), r.query, r.fragment)
    else if r.path == [] then
      Url(base.scheme, base.authority, base.path, if r.query.Some? then r.query else base.query, r.fragment)
    else if r.path[0] == '/' then
      Url(base.scheme, base.authority, RemoveDotSegments(r.path), r.query, r.fragment)
    else
      Url(base.scheme, base.authority, RemoveDotSegments(Merge(base, r.path)), r.query, r.fragment)
  }

  /** `urljoin(base, ref)`: an empty base gives the reference, an empty
      reference gives the base, a reference with another scheme is returned
      as written, and everything else is resolved. */
  function Join(base: string, ref: string): string {
    if base == [] then ref
    else if ref == [] then base
    else
      var b := Parse(base);
      var r := Parse(ref);
      if r.scheme.Some? && r.scheme != b.scheme then ref
      else Recompose(Resolve(b, r.(scheme := None)))
  }

  /** `url.split('#')[0]` */
  function DropFragment(url: string): (r: string)
    ensures '#' !in r
  {
    Before(url, '#')
  }

  /** `url.split('?')[0].split('#')[0]` */
  function DropQueryAndFragment(url: string): (r: string)
    ensures '?' !in r && '#' !in r
  {
    var r := Before(Before(url, '?'), '#');
    assert forall i :: 0 <= i < |r| ==> r[i] == Before(url, '?')[i];
    r
  }

  /** A reference with neither scheme nor authority, joined to an absolute
      URL with an authority, keeps the base's scheme and authority. */
  lemma JoinRelativeKeepsOrigin(base: string, ref: string)
    requires Parse(base).scheme.Some? && Parse(base).authority.Some?
    requires Parse(ref).scheme.None? && Parse(ref).authority.None?
    ensures Parse(Join(base, ref)).scheme == Parse(base).scheme
    ensures Netloc(Join(base, ref)) == Netloc(base)
  {
    if ref != [] {
      var b, r := Parse(base), Parse(ref);
      ParsedWellFormed(base);
      ParsedWellFormed(ref);
      ResolveRelativeWellFormed(b, r);
      ParseRecompose(Resolve(b, r.(scheme := None)));
    }
  }

  /** Resolving a reference without authority against a well-formed base
      with an authority gives well-formed components on the same origin. */
  lemma ResolveRelativeWellFormed(b: Url, r: Url)
    requires WellFormed(b) && WellFormed(r)
    requires b.scheme.Some? && b.authority.Some? && r.scheme.None? && r.authority.None?
    ensures var t := Resolve(b, r); WellFormed(t) && t.scheme == b.scheme && t.authority == b.authority
  {
    if r.path == [] {
    } else if r.path[0] == '/' {
      AbsolutePathWellFormed(b, r.path, r.query, r.fragment);
    } else {
      MergeAbsolute(b, r.path);
      AbsolutePathWellFormed(b, Merge(b, r.path), r.query, r.fragment);
    }
  }

  /** Merging with a base that has an authority gives an absolute path without delimiters. */
  lemma MergeAbsolute(b: Url, refPath: string)
    requires WellFormed(b) && b.authority.Some? && NoneIn(refPath, PathEnd)
    ensures var m := Merge(b, refPath); m != [] && m[0] == '/' && NoneIn(m, PathEnd)
  {
    var m := Merge(b, refPath);
    if !(b.authority.Some? && b.path == []) {
      LastIndexOfLast(b.path, '/');
      var k := LastIndexOf(b.path, '/') + 1;
      assert m == b.path[..k] + refPath;
      assert forall i :: 0 <= i < k ==> m[i] == b.path[i];
      assert forall i :: k <= i < |m| ==> m[i] == refPath[i - k];
    }
  }

  /** Replacing the path of a well-formed URL with authority by a dot-free
      version of an absolute path keeps it well formed. */
  lemma AbsolutePathWellFormed(b: Url, path: string, query: Option<string>, fragment: Option<string>)
    requires WellFormed(b) && b.scheme.Some? && b.authority.Some?
    requires path != [] && path[0] == '/' && NoneIn(path, PathEnd)
    requires query.Some? ==> NoneIn(query.value, QueryEnd)
    ensures WellFormed(Url(b.scheme, b.authority, RemoveDotSegments(path), query, fragment))
  {
    RemoveDotsKeepsRoot(path, "");
    RemoveDotsNoDelimiters(path, "");
  }
}
