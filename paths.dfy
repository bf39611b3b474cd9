/** File-system paths of the offline clone: the rule that turns a URL path
    into the file that holds the page, `os.path.splitext`,
    `os.path.dirname`, and `os.path.relpath` computed over lists of path
    components. */
module Paths {
  import opened Text

  /** `os.path.splitext(p)[1]`: from the last "." of the last segment on,
      provided the segment has a character other than "." before it
      (a leading dot, as in ".bashrc", does not start an extension). */
  function Extension(p: string): (r: string)
    ensures r == [] || (r[0] == '.' && EndsWith(p, r))
  {
    var sep := LastIndexOf(p, '/');
    var dot := LastIndexOf(p, '.');
    if dot > sep && SkipChar(p, '.', sep + 1) < dot then p[dot..] else ""
  }

  /** An extension never reaches back over a "/". */
  lemma ExtensionInLastSegment(p: string)
    ensures '/' !in Extension(p)
  {
    var sep := LastIndexOf(p, '/');
    var dot := LastIndexOf(p, '.');
    LastIndexOfLast(p, '/');
    if dot > sep && SkipChar(p, '.', sep + 1) < dot {
      var r := p[dot..];
      forall i | 0 <= i < |r| ensures r[i] != '/' {
        assert r[i] == p[dot + i];
      }
    }
  }

  /** The output file of a page whose URL path is `path`: the site root
      (any run of slashes, or nothing) is "index.html", a directory path
      gets "index.html" inside it, a path without an extension gets
      ".html", and anything else is kept with its slashes stripped. */
  function OutputPath(path: string): (r: string)
    ensures r != [] && r[0] != '/'
  {
    var stem := StripChar(path, '/');
    if stem == [] || path == "/" then "index.html"
    else if EndsWith(path, "/") then stem + "/index.html"
    else if Extension(stem) == [] then stem + ".html"
    else stem
  }

  /** The file name always begins with the slash-stripped path. */
  lemma OutputPathKeepsStem(path: string)
    ensures StartsWith(OutputPath(path), StripChar(path, '/'))
  {
    var stem := StripChar(path, '/');
    var r := OutputPath(path);
    if stem != [] && path != "/" {
      assert r[..|stem|] == stem;
    }
  }

  /** A path whose stem already has an extension and that does not end in
      "/" is stored under its stem, so the rule leaves file names alone. */
  lemma OutputPathOfFileName(path: string)
    requires !EndsWith(path, "/")
    requires Extension(StripChar(path, '/')) != []
    ensures OutputPath(path) == StripChar(path, '/')
  {
    assert StripChar(path, '/') != [];
  }

  /** `os.path.dirname(p)`: everything up to the last "/", with trailing
      slashes removed unless nothing else is left. */
  function Dirname(p: string): (r: string)
    ensures StartsWith(p, r)
  {
    var head := p[..LastIndexOf(p, '/') + 1];
    if SkipChar(head, '/', 0) < |head| then RStripChar(head, '/') else head
  }

  /** The segments of `s` from index `from` on, split at "/", without empty
      and "." segments. */
  function SegmentsFrom(s: string, from: nat): seq<string>
    requires from <= |s|
    decreases |s| - from
  {
    var e := IndexOfAnyFrom(s, {'/'}, from);
    var seg := s[from..e];
    var rest := if e < |s| then SegmentsFrom(s, e + 1) else [];
    if seg == "" || seg == "." then rest else [seg] + rest
  }

  function Components(p: string): seq<string> {
    SegmentsFrom(p, 0)
  }

  /** A component list as `os.path.normpath` leaves it: no empty or "."
      entries, no "/" inside an entry, and ".." only in a leading run. */
  predicate IsNormal(cs: seq<string>) {
    CleanNames(cs) && (forall j, k :: 0 <= k < j < |cs| && cs[j] == ".." ==> cs[k] == "..")
  }

  predicate CleanName(c: string) {
    c != "" && c != "." && '/' !in c
  }

  predicate CleanNames(cs: seq<string>) {
    forall j :: 0 <= j < |cs| ==> CleanName(cs[j])
  }

  predicate NoParent(cs: seq<string>) {
    forall j :: 0 <= j < |cs| ==> cs[j] != ".."
  }

  /** One step of `normpath`: ".." removes the previous name if there is one. */
  function Step(stack: seq<string>, c: string): seq<string> {
    if c == ".." && stack != [] && stack[|stack| - 1] != ".." then stack[..|stack| - 1]
    else stack + [c]
  }

  function NormalizeFrom(stack: seq<string>, cs: seq<string>): seq<string>
    decreases |cs|
  {
    if cs == [] then stack else NormalizeFrom(Step(stack, cs[0]), cs[1..])
  }

  /** The components of `os.path.normpath(p)` for a relative `p`. */
  function Normalize(cs: seq<string>): seq<string> {
    NormalizeFrom([], cs)
  }

  function Repeat(x: string, n: nat): (r: seq<string>)
    ensures |r| == n && forall j :: 0 <= j < n ==> r[j] == x
  {
    if n == 0 then [] else [x] + Repeat(x, n - 1)
  }

  /** Length of the longest common prefix of two component lists. */
  function CommonPrefix(a: seq<string>, b: seq<string>): (n: nat)
    ensures n <= |a| && n <= |b| && a[..n] == b[..n]
    ensures n < |a| && n < |b| ==> a[n] != b[n]
  {
    if a == [] || b == [] || a[0] != b[0] then 0
    else
      var n := CommonPrefix(a[1..], b[1..]);
      assert a[..n + 1] == [a[0]] + a[1..][..n];
      assert b[..n + 1] == [b[0]] + b[1..][..n];
      n + 1
  }

  /** The steps that lead from directory `start` to `target`: one ".." per
      directory of `start` below the common prefix, then the rest of `target`. */
  function RelComponents(target: seq<string>, start: seq<string>): seq<string> {
    var n := CommonPrefix(start, target);
    Repeat("..", |start| - n) + target[n..]
  }

  /** `os.path.relpath(target, start)` for relative paths. */
  function RelPath(target: string, start: string): string {
    var rel := RelComponents(Normalize(Components(target)), Normalize(Components(start)));
    if rel == [] then "." else Join(rel, "/")
  }

  /** Every component is a non-empty name other than "." without a "/". */
  lemma {:induction false} SegmentsClean(s: string, from: nat)
    requires from <= |s|
    ensures CleanNames(SegmentsFrom(s, from))
    decreases |s| - from
  {
    var e := IndexOfAnyFrom(s, {'/'}, from);
    IndexOfAnyFromFirst(s, {'/'}, from);
    var seg := s[from..e];
    assert '/' !in seg by {
      forall i | 0 <= i < |seg| ensures seg[i] != '/' {
        assert seg[i] == s[from + i];
      }
    }
    var rest := if e < |s| then SegmentsFrom(s, e + 1) else [];
    if e < |s| {
      SegmentsClean(s, e + 1);
    }
    assert CleanNames(rest);
    if !(seg == "" || seg == ".") {
      assert CleanName(seg);
      assert CleanNames([seg] + rest);
    }
  }

  lemma StepKeepsNormal(stack: seq<string>, c: string)
    requires IsNormal(stack) && CleanName(c)
    ensures IsNormal(Step(stack, c))
  {
    if c == ".." && !(stack != [] && stack[|stack| - 1] != "..") && stack != [] {
      assert forall k :: 0 <= k < |stack| ==> stack[k] == "..";
    }
  }

  lemma {:induction false} NormalizeFromNormal(stack: seq<string>, cs: seq<string>)
    requires IsNormal(stack) && CleanNames(cs)
    ensures IsNormal(NormalizeFrom(stack, cs))
    decreases |cs|
  {
    if cs != [] {
      StepKeepsNormal(stack, cs[0]);
      NormalizeFromNormal(Step(stack, cs[0]), cs[1..]);
    }
  }

  /** The components of a path, normalised, are in normal form. */
  lemma NormalizedComponents(p: string)
    ensures IsNormal(Normalize(Components(p)))
  {
    SegmentsClean(p, 0);
    NormalizeFromNormal([], Components(p));
  }

  /** Steps that keep the list normal are all pushes. */
  lemma {:induction false} NormalizeFromPushes(stack: seq<string>, t: seq<string>)
    requires IsNormal(stack + t)
    ensures NormalizeFrom(stack, t) == stack + t
    decreases |t|
  {
    if t != [] {
      var st := stack + t;
      if t[0] == ".." && stack != [] {
        assert st[|stack|] == ".." && st[|stack| - 1] == stack[|stack| - 1];
      }
      assert Step(stack, t[0]) == stack + [t[0]];
      assert (stack + [t[0]]) + t[1..] == st;
      NormalizeFromPushes(stack + [t[0]], t[1..]);
    }
  }

  /** Each leading ".." of the steps climbs one directory out of `stack`. */
  lemma {:induction false} ClimbOut(stack: seq<string>, k: nat, rest: seq<string>)
    requires NoParent(stack) && k <= |stack|
    ensures NormalizeFrom(stack, Repeat("..", k) + rest) == NormalizeFrom(stack[..|stack| - k], rest)
    decreases k
  {
    if k > 0 {
      var steps := Repeat("..", k) + rest;
      assert steps[0] == ".." && steps[1..] == Repeat("..", k - 1) + rest;
      var up := stack[..|stack| - 1];
      assert stack[|stack| - 1] != "..";
      assert Step(stack, "..") == up;
      assert NormalizeFrom(stack, steps) == NormalizeFrom(up, steps[1..]);
      assert NoParent(up);
      assert up[..|up| - (k - 1)] == stack[..|stack| - k];
      ClimbOut(up, k - 1, rest);
    } else {
      assert Repeat("..", k) + rest == rest && stack[..|stack| - k] == stack;
    }
  }

  /** Following the relative steps from `start` leads to `target`, as long as
      `start` does not itself climb above its root. */
  lemma RelComponentsReach(target: seq<string>, start: seq<string>)
    requires IsNormal(target) && NoParent(start)
    ensures NormalizeFrom(start, RelComponents(target, start)) == target
  {
    var n := CommonPrefix(start, target);
    ClimbOut(start, |start| - n, target[n..]);
    assert start[..|start| - (|start| - n)] == target[..n];
    assert target[..n] + target[n..] == target;
    NormalizeFromPushes(target[..n], target[n..]);
  }

  /** Normalising a concatenation is normalising the second part on top of
      the normalised first part. */
  lemma {:induction false} NormalizeFromAppend(stack: seq<string>, a: seq<string>, b: seq<string>)
    ensures NormalizeFrom(stack, a + b) == NormalizeFrom(NormalizeFrom(stack, a), b)
    decreases |a|
  {
    if a != [] {
      assert (a + b)[0] == a[0] && (a + b)[1..] == a[1..] + b;
      assert NormalizeFrom(stack, a + b) == NormalizeFrom(Step(stack, a[0]), a[1..] + b);
      NormalizeFromAppend(Step(stack, a[0]), a[1..], b);
    } else {
      assert a + b == b;
    }
  }

  /** `normpath(join(start, relpath(target, start))) == normpath(target)`,
      at the level of components, whenever `start` stays below its root. */
  lemma RelPathRoundTrip(target: string, start: string)
    requires NoParent(Normalize(Components(start)))
    ensures var rel := RelComponents(Normalize(Components(target)), Normalize(Components(start)));
      Normalize(Components(start) + rel) == Normalize(Components(target))
  {
    var t := Normalize(Components(target));
    var s := Normalize(Components(start));
    NormalizedComponents(target);
    NormalizeFromAppend([], Components(start), RelComponents(t, s));
    RelComponentsReach(t, s);
  }

  /** The documented cases of the file-name rule. */
  lemma OutputPathOfName()
    ensures OutputPath("/about") == "about.html"
  {
    assert SkipChar("/about", '/', 1) == 1;
    assert StripChar("/about", '/') == "about";
    LastIndexBeforeIs("about", '/', 5, -1);
    LastIndexBeforeIs("about", '.', 5, -1);
  }

  lemma OutputPathOfNestedName()
    ensures OutputPath("/blog/post") == "blog/post.html"
  {
    var stem := "blog/post";
    assert SkipChar("/blog/post", '/', 1) == 1;
    assert StripChar("/blog/post", '/') == stem;
    LastIndexBeforeIs(stem, '/', |stem|, 4);
    LastIndexBeforeIs(stem, '.', |stem|, -1);
  }

  lemma OutputPathOfDirectory()
    ensures OutputPath("/about/") == "about/index.html"
  {
    assert SkipChar("/about/", '/', 1) == 1;
    assert LStripChar("/about/", '/') == "about/";
    assert TrailingChar("about/", '/', 5) == 5;
    assert RStripChar("about/", '/') == "about";
  }

  lemma OutputPathOfFile()
    ensures OutputPath("/blog/post.php") == "blog/post.php"
  {
    var stem := "blog/post.php";
    assert SkipChar("/blog/post.php", '/', 1) == 1;
    assert LStripChar("/blog/post.php", '/') == stem;
    assert TrailingChar(stem, '/', |stem|) == |stem|;
    assert StripChar("/blog/post.php", '/') == stem;
    LastIndexBeforeIs(stem, '/', |stem|, 4);
    LastIndexBeforeIs(stem, '.', |stem|, 9);
    assert SkipChar(stem, '.', 5) == 5;
  }

  lemma OutputPathOfRoot()
    ensures OutputPath("") == "index.html" && OutputPath("/") == "index.html"
    ensures OutputPath("///") == "index.html"
  {
    assert SkipChar("///", '/', 0) == 3;
  }

  lemma NormalizeSingle(c: string)
    requires c != ".."
    ensures Normalize([c]) == [c]
  {
    assert Step([], c) == [c];
    assert [c][0] == c && [c][1..] == [];
    assert NormalizeFrom([], [c]) == NormalizeFrom([c], []);
  }

  lemma SingleComponent(p: string)
    requires p != "" && p != "." && '/' !in p
    ensures Components(p) == [p]
  {
    IndexOfAnyFromIs(p, {'/'}, 0, |p|);
    assert p[0..|p|] == p;
  }

  lemma DirnameExample()
    ensures Dirname("blog/post.html") == "blog"
  {
    var p := "blog/post.html";
    LastIndexBeforeIs(p, '/', |p|, 4);
    assert p[..5] == "blog/";
    assert SkipChar("blog/", '/', 0) == 0;
    assert TrailingChar("blog/", '/', 4) == 4;
  }

  lemma RelPathOfNames()
    ensures RelPath("index.html", "blog") == "../index.html"
  {
    var t, b := "index.html", "blog";
    SingleComponent(t);
    SingleComponent(b);
    NormalizeSingle(t);
    NormalizeSingle(b);
    var rel := RelComponents([t], [b]);
    assert rel == ["..", t];
    assert Join(rel, "/") == "../index.html";
  }

  /** From the page stored as "blog/post.html", whose directory is "blog",
      the site root's file is reached as "../index.html". */
  lemma RelPathExample()
    ensures RelPath(OutputPath("/"), Dirname("blog/post.html")) == "../index.html"
  {
    OutputPathOfRoot();
    DirnameExample();
    RelPathOfNames();
  }
}
