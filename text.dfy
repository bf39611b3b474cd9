/** String helpers with the meaning of the Python `str` methods the source
    relies on (`strip`, `rstrip`, `startswith`, `endswith`, `split(c)[0]`,
    `rfind`, `replace`, `lower`, `in`, `join`).  Strings are `seq<char>`;
    whitespace is that of `str.isspace`.  Every scan walks an index over a
    fixed string. */
module Text {

  /** The characters of `str.isspace`, which `strip()` removes and which `\s`
      matches in a `str` pattern: the tab to carriage-return controls, the
      four separators U+001C to U+001F, the space, NEXT LINE, NO-BREAK
      SPACE, and the Unicode space separators and line and paragraph
      separators. */
  predicate IsWhitespace(c: char) {
    || '\t' <= c <= '\r'
    || '\U{001C}' <= c <= ' '
    || c == '\U{0085}' || c == '\U{00A0}' || c == '\U{1680}'
    || '\U{2000}' <= c <= '\U{200A}'
    || c == '\U{2028}' || c == '\U{2029}' || c == '\U{202F}' || c == '\U{205F}' || c == '\U{3000}'
  }

  predicate StartsWith(s: string, p: string) {
    |p| <= |s| && s[..|p|] == p
  }

  predicate EndsWith(s: string, p: string) {
    |p| <= |s| && s[|s| - |p|..] == p
  }

  /** `sub` occurs in `s` at index `i`. */
  predicate OccursAt(s: string, sub: string, i: nat) {
    i + |sub| <= |s| && s[i..i + |sub|] == sub
  }

  /** `sub in s` */
  predicate Contains(s: string, sub: string) {
    exists i | 0 <= i <= |s| :: OccursAt(s, sub, i)
  }

  /** A text occurs in any text built around it. */
  lemma ContainsIn(pre: string, mid: string, post: string)
    ensures OccursAt(pre + mid + post, mid, |pre|)
    ensures Contains(pre + mid + post, mid)
  {
    assert (pre + mid + post)[|pre|..|pre| + |mid|] == mid;
    assert OccursAt(pre + mid + post, mid, |pre|);
  }

  lemma ContainsSelf(x: string)
    ensures Contains(x, x)
  {
    assert OccursAt(x, x, 0);
  }

  lemma ContainsLeft(a: string, b: string, x: string)
    requires Contains(a, x)
    ensures Contains(a + b, x)
  {
    var i :| 0 <= i <= |a| && OccursAt(a, x, i);
    assert (a + b)[i..i + |x|] == a[i..i + |x|];
    assert OccursAt(a + b, x, i);
  }

  lemma ContainsRight(a: string, b: string, x: string)
    requires Contains(b, x)
    ensures Contains(a + b, x)
  {
    var i :| 0 <= i <= |b| && OccursAt(b, x, i);
    assert (a + b)[|a| + i..|a| + i + |x|] == b[i..i + |x|];
    assert OccursAt(a + b, x, |a| + i);
  }

  lemma StartsWithConcat(a: string, b: string, p: string)
    requires StartsWith(a, p)
    ensures StartsWith(a + b, p)
  {
    assert (a + b)[..|p|] == a[..|p|];
  }

  /** First index at or after `from` whose character is not whitespace, or `|s|`. */
  function SkipWhitespace(s: string, from: nat): (r: nat)
    requires from <= |s|
    ensures from <= r <= |s|
    ensures r < |s| ==> !IsWhitespace(s[r])
    ensures forall i :: from <= i < r ==> IsWhitespace(s[i])
    decreases |s| - from
  {
    if from == |s| || !IsWhitespace(s[from]) then from else SkipWhitespace(s, from + 1)
  }

  /** Least `r <= upto` such that `s[r..upto]` is all whitespace. */
  function TrailingWhitespace(s: string, upto: nat): (r: nat)
    requires upto <= |s|
    ensures r <= upto
    ensures r > 0 ==> !IsWhitespace(s[r - 1])
    ensures forall i :: r <= i < upto ==> IsWhitespace(s[i])
  {
    if upto == 0 || !IsWhitespace(s[upto - 1]) then upto else TrailingWhitespace(s, upto - 1)
  }

  /** `s.lstrip()` */
  function TrimStart(s: string): (r: string)
    ensures |r| <= |s| && r == s[|s| - |r|..]
    ensures r == [] || !IsWhitespace(r[0])
    ensures forall i :: 0 <= i < |s| - |r| ==> IsWhitespace(s[i])
  {
    s[SkipWhitespace(s, 0)..]
  }

  /** `s.rstrip()` */
  function TrimEnd(s: string): (r: string)
    ensures |r| <= |s| && r == s[..|r|]
    ensures r == [] || !IsWhitespace(r[|r| - 1])
    ensures forall i :: |r| <= i < |s| ==> IsWhitespace(s[i])
  {
    s[..TrailingWhitespace(s, |s|)]
  }

  /** `r` occurs in `s` at index `i`, with only white space around it. */
  predicate TrimmedAt(s: string, r: string, i: nat) {
    && i + |r| <= |s| && s[i..i + |r|] == r
    && (forall k :: 0 <= k < i ==> IsWhitespace(s[k]))
    && (forall k :: i + |r| <= k < |s| ==> IsWhitespace(s[k]))
  }

  /** `s.strip()`: the slice of `s` left after removing the white space at
      both ends. */
  function Trim(s: string): (r: string)
    ensures r == [] || (!IsWhitespace(r[0]) && !IsWhitespace(r[|r| - 1]))
    ensures exists i :: TrimmedAt(s, r, i)
  {
    var t := TrimStart(s);
    var r := TrimEnd(t);
    var i := |s| - |t|;
    assert s[i..i + |r|] == r;
    assert forall k :: i + |r| <= k < |s| ==> s[k] == t[k - i];
    assert TrimmedAt(s, r, i);
    r
  }

  lemma {:induction false} SkipWhitespaceIs(s: string, from: nat, k: nat)
    requires from <= k <= |s|
    requires forall i :: from <= i < k ==> IsWhitespace(s[i])
    requires k == |s| || !IsWhitespace(s[k])
    ensures SkipWhitespace(s, from) == k
    decreases k - from
  {
    if from < k {
      SkipWhitespaceIs(s, from + 1, k);
    }
  }

  lemma {:induction false} TrailingWhitespaceIs(s: string, upto: nat, k: nat)
    requires k <= upto <= |s|
    requires forall i :: k <= i < upto ==> IsWhitespace(s[i])
    requires k == 0 || !IsWhitespace(s[k - 1])
    ensures TrailingWhitespace(s, upto) == k
    decreases upto
  {
    if k < upto {
      TrailingWhitespaceIs(s, upto - 1, k);
    }
  }

  /** Trimming text padded with whitespace on both sides gives back the
      text, when the text itself neither begins nor ends with whitespace. */
  lemma TrimPadded(pre: string, body: string, post: string)
    requires forall i :: 0 <= i < |pre| ==> IsWhitespace(pre[i])
    requires forall i :: 0 <= i < |post| ==> IsWhitespace(post[i])
    requires body != [] && !IsWhitespace(body[0]) && !IsWhitespace(body[|body| - 1])
    ensures Trim(pre + body + post) == body
  {
    var s := pre + body + post;
    SkipWhitespaceIs(s, 0, |pre|);
    var t := TrimStart(s);
    assert t == body + post;
    TrailingWhitespaceIs(t, |t|, |body|);
  }

  /** First index at or after `from` whose character is not `c`, or `|s|`. */
  function SkipChar(s: string, c: char, from: nat): (r: nat)
    requires from <= |s|
    ensures from <= r <= |s|
    ensures r < |s| ==> s[r] != c
    ensures forall i :: from <= i < r ==> s[i] == c
    decreases |s| - from
  {
    if from == |s| || s[from] != c then from else SkipChar(s, c, from + 1)
  }

  /** Least `r <= upto` such that `s[r..upto]` is all `c`. */
  function TrailingChar(s: string, c: char, upto: nat): (r: nat)
    requires upto <= |s|
    ensures r <= upto
    ensures r > 0 ==> s[r - 1] != c
    ensures forall i :: r <= i < upto ==> s[i] == c
  {
    if upto == 0 || s[upto - 1] != c then upto else TrailingChar(s, c, upto - 1)
  }

  /** `s.lstrip(c)` */
  function LStripChar(s: string, c: char): (r: string)
    ensures |r| <= |s| && r == s[|s| - |r|..]
    ensures r == [] || r[0] != c
    ensures forall i :: 0 <= i < |s| - |r| ==> s[i] == c
  {
    s[SkipChar(s, c, 0)..]
  }

  /** `s.rstrip(c)` */
  function RStripChar(s: string, c: char): (r: string)
    ensures |r| <= |s| && r == s[..|r|]
    ensures r == [] || r[|r| - 1] != c
    ensures forall i :: |r| <= i < |s| ==> s[i] == c
  {
    s[..TrailingChar(s, c, |s|)]
  }

  /** `r` occurs in `s` at index `i`, with only `c` around it. */
  predicate StrippedAt(s: string, c: char, r: string, i: nat) {
    && i + |r| <= |s| && s[i..i + |r|] == r
    && (forall k :: 0 <= k < i ==> s[k] == c)
    && (forall k :: i + |r| <= k < |s| ==> s[k] == c)
  }

  /** `s.strip(c)`: the slice of `s` left after removing the `c`s at both
      ends. */
  function StripChar(s: string, c: char): (r: string)
    ensures r == [] || (r[0] != c && r[|r| - 1] != c)
    ensures exists i :: StrippedAt(s, c, r, i)
  {
    var t := LStripChar(s, c);
    var r := RStripChar(t, c);
    var i := |s| - |t|;
    assert s[i..i + |r|] == r;
    assert forall k :: i + |r| <= k < |s| ==> s[k] == t[k - i];
    assert StrippedAt(s, c, r, i);
    r
  }

  /** First index at or after `from` whose character is in `cs`, or `|s|`. */
  function IndexOfAnyFrom(s: string, cs: set<char>, from: nat): (r: nat)
    requires from <= |s|
    ensures from <= r <= |s|
    ensures r < |s| ==> s[r] in cs
    decreases |s| - from
  {
    if from == |s| || s[from] in cs then from else IndexOfAnyFrom(s, cs, from + 1)
  }

  /** No character between `from` and `IndexOfAnyFrom(s, cs, from)` is in `cs`. */
  lemma {:induction false} IndexOfAnyFromFirst(s: string, cs: set<char>, from: nat)
    requires from <= |s|
    ensures forall i :: from <= i < IndexOfAnyFrom(s, cs, from) ==> s[i] !in cs
    decreases |s| - from
  {
    if from < |s| && s[from] !in cs {
      IndexOfAnyFromFirst(s, cs, from + 1);
    }
  }

  /** `IndexOfAnyFrom` stops at the first index whose character is in `cs`. */
  lemma {:induction false} IndexOfAnyFromIs(s: string, cs: set<char>, from: nat, k: nat)
    requires from <= k <= |s|
    requires forall i :: from <= i < k ==> s[i] !in cs
    requires k == |s| || s[k] in cs
    ensures IndexOfAnyFrom(s, cs, from) == k
    decreases k - from
  {
    if from < k {
      IndexOfAnyFromIs(s, cs, from + 1, k);
    }
  }

  /** Index of the first character of `s` in `cs`, or `|s|` if there is none. */
  function IndexOfAny(s: string, cs: set<char>): (r: nat)
    ensures r <= |s|
    ensures r < |s| ==> s[r] in cs
  {
    IndexOfAnyFrom(s, cs, 0)
  }

  lemma IndexOfAnyFirst(s: string, cs: set<char>)
    ensures forall i :: 0 <= i < IndexOfAny(s, cs) ==> s[i] !in cs
  {
    IndexOfAnyFromFirst(s, cs, 0);
  }

  /** `s.split(c)[0]`: everything before the first `c`. */
  function Before(s: string, c: char): (r: string)
    ensures StartsWith(s, r)
    ensures c !in r
    ensures |r| < |s| ==> s[|r|] == c
  {
    IndexOfAnyFirst(s, {c});
    s[..IndexOfAny(s, {c})]
  }

  /** Index of the last `c` among the first `upto` characters, or -1. */
  function LastIndexBefore(s: string, c: char, upto: nat): (r: int)
    requires upto <= |s|
    ensures -1 <= r < upto
    ensures r >= 0 ==> s[r] == c
  {
    if upto == 0 then -1
    else if s[upto - 1] == c then upto - 1
    else LastIndexBefore(s, c, upto - 1)
  }

  lemma {:induction false} LastIndexBeforeLast(s: string, c: char, upto: nat)
    requires upto <= |s|
    ensures forall i :: LastIndexBefore(s, c, upto) < i < upto ==> s[i] != c
  {
    if upto > 0 && s[upto - 1] != c {
      LastIndexBeforeLast(s, c, upto - 1);
    }
  }

  /** `LastIndexBefore` stops at the last `c` below `upto`. */
  lemma {:induction false} LastIndexBeforeIs(s: string, c: char, upto: nat, k: int)
    requires -1 <= k < upto <= |s|
    requires k >= 0 ==> s[k] == c
    requires forall i :: k < i < upto ==> s[i] != c
    ensures LastIndexBefore(s, c, upto) == k
    decreases upto
  {
    if upto - 1 > k {
      LastIndexBeforeIs(s, c, upto - 1, k);
    }
  }

  /** `s.rfind(c)` */
  function LastIndexOf(s: string, c: char): (r: int)
    ensures -1 <= r < |s|
    ensures r >= 0 ==> s[r] == c
  {
    LastIndexBefore(s, c, |s|)
  }

  lemma LastIndexOfLast(s: string, c: char)
    ensures forall i :: LastIndexOf(s, c) < i < |s| ==> s[i] != c
  {
    LastIndexBeforeLast(s, c, |s|);
  }

  /** The text from index `from` on, with every non-overlapping occurrence of
      `pattern` replaced, scanning left to right. */
  function ReplaceFrom(s: string, pattern: string, replacement: string, from: nat): string
    requires pattern != [] && from <= |s|
    decreases |s| - from
  {
    if from == |s| then ""
    else if OccursAt(s, pattern, from) then replacement + ReplaceFrom(s, pattern, replacement, from + |pattern|)
    else [s[from]] + ReplaceFrom(s, pattern, replacement, from + 1)
  }

  /** `s.replace(pattern, replacement)` */
  function ReplaceAll(s: string, pattern: string, replacement: string): string
    requires pattern != []
  {
    ReplaceFrom(s, pattern, replacement, 0)
  }

  lemma {:induction false} ReplaceFromAbsent(s: string, pattern: string, replacement: string, from: nat)
    requires pattern != [] && from <= |s|
    requires !Contains(s, pattern)
    ensures ReplaceFrom(s, pattern, replacement, from) == s[from..]
    decreases |s| - from
  {
    if from < |s| {
      assert !OccursAt(s, pattern, from);
      ReplaceFromAbsent(s, pattern, replacement, from + 1);
      assert s[from..] == [s[from]] + s[from + 1..];
    }
  }

  /** Replacing a text that does not occur changes nothing. */
  lemma ReplaceAbsent(s: string, pattern: string, replacement: string)
    requires pattern != []
    requires !Contains(s, pattern)
    ensures ReplaceAll(s, pattern, replacement) == s
  {
    ReplaceFromAbsent(s, pattern, replacement, 0);
  }

  function ToLowerChar(c: char): char {
    if 'A' <= c <= 'Z' then (c as int + 32) as char else c
  }

  /** `s.lower()` on ASCII letters. */
  function ToLower(s: string): (r: string)
    ensures |r| == |s|
    ensures forall i :: 0 <= i < |s| ==> r[i] == ToLowerChar(s[i])
  {
    seq(|s|, i requires 0 <= i < |s| => ToLowerChar(s[i]))
  }

  /** `s[:n]` */
  function Take(s: string, n: nat): (r: string)
    ensures |r| <= n && StartsWith(s, r)
    ensures |s| <= n ==> r == s
  {
    if |s| <= n then s else s[..n]
  }

  /** `sep.join(parts)` */
  function Join(parts: seq<string>, sep: string): string {
    if parts == [] then ""
    else if |parts| == 1 then parts[0]
    else parts[0] + sep + Join(parts[1..], sep)
  }

  function DigitChar(d: nat): char
    requires d < 10
  {
    "0123456789"[d]
  }

  /** The number a run of decimal digits denotes. */
  function DecimalValue(ds: string): nat
    requires forall i :: 0 <= i < |ds| ==> '0' <= ds[i] <= '9'
  {
    if ds == [] then 0
    else DecimalValue(ds[..|ds| - 1]) * 10 + (ds[|ds| - 1] as int - '0' as int)
  }

  /** `str(n)` for a natural number: the decimal digits of `n`, without
      leading zeros. */
  function NatToString(n: nat): (r: string)
    ensures r != []
    ensures forall i :: 0 <= i < |r| ==> '0' <= r[i] <= '9'
    ensures DecimalValue(r) == n
    ensures r[0] == '0' ==> r == "0"
  {
    if n < 10 then [DigitChar(n)]
    else
      var head := NatToString(n / 10);
      var r := head + [DigitChar(n % 10)];
      assert r[..|r| - 1] == head;
      r
  }
}
