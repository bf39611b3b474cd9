/** Offline link rewriting of a full-site clone: every cloned page gets a
    file in the archive, and every anchor that points to a cloned page is
    rewritten to the path of that file relative to the directory of the
    page that holds the anchor. */
module LinkRewriter {
  import opened Wrappers
  import opened Text
  import Urls
  import opened Paths
  import opened Documents
  import opened Models

  /** The file that holds the page at `url`: the path of the URL without
      query and fragment, put through the file-name rule. */
  function PageFile(url: string): (r: string)
    ensures r != [] && r[0] != '/'
  {
    OutputPath(Urls.UrlparsePath(Urls.DropQueryAndFragment(url)))
  }

  /** The keys one page contributes, both naming `file`: its URL, and the
      URL without trailing slashes when it has some. */
  function Entries(url: string, file: string): (m: map<string, string>)
    ensures url in m && m[url] == file
    ensures EndsWith(url, "/") ==> RStripChar(url, '/') in m && m[RStripChar(url, '/')] == file
    ensures forall k :: k in m ==> m[k] == file && (k == url || (EndsWith(url, "/") && k == RStripChar(url, '/')))
  {
    if EndsWith(url, "/") then map[url := file, RStripChar(url, '/') := file]
    else map[url := file]
  }

  /** The URL-to-file map after the pages `urls`, each filed by `file`; a
      later page overwrites the keys it shares with an earlier one. */
  function UrlMap(urls: seq<string>, file: string -> string): map<string, string> {
    if urls == [] then map[]
    else
      var last := urls[|urls| - 1];
      UrlMap(urls[..|urls| - 1], file) + Entries(last, file(last))
  }

  function PageUrls(pages: seq<PageCloneResult>): (r: seq<string>)
    ensures |r| == |pages| && forall i :: 0 <= i < |pages| ==> r[i] == pages[i].url
  {
    seq(|pages|, i requires 0 <= i < |pages| => pages[i].url)
  }

  /** The two assignments of one step of the map building add the
      page's entries. */
  lemma AddEntries(m: map<string, string>, url: string, file: string)
    ensures EndsWith(url, "/") ==> m[url := file][RStripChar(url, '/') := file] == m + Entries(url, file)
    ensures !EndsWith(url, "/") ==> m[url := file] == m + Entries(url, file)
  {
  }

  /** Step 1 of the link fixing: the map from page URL to file. */
  method BuildUrlMap(urls: seq<string>) returns (m: map<string, string>)
    ensures m == UrlMap(urls, PageFile)
  {
    m := map[];
    for i := 0 to |urls|
      invariant m == UrlMap(urls[..i], PageFile)
    {
      assert urls[..i + 1][..i] == urls[..i];
      var url := urls[i];
      var file := PageFile(url);
      AddEntries(m, url, file);
      m := m[url := file];
      if EndsWith(url, "/") {
        m := m[RStripChar(url, '/') := file];
      }
    }
    assert urls[..|urls|] == urls;
  }

  /** Every page URL is a key, and so is its slash-stripped form. */
  lemma {:induction false} UrlMapCoversPages(urls: seq<string>, file: string -> string, i: nat)
    requires i < |urls|
    ensures urls[i] in UrlMap(urls, file)
    ensures EndsWith(urls[i], "/") ==> RStripChar(urls[i], '/') in UrlMap(urls, file)
    decreases |urls|
  {
    var n := |urls| - 1;
    if i < n {
      assert urls[..n][i] == urls[i];
      UrlMapCoversPages(urls[..n], file, i);
    }
  }

  /** Every file in the map is the file of one of the pages. */
  lemma {:induction false} UrlMapValues(urls: seq<string>, file: string -> string, k: string)
    requires k in UrlMap(urls, file)
    ensures exists i :: 0 <= i < |urls| && UrlMap(urls, file)[k] == file(urls[i])
    decreases |urls|
  {
    var n := |urls| - 1;
    if k in Entries(urls[n], file(urls[n])) {
      assert UrlMap(urls, file)[k] == file(urls[n]);
    } else {
      UrlMapValues(urls[..n], file, k);
      var i :| 0 <= i < n && UrlMap(urls[..n], file)[k] == file(urls[..n][i]);
      assert urls[..n][i] == urls[i];
    }
  }

  /** A key of a page that no later page reuses keeps that page's file. */
  lemma {:induction false} UrlMapLookup(urls: seq<string>, file: string -> string, i: nat, k: string)
    requires i < |urls| && k in Entries(urls[i], file(urls[i]))
    requires forall j :: i < j < |urls| ==> k !in Entries(urls[j], file(urls[j]))
    ensures k in UrlMap(urls, file) && UrlMap(urls, file)[k] == file(urls[i])
    decreases |urls|
  {
    var n := |urls| - 1;
    if i < n {
      assert urls[..n][i] == urls[i];
      forall j | i < j < n ensures k !in Entries(urls[..n][j], file(urls[..n][j])) {
        assert urls[..n][j] == urls[j];
      }
      UrlMapLookup(urls[..n], file, i, k);
      assert k !in Entries(urls[n], file(urls[n]));
    }
  }

  /** The file a cleaned link points to: the map entry of the URL, or of
      the URL without trailing slashes, when that entry is non-empty. */
  function TargetFile(m: map<string, string>, clean: string): (r: Option<string>)
    ensures r.Some? ==> r.value != [] && r.value in m.Values
    ensures clean in m && m[clean] != [] ==> r == Some(m[clean])
  {
    if clean in m && m[clean] != [] then Some(m[clean])
    else if EndsWith(clean, "/") && RStripChar(clean, '/') in m && m[RStripChar(clean, '/')] != [] then
      Some(m[RStripChar(clean, '/')])
    else None
  }

  /** Links that stay within the page or leave the web. */
  predicate Skipped(href: string) {
    href == [] || StartsWith(href, "#") || StartsWith(href, "mailto:") || StartsWith(href, "tel:")
  }

  /** The new `href` of an anchor on the page at `pageUrl`, whose file lies
      in directory `dir`. */
  function RewriteHref(m: map<string, string>, pageUrl: string, dir: string, href: string): (r: string)
    ensures Skipped(href) ==> r == href
    ensures r == href || exists file :: file in m.Values && r == RelPath(file, dir)
  {
    if Skipped(href) then href
    else
      match TargetFile(m, Urls.DropQueryAndFragment(Urls.Join(pageUrl, href)))
      case Some(file) => RelPath(file, dir)
      case None => href
  }

  /** A link to a cloned page becomes the relative path to its file; the
      query and fragment of the link play no part. */
  lemma RewriteToClonedPage(m: map<string, string>, pageUrl: string, dir: string, href: string)
    requires !Skipped(href)
    requires var clean := Urls.DropQueryAndFragment(Urls.Join(pageUrl, href));
      clean in m && m[clean] != []
    ensures RewriteHref(m, pageUrl, dir, href)
      == RelPath(m[Urls.DropQueryAndFragment(Urls.Join(pageUrl, href))], dir)
  {
  }

  /** A link to a page that was not cloned keeps its `href`. */
  lemma RewriteOutsideLink(m: map<string, string>, pageUrl: string, dir: string, href: string)
    requires var clean := Urls.DropQueryAndFragment(Urls.Join(pageUrl, href));
      TargetFile(m, clean).None?
    ensures RewriteHref(m, pageUrl, dir, href) == href
  {
  }

  predicate IsAnchor(e: Element) {
    e.tag == "a" && "href" in e.attrs
  }

  function RewriteElement(m: map<string, string>, pageUrl: string, dir: string, e: Element): (r: Element)
    ensures r.tag == e.tag && r.text == e.text && r.attrs.Keys == e.attrs.Keys
    ensures forall k :: k in e.attrs && k != "href" ==> r.attrs[k] == e.attrs[k]
    ensures !IsAnchor(e) ==> r == e
  {
    if IsAnchor(e) then e.(attrs := e.attrs["href" := RewriteHref(m, pageUrl, dir, e.attrs["href"])])
    else e
  }

  function RewriteDocument(m: map<string, string>, pageUrl: string, dir: string, doc: Document): (r: Document)
    ensures |r| == |doc|
    ensures forall i :: 0 <= i < |doc| ==> r[i] == RewriteElement(m, pageUrl, dir, doc[i])
  {
    seq(|doc|, i requires 0 <= i < |doc| => RewriteElement(m, pageUrl, dir, doc[i]))
  }

  /** The body of the anchor loop for one element. */
  method RewriteAnchor(m: map<string, string>, pageUrl: string, dir: string, e: Element) returns (r: Element)
    ensures r == RewriteElement(m, pageUrl, dir, e)
  {
    r := e;
    if e.tag == "a" && "href" in e.attrs {
      var href := e.attrs["href"];
      if !Skipped(href) {
        var full := Urls.Join(pageUrl, href);
        var clean := Urls.DropQueryAndFragment(full);
        var target := TargetFile(m, clean);
        if target.Some? {
          r := e.(attrs := e.attrs["href" := RelPath(target.value, dir)]);
        }
      }
      assert r.attrs == e.attrs["href" := RewriteHref(m, pageUrl, dir, href)];
    }
  }

  /** The anchors of one parsed page, rewritten in place. */
  method RewriteAnchors(m: map<string, string>, pageUrl: string, dir: string, doc: array<Element>)
    modifies doc
    ensures doc[..] == RewriteDocument(m, pageUrl, dir, old(doc[..]))
  {
    ghost var want := RewriteDocument(m, pageUrl, dir, doc[..]);
    for i := 0 to doc.Length
      invariant forall j :: 0 <= j < i ==> doc[j] == want[j]
      invariant forall j :: i <= j < doc.Length ==> doc[j] == old(doc[j])
    {
      var e := doc[i];
      var r := RewriteAnchor(m, pageUrl, dir, e);
      assert r == want[i];
      doc[i] := r;
    }
    assert doc[..] == want;
  }

  /** The html of a page after step 2, given the map of step 1; a page
      that cannot be parsed keeps its html. */
  function FixedHtml(codec: HtmlCodec, m: map<string, string>, page: PageCloneResult): string {
    match codec.parse(page.html)
    case None => page.html
    case Some(doc) =>
      var dir := Dirname(if page.url in m then m[page.url] else "");
      codec.serialize(RewriteDocument(m, page.url, dir, doc))
  }

  /** The body of step 2 for one page. */
  method FixPage(codec: HtmlCodec, m: map<string, string>, page: PageCloneResult) returns (html: string)
    ensures html == FixedHtml(codec, m, page)
  {
    var parsed := codec.parse(page.html);
    if parsed.None? {
      return page.html;
    }
    var currentFile := if page.url in m then m[page.url] else "";
    var dir := Dirname(currentFile);
    var doc := new Element[|parsed.value|](j requires 0 <= j < |parsed.value| => parsed.value[j]);
    assert doc[..] == parsed.value;
    RewriteAnchors(m, page.url, dir, doc);
    html := codec.serialize(doc[..]);
  }

  /** Step 2 of the link fixing, page by page. */
  method FixPages(codec: HtmlCodec, m: map<string, string>, pages: array<PageCloneResult>)
    modifies pages
    ensures forall i :: 0 <= i < pages.Length ==>
      pages[i] == old(pages[i]).(html := FixedHtml(codec, m, old(pages[i])))
  {
    for i := 0 to pages.Length
      invariant forall j :: 0 <= j < i ==> pages[j] == old(pages[j]).(html := FixedHtml(codec, m, old(pages[j])))
      invariant forall j :: i <= j < pages.Length ==> pages[j] == old(pages[j])
    {
      var html := FixPage(codec, m, pages[i]);
      pages[i] := pages[i].(html := html);
    }
  }

  /** `_fix_internal_links`: build the map, then rewrite every page. */
  method FixInternalLinks(codec: HtmlCodec, pages: array<PageCloneResult>)
    modifies pages
    ensures forall i :: 0 <= i < pages.Length ==>
      pages[i] == old(pages[i]).(html := FixedHtml(codec, UrlMap(PageUrls(old(pages[..])), PageFile), old(pages[i])))
  {
    var m := BuildUrlMap(PageUrls(pages[..]));
    FixPages(codec, m, pages);
  }
}
