/** What the asset embedder does, as functions over the three fields it
    keeps across the pages of one job (`downloaded_assets`, `asset_cache`,
    `processed_urls`) and two logs of the URLs it fetched.  The network
    is an oracle: the text or the bytes of a 200 response, None for any
    other status or a raised error. */
module AssetStore {
  import opened Wrappers
  import opened Text
  import Urls
  import opened Documents
  import opened CssUrls
  import opened DataUris
  import Base64

  type Bytes = seq<Base64.byte>

  datatype Network = Network(text: string -> Option<string>, binary: string -> Option<Bytes>, guess: MimeGuess)

  datatype Store = Store(
    downloaded: map<string, string>,
    cache: map<string, Bytes>,
    processed: set<string>,
    textFetches: seq<string>,
    binaryFetches: seq<string>)

  /** `if css_content:` / `if js_content:` after `_download_asset`. */
  predicate TextOk(r: Option<string>) {
    r.Some? && r.value != []
  }

  /** A URL occurs twice in a fetch log only when its fetch fails. */
  predicate OnceUnlessFailed(fetches: seq<string>, ok: string -> bool) {
    forall i, j :: 0 <= i < j < |fetches| && fetches[i] == fetches[j] ==> !ok(fetches[i])
  }

  predicate BinaryOk(net: Network, url: string) {
    net.binary(url).Some?
  }

  predicate TextFetchOk(net: Network, url: string) {
    TextOk(net.text(url))
  }

  /** The invariant of the embedder's binary side: the cache holds exactly
      the successful binary fetches, with their bytes, and no URL is
      fetched again after a successful fetch. */
  ghost predicate BinaryConsistent(net: Network, st: Store) {
    && (forall u :: u in st.cache ==> net.binary(u) == Some(st.cache[u]))
    && (forall u :: u in st.cache <==> u in st.binaryFetches && BinaryOk(net, u))
    && OnceUnlessFailed(st.binaryFetches, u => BinaryOk(net, u))
  }

  /** The invariant of the embedder's text side: `processed_urls` is the
      key set of `downloaded_assets`, a text URL is processed exactly when
      its fetch succeeded, and no URL is fetched again after a successful
      fetch. */
  ghost predicate TextConsistent(net: Network, st: Store) {
    && st.processed == st.downloaded.Keys
    && (forall u :: u in st.processed <==> u in st.textFetches && TextFetchOk(net, u))
    && OnceUnlessFailed(st.textFetches, u => TextFetchOk(net, u))
  }

  /** The invariant of the embedder's fields. */
  ghost predicate Consistent(net: Network, st: Store) {
    BinaryConsistent(net, st) && TextConsistent(net, st)
  }

  /** A later store keeps everything an earlier one had. */
  predicate Extends(st: Store, later: Store) {
    && (forall u :: u in st.cache ==> u in later.cache && later.cache[u] == st.cache[u])
    && st.downloaded.Keys <= later.downloaded.Keys
    && st.processed <= later.processed
    && st.textFetches <= later.textFetches
    && st.binaryFetches <= later.binaryFetches
  }

  lemma ExtendsTrans(a: Store, b: Store, c: Store)
    requires Extends(a, b) && Extends(b, c)
    ensures Extends(a, c)
  {
  }

  /** `_download_and_cache_binary_asset(url)` */
  function BinaryStep(net: Network, st: Store, url: string): Store {
    if url in st.cache then st
    else
      var logged := st.(binaryFetches := st.binaryFetches + [url]);
      match net.binary(url)
      case Some(bytes) => logged.(cache := logged.cache[url := bytes])
      case None => logged
  }

  /** A cached URL is not fetched again; a failed fetch leaves the cache as
      it was; and only the cache and its log change. */
  lemma BinaryStepFacts(net: Network, st: Store, url: string)
    ensures url in st.cache ==> BinaryStep(net, st, url) == st
    ensures url !in st.cache ==> BinaryStep(net, st, url).binaryFetches == st.binaryFetches + [url]
    ensures net.binary(url).None? ==> BinaryStep(net, st, url).cache == st.cache
    ensures st.cache.Keys <= BinaryStep(net, st, url).cache.Keys
    ensures var r := BinaryStep(net, st, url);
      r.downloaded == st.downloaded && r.processed == st.processed && r.textFetches == st.textFetches
  {
  }

  lemma BinaryStepConsistent(net: Network, st: Store, url: string)
    requires BinaryConsistent(net, st)
    ensures BinaryConsistent(net, BinaryStep(net, st, url)) && Extends(st, BinaryStep(net, st, url))
  {
    if url !in st.cache {
      var r := BinaryStep(net, st, url);
      var fs := r.binaryFetches;
      assert fs[|fs| - 1] == url;
      forall i | 0 <= i < |fs| - 1 && fs[i] == url ensures !BinaryOk(net, url) {
        assert fs[i] == st.binaryFetches[i];
        assert url in st.binaryFetches;
      }
      forall u ensures u in r.cache <==> u in r.binaryFetches && BinaryOk(net, u) {
        assert u in r.binaryFetches <==> u in st.binaryFetches || u == url;
      }
    }
  }

  /** The binary steps for `urls`, in order. */
  function BinaryAll(net: Network, st: Store, urls: seq<string>): Store {
    if urls == [] then st else BinaryStep(net, BinaryAll(net, st, urls[..|urls| - 1]), urls[|urls| - 1])
  }

  lemma {:induction false} BinaryAllConsistent(net: Network, st: Store, urls: seq<string>)
    requires BinaryConsistent(net, st)
    ensures BinaryConsistent(net, BinaryAll(net, st, urls)) && Extends(st, BinaryAll(net, st, urls))
    ensures var r := BinaryAll(net, st, urls);
      r.downloaded == st.downloaded && r.processed == st.processed && r.textFetches == st.textFetches
  {
    if urls != [] {
      var prev := BinaryAll(net, st, urls[..|urls| - 1]);
      BinaryAllConsistent(net, st, urls[..|urls| - 1]);
      BinaryStepConsistent(net, prev, urls[|urls| - 1]);
      BinaryStepFacts(net, prev, urls[|urls| - 1]);
      ExtendsTrans(st, prev, BinaryAll(net, st, urls));
    }
  }

  /** Binary steps on cached URLs fetch nothing. */
  lemma {:induction false} BinaryAllCached(net: Network, st: Store, urls: seq<string>)
    requires forall k :: 0 <= k < |urls| ==> urls[k] in st.cache
    ensures BinaryAll(net, st, urls) == st
  {
    if urls != [] {
      BinaryAllCached(net, st, urls[..|urls| - 1]);
    }
  }

  /** Where `_process_css_assets` stands: the store and the CSS rewritten so far. */
  datatype CssState = CssState(store: Store, css: string)

  /** The `url(...)` references of a stylesheet with the URLs they resolve
      to against the stylesheet's own URL. */
  function Resolved(cssUrl: string, refs: seq<string>): (r: seq<(string, string)>)
    ensures |r| == |refs|
    ensures forall k :: 0 <= k < |refs| ==> r[k] == (refs[k], Urls.Join(cssUrl, refs[k]))
  {
    seq(|refs|, k requires 0 <= k < |refs| => (refs[k], Urls.Join(cssUrl, refs[k])))
  }

  /** The loop of `_process_css_assets` after the pairs `pairs`: each
      resolved URL is downloaded, and when it is then cached every
      occurrence of the reference text is replaced by its data URL. */
  function CssFold(net: Network, st: Store, css: string, pairs: seq<(string, string)>): CssState
    requires forall k :: 0 <= k < |pairs| ==> pairs[k].0 != []
  {
    if pairs == [] then CssState(st, css)
    else
      var prev := CssFold(net, st, css, pairs[..|pairs| - 1]);
      var (ref, full) := pairs[|pairs| - 1];
      var store := BinaryStep(net, prev.store, full);
      CssState(store,
        if full in store.cache then ReplaceAll(prev.css, ref, DataUri(net.guess, full, store.cache[full]))
        else prev.css)
  }

  /** `_process_css_assets(css, cssUrl)` */
  function ProcessCss(net: Network, st: Store, css: string, cssUrl: string): CssState {
    FindUrlsClean(css);
    CssFold(net, st, css, Resolved(cssUrl, FindUrls(css)))
  }

  lemma {:induction false} CssFoldConsistent(net: Network, st: Store, css: string, pairs: seq<(string, string)>)
    requires forall k :: 0 <= k < |pairs| ==> pairs[k].0 != []
    requires BinaryConsistent(net, st)
    ensures var r := CssFold(net, st, css, pairs).store;
      BinaryConsistent(net, r) && Extends(st, r) &&
      r.downloaded == st.downloaded && r.processed == st.processed && r.textFetches == st.textFetches
  {
    if pairs != [] {
      var prev := CssFold(net, st, css, pairs[..|pairs| - 1]);
      CssFoldConsistent(net, st, css, pairs[..|pairs| - 1]);
      var full := pairs[|pairs| - 1].1;
      BinaryStepConsistent(net, prev.store, full);
      BinaryStepFacts(net, prev.store, full);
      ExtendsTrans(st, prev.store, CssFold(net, st, css, pairs).store);
    }
  }

  /** A reference is rewritten only when its resolved URL ends up in the
      cache: if none does, the stylesheet comes out as it went in. */
  lemma {:induction false} CssFoldUnchanged(net: Network, st: Store, css: string, pairs: seq<(string, string)>)
    requires forall k :: 0 <= k < |pairs| ==> pairs[k].0 != []
    requires forall k :: 0 <= k < |pairs| ==> pairs[k].1 !in CssFold(net, st, css, pairs).store.cache
    ensures CssFold(net, st, css, pairs).css == css
  {
    if pairs != [] {
      var n := |pairs| - 1;
      var prev := CssFold(net, st, css, pairs[..n]);
      var last := CssFold(net, st, css, pairs);
      assert pairs[n].1 !in last.store.cache;
      BinaryStepFacts(net, prev.store, pairs[n].1);
      forall k | 0 <= k < n ensures pairs[..n][k].1 !in prev.store.cache {
        assert pairs[..n][k] == pairs[k];
        assert pairs[k].1 !in last.store.cache;
      }
      CssFoldUnchanged(net, st, css, pairs[..n]);
    }
  }

  /** The text step shared by `_download_stylesheets` and
      `_download_fonts`: an unprocessed URL is fetched, and a non-empty
      stylesheet is processed and stored. */
  function CssStep(net: Network, st: Store, url: string): Store {
    if url in st.processed then st
    else
      var logged := st.(textFetches := st.textFetches + [url]);
      var fetched := net.text(url);
      if TextOk(fetched) then
        var out := ProcessCss(net, logged, fetched.value, url);
        out.store.(downloaded := out.store.downloaded[url := out.css],
                   processed := out.store.processed + {url})
      else logged
  }

  /** The text step of `_download_scripts`: the script is stored as fetched. */
  function ScriptStep(net: Network, st: Store, url: string): Store {
    if url in st.processed then st
    else
      var logged := st.(textFetches := st.textFetches + [url]);
      var fetched := net.text(url);
      if TextOk(fetched) then
        logged.(downloaded := logged.downloaded[url := fetched.value], processed := logged.processed + {url})
      else logged
  }

  /** A processed URL is not fetched again, and a failed fetch only adds
      to the log, so the URL can be tried again. */
  lemma TextStepFacts(net: Network, st: Store, url: string)
    ensures url in st.processed ==> CssStep(net, st, url) == st && ScriptStep(net, st, url) == st
    ensures url !in st.processed && !TextOk(net.text(url)) ==>
      CssStep(net, st, url) == st.(textFetches := st.textFetches + [url]) &&
      ScriptStep(net, st, url) == st.(textFetches := st.textFetches + [url])
  {
  }

  /** A stored script is the text that was fetched. */
  lemma ScriptStepStores(net: Network, st: Store, url: string)
    requires url !in st.processed && TextOk(net.text(url))
    ensures ScriptStep(net, st, url).downloaded == st.downloaded[url := net.text(url).value]
  {
  }

  /** Appending one fetch of an unprocessed URL keeps the text log's
      invariant. */
  lemma TextLogConsistent(net: Network, st: Store, url: string)
    requires Consistent(net, st) && url !in st.processed
    ensures OnceUnlessFailed(st.textFetches + [url], u => TextFetchOk(net, u))
  {
    var fs := st.textFetches + [url];
    forall i, j | 0 <= i < j < |fs| && fs[i] == fs[j] ensures !TextFetchOk(net, fs[i]) {
      if j == |fs| - 1 {
        assert fs[i] == st.textFetches[i];
        assert url in st.textFetches;
      } else {
        assert fs[i] == st.textFetches[i] && fs[j] == st.textFetches[j];
      }
    }
  }

  lemma CssStepConsistent(net: Network, st: Store, url: string)
    requires Consistent(net, st)
    ensures Consistent(net, CssStep(net, st, url)) && Extends(st, CssStep(net, st, url))
  {
    if url !in st.processed {
      var logged := st.(textFetches := st.textFetches + [url]);
      TextLogConsistent(net, st, url);
      var fetched := net.text(url);
      var r := CssStep(net, st, url);
      if TextOk(fetched) {
        FindUrlsClean(fetched.value);
        CssFoldConsistent(net, logged, fetched.value, Resolved(url, FindUrls(fetched.value)));
        forall u ensures u in r.processed <==> u in r.textFetches && TextFetchOk(net, u) {
          assert u in r.textFetches <==> u in st.textFetches || u == url;
        }
      } else {
        forall u ensures u in r.processed <==> u in r.textFetches && TextFetchOk(net, u) {
          assert u in r.textFetches <==> u in st.textFetches || u == url;
        }
      }
    }
  }

  lemma ScriptStepConsistent(net: Network, st: Store, url: string)
    requires Consistent(net, st)
    ensures Consistent(net, ScriptStep(net, st, url)) && Extends(st, ScriptStep(net, st, url))
  {
    if url !in st.processed {
      TextLogConsistent(net, st, url);
      var r := ScriptStep(net, st, url);
      forall u ensures u in r.processed <==> u in r.textFetches && TextFetchOk(net, u) {
        assert u in r.textFetches <==> u in st.textFetches || u == url;
      }
    }
  }

  function CssAll(net: Network, st: Store, urls: seq<string>): Store {
    if urls == [] then st else CssStep(net, CssAll(net, st, urls[..|urls| - 1]), urls[|urls| - 1])
  }

  function ScriptAll(net: Network, st: Store, urls: seq<string>): Store {
    if urls == [] then st else ScriptStep(net, ScriptAll(net, st, urls[..|urls| - 1]), urls[|urls| - 1])
  }

  lemma {:induction false} CssAllConsistent(net: Network, st: Store, urls: seq<string>)
    requires Consistent(net, st)
    ensures Consistent(net, CssAll(net, st, urls)) && Extends(st, CssAll(net, st, urls))
  {
    if urls != [] {
      var prev := CssAll(net, st, urls[..|urls| - 1]);
      CssAllConsistent(net, st, urls[..|urls| - 1]);
      CssStepConsistent(net, prev, urls[|urls| - 1]);
      ExtendsTrans(st, prev, CssAll(net, st, urls));
    }
  }

  lemma {:induction false} ScriptAllConsistent(net: Network, st: Store, urls: seq<string>)
    requires Consistent(net, st)
    ensures Consistent(net, ScriptAll(net, st, urls)) && Extends(st, ScriptAll(net, st, urls))
  {
    if urls != [] {
      var prev := ScriptAll(net, st, urls[..|urls| - 1]);
      ScriptAllConsistent(net, st, urls[..|urls| - 1]);
      ScriptStepConsistent(net, prev, urls[|urls| - 1]);
      ExtendsTrans(st, prev, ScriptAll(net, st, urls));
    }
  }

  lemma {:induction false} CssAllConcat(net: Network, st: Store, a: seq<string>, b: seq<string>)
    ensures CssAll(net, st, a + b) == CssAll(net, CssAll(net, st, a), b)
  {
    if b == [] {
      assert a + b == a;
    } else {
      assert (a + b)[..|a + b| - 1] == a + b[..|b| - 1];
      CssAllConcat(net, st, a, b[..|b| - 1]);
    }
  }

  lemma {:induction false} BinaryAllConcat(net: Network, st: Store, a: seq<string>, b: seq<string>)
    ensures BinaryAll(net, st, a + b) == BinaryAll(net, BinaryAll(net, st, a), b)
  {
    if b == [] {
      assert a + b == a;
    } else {
      assert (a + b)[..|a + b| - 1] == a + b[..|b| - 1];
      BinaryAllConcat(net, st, a, b[..|b| - 1]);
    }
  }

  lemma {:induction false} ScriptAllConcat(net: Network, st: Store, a: seq<string>, b: seq<string>)
    ensures ScriptAll(net, st, a + b) == ScriptAll(net, ScriptAll(net, st, a), b)
  {
    if b == [] {
      assert a + b == a;
    } else {
      assert (a + b)[..|a + b| - 1] == a + b[..|b| - 1];
      ScriptAllConcat(net, st, a, b[..|b| - 1]);
    }
  }

  // The references each download pass takes from one element.

  /** `t` is one of the white-space separated words of `v` at index `i`. */
  predicate WordAt(v: string, t: string, i: nat) {
    && OccursAt(v, t, i)
    && (i == 0 || IsWhitespace(v[i - 1]))
    && (i + |t| == |v| || IsWhitespace(v[i + |t|]))
  }

  /** `t` is one of the white-space separated words of `v`, which is how a
      multi-valued attribute such as `rel` is matched. */
  predicate HasWord(v: string, t: string) {
    exists i | 0 <= i <= |v| :: WordAt(v, t, i)
  }

  /** `soup.find_all('link', {'rel': 'stylesheet'})`: `rel` is a
      multi-valued attribute, so any of its words may be `stylesheet`. */
  predicate IsStylesheetLink(e: Element) {
    e.tag == "link" && "rel" in e.attrs && HasWord(e.attrs["rel"], "stylesheet")
  }

  /** A link whose `rel` lists `stylesheet` among other words is found. */
  lemma StylesheetAmongRels()
    ensures IsStylesheetLink(Element("link", map["rel" := "stylesheet preload"], ""))
    ensures !IsStylesheetLink(Element("link", map["rel" := "stylesheets"], ""))
  {
    var v := "stylesheet preload";
    assert v[..10] == "stylesheet";
    assert WordAt(v, "stylesheet", 0);
    var w := "stylesheets";
    forall i | 0 <= i <= |w| ensures !WordAt(w, "stylesheet", i) {
      if OccursAt(w, "stylesheet", i) {
        assert i == 0 || i == 1;
      }
    }
  }

  function StylesheetHref(e: Element): seq<string> {
    if IsStylesheetLink(e) && HasNonEmpty(e, "href") then [e.attrs["href"]] else []
  }

  function ImageSrc(e: Element): seq<string> {
    if e.tag == "img" && HasNonEmpty(e, "src") then [e.attrs["src"]] else []
  }

  /** The background-image references of an element with a `style`. */
  function BackgroundRefs(e: Element): seq<string> {
    if "style" in e.attrs then BackgroundUrls(e.attrs["style"]) else []
  }

  function ScriptSrc(e: Element): seq<string> {
    if e.tag == "script" && HasNonEmpty(e, "src") then [e.attrs["src"]] else []
  }

  /** A link whose href mentions `font` (in any case) or `googleapis.com/css`. */
  predicate IsFontLink(e: Element) {
    e.tag == "link" && "href" in e.attrs &&
    (Contains(ToLower(e.attrs["href"]), "font") || Contains(e.attrs["href"], "googleapis.com/css"))
  }

  function FontHref(e: Element): seq<string> {
    if IsFontLink(e) then [e.attrs["href"]] else []
  }

  /** The references a pass collects from a document, in document order. */
  function Collect(doc: Document, refs: Element -> seq<string>): seq<string> {
    if doc == [] then [] else Collect(doc[..|doc| - 1], refs) + refs(doc[|doc| - 1])
  }

  /** One element more contributes its own references at the end. */
  lemma CollectNext(doc: Document, refs: Element -> seq<string>, i: nat)
    requires i < |doc|
    ensures Collect(doc[..i + 1], refs) == Collect(doc[..i], refs) + refs(doc[i])
  {
    assert doc[..i + 1][..i] == doc[..i];
  }

  /** `urljoin(base_url, ref)` for each reference. */
  function ResolveAll(base: string, refs: seq<string>): (r: seq<string>)
    ensures |r| == |refs| && forall k :: 0 <= k < |refs| ==> r[k] == Urls.Join(base, refs[k])
  {
    seq(|refs|, k requires 0 <= k < |refs| => Urls.Join(base, refs[k]))
  }

  /** The four download passes of `download_and_embed_assets`, in the
      order stylesheets, images (`img` then `style` attributes), scripts,
      fonts. */
  function Downloads(net: Network, st: Store, doc: Document, base: string): Store {
    var s1 := CssAll(net, st, ResolveAll(base, Collect(doc, StylesheetHref)));
    var s2 := BinaryAll(net, s1, ResolveAll(base, Collect(doc, ImageSrc)));
    var s3 := BinaryAll(net, s2, ResolveAll(base, Collect(doc, BackgroundRefs)));
    var s4 := ScriptAll(net, s3, ResolveAll(base, Collect(doc, ScriptSrc)));
    CssAll(net, s4, ResolveAll(base, Collect(doc, FontHref)))
  }

  lemma ResolveAllConcat(base: string, a: seq<string>, b: seq<string>)
    ensures ResolveAll(base, a + b) == ResolveAll(base, a) + ResolveAll(base, b)
  {
    assert |ResolveAll(base, a + b)| == |ResolveAll(base, a) + ResolveAll(base, b)|;
    forall k | 0 <= k < |a + b| ensures ResolveAll(base, a + b)[k] == (ResolveAll(base, a) + ResolveAll(base, b))[k] {
      if k < |a| {
        assert (a + b)[k] == a[k];
      } else {
        assert (a + b)[k] == b[k - |a|];
      }
    }
  }

  /** The downloads of one page keep the invariant and keep everything
      earlier pages left in the fields. */
  lemma DownloadsConsistent(net: Network, st: Store, doc: Document, base: string)
    requires Consistent(net, st)
    ensures Consistent(net, Downloads(net, st, doc, base)) && Extends(st, Downloads(net, st, doc, base))
  {
    var s1 := CssAll(net, st, ResolveAll(base, Collect(doc, StylesheetHref)));
    var s2 := BinaryAll(net, s1, ResolveAll(base, Collect(doc, ImageSrc)));
    var s3 := BinaryAll(net, s2, ResolveAll(base, Collect(doc, BackgroundRefs)));
    var s4 := ScriptAll(net, s3, ResolveAll(base, Collect(doc, ScriptSrc)));
    CssAllConsistent(net, st, ResolveAll(base, Collect(doc, StylesheetHref)));
    BinaryAllConsistent(net, s1, ResolveAll(base, Collect(doc, ImageSrc)));
    BinaryAllConsistent(net, s2, ResolveAll(base, Collect(doc, BackgroundRefs)));
    ScriptAllConsistent(net, s3, ResolveAll(base, Collect(doc, ScriptSrc)));
    CssAllConsistent(net, s4, ResolveAll(base, Collect(doc, FontHref)));
    ExtendsTrans(st, s1, s2);
    ExtendsTrans(st, s2, s3);
    ExtendsTrans(st, s3, s4);
    ExtendsTrans(st, s4, Downloads(net, st, doc, base));
  }

  // The embedding passes, element by element.

  /** `soup.find('base').get('href', '')`, None when there is no `<base>`. */
  function BaseHref(doc: Document): Option<string> {
    if doc == [] then None
    else if doc[0].tag == "base" then Some(Attr(doc[0], "href").GetOr(""))
    else BaseHref(doc[1..])
  }

  /** The key `_embed_stylesheets` looks up: the href resolved against the
      `<base>` href when there is a `<base>`, else the href as written. */
  function StylesheetKey(base: Option<string>, href: string): string {
    match base
    case Some(b) => Urls.Join(b, href)
    case None => href
  }

  /** A stylesheet link whose key is downloaded becomes a `<style>` with
      the processed text; every other element stays. */
  function EmbedStylesheet(downloaded: map<string, string>, base: Option<string>, e: Element): (r: Element)
    ensures IsStylesheetLink(e) && HasNonEmpty(e, "href") && StylesheetKey(base, e.attrs["href"]) in downloaded ==>
      r == Element("style", map[], downloaded[StylesheetKey(base, e.attrs["href"])])
    ensures !(IsStylesheetLink(e) && HasNonEmpty(e, "href") && StylesheetKey(base, e.attrs["href"]) in downloaded) ==>
      r == e
  {
    if IsStylesheetLink(e) && HasNonEmpty(e, "href") then
      var key := StylesheetKey(base, e.attrs["href"]);
      if key in downloaded then Element("style", map[], downloaded[key]) else e
    else e
  }

  /** An `img` whose `src`, as written, is cached gets a data URL. */
  function EmbedImage(cache: map<string, Bytes>, guess: MimeGuess, e: Element): (r: Element)
    ensures r.tag == e.tag && r.text == e.text && r.attrs.Keys == e.attrs.Keys
    ensures forall k :: k in e.attrs && k != "src" ==> r.attrs[k] == e.attrs[k]
    ensures e.tag == "img" && HasNonEmpty(e, "src") && e.attrs["src"] in cache ==>
      r.attrs["src"] == DataUri(guess, e.attrs["src"], cache[e.attrs["src"]])
    ensures !(e.tag == "img" && HasNonEmpty(e, "src") && e.attrs["src"] in cache) ==> r == e
  {
    if e.tag == "img" && HasNonEmpty(e, "src") && e.attrs["src"] in cache then
      e.(attrs := e.attrs["src" := DataUri(guess, e.attrs["src"], cache[e.attrs["src"]])])
    else e
  }

  /** The replacement of `replace_bg_url`: a cached reference becomes
      `url(<data URL>)`, any other match is kept. */
  function BackgroundReplacement(cache: map<string, Bytes>, guess: MimeGuess): string -> Option<string> {
    ref => if ref in cache then Some("url(" + DataUri(guess, ref, cache[ref]) + ")") else None
  }

  /** Every element with a `style` gets its `url(...)` references
      rewritten by `replace_bg_url`; other elements stay. */
  function EmbedStyle(cache: map<string, Bytes>, guess: MimeGuess, e: Element): (r: Element)
    ensures r.tag == e.tag && r.text == e.text && r.attrs.Keys == e.attrs.Keys
    ensures forall k :: k in e.attrs && k != "style" ==> r.attrs[k] == e.attrs[k]
    ensures "style" in e.attrs ==> r.attrs["style"] == Sub(e.attrs["style"], BackgroundReplacement(cache, guess))
    ensures "style" !in e.attrs ==> r == e
  {
    if "style" in e.attrs then
      e.(attrs := e.attrs["style" := Sub(e.attrs["style"], BackgroundReplacement(cache, guess))])
    else e
  }

  /** A script whose `src`, as written, is downloaded gets the text as its
      content; `script['src'] = None` leaves a bare `src` attribute, whose
      value in HTML is the empty string. */
  function EmbedScript(downloaded: map<string, string>, e: Element): (r: Element)
    ensures r.tag == e.tag && r.attrs.Keys == e.attrs.Keys
    ensures e.tag == "script" && HasNonEmpty(e, "src") && e.attrs["src"] in downloaded ==>
      r.attrs["src"] == "" && r.text == downloaded[e.attrs["src"]]
      && forall k :: k in e.attrs && k != "src" ==> r.attrs[k] == e.attrs[k]
    ensures !(e.tag == "script" && HasNonEmpty(e, "src") && e.attrs["src"] in downloaded) ==> r == e
  {
    if e.tag == "script" && HasNonEmpty(e, "src") && e.attrs["src"] in downloaded then
      Element("script", e.attrs["src" := ""], downloaded[e.attrs["src"]])
    else e
  }

  function MapDoc(doc: Document, f: Element -> Element): (r: Document)
    ensures |r| == |doc| && forall i :: 0 <= i < |doc| ==> r[i] == f(doc[i])
  {
    seq(|doc|, i requires 0 <= i < |doc| => f(doc[i]))
  }

  /** `_embed_stylesheets`, with the `<base>` of the document. */
  function StylesheetPass(downloaded: map<string, string>, doc: Document): Document {
    MapDoc(doc, e => EmbedStylesheet(downloaded, BaseHref(doc), e))
  }

  /** `_embed_images`: the `img` sources, then every `style` attribute. */
  function ImagePass(cache: map<string, Bytes>, guess: MimeGuess, doc: Document): Document {
    MapDoc(MapDoc(doc, e => EmbedImage(cache, guess, e)), e => EmbedStyle(cache, guess, e))
  }

  /** `_embed_scripts` */
  function ScriptPass(downloaded: map<string, string>, doc: Document): Document {
    MapDoc(doc, e => EmbedScript(downloaded, e))
  }

  /** The three embedding passes of `download_and_embed_assets`, in the
      order stylesheets, images, scripts. */
  function Embedded(st: Store, guess: MimeGuess, doc: Document): Document {
    ScriptPass(st.downloaded, ImagePass(st.cache, guess, StylesheetPass(st.downloaded, doc)))
  }

  /** Putting a non-`<base>` element in place of a non-`<base>` element
      leaves the first `<base>` where it was, so `soup.find('base')`, which
      `_embed_stylesheets` evaluates anew for every link, gives the same
      answer throughout the pass. */
  lemma {:induction false} BaseHrefUpdate(doc: Document, i: nat, x: Element)
    requires i < |doc| && doc[i].tag != "base" && x.tag != "base"
    ensures BaseHref(doc[i := x]) == BaseHref(doc)
  {
    if i > 0 {
      assert doc[i := x][1..] == doc[1..][i - 1 := x];
      BaseHrefUpdate(doc[1..], i - 1, x);
    } else {
      assert doc[i := x][1..] == doc[1..];
    }
  }

  /** `download_and_embed_assets(html, base)`: the fields after the four
      download passes, and the html after the three embedding passes,
      which see everything earlier pages left in the fields; None, with
      the fields as they were, when the html cannot be parsed. */
  function EmbedPage(net: Network, st: Store, codec: HtmlCodec, html: string, base: string): (Store, Option<string>) {
    match codec.parse(html)
    case None => (st, None)
    case Some(doc) =>
      var after := Downloads(net, st, doc, base);
      (after, Some(codec.serialize(Embedded(after, net.guess, doc))))
  }

  /** One page's asset processing keeps the invariant and keeps what the
      fields held before. */
  lemma EmbedPageConsistent(net: Network, st: Store, codec: HtmlCodec, html: string, base: string)
    requires Consistent(net, st)
    ensures Consistent(net, EmbedPage(net, st, codec, html, base).0)
    ensures Extends(st, EmbedPage(net, st, codec, html, base).0)
  {
    if codec.parse(html).Some? {
      DownloadsConsistent(net, st, codec.parse(html).value, base);
    }
  }

  /** With nothing cached, the `style` pass changes no element. */
  lemma EmbedStyleNothingCached(guess: MimeGuess, e: Element)
    ensures EmbedStyle(map[], guess, e) == e
  {
    if "style" in e.attrs {
      SubIdentity(e.attrs["style"], BackgroundReplacement(map[], guess));
      assert e.attrs["style" := e.attrs["style"]] == e.attrs;
    }
  }

  /** A relative `src` on an absolute page is downloaded under its resolved
      URL, which is not the `src` as written, so that download alone does
      not get the image inlined. */
  lemma RelativeImageNotInlined(net: Network, st: Store, base: string, e: Element)
    requires Urls.Parse(base).scheme.Some? && Urls.Parse(base).authority.Some?
    requires e.tag == "img" && HasNonEmpty(e, "src")
    requires Urls.Parse(e.attrs["src"]).scheme.None? && Urls.Parse(e.attrs["src"]).authority.None?
    requires e.attrs["src"] !in st.cache
    ensures EmbedImage(BinaryStep(net, st, Urls.Join(base, e.attrs["src"])).cache, net.guess, e) == e
  {
    var src := e.attrs["src"];
    Urls.JoinRelativeKeepsOrigin(base, src);
    assert Urls.Join(base, src) != src;
  }
}
