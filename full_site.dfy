/** The page pipeline of a full-site clone: discovery, capture in batches
    of three, the optional asset phase, AI cloning with a per-page fallback
    to the captured page, link fixing, and the list of unique assets of
    the result. */
module FullSite {
  import opened Wrappers
  import opened Models
  import Urls
  import opened Documents
  import opened AssetStore
  import opened AssetDownloaders
  import SiteCrawler
  import LinkRewriter

  const BatchSize: nat := 3

  function Min(a: int, b: int): int {
    if a <= b then a else b
  }

  function Flatten(batches: seq<seq<string>>): seq<string> {
    if batches == [] then [] else Flatten(batches[..|batches| - 1]) + batches[|batches| - 1]
  }

  /** The captured pages of `urls`, dropping the captures that failed;
      `scrape` stands for `Scraper.scrape`, None when it raised. */
  function Scraped(urls: seq<string>, scrape: string -> Option<ScrapeResult>): seq<ScrapeResult> {
    if urls == [] then []
    else
      var prefix := Scraped(urls[..|urls| - 1], scrape);
      match scrape(urls[|urls| - 1])
      case Some(r) => prefix + [r]
      case None => prefix
  }

  /** Capturing `a` then `b` keeps the successes of both, in order. */
  lemma {:induction false} ScrapedConcat(a: seq<string>, b: seq<string>, scrape: string -> Option<ScrapeResult>)
    ensures Scraped(a + b, scrape) == Scraped(a, scrape) + Scraped(b, scrape)
    decreases |b|
  {
    if b == [] {
      assert a + b == a;
    } else {
      var n := |b| - 1;
      assert (a + b)[..|a + b| - 1] == a + b[..n];
      ScrapedConcat(a, b[..n], scrape);
    }
  }

  /** Failures only drop pages: never more pages than URLs, and exactly
      the captures in URL order when none fails. */
  lemma {:induction false} ScrapedBound(urls: seq<string>, scrape: string -> Option<ScrapeResult>)
    ensures |Scraped(urls, scrape)| <= |urls|
    ensures (forall i :: 0 <= i < |urls| ==> scrape(urls[i]).Some?) ==>
      |Scraped(urls, scrape)| == |urls| &&
      forall i :: 0 <= i < |urls| ==> Scraped(urls, scrape)[i] == scrape(urls[i]).value
  {
    if urls != [] {
      var n := |urls| - 1;
      ScrapedBound(urls[..n], scrape);
      if forall i :: 0 <= i < |urls| ==> scrape(urls[i]).Some? {
        assert forall i :: 0 <= i < n ==> urls[..n][i] == urls[i];
        assert Scraped(urls, scrape) == Scraped(urls[..n], scrape) + [scrape(urls[n]).value];
      }
    }
  }

  /** Every kept page is the capture of one of the URLs. */
  lemma {:induction false} ScrapedFromUrls(urls: seq<string>, scrape: string -> Option<ScrapeResult>, k: nat)
    requires k < |Scraped(urls, scrape)|
    ensures exists i :: 0 <= i < |urls| && scrape(urls[i]) == Some(Scraped(urls, scrape)[k])
  {
    var n := |urls| - 1;
    var prefix := Scraped(urls[..n], scrape);
    if k < |prefix| {
      ScrapedFromUrls(urls[..n], scrape, k);
      var i :| 0 <= i < n && scrape(urls[..n][i]) == Some(prefix[k]);
      assert urls[..n][i] == urls[i];
      assert Scraped(urls, scrape)[k] == prefix[k];
    } else {
      assert scrape(urls[n]) == Some(Scraped(urls, scrape)[k]);
    }
  }

  /** The batch `b` of a batching of `n` URLs is `urls[3b .. 3b + 3]`, cut at `n`. */
  predicate BatchesOf(urls: seq<string>, batches: seq<seq<string>>) {
    forall b :: 0 <= b < |batches| ==>
      3 * b < |urls| && batches[b] == urls[3 * b .. Min(3 * b + 3, |urls|)]
  }

  /** The next batch of three continues the batching and its flattening. */
  lemma BatchStep(urls: seq<string>, batches: seq<seq<string>>, i: nat, end: nat)
    requires i == 3 * |batches| && i < |urls| && end == Min(i + 3, |urls|)
    requires BatchesOf(urls, batches) && Flatten(batches) == urls[..i]
    ensures BatchesOf(urls, batches + [urls[i..end]])
    ensures Flatten(batches + [urls[i..end]]) == urls[..end]
  {
    BatchesSnoc(urls, batches, urls[i..end]);
    var next := batches + [urls[i..end]];
    assert next[..|batches|] == batches;
    PrefixSplit(urls, i, end);
  }

  lemma BatchesSnoc(urls: seq<string>, batches: seq<seq<string>>, batch: seq<string>)
    requires BatchesOf(urls, batches) && 3 * |batches| < |urls|
    requires batch == urls[3 * |batches| .. Min(3 * |batches| + 3, |urls|)]
    ensures BatchesOf(urls, batches + [batch])
  {
    var next := batches + [batch];
    forall b | 0 <= b < |next| ensures 3 * b < |urls| && next[b] == urls[3 * b .. Min(3 * b + 3, |urls|)] {
      if b < |batches| { assert next[b] == batches[b]; } else { assert next[b] == batch; }
    }
  }

  lemma PrefixSplit(urls: seq<string>, i: nat, end: nat)
    requires i <= end <= |urls|
    ensures urls[..i] + urls[i..end] == urls[..end]
  {
  }

  /** One batch: every URL captured, successes kept in order. */
  method ScrapeBatch(batch: seq<string>, scrape: string -> Option<ScrapeResult>) returns (got: seq<ScrapeResult>)
    ensures got == Scraped(batch, scrape)
  {
    got := [];
    for j := 0 to |batch|
      invariant got == Scraped(batch[..j], scrape)
    {
      assert batch[..j + 1][..j] == batch[..j];
      var result := scrape(batch[j]);
      if result.Some? {
        got := got + [result.value];
      }
    }
    assert batch[..|batch|] == batch;
  }

  /** `_scrape_all_pages`: the URLs in consecutive batches of three, each
      URL captured once, successful captures kept in URL order. */
  method ScrapeAllPages(urls: seq<string>, scrape: string -> Option<ScrapeResult>)
    returns (pages: seq<ScrapeResult>, batches: seq<seq<string>>)
    ensures BatchesOf(urls, batches) && Flatten(batches) == urls
    ensures |batches| == (|urls| + BatchSize - 1) / BatchSize
    ensures pages == Scraped(urls, scrape)
  {
    pages := [];
    batches := [];
    var i := 0;
    while i < |urls|
      invariant i == 3 * |batches| && (|batches| == 0 || 3 * (|batches| - 1) < |urls|)
      invariant BatchesOf(urls, batches)
      invariant Flatten(batches) == urls[..Min(i, |urls|)]
      invariant pages == Scraped(urls[..Min(i, |urls|)], scrape)
      decreases |urls| - i
    {
      var end := Min(i + BatchSize, |urls|);
      var batch := urls[i..end];
      var got := ScrapeBatch(batch, scrape);
      BatchStep(urls, batches, i, end);
      ScrapedConcat(urls[..i], batch, scrape);
      pages := pages + got;
      batches := batches + [batch];
      i := i + BatchSize;
    }
    assert urls[..|urls|] == urls;
  }

  /** One page of `_process_all_assets`: its html is replaced by the
      embedded html, or kept when embedding raised. */
  function WithAssets(page: ScrapeResult, html: Option<string>): (r: ScrapeResult)
    ensures html.None? ==> r == page
    ensures html.Some? ==> r == page.(html := html.value)
  {
    match html
    case Some(h) => page.(html := h)
    case None => page
  }

  /** The embedder's fields and the pages after `_process_all_assets` on
      `pages`: the one embedder serves every page in turn. */
  function AssetPages(net: Network, st: Store, codec: HtmlCodec, pages: seq<ScrapeResult>): (Store, seq<ScrapeResult>) {
    if pages == [] then (st, [])
    else
      var (mid, done) := AssetPages(net, st, codec, pages[..|pages| - 1]);
      var page := pages[|pages| - 1];
      var (after, html) := EmbedPage(net, mid, codec, page.html, page.url);
      (after, done + [WithAssets(page, html)])
  }

  /** Asset processing yields one page per page, changes only the html, and
      leaves the html of a page it cannot parse as it was. */
  lemma {:induction false} AssetPagesShape(net: Network, st: Store, codec: HtmlCodec, pages: seq<ScrapeResult>, k: nat)
    requires k < |pages|
    ensures |AssetPages(net, st, codec, pages).1| == |pages|
    ensures AssetPages(net, st, codec, pages).1[k] == pages[k].(html := AssetPages(net, st, codec, pages).1[k].html)
    ensures codec.parse(pages[k].html).None? ==> AssetPages(net, st, codec, pages).1[k] == pages[k]
  {
    var n := |pages| - 1;
    if k < n {
      AssetPagesShape(net, st, codec, pages[..n], k);
      assert pages[..n][k] == pages[k];
    } else {
      AssetPagesLength(net, st, codec, pages[..n]);
    }
  }

  lemma {:induction false} AssetPagesLength(net: Network, st: Store, codec: HtmlCodec, pages: seq<ScrapeResult>)
    ensures |AssetPages(net, st, codec, pages).1| == |pages|
  {
    if pages != [] {
      AssetPagesLength(net, st, codec, pages[..|pages| - 1]);
    }
  }

  /** The embedder's invariant holds after every page, and what one page
      downloaded stays available to the pages after it. */
  lemma {:induction false} AssetPagesConsistent(net: Network, st: Store, codec: HtmlCodec, pages: seq<ScrapeResult>)
    requires Consistent(net, st)
    ensures Consistent(net, AssetPages(net, st, codec, pages).0)
    ensures Extends(st, AssetPages(net, st, codec, pages).0)
  {
    if pages != [] {
      var mid := AssetPages(net, st, codec, pages[..|pages| - 1]).0;
      var page := pages[|pages| - 1];
      AssetPagesConsistent(net, st, codec, pages[..|pages| - 1]);
      EmbedPageConsistent(net, mid, codec, page.html, page.url);
      ExtendsTrans(st, mid, AssetPages(net, st, codec, pages).0);
    }
  }

  /** `_process_all_assets(scraped_pages)`: the pages' html is rewritten in
      place by the job's one embedder. */
  method ProcessAllAssets(codec: HtmlCodec, downloader: AssetDownloader, pages: array<ScrapeResult>)
    requires downloader.Valid()
    modifies downloader, pages
    ensures downloader.Valid()
    ensures (downloader.State(), pages[..]) == AssetPages(downloader.net, old(downloader.State()), codec, old(pages[..]))
  {
    ghost var st := downloader.State();
    ghost var original := pages[..];
    for i := 0 to pages.Length
      invariant downloader.Valid()
      invariant downloader.State() == AssetPages(downloader.net, st, codec, original[..i]).0
      invariant pages[..i] == AssetPages(downloader.net, st, codec, original[..i]).1
      invariant forall j :: i <= j < pages.Length ==> pages[j] == original[j]
    {
      ProcessPageAt(codec, downloader, pages, i, st, original);
    }
    assert original[..pages.Length] == original;
    assert pages[..pages.Length] == pages[..];
  }

  /** The body of `_process_all_assets` for page `i`. */
  method ProcessPageAt(codec: HtmlCodec, downloader: AssetDownloader, pages: array<ScrapeResult>, i: nat,
                       ghost st: Store, ghost original: seq<ScrapeResult>)
    requires downloader.Valid() && i < pages.Length == |original| && pages[i] == original[i]
    requires downloader.State() == AssetPages(downloader.net, st, codec, original[..i]).0
    requires pages[..i] == AssetPages(downloader.net, st, codec, original[..i]).1
    modifies downloader, pages
    ensures downloader.Valid()
    ensures downloader.State() == AssetPages(downloader.net, st, codec, original[..i + 1]).0
    ensures pages[..i + 1] == AssetPages(downloader.net, st, codec, original[..i + 1]).1
    ensures forall j :: 0 <= j < pages.Length && j != i ==> pages[j] == old(pages[j])
  {
    AssetPagesStep(downloader.net, st, codec, original, i);
    var page := pages[i];
    var enhanced := downloader.DownloadAndEmbedAssets(codec, page.html, page.url);
    pages[i] := WithAssets(page, enhanced);
    assert pages[..i + 1] == pages[..i] + [pages[i]];
  }

  /** One more page: the embedder serves it after the pages before it. */
  lemma AssetPagesStep(net: Network, st: Store, codec: HtmlCodec, pages: seq<ScrapeResult>, i: nat)
    requires i < |pages|
    ensures var prev := AssetPages(net, st, codec, pages[..i]);
      var step := EmbedPage(net, prev.0, codec, pages[i].html, pages[i].url);
      AssetPages(net, st, codec, pages[..i + 1]) == (step.0, prev.1 + [WithAssets(pages[i], step.1)])
  {
    assert pages[..i + 1][..i] == pages[..i];
  }

  /** The path recorded for a cloned page: the URL path, or "/". */
  function PagePath(url: string): (r: string)
    ensures r != []
  {
    var path := Urls.UrlparsePath(url);
    if path == [] then "/" else path
  }

  /** One page of the AI phase; `llm` is None when cloning raised, and the
      page then keeps the captured html and css. */
  function ClonePage(page: ScrapeResult, llm: Option<LlmCloneResult>): (r: PageCloneResult)
    ensures r.url == page.url && r.path == PagePath(page.url)
    ensures r.screenshot == page.screenshot && r.assets == page.assets && r.metadata == page.metadata
    ensures llm.None? ==> r.html == page.html && r.css == page.css
    ensures llm.Some? ==> r.html == llm.value.html && r.css == llm.value.css
  {
    var html := if llm.Some? then llm.value.html else page.html;
    var css := if llm.Some? then llm.value.css else page.css;
    PageCloneResult(page.url, PagePath(page.url), html, css, page.screenshot, page.assets, page.metadata)
  }

  /** `_generate_ai_clones`: exactly one cloned page per captured page, in
      the same order. */
  method GenerateAiClones(pages: seq<ScrapeResult>, llm: ScrapeResult -> Option<LlmCloneResult>)
    returns (cloned: seq<PageCloneResult>)
    ensures |cloned| == |pages|
    ensures forall i :: 0 <= i < |pages| ==> cloned[i] == ClonePage(pages[i], llm(pages[i]))
  {
    cloned := [];
    for i := 0 to |pages|
      invariant |cloned| == i
      invariant forall j :: 0 <= j < i ==> cloned[j] == ClonePage(pages[j], llm(pages[j]))
    {
      var page := pages[i];
      var path := PagePath(page.url);
      var result := llm(page);
      var html, css := page.html, page.css;
      if result.Some? {
        html, css := result.value.html, result.value.css;
      }
      var clone := PageCloneResult(page.url, path, html, css, page.screenshot, page.assets, page.metadata);
      assert clone == ClonePage(page, result);
      cloned := cloned + [clone];
    }
  }

  /** `asset.get('url', '')` */
  function AssetUrl(a: Asset): string {
    if "url" in a then a["url"] else ""
  }

  function AssetUrls(assets: seq<Asset>): set<string> {
    set a | a in assets :: AssetUrl(a)
  }

  /** The de-duplicated list after the assets `assets`: an asset is kept
      when its url is non-empty and not yet kept. */
  function Unique(assets: seq<Asset>): seq<Asset> {
    if assets == [] then []
    else
      var kept := Unique(assets[..|assets| - 1]);
      var a := assets[|assets| - 1];
      if AssetUrl(a) != "" && AssetUrl(a) !in AssetUrls(kept) then kept + [a] else kept
  }

  /** `seen_urls` of the loop is the set of urls kept so far. */
  method UniqueAssets(assets: seq<Asset>) returns (unique: seq<Asset>)
    ensures unique == Unique(assets)
  {
    unique := [];
    var seen: set<string> := {};
    for i := 0 to |assets|
      invariant unique == Unique(assets[..i]) && seen == AssetUrls(unique)
    {
      assert assets[..i + 1][..i] == assets[..i];
      var asset := assets[i];
      var url := AssetUrl(asset);
      if url != "" && url !in seen {
        unique := unique + [asset];
        seen := seen + {url};
      }
    }
    assert assets[..|assets|] == assets;
  }

  /** The kept assets come from the input, have a non-empty url, and no
      url is kept twice. */
  lemma {:induction false} UniqueIsClean(assets: seq<Asset>)
    ensures forall a :: a in Unique(assets) ==> a in assets && AssetUrl(a) != ""
    ensures forall i, j :: 0 <= i < j < |Unique(assets)| ==> AssetUrl(Unique(assets)[i]) != AssetUrl(Unique(assets)[j])
  {
    if assets != [] {
      var n := |assets| - 1;
      UniqueIsClean(assets[..n]);
      var kept := Unique(assets[..n]);
      forall a | a in kept ensures a in assets {
        assert a in assets[..n];
      }
      if AssetUrl(assets[n]) != "" && AssetUrl(assets[n]) !in AssetUrls(kept) {
        forall i | 0 <= i < |kept| ensures AssetUrl(kept[i]) != AssetUrl(assets[n]) {
          assert kept[i] in kept;
        }
      }
    }
  }

  /** The first asset with a given non-empty url is the one kept. */
  lemma {:induction false} UniqueKeepsFirst(assets: seq<Asset>, i: nat)
    requires i < |assets| && AssetUrl(assets[i]) != ""
    requires forall j :: 0 <= j < i ==> AssetUrl(assets[j]) != AssetUrl(assets[i])
    ensures assets[i] in Unique(assets)
  {
    var n := |assets| - 1;
    if i < n {
      assert assets[..n][i] == assets[i];
      UniqueKeepsFirst(assets[..n], i);
    } else {
      UniqueIsClean(assets[..n]);
      forall a | a in Unique(assets[..n]) ensures AssetUrl(a) != AssetUrl(assets[i]) {
        var j :| 0 <= j < n && assets[..n][j] == a;
      }
    }
  }

  /** Every non-empty url of the input is represented. */
  lemma {:induction false} UniqueCoversUrls(assets: seq<Asset>)
    ensures forall a :: a in assets && AssetUrl(a) != "" ==> AssetUrl(a) in AssetUrls(Unique(assets))
  {
    if assets != [] {
      var n := |assets| - 1;
      UniqueCoversUrls(assets[..n]);
      forall a | a in assets && AssetUrl(a) != "" ensures AssetUrl(a) in AssetUrls(Unique(assets)) {
        if a in assets[..n] {
          var kept := Unique(assets[..n]);
          var b :| b in kept && AssetUrl(b) == AssetUrl(a);
          assert b in Unique(assets);
        } else {
          assert a == assets[n];
        }
      }
    }
  }

  /** The assets of all pages, page by page. */
  function AllAssets(pages: seq<PageCloneResult>): seq<Asset> {
    if pages == [] then [] else AllAssets(pages[..|pages| - 1]) + pages[|pages| - 1].assets
  }

  /** The record `clone_full_website` returns. */
  function FullSiteResult(baseUrl: string, pages: seq<PageCloneResult>, sitemap: seq<string>, model: string)
    : (r: FullSiteCloneResult)
    ensures r.pages == pages && r.sitemap == sitemap && r.baseUrl == baseUrl && r.modelUsed == model
    ensures r.assets == Unique(AllAssets(pages))
    ensures r.totalPages == |r.pages| && r.totalAssets == |r.assets|
  {
    var assets := Unique(AllAssets(pages));
    FullSiteCloneResult(baseUrl, pages, assets, sitemap, |pages|, |assets|, model)
  }

  /** The `all_assets.extend(page.assets)` loop. */
  method CollectAssets(pages: seq<PageCloneResult>) returns (all: seq<Asset>)
    ensures all == AllAssets(pages)
  {
    all := [];
    for i := 0 to |pages|
      invariant all == AllAssets(pages[..i])
    {
      assert pages[..i + 1][..i] == pages[..i];
      all := all + pages[i].assets;
    }
    assert pages[..|pages|] == pages;
  }

  /** Phases 1 to 3 of `clone_full_website`: discovery, capture, and the
      asset phase when `include_assets` is set. */
  method CaptureSite(request: CloneRequest, links: SiteCrawler.Links, scrape: string -> Option<ScrapeResult>,
                     codec: HtmlCodec, downloader: AssetDownloader)
    returns (sitemap: seq<string>, captured: seq<ScrapeResult>, ghost crawl: SiteCrawler.CrawlState, ghost steps: nat)
    requires downloader.Valid()
    modifies downloader
    ensures downloader.Valid()
    ensures SiteCrawler.Discovered(request.url, request.maxPages, links, sitemap, crawl, steps)
    ensures forall k, h ::
      (0 <= k < |crawl.rendered| && links(crawl.rendered[k]).Some? && h in links(crawl.rendered[k]).value
       && SiteCrawler.Internal(request.url, SiteCrawler.Clean(crawl.rendered[k], h))) ==> SiteCrawler.Clean(crawl.rendered[k], h) in sitemap
    ensures request.url in sitemap && SiteCrawler.Distinct(sitemap)
    ensures forall k :: 0 <= k < |sitemap| && sitemap[k] != request.url ==>
      SiteCrawler.Internal(request.url, sitemap[k]) && '#' !in sitemap[k]
    ensures request.maxPages <= 1 ==> sitemap == [request.url]
    ensures !request.includeAssets ==>
      downloader.State() == old(downloader.State()) && captured == Scraped(sitemap, scrape)
    ensures request.includeAssets ==>
      (downloader.State(), captured) == AssetPages(downloader.net, old(downloader.State()), codec, Scraped(sitemap, scrape))
  {
    sitemap, crawl, steps := SiteCrawler.DiscoverAllPages(request.url, request.maxPages, links);
    var scraped, batches := ScrapeAllPages(sitemap, scrape);
    var pages := new ScrapeResult[|scraped|](j requires 0 <= j < |scraped| => scraped[j]);
    assert pages[..] == scraped;
    if request.includeAssets {
      ProcessAllAssets(codec, downloader, pages);
    }
    captured := pages[..];
  }

  /** Phases 4 and 5 of `clone_full_website`: the AI clones of the
      captured pages, then their internal links fixed. */
  method CloneAndLink(codec: HtmlCodec, captured: seq<ScrapeResult>, llm: ScrapeResult -> Option<LlmCloneResult>)
    returns (cloned: seq<PageCloneResult>, linked: seq<PageCloneResult>)
    ensures |cloned| == |captured| && forall i :: 0 <= i < |captured| ==> cloned[i] == ClonePage(captured[i], llm(captured[i]))
    ensures |linked| == |cloned| && forall i :: 0 <= i < |cloned| ==>
      linked[i] == cloned[i].(html := LinkRewriter.FixedHtml(codec,
        LinkRewriter.UrlMap(LinkRewriter.PageUrls(cloned), LinkRewriter.PageFile), cloned[i]))
  {
    cloned := GenerateAiClones(captured, llm);
    var site := new PageCloneResult[|cloned|](j requires 0 <= j < |cloned| => cloned[j]);
    assert site[..] == cloned;
    LinkRewriter.FixInternalLinks(codec, site);
    linked := site[..];
  }

  /** `clone_full_website(request)`: the five phases in order, then the
      result record.  The crawler's renderer, the scraper, the html parser
      and the language-model service are oracles; `captured` are the pages
      the AI phase sees and `cloned` what it made of them, before link
      fixing. */
  method CloneFullWebsite(request: CloneRequest, links: SiteCrawler.Links, scrape: string -> Option<ScrapeResult>,
                          codec: HtmlCodec, downloader: AssetDownloader, llm: ScrapeResult -> Option<LlmCloneResult>)
    returns (r: FullSiteCloneResult, ghost captured: seq<ScrapeResult>, ghost cloned: seq<PageCloneResult>,
             ghost crawl: SiteCrawler.CrawlState, ghost steps: nat)
    requires downloader.Valid()
    modifies downloader
    ensures downloader.Valid()
    ensures SiteCrawler.Discovered(request.url, request.maxPages, links, r.sitemap, crawl, steps)
    ensures forall k, h ::
      (0 <= k < |crawl.rendered| && links(crawl.rendered[k]).Some? && h in links(crawl.rendered[k]).value
       && SiteCrawler.Internal(request.url, SiteCrawler.Clean(crawl.rendered[k], h))) ==> SiteCrawler.Clean(crawl.rendered[k], h) in r.sitemap
    ensures request.url in r.sitemap && SiteCrawler.Distinct(r.sitemap)
    ensures forall k :: 0 <= k < |r.sitemap| && r.sitemap[k] != request.url ==>
      SiteCrawler.Internal(request.url, r.sitemap[k]) && '#' !in r.sitemap[k]
    ensures request.maxPages <= 1 ==> r.sitemap == [request.url]
    ensures !request.includeAssets ==>
      downloader.State() == old(downloader.State()) && captured == Scraped(r.sitemap, scrape)
    ensures request.includeAssets ==>
      (downloader.State(), captured) == AssetPages(downloader.net, old(downloader.State()), codec, Scraped(r.sitemap, scrape))
    ensures |cloned| == |captured| && forall i :: 0 <= i < |captured| ==> cloned[i] == ClonePage(captured[i], llm(captured[i]))
    ensures |r.pages| == |cloned| && forall i :: 0 <= i < |cloned| ==>
      r.pages[i] == cloned[i].(html := LinkRewriter.FixedHtml(codec,
        LinkRewriter.UrlMap(LinkRewriter.PageUrls(cloned), LinkRewriter.PageFile), cloned[i]))
    ensures r == FullSiteResult(request.url, r.pages, r.sitemap, request.model)
  {
    var sitemap, pages;
    sitemap, pages, crawl, steps := CaptureSite(request, links, scrape, codec, downloader);
    captured := pages;
    var clones, linked := CloneAndLink(codec, pages, llm);
    cloned := clones;
    var all := CollectAssets(linked);
    var unique := UniqueAssets(all);
    r := FullSiteCloneResult(request.url, linked, unique, sitemap, |linked|, |unique|, request.model);
  }
}
