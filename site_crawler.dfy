/** The breadth-first crawler that discovers the pages of a site: a FIFO
    queue of URLs to render, the set of URLs found so far and the set of
    URLs rendered, with a page budget.  Rendering a page and reading its
    `<a href>` values is an oracle. */
module SiteCrawler {
  import opened Wrappers
  import Urls

  /** The `href` values of the rendered page at a URL, in document order;
      None when rendering raised or gave no html. */
  type Links = string -> Option<seq<string>>

  predicate Distinct(s: seq<string>) {
    forall i, j :: 0 <= i < j < |s| ==> s[i] != s[j]
  }

  /** `urljoin(page, href).split('#')[0]` */
  function Clean(page: string, href: string): (r: string)
    ensures '#' !in r
  {
    Urls.DropFragment(Urls.Join(page, href))
  }

  /** The cleaned URLs of a page's links, in order. */
  function CleanAll(page: string, hrefs: seq<string>): (r: seq<string>)
    ensures |r| == |hrefs| && forall k :: 0 <= k < |hrefs| ==> r[k] == Clean(page, hrefs[k]) && '#' !in r[k]
  {
    seq(|hrefs|, k requires 0 <= k < |hrefs| => Clean(page, hrefs[k]))
  }

  predicate Internal(root: string, u: string) {
    Urls.Netloc(u) == Urls.Netloc(root)
  }

  /** `all_urls` and `queue` */
  datatype Frontier = Frontier(all: set<string>, queue: seq<string>)

  /** One cleaned link of a rendered page, `netloc` being `urlparse(.).netloc`
      and `home` the netloc of the start URL: a new internal URL is always
      recorded, and it is queued only when the record is then still under
      budget. */
  function AddLink(f: Frontier, netloc: string -> string, home: string, maxPages: int, u: string): Frontier {
    if netloc(u) == home && u !in f.all then
      var all := f.all + {u};
      Frontier(all, if |all| < maxPages then f.queue + [u] else f.queue)
    else f
  }

  /** The cleaned links of one rendered page, in order. */
  function AddLinks(f: Frontier, netloc: string -> string, home: string, maxPages: int, urls: seq<string>): Frontier {
    if urls == [] then f
    else AddLink(AddLinks(f, netloc, home, maxPages, urls[..|urls| - 1]), netloc, home, maxPages, urls[|urls| - 1])
  }

  /** What the links of a page do to the frontier: the record only grows,
      every new URL is internal and is one of the links, and the queue only
      grows at its end, by new URLs. */
  lemma {:induction false} AddLinksFacts(f: Frontier, netloc: string -> string, home: string, maxPages: int, urls: seq<string>)
    ensures var r := AddLinks(f, netloc, home, maxPages, urls);
      && f.all <= r.all
      && (forall u :: u in r.all && u !in f.all ==> netloc(u) == home && u in urls)
      && |f.queue| <= |r.queue| && r.queue[..|f.queue|] == f.queue
      && (forall k :: |f.queue| <= k < |r.queue| ==> r.queue[k] in r.all && r.queue[k] !in f.all)
      && (|r.queue| > |f.queue| ==> |r.all| > |f.all|)
  {
    if urls != [] {
      var n := |urls| - 1;
      var mid := AddLinks(f, netloc, home, maxPages, urls[..n]);
      AddLinksFacts(f, netloc, home, maxPages, urls[..n]);
      AddLinkFacts(mid, netloc, home, maxPages, urls[n]);
      var r := AddLinks(f, netloc, home, maxPages, urls);
      assert r == AddLink(mid, netloc, home, maxPages, urls[n]);
      forall u | u in r.all && u !in f.all ensures netloc(u) == home && u in urls {
        if u in mid.all { assert u in urls[..n]; }
      }
      forall k | 0 <= k < |f.queue| ensures r.queue[k] == f.queue[k] {
        assert r.queue[k] == r.queue[..|mid.queue|][k] == mid.queue[k];
        assert mid.queue[k] == mid.queue[..|f.queue|][k];
      }
      forall k | |f.queue| <= k < |r.queue| ensures r.queue[k] in r.all && r.queue[k] !in f.all {
        if k < |mid.queue| {
          assert r.queue[k] == r.queue[..|mid.queue|][k] == mid.queue[k];
        }
      }
      if |r.queue| > |f.queue| {
        if |mid.queue| > |f.queue| {
          SubsetCard(mid.all, r.all);
        } else {
          SubsetCard(f.all, mid.all);
        }
      }
    }
  }

  /** One link: at most the link itself is recorded, and the queue grows at
      its end by at most that link, when it is new. */
  lemma AddLinkFacts(f: Frontier, netloc: string -> string, home: string, maxPages: int, u: string)
    ensures var r := AddLink(f, netloc, home, maxPages, u);
      && f.all <= r.all
      && (forall v :: v in r.all && v !in f.all ==> v == u && netloc(u) == home)
      && |f.queue| <= |r.queue| <= |f.queue| + 1 && r.queue[..|f.queue|] == f.queue
      && (|r.queue| > |f.queue| ==> r.queue[|f.queue|] == u && u in r.all && u !in f.all && |r.all| > |f.all|)
  {
  }

  /** A new internal URL found when the record already holds
      `max_pages - 1` URLs is recorded but not queued, so the record can
      end up larger than the budget. */
  lemma AddLinkOverBudget(f: Frontier, netloc: string -> string, home: string, maxPages: int, u: string)
    requires netloc(u) == home && u !in f.all && |f.all| + 1 >= maxPages
    ensures AddLink(f, netloc, home, maxPages, u) == Frontier(f.all + {u}, f.queue)
    ensures |AddLink(f, netloc, home, maxPages, u).all| == |f.all| + 1
  {
  }

  /** Under budget, a new internal URL is both recorded and queued. */
  lemma AddLinkUnderBudget(f: Frontier, netloc: string -> string, home: string, maxPages: int, u: string)
    requires netloc(u) == home && u !in f.all && |f.all| + 1 < maxPages
    ensures AddLink(f, netloc, home, maxPages, u) == Frontier(f.all + {u}, f.queue + [u])
  {
  }

  lemma {:induction false} SubsetCard(a: set<string>, b: set<string>)
    requires a <= b
    ensures |a| <= |b|
  {
    if a != {} {
      var x :| x in a;
      SubsetCard(a - {x}, b - {x});
    }
  }

  /** A duplicate-free sequence drawn from a set is no longer than the set. */
  lemma {:induction false} DistinctWithin(s: seq<string>, a: set<string>)
    requires Distinct(s) && forall k :: 0 <= k < |s| ==> s[k] in a
    ensures |s| <= |a|
  {
    if s != [] {
      var n := |s| - 1;
      forall k | 0 <= k < n ensures s[..n][k] in a - {s[n]} {
        assert s[..n][k] == s[k];
      }
      DistinctWithin(s[..n], a - {s[n]});
    }
  }

  /** `list(all_urls)`: the found URLs in some order. */
  method ListOf(all: set<string>) returns (r: seq<string>)
    ensures Distinct(r) && forall u :: u in r <==> u in all
  {
    r := [];
    var rest := all;
    while rest != {}
      invariant Distinct(r)
      invariant forall u :: u in all <==> u in r || u in rest
      invariant forall u :: u in r ==> u !in rest
      decreases |rest|
    {
      var u :| u in rest;
      r := r + [u];
      rest := rest - {u};
    }
  }

  /** The found URLs: the start URL, and URLs on its host without
      fragment. */
  ghost predicate Found(netloc: string -> string, baseUrl: string, all: set<string>) {
    baseUrl in all && forall u :: u in all && u != baseUrl ==> netloc(u) == netloc(baseUrl) && '#' !in u
  }

  /** `for link in soup.find_all('a', href=True)`, over the cleaned links. */
  method LinkLoop(netloc: string -> string, home: string, maxPages: int, urls: seq<string>,
                  all: set<string>, queue: seq<string>)
    returns (all': set<string>, queue': seq<string>)
    ensures Frontier(all', queue') == AddLinks(Frontier(all, queue), netloc, home, maxPages, urls)
  {
    all', queue' := all, queue;
    for k := 0 to |urls|
      invariant Frontier(all', queue') == AddLinks(Frontier(all, queue), netloc, home, maxPages, urls[..k])
    {
      assert urls[..k + 1][..k] == urls[..k];
      var fullUrl := urls[k];
      if netloc(fullUrl) == home {
        if fullUrl !in all' {
          all' := all' + {fullUrl};
          if |all'| < maxPages {
            queue' := queue' + [fullUrl];
          }
        }
      }
    }
    assert urls[..|urls|] == urls;
  }

  /** Every internal link of a page is recorded once its links are added. */
  lemma {:induction false} AddLinksCovers(f: Frontier, netloc: string -> string, home: string, maxPages: int, urls: seq<string>)
    ensures forall k :: 0 <= k < |urls| && netloc(urls[k]) == home ==> urls[k] in AddLinks(f, netloc, home, maxPages, urls).all
  {
    if urls != [] {
      var n := |urls| - 1;
      var mid := AddLinks(f, netloc, home, maxPages, urls[..n]);
      AddLinksCovers(f, netloc, home, maxPages, urls[..n]);
      AddLinkFacts(mid, netloc, home, maxPages, urls[n]);
      var r := AddLink(mid, netloc, home, maxPages, urls[n]);
      assert r == AddLinks(f, netloc, home, maxPages, urls);
      forall k | 0 <= k < |urls| && netloc(urls[k]) == home
        ensures urls[k] in r.all
      {
        if k < n {
          assert urls[..n][k] == urls[k];
        }
      }
    }
  }

  lemma FoundGrows(netloc: string -> string, baseUrl: string, all: set<string>, all': set<string>, urls: seq<string>)
    requires forall k :: 0 <= k < |urls| ==> '#' !in urls[k]
    requires Found(netloc, baseUrl, all) && all <= all'
    requires forall u :: u in all' && u !in all ==> netloc(u) == netloc(baseUrl) && u in urls
    ensures Found(netloc, baseUrl, all')
  {
  }

  // ---------------------------------------------------------------------
  // The crawl as a sequence of loop iterations

  /** What a crawl is given: the host reading of URLs, the start URL, the
      budget `max_pages` and the renderer. */
  datatype Crawler = Crawler(netloc: string -> string, baseUrl: string, maxPages: int, links: Links)

  /** The loop's state: `all_urls`, `queue`, and the URLs handed to the
      renderer so far, in order (`processed_urls` is the set of them). */
  datatype CrawlState = CrawlState(all: set<string>, queue: seq<string>, rendered: seq<string>)

  function Home(c: Crawler): string {
    c.netloc(c.baseUrl)
  }

  function Init(c: Crawler): CrawlState {
    CrawlState({c.baseUrl}, [c.baseUrl], [])
  }

  /** The loop condition `queue and len(all_urls) < self.max_pages`. */
  predicate Running(c: Crawler, st: CrawlState) {
    st.queue != [] && |st.all| < c.maxPages
  }

  /** One iteration: pop the head of the queue; skip it if it was already
      rendered; otherwise render it and, when the render gives html, add its
      cleaned links.  A render that raises or gives no html adds nothing. */
  function Step(c: Crawler, st: CrawlState): CrawlState
    requires st.queue != []
  {
    var url := st.queue[0];
    var rest := st.queue[1..];
    if url in st.rendered then st.(queue := rest)
    else
      match c.links(url)
      case None => CrawlState(st.all, rest, st.rendered + [url])
      case Some(hrefs) =>
        var f := AddLinks(Frontier(st.all, rest), c.netloc, Home(c), c.maxPages, CleanAll(url, hrefs));
        CrawlState(f.all, f.queue, st.rendered + [url])
  }

  /** The state after `n` iterations, or after the loop stopped when that
      came first. */
  function Run(c: Crawler, n: nat): CrawlState {
    if n == 0 then Init(c)
    else
      var prev := Run(c, n - 1);
      if Running(c, prev) then Step(c, prev) else prev
  }

  /** Each internal cleaned link of each rendered page is recorded. */
  ghost predicate LinksRecorded(c: Crawler, st: CrawlState) {
    forall k, h ::
      (0 <= k < |st.rendered| && c.links(st.rendered[k]).Some? && h in c.links(st.rendered[k]).value
       && c.netloc(Clean(st.rendered[k], h)) == Home(c)) ==> Clean(st.rendered[k], h) in st.all
  }

  /** What every iteration keeps: the found set holds the start URL and
      internal fragment-free URLs; queued and rendered URLs were found;
      no URL is rendered twice, and fewer pages than the budget are
      rendered; every internal link of a rendered page was recorded. */
  ghost predicate CrawlInvariant(c: Crawler, st: CrawlState) {
    && Found(c.netloc, c.baseUrl, st.all)
    && (forall k :: 0 <= k < |st.queue| ==> st.queue[k] in st.all)
    && Distinct(st.rendered) && (forall k :: 0 <= k < |st.rendered| ==> st.rendered[k] in st.all)
    && (c.maxPages >= 1 ==> |st.rendered| < c.maxPages)
    && LinksRecorded(c, st)
  }

  /** An iteration either records a new URL or shortens the queue. */
  lemma StepProgress(c: Crawler, st: CrawlState)
    requires Running(c, st)
    ensures |Step(c, st).all| >= |st.all|
    ensures |Step(c, st).all| == |st.all| ==> |Step(c, st).queue| < |st.queue|
  {
    var url := st.queue[0];
    if url !in st.rendered && c.links(url).Some? {
      var f := Frontier(st.all, st.queue[1..]);
      AddLinksFacts(f, c.netloc, Home(c), c.maxPages, CleanAll(url, c.links(url).value));
      SubsetCard(st.all, Step(c, st).all);
    }
  }

  /** An iteration of a rendered page: the new page is distinct from the
      earlier ones and all of them were found, so fewer than the budget. */
  lemma RenderStep(c: Crawler, st: CrawlState, url: string)
    requires CrawlInvariant(c, st) && Running(c, st) && url == st.queue[0] && url !in st.rendered
    ensures Distinct(st.rendered + [url]) && forall k :: 0 <= k < |st.rendered| + 1 ==> (st.rendered + [url])[k] in st.all
    ensures |st.rendered + [url]| < c.maxPages
  {
    var r := st.rendered + [url];
    assert forall k :: 0 <= k < |r| ==> r[k] in st.all by {
      forall k | 0 <= k < |r| ensures r[k] in st.all {
        if k < |st.rendered| { assert r[k] == st.rendered[k]; }
      }
    }
    DistinctWithin(r, st.all);
  }

  lemma StepKeepsInvariant(c: Crawler, st: CrawlState)
    requires CrawlInvariant(c, st) && Running(c, st)
    ensures CrawlInvariant(c, Step(c, st))
  {
    var url := st.queue[0];
    var rest := st.queue[1..];
    var next := Step(c, st);
    if url !in st.rendered {
      RenderStep(c, st, url);
      match c.links(url)
      case None =>
        forall k | 0 <= k < |next.queue| ensures next.queue[k] in next.all {
          assert next.queue[k] == st.queue[k + 1];
        }
      case Some(hrefs) =>
        var urls := CleanAll(url, hrefs);
        var f := Frontier(st.all, rest);
        AddLinksFacts(f, c.netloc, Home(c), c.maxPages, urls);
        AddLinksCovers(f, c.netloc, Home(c), c.maxPages, urls);
        FoundGrows(c.netloc, c.baseUrl, st.all, next.all, urls);
        forall k | 0 <= k < |next.queue| ensures next.queue[k] in next.all {
          if k < |rest| { assert next.queue[k] == rest[k] == st.queue[k + 1]; }
        }
        forall k | 0 <= k < |next.rendered| ensures next.rendered[k] in next.all {
          assert next.rendered[k] == (st.rendered + [url])[k];
        }
        forall k, h | 0 <= k < |next.rendered| && c.links(next.rendered[k]).Some? && h in c.links(next.rendered[k]).value
          && c.netloc(Clean(next.rendered[k], h)) == Home(c)
          ensures Clean(next.rendered[k], h) in next.all
        {
          if k == |st.rendered| {
            var j :| 0 <= j < |hrefs| && hrefs[j] == h;
            assert urls[j] == Clean(url, h);
          } else {
            assert next.rendered[k] == st.rendered[k];
          }
        }
    } else {
      forall k | 0 <= k < |next.queue| ensures next.queue[k] in next.all {
        assert next.queue[k] == st.queue[k + 1];
      }
    }
  }

  /** The invariant holds after any number of iterations. */
  lemma {:induction false} RunKeepsInvariant(c: Crawler, n: nat)
    ensures CrawlInvariant(c, Run(c, n))
  {
    if n > 0 {
      RunKeepsInvariant(c, n - 1);
      if Running(c, Run(c, n - 1)) {
        StepKeepsInvariant(c, Run(c, n - 1));
      }
    }
  }

  /** Once the loop has stopped, further iterations change nothing, so the
      crawl's outcome does not depend on how many iterations are counted
      past that point. */
  lemma {:induction false} RunStopped(c: Crawler, n: nat, m: nat)
    requires n <= m && !Running(c, Run(c, n))
    ensures Run(c, m) == Run(c, n)
  {
    if n < m {
      RunStopped(c, n, m - 1);
    }
  }

  /** With a budget of at most 1 the loop never runs: the start URL alone
      already meets the budget. */
  lemma {:induction false} RunWithoutBudget(c: Crawler, n: nat)
    requires c.maxPages <= 1
    ensures Run(c, n) == Init(c)
  {
    if n > 0 {
      RunWithoutBudget(c, n - 1);
    }
  }

  /** After `n` iterations the loop has stopped, with found set `all`. */
  ghost predicate StopsWith(c: Crawler, n: nat, all: set<string>) {
    !Running(c, Run(c, n)) && Run(c, n).all == all
  }

  /** The crawl loop, for any reading `netloc` of a URL's host: it runs the
      iterations of `Step` until the queue is empty or the found set has
      reached the budget; `final` is the state it stops in after `steps`
      iterations. */
  method Crawl(netloc: string -> string, baseUrl: string, maxPages: int, links: Links)
    returns (allUrls: set<string>, ghost final: CrawlState, ghost steps: nat)
    ensures final == Run(Crawler(netloc, baseUrl, maxPages, links), steps)
    ensures !Running(Crawler(netloc, baseUrl, maxPages, links), final)
    ensures allUrls == final.all
    ensures exists n: nat :: StopsWith(Crawler(netloc, baseUrl, maxPages, links), n, allUrls)
  {
    ghost var c := Crawler(netloc, baseUrl, maxPages, links);
    allUrls := {baseUrl};
    var queue := [baseUrl];
    var processedUrls: set<string> := {};
    ghost var rendered: seq<string> := [];
    steps := 0;
    while queue != [] && |allUrls| < maxPages
      invariant Run(c, steps) == CrawlState(allUrls, queue, rendered)
      invariant forall u :: u in processedUrls <==> u in rendered
      decreases maxPages - |allUrls|, |queue|
    {
      StepProgress(c, CrawlState(allUrls, queue, rendered));
      var url := queue[0];
      queue := queue[1..];
      steps := steps + 1;
      if url in processedUrls {
        continue;
      }
      processedUrls := processedUrls + {url};
      rendered := rendered + [url];
      var scraped := links(url);
      if scraped.Some? {
        allUrls, queue := LinkLoop(netloc, netloc(baseUrl), maxPages, CleanAll(url, scraped.value), allUrls, queue);
      }
    }
    final := CrawlState(allUrls, queue, rendered);
    assert StopsWith(c, steps, allUrls);
  }

  /** `result` lists, once each, the found set of the crawl from `baseUrl`
      that stopped in `final` after `steps` iterations. */
  ghost predicate Discovered(baseUrl: string, maxPages: int, links: Links, result: seq<string>, final: CrawlState, steps: nat) {
    var c := Crawler(Urls.Netloc, baseUrl, maxPages, links);
    && final == Run(c, steps) && !Running(c, final)
    && Distinct(result) && forall u :: u in result <==> u in final.all
  }

  /** The crawl's outcome is determined by its inputs: two discoveries from
      the same start URL, budget and renderer stop in the same state and
      list the same URLs. */
  lemma DiscoveredUnique(baseUrl: string, maxPages: int, links: Links,
                         r1: seq<string>, f1: CrawlState, s1: nat, r2: seq<string>, f2: CrawlState, s2: nat)
    requires Discovered(baseUrl, maxPages, links, r1, f1, s1)
    requires Discovered(baseUrl, maxPages, links, r2, f2, s2)
    ensures f1 == f2 && forall u :: u in r1 <==> u in r2
  {
    var c := Crawler(Urls.Netloc, baseUrl, maxPages, links);
    if s1 <= s2 {
      RunStopped(c, s1, s2);
    } else {
      RunStopped(c, s2, s1);
    }
  }

  /** What a discovery promises about its list: the root, internal URLs
      without `#`, every internal link of a page whose render gave html,
      and distinct rendered pages fewer than the budget. */
  lemma DiscoveredFacts(baseUrl: string, maxPages: int, links: Links, result: seq<string>, final: CrawlState, steps: nat)
    requires Discovered(baseUrl, maxPages, links, result, final, steps)
    ensures baseUrl in result
    ensures forall k :: 0 <= k < |result| && result[k] != baseUrl ==> Internal(baseUrl, result[k]) && '#' !in result[k]
    ensures Distinct(final.rendered) && forall k :: 0 <= k < |final.rendered| ==> final.rendered[k] in result
    ensures maxPages >= 1 ==> |final.rendered| < maxPages
    ensures forall k, h ::
      (0 <= k < |final.rendered| && links(final.rendered[k]).Some? && h in links(final.rendered[k]).value
       && Internal(baseUrl, Clean(final.rendered[k], h))) ==> Clean(final.rendered[k], h) in result
  {
    RunKeepsInvariant(Crawler(Urls.Netloc, baseUrl, maxPages, links), steps);
  }

  /** `discover_all_pages(baseUrl)` with budget `maxPages`: the found set as
      a list, after the loop stopped in `final`. */
  method DiscoverAllPages(baseUrl: string, maxPages: int, links: Links)
    returns (result: seq<string>, ghost final: CrawlState, ghost steps: nat)
    ensures final == Run(Crawler(Urls.Netloc, baseUrl, maxPages, links), steps)
    ensures final.queue == [] || |final.all| >= maxPages
    ensures Distinct(result) && forall u :: u in result <==> u in final.all
    ensures Discovered(baseUrl, maxPages, links, result, final, steps)
    ensures baseUrl in result
    ensures forall k :: 0 <= k < |result| && result[k] != baseUrl ==> Internal(baseUrl, result[k]) && '#' !in result[k]
    ensures Distinct(final.rendered) && forall k :: 0 <= k < |final.rendered| ==> final.rendered[k] in result
    ensures maxPages >= 1 ==> |final.rendered| < maxPages
    ensures forall k, h ::
      (0 <= k < |final.rendered| && links(final.rendered[k]).Some? && h in links(final.rendered[k]).value
       && Internal(baseUrl, Clean(final.rendered[k], h))) ==> Clean(final.rendered[k], h) in result
    ensures maxPages <= 1 ==> result == [baseUrl] && final.rendered == []
  {
    ghost var c := Crawler(Urls.Netloc, baseUrl, maxPages, links);
    var allUrls;
    allUrls, final, steps := Crawl(Urls.Netloc, baseUrl, maxPages, links);
    RunKeepsInvariant(c, steps);
    result := ListOf(allUrls);
    if maxPages <= 1 {
      RunWithoutBudget(c, steps);
      DistinctWithin(result, {baseUrl});
      assert result == [result[0]];
    }
  }
}
