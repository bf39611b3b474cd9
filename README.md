# Website cloner backend: a verified model

This project models the sequential, stateful and string-level core of a
website-cloning backend. The backend crawls a site and captures its pages,
through a local browser with a remote browser service as fallback. It then
inlines the pages' stylesheets, images and scripts, and sends each page to
a language model (Claude, GPT-4o or Gemini) for an AI-generated clone. It
rewrites links for offline browsing and packages the clone as an archive.
Background jobs report progress through a per-job live log that clients
follow as Server-Sent Events.

The model follows the backend's own structure, one Dafny module per
component:

- `Urls`: URLs as five-part records (RFC 3986, section 3). Parsing
  round-trips with recomposition. `urljoin` is modelled as reference
  resolution (RFC 3986, section 5.2.2 to 5.2.4) with the empty-base and
  empty-reference cases of Python; where Python's `urljoin` behaves
  otherwise is listed under "Left out".
- `Paths`: two path rules.
  - The rule that turns a URL path into an output file name
    (`index.html`, `x/index.html`, `x.html`, or the path itself).
  - `os.path.dirname`, and `os.path.relpath` over lists of path components.
- `Base64` and `DataUris`: base64 encoding (RFC 4648, section 4) and the
  `data:` URLs of the asset embedder (RFC 2397). The guess of the media type
  is an oracle.
- `CssUrls`: a scanner for the `url(...)` pattern. It covers `findall` and
  `sub`, and the `background-image:` variant.
- `Documents`: an abstract document, a list of elements with tag,
  attributes and text. Parsing and serialising html are an oracle.
- Offline links and the full-site pipeline:
  - `LinkRewriter`: the URL-to-file map and the rewriting of anchors.
  - `FullSite`: capture in batches, the asset phase, the AI phase with its
    per-page fallback, link fixing, and the unique-asset list.
- The asset embedder:
  - `AssetStore`: the embedder's three fields as one store value, and the
    invariants every download step keeps.
  - `AssetDownloaders`: the embedder as a class whose fields persist across
    the pages of a job, with the document as an array changed in place.
- `SiteCrawler`: the breadth-first crawl as a loop over a FIFO queue, proved
  against a function for one loop iteration, with
  its loop invariants.
- `EventLog`: the live logs (history, listener queues, replay, drain,
  clean-up) and the job queues of `JobLogger`, each as a class over map
  fields.
- `CloneJobs`: the job registry with its HTTP guards. It also holds the
  lifecycle of `process_clone_job` over abstract step outcomes, and the
  archive as a map from file name to content.
- `Capture`: the accept-or-fall-back decision of the orchestrating scraper,
  and the remote session's create/use/stop sequence.
- `Config`, `LlmClients`, `LlmService`, `Vision`: the language-model side.
  - Settings and model configurations.
  - Claude and Gemini message conversion, the client cache, and the prompt
    builder.
  - Strategy dispatch, streaming collection and output cleaning.
  - The screenshot-first cloner.

The network, the browsers, the language models, the html parser, the image
decoder and `mimetypes` are parameters of the model: oracles, or the
outcomes they produced. Python strings are `seq<char>`.

## Model

| member | source | states |
|---|---|---|
| Urls.Parse | backend/app/services/full_site_scraper.py:231 | definition of `urlparse` into five parts; stated by `Urls.RecomposeParse`, `Urls.ParsedWellFormed` and `Urls.CutParams` |
| Urls.Recompose | backend/app/services/full_site_scraper.py:231 | definition of recomposition from the five parts; stated by `Urls.RecomposeParse` and `Urls.ParseRecompose` |
| Urls.RecomposeParse | backend/app/services/full_site_scraper.py:231 | recomposing the five parts that `urlparse` splits a URL into gives back the URL text |
| Urls.ParseRecompose | backend/app/services/full_site_scraper.py:231 | every well-formed URL record parses back from its text |
| Urls.ParsedWellFormed | backend/app/services/full_site_scraper.py:231 | every parse is well-formed, so the two round trips join up |
| Urls.CutParams | backend/app/services/full_site_scraper.py:231 | the `.path` of `urlparse` is a prefix of the path, and all of it when the path has no `;` |
| Urls.DropFragment | backend/app/services/site_crawler.py:57 | `split('#')[0]` leaves no `#` |
| Urls.DropQueryAndFragment | backend/app/services/full_site_scraper.py:264 | `split('?')[0].split('#')[0]` leaves no `?` and no `#` |
| Urls.RemoveDotsWithoutDots | backend/app/services/full_site_scraper.py:263 | removing dot segments leaves a path without dots unchanged |
| Urls.RemoveDotsKeepsRoot | backend/app/services/full_site_scraper.py:263 | an absolute path stays absolute after removing dot segments |
| Urls.RemoveDotsNoDelimiters | backend/app/services/full_site_scraper.py:263 | removing dot segments adds no `?` or `#` |
| Urls.MergeAbsolute | backend/app/services/full_site_scraper.py:263 | merging with a base that has an authority gives an absolute path without query or fragment delimiters |
| Urls.Resolve | backend/app/services/full_site_scraper.py:263 | definition of reference resolution on parsed URLs; stated by `Urls.AbsolutePathWellFormed` and `Urls.ResolveRelativeWellFormed` |
| Urls.AbsolutePathWellFormed | backend/app/services/full_site_scraper.py:263 | a resolved target with an absolute path is a well-formed URL |
| Urls.ResolveRelativeWellFormed | backend/app/services/full_site_scraper.py:263 | resolving a relative reference against an absolute base is well-formed and keeps the base's scheme and authority |
| Urls.Join | backend/app/services/site_crawler.py:54 | definition of `urljoin` on texts; stated by `Urls.JoinRelativeKeepsOrigin` |
| Urls.JoinRelativeKeepsOrigin | backend/app/services/site_crawler.py:54-60 | `urljoin` of an absolute base and a relative reference keeps the scheme and the netloc, so such links count as internal |
| Paths.Extension | backend/app/services/full_site_scraper.py:238 | the `splitext` extension is empty, or starts with `.` and ends the path |
| Paths.ExtensionInLastSegment | backend/app/services/full_site_scraper.py:238 | the extension never contains `/` |
| Paths.OutputPath | backend/app/services/full_site_scraper.py:231-239 | the output file name is never empty and never starts with `/` |
| Paths.OutputPathKeepsStem | backend/app/services/full_site_scraper.py:233-239 | the output file name starts with the slash-stripped path |
| Paths.OutputPathOfFileName | backend/app/services/full_site_scraper.py:238-239 | a path without a trailing slash whose stripped form has an extension is used as it is |
| Paths.OutputPathOfRoot | backend/app/services/full_site_scraper.py:234-235 | the empty path, `/` and `///` all become `index.html` |
| Paths.OutputPathOfName | backend/app/services/full_site_scraper.py:238-239 | `/about` becomes `about.html` |
| Paths.OutputPathOfNestedName | backend/app/services/full_site_scraper.py:238-239 | `/blog/post` becomes `blog/post.html` |
| Paths.OutputPathOfDirectory | backend/app/services/full_site_scraper.py:236-237 | `/about/` becomes `about/index.html` |
| Paths.OutputPathOfFile | backend/app/services/full_site_scraper.py:238 | `/blog/post.php` stays `blog/post.php` |
| Paths.Dirname | backend/app/services/full_site_scraper.py:254 | `os.path.dirname` is a prefix of its argument |
| Paths.DirnameExample | backend/app/services/full_site_scraper.py:254 | the directory of `blog/post.html` is `blog` |
| Paths.NormalizedComponents | backend/app/services/full_site_scraper.py:274 | normalising the components of any path leaves no `.` and no `..` after a name |
| Paths.RelPath | backend/app/services/full_site_scraper.py:274 | definition of `os.path.relpath`; stated by `Paths.RelPathRoundTrip`, `Paths.RelPathOfNames` and `Paths.RelPathExample` |
| Paths.RelComponentsReach | backend/app/services/full_site_scraper.py:274 | from a start directory without `..`, the relative components lead exactly to the target |
| Paths.RelPathRoundTrip | backend/app/services/full_site_scraper.py:274 | joining the start with `relpath(target, start)` and normalising gives the normalised target |
| Paths.RelPathOfNames | backend/app/services/full_site_scraper.py:274 | `relpath("index.html", "blog")` is `../index.html` |
| Paths.RelPathExample | backend/app/services/full_site_scraper.py:263-275 | from `blog/post.html`, a link to the root page becomes `../index.html` |
| Base64.Encode | backend/app/services/asset_downloader.py:205 | the encoding has four characters per started group of three bytes, all from the base64 alphabet or `=` |
| Base64.DecodeEncode | backend/app/services/asset_downloader.py:205 | decoding an encoding gives back the bytes |
| Base64.SextetRoundTrip | backend/app/services/asset_downloader.py:205 | each six-bit value has one alphabet character, which reads back as that value |
| DataUris.Mime | backend/app/services/asset_downloader.py:191-202 | a successful guess wins; otherwise `.woff`/`.woff2` give `font/woff2`, `.ttf` gives `font/ttf`, `.otf` gives `font/otf`, and anything else `application/octet-stream` |
| DataUris.DataUri | backend/app/services/asset_downloader.py:204-206 | every data URL starts with `data:` |
| DataUris.ParseDataUriRoundTrip | backend/app/services/asset_downloader.py:188-206 | a data URL reads back as its media type and the asset's exact bytes |
| DataUris.ParseFallbackDataUri | backend/app/services/asset_downloader.py:193-206 | when the guess fails, the data URL reads back as the fallback type and the bytes |
| CssUrls.RunEnd | backend/app/services/asset_downloader.py:136 | the captured run ends at the text's end or at a quote, `)` or white space, where white space is Python's Unicode `\s` |
| CssUrls.MatchAt | backend/app/services/asset_downloader.py:136 | a match starts where it was looked for, ends inside the text, and captures a non-empty reference, whose run stops at a quote, `)` or white space in the sense of Python's Unicode `\s` |
| CssUrls.MatchAtClean | backend/app/services/asset_downloader.py:136 | a captured reference holds no quote, `)` or white space, and occurs in the text |
| CssUrls.FindFromClean | backend/app/services/asset_downloader.py:137 | every reference `findall` returns from a position is clean and occurs in the text |
| CssUrls.FindUrls | backend/app/services/asset_downloader.py:136-137 | definition of `re.findall` of the `url(...)` pattern; stated by `CssUrls.FindUrlsClean` and `CssUrls.UrlReferenceExample` |
| CssUrls.FindUrlsClean | backend/app/services/asset_downloader.py:136-137 | every reference `findall` returns is non-empty, clean, and occurs in the stylesheet |
| CssUrls.UrlReferenceExample | backend/app/services/asset_downloader.py:136-137 | `url('a.png')` yields exactly the reference `a.png` |
| CssUrls.Sub | backend/app/services/asset_downloader.py:250 | definition of `re.sub` of the `url(...)` pattern; stated by `CssUrls.SubIdentity` |
| CssUrls.SubIdentity | backend/app/services/asset_downloader.py:250 | `re.sub` whose replacement keeps every match returns the text unchanged |
| CssUrls.BackgroundAt | backend/app/services/asset_downloader.py:88 | a `background-image:` match ends inside the text and captures a non-empty reference; white space is Python's Unicode `\s` |
| CssUrls.BackgroundUrls | backend/app/services/asset_downloader.py:88 | definition of `re.findall` of the `background-image:` pattern; stated by `CssUrls.BackgroundUrlsClean` |
| CssUrls.BackgroundUrlsClean | backend/app/services/asset_downloader.py:88 | every background-image reference is non-empty and holds no quote, `)` or white space |
| AssetStore.BinaryStepFacts | backend/app/services/asset_downloader.py:169-186 | for a binary download: a cached URL is not fetched again; a failed fetch leaves the cache as it was; cache keys only grow; the text fields never change |
| AssetStore.BinaryStepConsistent | backend/app/services/asset_downloader.py:169-186 | a binary download keeps the invariant that the cache holds exactly the successful fetches, and it only extends the fields |
| AssetStore.BinaryAll | backend/app/services/asset_downloader.py:78-91 | definition of a run of binary downloads; stated by `AssetStore.BinaryAllConsistent`, `AssetStore.BinaryAllCached` and `AssetStore.BinaryAllConcat` |
| AssetStore.BinaryAllConsistent | backend/app/services/asset_downloader.py:78-91 | a run of binary downloads keeps the invariant and leaves the text fields alone |
| AssetStore.BinaryAllCached | backend/app/services/asset_downloader.py:172-173 | binary downloads of cached URLs change nothing and fetch nothing |
| AssetStore.Resolved | backend/app/services/asset_downloader.py:137-140 | each `url(...)` reference is paired with its resolution against the stylesheet's own URL |
| AssetStore.CssFoldConsistent | backend/app/services/asset_downloader.py:139-150 | processing a stylesheet keeps the binary invariant and changes only the cache and its log |
| AssetStore.CssFoldUnchanged | backend/app/services/asset_downloader.py:145-150 | when no resolved URL ends up cached, the stylesheet comes out exactly as it went in |
| AssetStore.TextStepFacts | backend/app/services/asset_downloader.py:63-69 | a processed URL is not fetched again; a failed text fetch only adds to the fetch log and does not mark the URL processed |
| AssetStore.ScriptStepStores | backend/app/services/asset_downloader.py:105-109 | a stored script is exactly the fetched text |
| AssetStore.TextLogConsistent | backend/app/services/asset_downloader.py:152-167 | fetching an unprocessed URL keeps the rule that a URL is fetched twice only when a fetch of it failed |
| AssetStore.CssStepConsistent | backend/app/services/asset_downloader.py:63-69 | a stylesheet or font step keeps the invariant: `processed_urls` is the key set of `downloaded_assets`, and a URL is processed exactly when its fetch succeeded |
| AssetStore.ScriptStepConsistent | backend/app/services/asset_downloader.py:105-109 | a script step keeps the same invariant |
| AssetStore.CssAll | backend/app/services/asset_downloader.py:58-69 | definition of the stylesheet pass; stated by `AssetStore.CssAllConsistent` and `AssetStore.CssAllConcat` |
| AssetStore.CssAllConsistent | backend/app/services/asset_downloader.py:58-69 | a whole stylesheet pass keeps the invariant and only extends the fields |
| AssetStore.ScriptAll | backend/app/services/asset_downloader.py:100-109 | definition of the script pass; stated by `AssetStore.ScriptAllConsistent` and `AssetStore.ScriptAllConcat` |
| AssetStore.ScriptAllConsistent | backend/app/services/asset_downloader.py:100-109 | a whole script pass keeps the invariant and only extends the fields |
| AssetStore.CssAllConcat | backend/app/services/asset_downloader.py:58-69 | a stylesheet pass over `a + b` is the pass over `a` followed by the pass over `b` |
| AssetStore.BinaryAllConcat | backend/app/services/asset_downloader.py:78-91 | binary downloads compose over concatenation in the same way |
| AssetStore.ScriptAllConcat | backend/app/services/asset_downloader.py:100-109 | script downloads compose over concatenation in the same way |
| AssetStore.CollectNext | backend/app/services/asset_downloader.py:56-58 | one more element adds its own references at the end, in document order |
| AssetStore.ResolveAll | backend/app/services/asset_downloader.py:61 | each reference is joined to the page URL, one result per reference |
| AssetStore.ResolveAllConcat | backend/app/services/asset_downloader.py:61 | resolving distributes over concatenation |
| AssetStore.Downloads | backend/app/services/asset_downloader.py:37-40 | definition of the four download passes in order; stated by `AssetStore.DownloadsConsistent` |
| AssetStore.DownloadsConsistent | backend/app/services/asset_downloader.py:37-40 | the four download passes, in order, keep the invariant and keep what earlier pages left in the fields |
| AssetStore.EmbedStylesheet | backend/app/services/asset_downloader.py:211-224 | a link whose `rel` values include `stylesheet`, with an href whose key is downloaded, becomes a `<style>` holding the processed text; exactly when that does not hold the element stays as it was |
| AssetStore.StylesheetAmongRels | backend/app/services/asset_downloader.py:211 | `rel` is matched word by word: `stylesheet preload` is a stylesheet link and `stylesheets` is not |
| AssetStore.EmbedImage | backend/app/services/asset_downloader.py:229-235 | an `img` whose raw `src` is cached gets the data URL of the cached bytes as `src`, keeping its tag, text and other attributes; exactly the other elements stay as they were |
| AssetStore.EmbedStyle | backend/app/services/asset_downloader.py:238-251 | with a `style` attribute, that attribute becomes its `url(...)` rewrite with cached references as data URLs, and nothing else changes; without one the element stays as it was |
| AssetStore.EmbedScript | backend/app/services/asset_downloader.py:256-263 | a script whose raw `src` is downloaded gets an empty `src` and the downloaded script as its text, keeping its other attributes; exactly the other elements stay as they were |
| AssetStore.MapDoc | backend/app/services/asset_downloader.py:213-224 | an element-wise pass maps every element and keeps the document's length |
| AssetStore.BaseHrefUpdate | backend/app/services/asset_downloader.py:216 | replacing a non-`<base>` element by another keeps the document's `<base>` href |
| AssetStore.Embedded | backend/app/services/asset_downloader.py:43-45 | definition of the three embedding passes in order; stated element by element by `AssetStore.EmbedStylesheet`, `AssetStore.EmbedImage`, `AssetStore.EmbedStyle` and `AssetStore.EmbedScript` |
| AssetStore.EmbedPage | backend/app/services/asset_downloader.py:20-49 | definition of processing one page; stated by `AssetStore.EmbedPageConsistent` |
| AssetStore.EmbedPageConsistent | backend/app/services/asset_downloader.py:20-49 | processing one page keeps the embedder's invariant and keeps what the fields held before |
| AssetStore.EmbedStyleNothingCached | backend/app/services/asset_downloader.py:243-250 | with nothing cached, the `style` rewrite leaves every element unchanged |
| AssetStore.RelativeImageNotInlined | backend/app/services/asset_downloader.py:232-235 | a relative `src` on an absolute page is downloaded under its resolved URL, and that download alone leaves the `img` un-inlined |
| AssetDownloaders.AssetDownloader.constructor | backend/app/services/asset_downloader.py:14-18 | a new embedder starts with empty fields and satisfies its invariant |
| AssetDownloaders.AssetDownloader.DownloadAndCacheBinaryAsset | backend/app/services/asset_downloader.py:169-186 | the fields become exactly the binary step of the old fields |
| AssetDownloaders.AssetDownloader.DownloadAsset | backend/app/services/asset_downloader.py:152-167 | returns the text of a 200 response or None, and only logs the fetch |
| AssetDownloaders.AssetDownloader.ProcessCssAssets | backend/app/services/asset_downloader.py:132-150 | the fields and the returned stylesheet are the stylesheet fold of the old fields |
| AssetDownloaders.AssetDownloader.DownloadStylesheet | backend/app/services/asset_downloader.py:63-69 | the fields become the stylesheet step for one resolved URL |
| AssetDownloaders.AssetDownloader.DownloadStylesheets | backend/app/services/asset_downloader.py:51-69 | the fields become the stylesheet steps over the resolved hrefs of the stylesheet links, in document order |
| AssetDownloaders.AssetDownloader.DownloadImageSources | backend/app/services/asset_downloader.py:77-82 | the fields become the binary steps over the resolved `img` sources |
| AssetDownloaders.AssetDownloader.DownloadBackgrounds | backend/app/services/asset_downloader.py:88-91 | the fields become the binary steps over one style's resolved background references |
| AssetDownloaders.AssetDownloader.DownloadStyleImages | backend/app/services/asset_downloader.py:85-91 | the fields become the binary steps over every resolved background reference, in document order |
| AssetDownloaders.AssetDownloader.DownloadScript | backend/app/services/asset_downloader.py:103-109 | the fields become the script step for one resolved URL |
| AssetDownloaders.AssetDownloader.DownloadScripts | backend/app/services/asset_downloader.py:93-109 | the fields become the script steps over the resolved script sources |
| AssetDownloaders.AssetDownloader.DownloadFonts | backend/app/services/asset_downloader.py:111-130 | the fields become the stylesheet steps over the resolved font link hrefs |
| AssetDownloaders.AssetDownloader.EmbedStylesheetAt | backend/app/services/asset_downloader.py:213-224 | only element `i` of the document changes, as the stylesheet embedding says, and the `<base>` stays the same |
| AssetDownloaders.AssetDownloader.EmbedStylesheets | backend/app/services/asset_downloader.py:208-224 | the document becomes the stylesheet pass of the old document |
| AssetDownloaders.AssetDownloader.EmbedImages | backend/app/services/asset_downloader.py:226-251 | the document becomes the image pass (`img` sources then `style` attributes) |
| AssetDownloaders.AssetDownloader.EmbedScripts | backend/app/services/asset_downloader.py:253-263 | the document becomes the script pass |
| AssetDownloaders.AssetDownloader.DownloadAll | backend/app/services/asset_downloader.py:37-40 | the fields become the four download passes in the order stylesheets, images, scripts, fonts |
| AssetDownloaders.AssetDownloader.EmbedAll | backend/app/services/asset_downloader.py:43-45 | the document becomes the three embedding passes in the order stylesheets, images, scripts |
| AssetDownloaders.AssetDownloader.DownloadAndEmbedAssets | backend/app/services/asset_downloader.py:20-49 | the invariant is kept, and the fields and the returned html are those of the page-processing function |
| AssetDownloaders.MapInPlace | backend/app/services/asset_downloader.py:229-235 | an in-place pass leaves the array equal to the element-wise map of its old contents |
| LinkRewriter.PageFile | backend/app/services/full_site_scraper.py:231-239 | the file of a page URL is never empty and never starts with `/` |
| LinkRewriter.Entries | backend/app/services/full_site_scraper.py:241-244 | a page contributes its URL and, when the URL ends in `/`, the URL without trailing slashes, both mapped to its file and nothing else |
| LinkRewriter.AddEntries | backend/app/services/full_site_scraper.py:241-244 | the two dictionary writes of one page are the page's entries laid over the map |
| LinkRewriter.PageUrls | backend/app/services/full_site_scraper.py:230 | the URLs of the pages, in page order |
| LinkRewriter.BuildUrlMap | backend/app/services/full_site_scraper.py:229-244 | the loop builds the URL map of the pages |
| LinkRewriter.UrlMapCoversPages | backend/app/services/full_site_scraper.py:241-244 | the map holds every page URL, and also its trailing-slash-stripped form when it ends in `/` |
| LinkRewriter.UrlMapValues | backend/app/services/full_site_scraper.py:241 | every value of the map is the file of some page |
| LinkRewriter.UrlMapLookup | backend/app/services/full_site_scraper.py:241-244 | a key maps to the file of the last page that wrote it |
| LinkRewriter.TargetFile | backend/app/services/full_site_scraper.py:267-269 | a found target is a non-empty file of the map; a direct hit with a non-empty file is used first |
| LinkRewriter.RewriteHref | backend/app/services/full_site_scraper.py:259-275 | a skipped href (empty, `#`, `mailto:`, `tel:`) is unchanged; any other href is unchanged or becomes a relative path to a mapped file |
| LinkRewriter.RewriteToClonedPage | backend/app/services/full_site_scraper.py:263-275 | a link whose cleaned resolution is mapped becomes the relative path from the current directory to that file |
| LinkRewriter.RewriteOutsideLink | backend/app/services/full_site_scraper.py:266-271 | a link to a page that was not cloned stays as written |
| LinkRewriter.RewriteElement | backend/app/services/full_site_scraper.py:256-275 | only the href of an anchor can change; other elements and attributes stay |
| LinkRewriter.RewriteDocument | backend/app/services/full_site_scraper.py:256-275 | the document keeps its length and every element is rewritten on its own |
| LinkRewriter.RewriteAnchor | backend/app/services/full_site_scraper.py:256-275 | one loop body rewrites one element as the element rule says |
| LinkRewriter.RewriteAnchors | backend/app/services/full_site_scraper.py:256-275 | the soup, changed in place, becomes the rewritten document |
| LinkRewriter.FixPage | backend/app/services/full_site_scraper.py:247-279 | the new html is the rewritten document serialised, or the old html when it cannot be parsed |
| LinkRewriter.FixPages | backend/app/services/full_site_scraper.py:247-279 | every page's html, and only its html, is replaced in place by its fixed html |
| LinkRewriter.FixInternalLinks | backend/app/services/full_site_scraper.py:223-281 | every page gets the html fixed against the map built from all pages |
| FullSite.ScrapedConcat | backend/app/services/full_site_scraper.py:126-137 | capturing `a` then `b` keeps the successes of both, in order |
| FullSite.ScrapedBound | backend/app/services/full_site_scraper.py:135-140 | never more pages than URLs, and exactly the captures in URL order when none fails |
| FullSite.ScrapedFromUrls | backend/app/services/full_site_scraper.py:135-137 | every kept page is the capture of one of the URLs |
| FullSite.ScrapeBatch | backend/app/services/full_site_scraper.py:132-140 | a batch keeps its successful captures in order |
| FullSite.ScrapeAllPages | backend/app/services/full_site_scraper.py:119-146 | batches are consecutive slices of three that cover the URLs, there are ceil(n/3) of them, and the pages are the successful captures in URL order |
| FullSite.BatchStep | backend/app/services/full_site_scraper.py:125-127 | the next slice of at most three URLs extends the batching, and the batches still concatenate to the URLs covered so far |
| FullSite.WithAssets | backend/app/services/full_site_scraper.py:156-168 | a page gets the embedded html, or keeps its html when embedding raised |
| FullSite.AssetPagesShape | backend/app/services/full_site_scraper.py:153-168 | asset processing gives one page per page, changes only the html, and keeps the html of a page it cannot parse |
| FullSite.AssetPagesLength | backend/app/services/full_site_scraper.py:153 | one page out per page in |
| FullSite.AssetPagesConsistent | backend/app/services/full_site_scraper.py:148-171 | the embedder's invariant holds after every page, and one page's downloads stay available to later pages |
| FullSite.ProcessAllAssets | backend/app/services/full_site_scraper.py:148-171 | the pages' html is replaced in place by the one embedder's results, and the invariant is kept |
| FullSite.ProcessPageAt | backend/app/services/full_site_scraper.py:156-168 | one page's html is replaced by the embedder's result; the embedder's state advances by that page and no other page changes |
| FullSite.PagePath | backend/app/services/full_site_scraper.py:186-187 | the recorded path is never empty (`/` when the URL has no path) |
| FullSite.ClonePage | backend/app/services/full_site_scraper.py:181-215 | a cloned page keeps URL, path, screenshot, assets and metadata; it takes html and css from the model, or keeps the captured html and css when cloning raised |
| FullSite.GenerateAiClones | backend/app/services/full_site_scraper.py:173-221 | exactly one cloned page per captured page, in the same order |
| FullSite.UniqueAssets | backend/app/services/full_site_scraper.py:76-83 | the loop with its `seen_urls` set computes the unique-asset list |
| FullSite.UniqueIsClean | backend/app/services/full_site_scraper.py:76-83 | kept assets come from the input, have a non-empty url, and no url is kept twice |
| FullSite.UniqueKeepsFirst | backend/app/services/full_site_scraper.py:79-83 | the first asset with a given non-empty url is the one kept |
| FullSite.UniqueCoversUrls | backend/app/services/full_site_scraper.py:79-83 | every non-empty url of the input is represented |
| FullSite.CollectAssets | backend/app/services/full_site_scraper.py:71-74 | the assets of all pages, page by page |
| FullSite.FullSiteResult | backend/app/services/full_site_scraper.py:85-94 | the result holds the pages, the sitemap, the base URL and the model, with the unique assets, and `total_pages`/`total_assets` are their counts |
| FullSite.CaptureSite | backend/app/services/full_site_scraper.py:46-59 | the sitemap lists, once each, the found set of the crawl from the request's url and budget, stopped where its loop condition fails (returned as ghost state), and holds every internal link of each page whose render gave html; the pages are the successful captures, run through the embedder only when `include_assets` is set, and the embedder is untouched otherwise |
| FullSite.CloneAndLink | backend/app/services/full_site_scraper.py:61-67 | one AI clone per captured page, then each page's links fixed against the map of all clones |
| FullSite.CloneFullWebsite | backend/app/services/full_site_scraper.py:28-99 | the result's sitemap is the crawl's found set as for `FullSite.CaptureSite`; the captured pages are the successful captures of that sitemap, with assets when asked; the pages are one clone per capture with links fixed against all clones; and the record is built from these |
| SiteCrawler.Clean | backend/app/services/site_crawler.py:54-57 | a cleaned link has no `#` |
| SiteCrawler.CleanAll | backend/app/services/site_crawler.py:50-57 | one cleaned URL per link, in order |
| SiteCrawler.AddLinksFacts | backend/app/services/site_crawler.py:59-64 | a page's links only grow the found set, with same-host URLs that are among the links; the queue only grows at its end, with found URLs |
| SiteCrawler.AddLinkUnderBudget | backend/app/services/site_crawler.py:61-64 | under budget, a new internal URL is both recorded and queued |
| SiteCrawler.AddLinkOverBudget | backend/app/services/site_crawler.py:61-64 | a new internal URL found at `max_pages - 1` is recorded but not queued, so the result can exceed the budget |
| SiteCrawler.ListOf | backend/app/services/site_crawler.py:69 | `list(all_urls)` holds each found URL once |
| SiteCrawler.LinkLoop | backend/app/services/site_crawler.py:50-64 | the link loop computes the frontier update of the cleaned links |
| SiteCrawler.AddLinkFacts | backend/app/services/site_crawler.py:59-64 | one link records at most itself, when it is internal and new; the queue grows at its end by at most that link |
| SiteCrawler.AddLinksCovers | backend/app/services/site_crawler.py:59-62 | after a page's links are added, every internal one of them is recorded |
| SiteCrawler.FoundGrows | backend/app/services/site_crawler.py:60-62 | adding same-host links without `#` keeps the found-set invariant |
| SiteCrawler.Step | backend/app/services/site_crawler.py:36-64 | definition of one loop iteration; stated by `SiteCrawler.StepProgress` and `SiteCrawler.StepKeepsInvariant` |
| SiteCrawler.Run | backend/app/services/site_crawler.py:35-67 | definition of the loop's iterations; stated by `SiteCrawler.RunKeepsInvariant`, `SiteCrawler.RunStopped` and `SiteCrawler.RunWithoutBudget` |
| SiteCrawler.StepProgress | backend/app/services/site_crawler.py:35-64 | each iteration records a new URL or shortens the queue, so the loop ends |
| SiteCrawler.RenderStep | backend/app/services/site_crawler.py:36-40 | a newly rendered page is distinct from the earlier ones, and fewer pages than the budget are rendered |
| SiteCrawler.StepKeepsInvariant | backend/app/services/site_crawler.py:35-64 | an iteration keeps the crawl invariant: found URLs are the root or internal without `#`, queued and rendered URLs were found, no page is rendered twice, and every internal link of a rendered page was recorded |
| SiteCrawler.RunKeepsInvariant | backend/app/services/site_crawler.py:26-67 | the crawl invariant holds after any number of iterations |
| SiteCrawler.RunStopped | backend/app/services/site_crawler.py:35 | once the loop condition fails, further iterations change nothing |
| SiteCrawler.RunWithoutBudget | backend/app/services/site_crawler.py:31-35 | with a budget of at most 1 the loop body never runs |
| SiteCrawler.Crawl | backend/app/services/site_crawler.py:26-67 | the loop's final state is that of the iteration function after some number of iterations, and the loop condition (queue non-empty and fewer URLs than the budget) fails there; the returned set is the found set of that stopped state |
| SiteCrawler.DiscoveredUnique | backend/app/services/site_crawler.py:18-69 | two discoveries with the same start URL, budget and renderer stop in the same state and list the same URLs |
| SiteCrawler.DiscoveredFacts | backend/app/services/site_crawler.py:18-69 | a discovered list holds the root, then internal URLs without `#`, and every internal link of each page whose render gave html; rendered pages are distinct, listed and fewer than the budget |
| SiteCrawler.DiscoverAllPages | backend/app/services/site_crawler.py:18-69 | the loop stopped with an empty queue or a full budget; the result lists the found set once each: the root, and internal URLs without `#`; rendered pages are distinct, found and fewer than the budget; every internal cleaned link of a page whose render gave html is in the result; a budget of at most 1 gives just the root and renders nothing |
| EventLog.ParseFrame | backend/app/core/logging.py:131 | a frame that reads back gives a one-line message |
| EventLog.FrameRoundTrip | backend/app/core/logging.py:131 | a one-line message reads back from its `data: …\n\n` event (WHATWG HTML Living Standard, section 9.2) |
| EventLog.FrameBreaksOnNewline | backend/app/core/logging.py:131 | a message with a line break does not read back as one data line |
| EventLog.Frames | backend/app/core/logging.py:130-131 | one frame per message |
| EventLog.FramesRoundTrip | backend/app/core/logging.py:129-131 | every frame of a replay reads back as its one-line message |
| EventLog.FramesConcat | backend/app/core/logging.py:129-137 | the frames of the replay followed by the frames of the drain are the frames of both |
| EventLog.EndIndex | backend/app/core/logging.py:138 | the index found is the end of the queue or holds `[END]` |
| EventLog.EndIndexFirst | backend/app/core/logging.py:138 | no earlier index holds `[END]` |
| EventLog.TakenFacts | backend/app/core/logging.py:135-139 | a drain takes a prefix of the queue, stops at the first `[END]` and at no earlier message, and takes everything when there is none |
| EventLog.IndexOf | backend/app/core/logging.py:143 | the index found is the end of the list or holds the queue |
| EventLog.RemoveFacts | backend/app/core/logging.py:142-143 | in a list without repetitions, `remove` leaves exactly the other queues, still without repetitions |
| EventLog.SeenThenQueued | backend/app/core/logging.py:109-137 | with subscribing as one step, nothing is lost or repeated: what a listener was sent, followed by its queue, is exactly its job's history |
| EventLog.EmptyHubCoherent | backend/app/core/logging.py:4-5 | the empty maps satisfy the invariant |
| EventLog.OpenCoherent | backend/app/core/logging.py:96-101 | constructing a `LiveLogger` keeps the invariant and never clears an existing history or listener list |
| EventLog.LogHub | backend/app/core/logging.py:103-114 | definition of `log`; stated by `EventLog.LogReachesListeners` and `EventLog.LogCoherent` |
| EventLog.LogReachesListeners | backend/app/core/logging.py:103-114 | `log` appends the raw message to the history and to the end of every listener queue of the job, and to no other queue |
| EventLog.LogCoherent | backend/app/core/logging.py:103-114 | `log` keeps the invariant |
| EventLog.SubscribeHub | backend/app/core/logging.py:117-131 | definition of `subscribe` up to its first wait; stated by `EventLog.SubscribeReplays` and `EventLog.SubscribeCoherent` |
| EventLog.SubscribeReplays | backend/app/core/logging.py:122-131 | the new queue is fresh and listed before the replay; the replay is the frames of the whole history, `[END]` included |
| EventLog.SubscribeCoherent | backend/app/core/logging.py:117-131 | subscribing keeps the invariant |
| EventLog.NotListed | backend/app/core/logging.py:122 | a fresh queue is not yet listed anywhere |
| EventLog.DisconnectHub | backend/app/core/logging.py:140-143 | definition of the exit handler; stated by `EventLog.DisconnectCoherent` |
| EventLog.DisconnectCoherent | backend/app/core/logging.py:140-143 | the exit handler unlists exactly the subscriber's queue and keeps the invariant |
| EventLog.DrainHub | backend/app/core/logging.py:135-143 | definition of the wait loop up to `[END]`; stated by `EventLog.DrainTakes`, `EventLog.DrainUnlists` and `EventLog.DrainCoherent` |
| EventLog.DrainTakes | backend/app/core/logging.py:135-139 | a drain yields the frames of the queue up to its first `[END]`, and the stream ends exactly when the queue held one |
| EventLog.DrainUnlists | backend/app/core/logging.py:138-143 | a drain that reaches `[END]` unlists the queue; one that does not leaves every listener list as it was |
| EventLog.DrainCoherentBeforeDisconnect | backend/app/core/logging.py:135-137 | taking from a queue keeps the invariant |
| EventLog.DrainCoherent | backend/app/core/logging.py:135-143 | a drain keeps the invariant |
| EventLog.CleanupHub | backend/app/core/logging.py:146-151 | definition of `cleanup`; stated by `EventLog.CleanupCoherent` |
| EventLog.CleanupCoherent | backend/app/core/logging.py:146-151 | `cleanup` forgets the job's history and listeners and keeps the invariant |
| EventLog.PutAll | backend/app/core/logging.py:113-114 | the fan-out loop puts the message on each listed queue |
| EventLog.Replay | backend/app/core/logging.py:129-132 | the replay loop yields the frames of the history |
| EventLog.TakeQueued | backend/app/core/logging.py:135-139 | the wait loop takes and frames the queue up to and including the first `[END]` |
| EventLog.LiveLogs.constructor | backend/app/core/logging.py:4-5 | the live logs start empty and coherent |
| EventLog.LiveLogs.Open | backend/app/core/logging.py:96-101 | `LiveLogger(job_id)` is the open step |
| EventLog.LiveLogs.Log | backend/app/core/logging.py:103-114 | `log` is the log step when the job's history exists, and otherwise fails and changes nothing |
| EventLog.LiveLogs.Subscribe | backend/app/core/logging.py:117-131 | `subscribe` up to its first wait is the subscribe step |
| EventLog.LiveLogs.Disconnect | backend/app/core/logging.py:140-143 | the `finally` clause is the disconnect step |
| EventLog.LiveLogs.Drain | backend/app/core/logging.py:134-139 | a resumed wait loop is the drain step |
| EventLog.LiveLogs.Cleanup | backend/app/core/logging.py:146-151 | `cleanup` is the clean-up step |
| EventLog.Prefix | backend/app/core/logging.py:19-33 | an unknown kind gets the `>` prefix |
| EventLog.PrefixesDistinct | backend/app/core/logging.py:20-31 | distinct kinds have distinct prefixes |
| EventLog.PrefixStart | backend/app/core/logging.py:20-35 | every prefix is non-empty and starts with a character that is not white space |
| EventLog.LogLineKeepsMessage | backend/app/core/logging.py:35 | a message that does not end in white space is queued whole, after its prefix and one space |
| EventLog.SentinelIndex | backend/app/core/logging.py:83 | the index found is the end of the queue or holds the sentinel |
| EventLog.SentinelIndexFirst | backend/app/core/logging.py:83 | no earlier index holds the sentinel |
| EventLog.Texts | backend/app/core/logging.py:85 | one line per item |
| EventLog.NoQueuesCoherent | backend/app/core/logging.py:50 | the empty queue registry satisfies its invariant |
| EventLog.GetLoggerReuses | backend/app/core/logging.py:52-58 | one queue per job: a second call returns the same logger and changes nothing, and a new queue is shared with no other job |
| EventLog.PutLineCoherent | backend/app/core/logging.py:13-38 | `log_message` keeps the invariant |
| EventLog.CleanupLoggerCoherent | backend/app/core/logging.py:60-67 | `cleanup_job_logger` forgets the job's queue and keeps the invariant |
| EventLog.GenerateFacts | backend/app/core/logging.py:70-91 | the generator yields nothing for an unknown job, ends exactly on a sentinel, and then the job has no queue any more |
| EventLog.LoggedLineIsYielded | backend/app/core/logging.py:13-91 | a line logged on a job's queue is yielded by the job's generator after the lines queued before it |
| EventLog.TakeLines | backend/app/core/logging.py:81-86 | the generator loop yields the lines before the first sentinel and reports whether it met one |
| EventLog.JobQueues.constructor | backend/app/core/logging.py:50 | the job queues start empty and coherent |
| EventLog.JobQueues.GetJobLogger | backend/app/core/logging.py:52-58 | `get_job_logger` is the get-or-create step |
| EventLog.JobQueues.LogMessage | backend/app/core/logging.py:13-38 | `log_message` puts the prefixed, stripped line on the logger's queue |
| EventLog.JobQueues.CleanupJobLogger | backend/app/core/logging.py:60-67 | `cleanup_job_logger` is the clean-up step |
| EventLog.JobQueues.LogGenerator | backend/app/core/logging.py:70-91 | `log_generator` is the generator step, including its final clean-up |
| CloneJobs.DefaultRequest | backend/app/routers/clone.py:26-31 | the request defaults are model `agentic`, single page, 20 pages, assets included |
| CloneJobs.NewJob | backend/app/routers/clone.py:41-56 | a new job is `pending` with progress `Initializing...` and no result, full-site result or error |
| CloneJobs.Registry.constructor | backend/app/routers/clone.py:20 | the registry starts empty |
| CloneJobs.Registry.CreateCloneJob | backend/app/routers/clone.py:35-62 | the new job record is stored under its fresh id and returned |
| CloneJobs.StatusOf | backend/app/routers/clone.py:66-73 | an unknown id is 404, a known one returns its record |
| CloneJobs.Registry.GetCloneJob | backend/app/routers/clone.py:66-73 | `get_clone_job` is the status lookup |
| CloneJobs.Registry.StreamCloneLogs | backend/app/routers/clone.py:84-93 | an unknown id is 404 and changes nothing; a known one subscribes to the live log |
| CloneJobs.Registry.UpdateStatus | backend/app/routers/clone.py:100-105 | only the job's status and progress change |
| CloneJobs.Lifecycle | backend/app/routers/clone.py:107-137 | definition of the job's successive records; stated by `CloneJobs.LifecycleEnds`, `CloneJobs.LifecycleStatuses` and `CloneJobs.LifecycleStoresFirst` |
| CloneJobs.JobMessages | backend/app/routers/clone.py:96-139 | definition of the messages the task logs; stated by `CloneJobs.EndLoggedOnce` and `CloneJobs.Registry.ProcessCloneJob` |
| CloneJobs.LifecycleEnds | backend/app/routers/clone.py:107-137 | a job ends `completed` exactly when no step failed; otherwise it ends `failed`, with the exception text as error and `Failed: <text>` as progress |
| CloneJobs.LifecycleStatuses | backend/app/routers/clone.py:108-131 | a full site starts `discovering`; a single page starts `scraping` and goes to `processing` after a successful scrape; no other status occurs |
| CloneJobs.LifecycleStoresFirst | backend/app/routers/clone.py:115-131 | no record of the lifecycle claims `completed` without the result of its mode |
| CloneJobs.MissingScrapeFails | backend/app/routers/clone.py:120-122 | a missing scrape result fails the job with `Failed to scrape website` |
| CloneJobs.EndLoggedOnce | backend/app/routers/clone.py:138-139 | `[END]` is logged once, as the last message, whatever the outcome |
| CloneJobs.LogEach | backend/app/routers/clone.py:109 | logging keeps the job's history present |
| CloneJobs.LogEachHistory | backend/app/routers/clone.py:109-139 | the job's history gains exactly the logged messages, in order |
| CloneJobs.Say | backend/app/routers/clone.py:109 | logging messages in order is the logging fold |
| CloneJobs.Registry.Fail | backend/app/routers/clone.py:133-137 | the `except` clause logs the failure, then records `failed` with its progress, then the error |
| CloneJobs.Registry.RunFullSite | backend/app/routers/clone.py:108-115 | the full-site branch's records, messages and failure are those of its step outcomes |
| CloneJobs.Registry.RunClone | backend/app/routers/clone.py:124-129 | the language-model step's records, messages and failure are those of its outcome |
| CloneJobs.Registry.RunSinglePage | backend/app/routers/clone.py:116-129 | the single-page branch's records, messages and failure follow its outcomes; the model step runs only after a successful scrape |
| CloneJobs.Registry.RunSteps | backend/app/routers/clone.py:107-129 | the steps of the job's mode |
| CloneJobs.Registry.RunFinish | backend/app/routers/clone.py:131-137 | `completed`, or the `except` clause |
| CloneJobs.Registry.ProcessCloneJob | backend/app/routers/clone.py:96-139 | the job's records follow its lifecycle, and the live log gains exactly the job's messages after opening it |
| CloneJobs.FinishLogged | backend/app/routers/clone.py:133-139 | the three stretches of logging compose into the job's messages |
| CloneJobs.ProcessKeepsRegistered | backend/app/routers/clone.py:96-139 | a finished job keeps the registry invariant that completed jobs carry their results |
| CloneJobs.ArchivePathIsOutputPath | backend/app/routers/clone.py:169-179 | the archive names pages with the same rule as the offline link map |
| CloneJobs.FirstEntriesKeys | backend/app/routers/clone.py:181-185 | the archive has an entry for exactly the names given |
| CloneJobs.FirstEntriesFirstWins | backend/app/routers/clone.py:181-185 | a name's entry holds the value of its first occurrence |
| CloneJobs.PageNames | backend/app/routers/clone.py:166-179 | the archive name of each page, in order |
| CloneJobs.PageHtmls | backend/app/routers/clone.py:184 | the html of each page, in order |
| CloneJobs.Archive | backend/app/routers/clone.py:165-190 | definition of the archive's entries; stated by `CloneJobs.ArchivePagesKeys`, `CloneJobs.ArchivePagesFirstWins` and `CloneJobs.ArchiveSitemap` |
| CloneJobs.ArchivePagesKeys | backend/app/routers/clone.py:165-185 | one entry per distinct file name of the pages |
| CloneJobs.ArchivePagesFirstWins | backend/app/routers/clone.py:181-185 | each entry holds the html of the first page with that name; later ones are skipped |
| CloneJobs.ArchiveSitemap | backend/app/routers/clone.py:188-190 | `sitemap.txt` is written exactly when the joined sitemap is not empty; every other name is a page's |
| CloneJobs.WritePages | backend/app/routers/clone.py:163-185 | the loop with its `written_paths` set writes the page entries of the archive |
| CloneJobs.DownloadOf | backend/app/routers/clone.py:146-199 | definition of `download_cloned_site`; stated by `CloneJobs.DownloadGuards` and `CloneJobs.DownloadFullSite` |
| CloneJobs.DownloadGuards | backend/app/routers/clone.py:146-152 | an unknown job is 404, an unfinished one 400, and a completed job of a well-kept registry always downloads |
| CloneJobs.DownloadFullSite | backend/app/routers/clone.py:154-199 | a completed full-site job downloads as the archive of its pages and sitemap |
| CloneJobs.Registry.DownloadClonedSite | backend/app/routers/clone.py:143-211 | `download_cloned_site` is the download function |
| Capture.FirstKey | backend/app/services/hyperbrowser_scraper.py:22 | the first non-empty of the settings key and the environment key, or none |
| Capture.NewHyperbrowser | backend/app/services/hyperbrowser_scraper.py:19-25 | construction fails with the fixed message exactly when no key is found, and otherwise holds the key |
| Capture.NewScraper | backend/app/services/scraper.py:19-25 | the fallback is absent exactly when constructing the remote scraper raises |
| Capture.FallbackNeedsKey | backend/app/services/scraper.py:22-25 | the fallback is disabled exactly when neither key is set |
| Capture.Scrape | backend/app/services/scraper.py:45-61 | definition of capture with fallback; stated by `Capture.AcceptedUnchanged`, `Capture.RejectedFallsBack` and `Capture.ScrapeSources` |
| Capture.AcceptedUnchanged | backend/app/services/scraper.py:48-51 | a local result of at least 200 characters is returned unchanged, and the fallback is not consulted |
| Capture.RejectedFallsBack | backend/app/services/scraper.py:52-61 | a missing, short or raising local result hands over to the fallback verbatim, errors included, when there is a logger and a fallback; otherwise `All scraping methods failed for <url>` |
| Capture.ScrapeSources | backend/app/services/scraper.py:45-61 | every success is an acceptable local result or the fallback's own result; every failure is the fixed message or the fallback's error |
| Capture.SessionResult | backend/app/services/hyperbrowser_scraper.py:42-106 | definition of the remote session's outcome; stated by `Capture.SessionResultShape` and `Capture.ScrapeSession` |
| Capture.SessionResultShape | backend/app/services/hyperbrowser_scraper.py:80-94 | a remote result carries the url and viewport, css `""`, no assets, an empty description, and a screenshot that decodes back to the captured bytes |
| Capture.ScrapeSession | backend/app/services/hyperbrowser_scraper.py:42-106 | the result is the session outcome; failed creation stops nothing; success stops once; otherwise the session is stopped once or twice, twice exactly when the first stop raised |
| Config.DefaultConfigured | backend/app/core/config.py:33-55 | the default model `agentic` is configured, and every configuration allows 4000 tokens |
| Config.ValidateApiKeys | backend/app/core/config.py:67-86 | true exactly when all three language-model keys are set; the missing names are listed in the order anthropic, openai, google |
| LlmClients.NonSystem | backend/app/services/llm_clients.py:62-72 | the Claude messages hold no system message and are never more than the input |
| LlmClients.ToClaude | backend/app/services/llm_clients.py:62-72 | the conversion loop gives the non-system messages and the last system content |
| LlmClients.NonSystemConcat | backend/app/services/llm_clients.py:65-72 | dropping system messages distributes over concatenation, so order is kept |
| LlmClients.NonSystemKeeps | backend/app/services/llm_clients.py:68-72 | every message that is not a system message is kept |
| LlmClients.NonSystemIdentity | backend/app/services/llm_clients.py:65-72 | without system messages the conversion is the identity |
| LlmClients.LastSystemIsLast | backend/app/services/llm_clients.py:63-67 | the system prompt is None exactly when there is no system message, and otherwise is the content of the last one |
| LlmClients.Gemini | backend/app/services/llm_clients.py:197-218 | the Gemini turns are never more than the messages, and each has one part and the role `user` or `model` |
| LlmClients.ToGemini | backend/app/services/llm_clients.py:197-218 | the loop, which rewrites the last turn's first part in place, gives the Gemini conversion |
| LlmClients.GeminiModelTurns | backend/app/services/llm_clients.py:214-218 | each assistant message becomes exactly one `model` turn |
| LlmClients.GeminiSystemAfterUser | backend/app/services/llm_clients.py:200-203 | after any messages whose conversion ends in a user turn, a system message changes only that last turn: its text becomes the system text, a blank line, and the old text |
| LlmClients.GeminiSystemFirst | backend/app/services/llm_clients.py:200-208 | after any messages whose conversion is empty or ends in a model turn, a system message appends a user turn of its own holding its content |
| LlmClients.GeminiDropsOtherRoles | backend/app/services/llm_clients.py:199-218 | after any messages, a message whose role is not system, user or assistant leaves the conversion unchanged |
| LlmClients.GeminiAppendsTurn | backend/app/services/llm_clients.py:209-218 | after any messages, a user message appends a `user` turn and an assistant message a `model` turn, holding its content |
| LlmClients.NewClient | backend/app/services/llm_clients.py:300-306 | a constructed client is for a supported provider with its key set |
| LlmClients.ConfiguredProvidersSupported | backend/app/core/config.py:34-55 | every configured model names a provider the factory accepts |
| LlmClients.GetClientOf | backend/app/services/llm_clients.py:296-310 | definition of `get_client` over the cache; stated by `LlmClients.GetClientCached`, `LlmClients.GetClientFailures` and `LlmClients.GetClientKeepsValid` |
| LlmClients.GetClientCached | backend/app/services/llm_clients.py:300-310 | a second call for a provider returns the same client and changes nothing, whatever the settings are by then |
| LlmClients.GetClientFailures | backend/app/services/llm_clients.py:300-310 | an unsupported provider fails with `Unsupported LLM provider: <p>` and caches nothing; a supported one fails only when its key is missing |
| LlmClients.GetClientKeepsValid | backend/app/services/llm_clients.py:296-310 | the cache keeps each client under its own provider |
| LlmClients.ClientFactory.constructor | backend/app/services/llm_clients.py:294 | the factory starts with an empty cache |
| LlmClients.ClientFactory.GetClient | backend/app/services/llm_clients.py:296-310 | `get_client` is the cache function on the class-level field |
| LlmClients.Prompt | backend/app/services/llm_clients.py:313-441 | definition of the clone prompt; stated by `LlmClients.PromptShape`, `LlmClients.PromptImages` and `LlmClients.ClonePrompt` |
| LlmClients.ClonePrompt | backend/app/services/llm_clients.py:313-441 | the builder, which appends the image to each user content in place, gives the prompt function |
| LlmClients.PromptShape | backend/app/services/llm_clients.py:329-441 | a prompt is system then user; its task is the step asked for, or `full` for an unknown step; it quotes at most 8000 characters of html and 4000 of css as prefixes, or `No CSS provided.` |
| LlmClients.PromptImages | backend/app/services/llm_clients.py:424-439 | the user content holds exactly one image, the screenshot's data URL, when there is a screenshot, and none otherwise |
| LlmService.ChooseStrategy | backend/app/services/llm.py:51-79 | definition of the strategy dispatch; stated by `LlmService.StrategyChoice` |
| LlmService.StrategyChoice | backend/app/services/llm.py:51-79 | vision exactly with a screenshot longer than 100 characters and model `agentic` or `precise`; multi-step exactly for `agentic` without one; single-shot otherwise |
| LlmService.CleanHtmlOutput | backend/app/services/llm.py:251-279 | definition of `_clean_html_output`; stated by `LlmService.CleanHtmlOutcomes` |
| LlmService.CleanHtmlOutcomes | backend/app/services/llm.py:251-279 | the output always starts with `<!DOCTYPE html>` or `<html`; it is the de-fenced, trimmed text exactly when that already does, and otherwise contains it after the wrapper head |
| LlmService.FlattenConcat | backend/app/services/llm.py:180-186 | the text of a stream is the text of its parts joined |
| LlmService.FlattenChunk | backend/app/services/llm.py:180-186 | every chunk occurs in the collected text at the position after the chunks before it |
| LlmService.Collect | backend/app/services/llm.py:180-186 | the `html_result += chunk` loop collects exactly the streamed text |
| LlmService.AgenticReasoningQuotes | backend/app/services/llm.py:195-206 | the agentic reasoning quotes the layout analysis, the style analysis, the provider and the model |
| LlmService.FinalResultQuotes | backend/app/services/llm.py:200-203 | the final-result lines name the provider and the model |
| LlmService.ModelLineQuotes | backend/app/services/llm.py:201-202 | adding the model line keeps the provider and adds the model |
| LlmService.AgenticSteps | backend/app/services/llm.py:118-212 | the three agents' calls give the agentic result for the chosen client |
| LlmService.Generate | backend/app/services/llm.py:160-212 | the generation agent's call gives the generation result |
| LlmService.AgenticClone | backend/app/services/llm.py:118-212 | `_agentic_clone` is the agentic outcome, including the client cache |
| LlmService.SingleShotReasoningQuotes | backend/app/services/llm.py:237-243 | the single-shot reasoning is its summary, which names the provider and the model |
| LlmService.SingleShotClone | backend/app/services/llm.py:214-249 | `_single_shot_clone` is the single-shot outcome, including the client cache |
| LlmService.UnknownModelFails | backend/app/services/llm.py:44-46 | an unknown model fails with `LLM processing failed: Unknown model configuration: <m>` and changes nothing |
| LlmService.GetClientExtends | backend/app/services/llm_clients.py:296-310 | `get_client` only adds to the cache |
| LlmService.StrategyCaches | backend/app/services/llm.py:118-249 | both text strategies only add to the client cache |
| LlmService.WrapPrefix | backend/app/services/llm.py:85-87 | every wrapped failure starts with `LLM processing failed: ` |
| LlmService.Dispatch | backend/app/services/llm.py:55-87 | definition of the dispatch to a strategy; stated by `LlmService.DispatchOutcomes` |
| LlmService.DispatchOutcomes | backend/app/services/llm.py:55-87 | failures carry the prefix, and the cache only grows; a success that did not come from vision is the chosen strategy's result with model `<provider>/<model>` |
| LlmService.CloneOutcome | backend/app/services/llm.py:44-87 | definition of `clone_website`; stated by `LlmService.CloneOutcomeInvariants` |
| LlmService.CloneOutcomeInvariants | backend/app/services/llm.py:44-87 | `clone_website` only adds to the client cache, and every failure starts with `LLM processing failed: ` |
| LlmService.NonVisionReport | backend/app/services/llm.py:58-79 | a non-vision success reports `<provider>/<model>`, css `""` and a complete html document |
| LlmService.StrategyDocuments | backend/app/services/llm.py:193-249 | both text strategies return a complete document and css `""` |
| LlmService.AgenticDocument | backend/app/services/llm.py:193-212 | the agentic result is a complete document with css `""` |
| LlmService.GenerationDocument | backend/app/services/llm.py:193-212 | the generation result is a complete document with css `""` |
| LlmService.FinishedDocument | backend/app/services/llm.py:193-212 | the finished agentic record is a complete document with css `""` |
| LlmService.SingleShotDocument | backend/app/services/llm.py:235-249 | the single-shot result is a complete document with css `""` |
| LlmService.VisionFallback | backend/app/services/llm.py:89-116 | a vision success is returned with the cache as it was; a vision failure falls back to the agentic strategy, and happens only for a missing OpenAI key |
| LlmService.CloneWebsite | backend/app/services/llm.py:18-87 | `clone_website` is the dispatch outcome on the class-level client cache |
| Vision.StripFences | backend/app/services/vision_cloner.py:315-320 | fence removal never lengthens the text |
| Vision.StripFencesFenced | backend/app/services/vision_cloner.py:315-320 | a fenced html block whose body does not start with a backtick loses exactly its fences |
| Vision.Analysis | backend/app/services/vision_cloner.py:85-186 | definition of the vision analysis; stated by `Vision.AnalysisOutcomes` |
| Vision.AnalysisOutcomes | backend/app/services/vision_cloner.py:85-186 | the analysis raises exactly without an OpenAI key; with one it is the content of a 200 response that has content, `Vision analysis failed` for another status, and `Vision analysis error` for a failed request or a response without content |
| Vision.SamplePointsInside | backend/app/services/vision_cloner.py:202-216 | the three sample points lie inside every image of at least one pixel |
| Vision.Palette | backend/app/services/vision_cloner.py:204-227 | the palette always has exactly the keys background, header and content |
| Vision.PaletteSampled | backend/app/services/vision_cloner.py:188-227 | a decodable image gives the colours at the three sample points; one that does not decode gives the fallback palette |
| Vision.RgbTextFormat | backend/app/services/vision_cloner.py:208 | a colour reads `rgb(…)` |
| Vision.PaletteFormat | backend/app/services/vision_cloner.py:204-227 | every palette entry, sampled or fallback, reads `rgb(…)` |
| Vision.GeneratedHtml | backend/app/services/vision_cloner.py:310-330 | definition of `_generate_html_from_vision`; stated by `Vision.GeneratedHtmlOutcomes` |
| Vision.GeneratedHtmlOutcomes | backend/app/services/vision_cloner.py:310-330 | a failed request and a 200 response without content give the error document, another status gives the `Vision cloning failed` document, and a 200 response with content gives its text with code fences removed and stripped |
| Vision.CloneFromScreenshot | backend/app/services/vision_cloner.py:43-83 | definition of `clone_from_screenshot`; stated by `Vision.CloneFromScreenshotOutcomes` |
| Vision.CloneFromScreenshotOutcomes | backend/app/services/vision_cloner.py:43-83 | the cloner raises only for a missing screenshot or key; a result has css `""`, reports `gpt-4o`, carries the analysis as reasoning, and its html is the generated html of the response to the prompt built from the reasoning, the palette of the screenshot, the url and the first 2000 characters of the html |
| Text.Trim | backend/app/services/llm.py:263 | `strip()` returns a slice of the text with only white space (that of `str.isspace`) before and after it, and no white space at either end |
| Text.TrimPadded | backend/app/services/llm.py:263 | stripping white space around a body removes exactly that white space |
| Text.StripChar | backend/app/services/full_site_scraper.py:233 | `strip('/')` returns a slice of the text with only `/` before and after it, and no `/` at either end |
| Text.RStripChar | backend/app/services/full_site_scraper.py:244 | `rstrip('/')` is a prefix with no `/` at its end and only `/` after it |
| Text.ReplaceAbsent | backend/app/services/asset_downloader.py:148 | `replace` of a text that does not occur changes nothing |
| Text.ToLower | backend/app/services/asset_downloader.py:121 | ASCII lower-casing: the length is kept and each character is mapped on its own, `A`-`Z` to `a`-`z` |
| Text.Take | backend/app/services/llm_clients.py:334 | a slice `[:n]` is a prefix of at most `n` characters, and the whole text when it is short enough |
| Text.NatToString | backend/app/services/llm.py:203 | a number prints as a non-empty run of decimal digits whose decimal value is the number, without a leading zero unless it is `0` |

## Left out

- Network, browsers and SDKs: httpx, the Anthropic, OpenAI and Gemini
  SDKs, the Hyperbrowser SDK, and Playwright with `connect_over_cdp`. Each
  appears only as an oracle or as the outcome it produced.
- The local Playwright scraper at backend/app/services/playwright_scraper.py
  is not part of this model. The crawler's renderer and the local capture
  are oracles that may return nothing.
- backend/app/main.py (FastAPI wiring) and backend/app/services/base_scraper.py
  (an abstract interface) are not part of this model.
- Concurrency: `asyncio.gather` within a batch, the `asyncio.sleep`
  pacing, waiting on queues, and interleavings of jobs. Batches, queues and
  jobs run sequentially.
- Library semantics: BeautifulSoup parsing and serialisation are an
  abstract codec; `mimetypes.guess_type` is an oracle; zip compression is a
  map from file name to content; PIL decoding yields a pixel function.
- Time and floats: `clone_time`, `processing_time`, `load_time`,
  `created_at` and `updated_at`.
- Wording: prompt texts and log messages are not modelled. Exceptions are
  the fixed strings the contracts talk about, the job's lifecycle messages,
  and the reasoning summaries.
- `_old_fix_internal_links` (full_site_scraper.py:283-328) is superseded
  and never called.
- `list_clone_jobs` (routers/clone.py:77-80) is a plain listing of the
  registry.
- Wiring that cannot run as written is not modelled: the calls, not the
  logic, are wrong.
  - `LLMService(logger=...)` at full_site_scraper.py:25, although the
    constructor takes no arguments.
  - `logger.log(chunk, type='code')` at llm.py:187 and llm.py:233, although
    `LiveLogger.log` takes only the message.
  - `logger.log` without `await` at full_site_scraper.py:226, 279 and 281.
- Python exceptions: a raised exception is a `Failure` value with its
  text. Exception classes (`ValueError` and the rest) are not distinguished.
- `Urls.Join`: it follows RFC 3986 reference resolution, and Python's
  `urljoin` differs from it in these cases, none of which the model
  reproduces:
  - a reference with a netloc keeps its dot segments in Python;
  - Python drops empty middle segments of the merged path (`c//d`);
  - a reference `///x` takes the base's netloc in Python;
  - an empty query (`x?`) takes the base's query in Python;
  - Python lowercases the scheme;
  - a scheme not in `uses_relative` makes Python return the reference as it is;
  - Python strips C0 controls and spaces around the URL, and tab and newline inside it;
  - an unclosed `[` in the netloc raises `ValueError` in Python. That
    error is caught at site_crawler.py:66 and full_site_scraper.py:167 and
    278, after the loop did part of its updates.
- `AssetStore.Network`: each URL has one fixed fetch outcome, so a text
  fetch that failed once fails again when retried on a later page (see
  `AssetStore.TextStepFacts`); transient failures are not modelled.
- `EventLog.LiveLogs.Subscribe`: the replay of the history is one atomic
  step. In the source, `subscribe` lists its queue first and then walks the
  live history with a wait after each frame, so a message logged during
  the replay is both replayed and queued, and is sent twice.
  `EventLog.SeenThenQueued` holds for the atomic step only.
- `Text.ToLower`: it lower-cases ASCII letters only; Python's `lower()` is
  Unicode and can change the length (`'İ'.lower()` has two code points). At
  its one use, the `'font'` test at asset_downloader.py:121, the answer is
  the same, since no other character lower-cases to `f`, `o`, `n` or `t`.
- `Paths.RelPath`: it takes both paths as relative to the same directory.
  `os.path.relpath` also consults the working directory for paths that
  climb above it, and no page file does that.
- `SiteCrawler.ListOf`: it promises only that each found URL appears once.
  The order of `list(set)` is not modelled.
- `LlmService.VisionFallback`: the `"Vision fallback: "` default at
  llm.py:112 is never used, because the agentic result always has a
  reasoning. The model reports the agentic reasoning, as the code does.
- The `screenshot=` argument passed to `LLMCloneResult` (llm.py:67, 78, 115;
  vision_cloner.py:78) is not a field of that record, so it is dropped.
- `LlmClients.Gemini`: content that is not plain text is rendered by a
  `show` parameter standing for Python's `str()`.
- `LlmClients.ClonePrompt`: a prompt is a structured value (step, url, html
  and css excerpts, screenshot part), not the prompt text.
- `CloneJobs.Registry.CreateCloneJob`: the `uuid4` job id is supplied by
  the caller.
- `EventLog.LiveLogs.Log`: the console print with the job-id prefix is not
  modelled, only the raw message that goes to the history and the queues.
- The SSE stream frames each message without splitting it on line breaks,
  as the code does. `EventLog.FrameBreaksOnNewline` shows that such a
  message does not read back as one line.
