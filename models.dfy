/** The records the backend passes between its stages.  Float fields
    (`load_time`, `processing_time`, `clone_time`) and timestamps are not
    part of the model; an asset is a string-keyed dictionary. */
module Models {
  import opened Wrappers

  /** An asset description such as `{"url": ..., "type": ...}`. */
  type Asset = map<string, string>

  datatype CloneRequest = CloneRequest(
    url: string,
    model: string,
    fullSite: bool,
    maxPages: int,
    includeAssets: bool)

  datatype ScrapeMetadata = ScrapeMetadata(
    title: string,
    description: string,
    viewportWidth: int,
    viewportHeight: int,
    screenshotUrl: Option<string>,
    assetsCount: int)

  datatype ScrapeResult = ScrapeResult(
    url: string,
    html: string,
    css: Option<string>,
    screenshot: Option<string>,
    metadata: ScrapeMetadata,
    assets: seq<Asset>)

  datatype LlmCloneResult = LlmCloneResult(
    html: string,
    css: Option<string>,
    reasoning: string,
    modelUsed: string)

  datatype PageCloneResult = PageCloneResult(
    url: string,
    path: string,
    html: string,
    css: Option<string>,
    screenshot: Option<string>,
    assets: seq<Asset>,
    metadata: ScrapeMetadata)

  datatype FullSiteCloneResult = FullSiteCloneResult(
    baseUrl: string,
    pages: seq<PageCloneResult>,
    assets: seq<Asset>,
    sitemap: seq<string>,
    totalPages: int,
    totalAssets: int,
    modelUsed: string)
}
