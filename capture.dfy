/** Page capture: the orchestrating scraper that accepts the local
    browser's result or falls back to the remote browser service, and the
    remote scraper's session lifecycle (create a session, use it, stop
    it).  The local browser, the remote service and its `stop` call are
    abstract outcomes; log messages are not part of the model. */
module Capture {
  import opened Wrappers
  import opened Models
  import Base64

  // ---------------------------------------------------------------------
  // Configuration of the remote scraper

  /** Python's `a or b` on two optional keys: the first non-empty one. */
  function FirstKey(settingsKey: Option<string>, envKey: Option<string>): (r: Option<string>)
    ensures r.Some? ==> r.value != []
    ensures r.None? <==> (settingsKey.None? || settingsKey.value == []) && (envKey.None? || envKey.value == [])
    ensures settingsKey.Some? && settingsKey.value != [] ==> r == settingsKey
  {
    if settingsKey.Some? && settingsKey.value != [] then settingsKey
    else if envKey.Some? && envKey.value != [] then envKey
    else None
  }

  const MissingHyperbrowserKey: string := "HYPERBROWSER_API_KEY must be configured to use this scraper."

  /** A configured remote scraper: its client holds the key. */
  datatype Hyperbrowser = Hyperbrowser(apiKey: string)

  /** `HyperbrowserScraper.__init__`: a `ValueError` without a key. */
  function NewHyperbrowser(settingsKey: Option<string>, envKey: Option<string>): (r: Result<Hyperbrowser, string>)
    ensures r.Failure? <==> FirstKey(settingsKey, envKey).None?
    ensures r.Failure? ==> r.error == MissingHyperbrowserKey
    ensures r.Success? ==> r.value.apiKey == FirstKey(settingsKey, envKey).value && r.value.apiKey != []
  {
    match FirstKey(settingsKey, envKey)
    case None => Failure(MissingHyperbrowserKey)
    case Some(key) => Success(Hyperbrowser(key))
  }

  /** The orchestrating scraper: whether it has a logger, and its
      fallback, present unless constructing it raised. */
  datatype Scraper = Scraper(hasLogger: bool, fallback: Option<Hyperbrowser>)

  /** `Scraper.__init__`: the fallback is the remote scraper when that can
      be constructed and absent when its construction raises. */
  function NewScraper(hasLogger: bool, settingsKey: Option<string>, envKey: Option<string>): (s: Scraper)
    ensures s.hasLogger == hasLogger
    ensures s.fallback.None? <==> NewHyperbrowser(settingsKey, envKey).Failure?
    ensures s.fallback.Some? ==> s.fallback.value.apiKey == FirstKey(settingsKey, envKey).value
  {
    match NewHyperbrowser(settingsKey, envKey)
    case Success(h) => Scraper(hasLogger, Some(h))
    case Failure(_) => Scraper(hasLogger, None)
  }

  /** The fallback is disabled exactly when no key is configured. */
  lemma FallbackNeedsKey(hasLogger: bool, settingsKey: Option<string>, envKey: Option<string>)
    ensures NewScraper(hasLogger, settingsKey, envKey).fallback.None? <==>
      (settingsKey.None? || settingsKey.value == []) && (envKey.None? || envKey.value == [])
  {
  }

  // ---------------------------------------------------------------------
  // Accept or fall back

  /** Pages shorter than this are taken for an error page. */
  const MinimalHtml: nat := 200

  /** The local result is kept only when it exists and has enough html. */
  predicate Acceptable(r: Option<ScrapeResult>) {
    r.Some? && r.value.html != [] && |r.value.html| >= MinimalHtml
  }

  function AllFailed(url: string): string {
    "All scraping methods failed for " + url
  }

  /** `Scraper.scrape`: `primary` is what the local browser returned or
      raised, `fallback` what the remote scraper would return or raise. */
  function Scrape(s: Scraper, url: string, primary: Result<Option<ScrapeResult>, string>,
                  fallback: Result<ScrapeResult, string>): Result<ScrapeResult, string>
  {
    if primary.Success? && Acceptable(primary.value) then Success(primary.value.value)
    else if s.hasLogger && s.fallback.Some? then fallback
    else Failure(AllFailed(url))
  }

  /** An acceptable local result is returned as it is and the fallback is
      never consulted. */
  lemma AcceptedUnchanged(s: Scraper, url: string, r: ScrapeResult, fallback: Result<ScrapeResult, string>)
    requires |r.html| >= MinimalHtml
    ensures Scrape(s, url, Success(Some(r)), fallback) == Success(r)
  {
  }

  /** A local result that is missing, too short, or raised hands over to
      the fallback verbatim, errors included, when a logger and a fallback
      exist; otherwise the scrape fails for the url. */
  lemma RejectedFallsBack(s: Scraper, url: string, primary: Result<Option<ScrapeResult>, string>,
                          fallback: Result<ScrapeResult, string>)
    requires primary.Failure? || primary.value.None? || |primary.value.value.html| < MinimalHtml
    ensures s.hasLogger && s.fallback.Some? ==> Scrape(s, url, primary, fallback) == fallback
    ensures !(s.hasLogger && s.fallback.Some?) ==> Scrape(s, url, primary, fallback) == Failure(AllFailed(url))
  {
  }

  /** Every successful scrape is either an acceptable local result or the
      fallback's own result; the length check binds only the local one. */
  lemma ScrapeSources(s: Scraper, url: string, primary: Result<Option<ScrapeResult>, string>,
                      fallback: Result<ScrapeResult, string>)
    ensures var r := Scrape(s, url, primary, fallback);
      r.Success? ==>
        (primary.Success? && Acceptable(primary.value) && r.value == primary.value.value)
        || (s.hasLogger && s.fallback.Some? && r == fallback)
    ensures var r := Scrape(s, url, primary, fallback);
      r.Failure? ==>
        r.error == AllFailed(url) || (s.hasLogger && s.fallback.Some? && r == fallback)
  {
  }

  // ---------------------------------------------------------------------
  // The remote session

  /** What the remote browser produced: the page's html, screenshot bytes
      and title. */
  datatype Capture = Capture(html: string, screenshot: seq<Base64.byte>, title: string)

  /** The result the remote scraper builds from a capture. */
  function Captured(url: string, width: int, height: int, c: Capture): ScrapeResult {
    ScrapeResult(url, c.html, Some(""), Some(Base64.Encode(c.screenshot)),
      ScrapeMetadata(c.title, "", width, height, None, 0), [])
  }

  /** `HyperbrowserScraper.scrape` as a function of the outcomes of
      session creation, of using the session, and of the first `stop`. */
  function SessionResult(url: string, width: int, height: int, create: Result<string, string>,
                         use: Result<Capture, string>, firstStop: Option<string>): Result<ScrapeResult, string>
  {
    if create.Failure? then Failure(create.error)
    else if use.Failure? then Failure(use.error)
    else if firstStop.Some? then Failure(firstStop.value)
    else Success(Captured(url, width, height, use.value))
  }

  /** A successful remote scrape carries the requested url and viewport,
      css `""`, no assets, an empty description, and a screenshot that
      decodes back to the captured bytes. */
  lemma SessionResultShape(url: string, width: int, height: int, create: Result<string, string>,
                           use: Result<Capture, string>, firstStop: Option<string>)
    requires SessionResult(url, width, height, create, use, firstStop).Success?
    ensures var r := SessionResult(url, width, height, create, use, firstStop).value;
      && r.url == url && r.html == use.value.html
      && r.metadata.viewportWidth == width && r.metadata.viewportHeight == height
      && r.css == Some("") && r.assets == [] && r.metadata.description == ""
      && r.metadata.title == use.value.title && r.metadata.assetsCount == 0
      && r.screenshot.Some? && Base64.Decode(r.screenshot.value) == Some(use.value.screenshot)
  {
    Base64.DecodeEncode(use.value.screenshot);
  }

  /** The session lifecycle with its `try`/`except`: `session` is set by
      creation and cleared after a clean stop, and the handler stops any
      session still set (ignoring the outcome of that second stop) before
      re-raising.  `stopped` lists the session ids `stop` was called with. */
  method ScrapeSession(url: string, width: int, height: int, create: Result<string, string>,
                       use: Result<Capture, string>, firstStop: Option<string>)
    returns (r: Result<ScrapeResult, string>, ghost stopped: seq<string>)
    ensures r == SessionResult(url, width, height, create, use, firstStop)
    ensures create.Failure? ==> stopped == []
    ensures create.Success? ==> 1 <= |stopped| <= 2 && forall k :: 0 <= k < |stopped| ==> stopped[k] == create.value
    ensures r.Success? ==> |stopped| == 1
    ensures |stopped| == 2 <==> create.Success? && use.Success? && firstStop.Some?
  {
    stopped := [];
    var session: Option<string> := None;
    var raised: string;
    if create.Failure? {
      raised := create.error;
    } else {
      session := Some(create.value);
      if use.Failure? {
        raised := use.error;
      } else {
        stopped := stopped + [session.value];
        if firstStop.Some? {
          raised := firstStop.value;
        } else {
          session := None;
          return Success(Captured(url, width, height, use.value)), stopped;
        }
      }
    }
    if session.Some? {
      stopped := stopped + [session.value];
    }
    r := Failure(raised);
  }
}
