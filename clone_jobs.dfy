/** The clone-job router: an in-memory registry of jobs keyed by id, the
    background task that drives a job through its statuses while logging
    to the job's live log, and the download that packs a finished job into
    an archive (modelled as a map from file path to content) or a single
    HTML file.  The scraper, the full-site cloner and the language model
    are abstract step outcomes; each step also reports the log messages it
    emitted.  Status stays a free string. */
module CloneJobs {
  import opened Wrappers
  import opened Text
  import opened Models
  import Paths
  import opened EventLog

  /** An `HTTPException`: status code and detail. */
  datatype HttpError = HttpError(code: int, detail: string)

  const NotFound: HttpError := HttpError(404, "Clone job not found")
  const NotCompleted: HttpError := HttpError(400, "Clone job not completed")
  /** The response FastAPI gives for an uncaught exception. */
  const ServerError: HttpError := HttpError(500, "Internal Server Error")

  /** A job record; timestamps are not part of the model. */
  datatype Job = Job(
    jobId: string,
    status: string,
    url: string,
    model: string,
    progress: string,
    result: Option<LlmCloneResult>,
    fullSiteResult: Option<FullSiteCloneResult>,
    error: Option<string>)

  /** The body of `POST /clone` with its defaults filled in. */
  function DefaultRequest(url: string): (r: CloneRequest)
    ensures r.url == url && r.model == "agentic" && !r.fullSite && r.maxPages == 20 && r.includeAssets
  {
    CloneRequest(url, "agentic", false, 20, true)
  }

  /** The record `create_clone_job` stores and returns. */
  function NewJob(jobId: string, request: CloneRequest): (j: Job)
    ensures j.jobId == jobId && j.url == request.url && j.model == request.model
    ensures j.status == "pending" && j.progress == "Initializing..."
    ensures j.result.None? && j.fullSiteResult.None? && j.error.None?
  {
    Job(jobId, "pending", request.url, request.model, "Initializing...", None, None, None)
  }

  // ---------------------------------------------------------------------
  // The background task

  /** What a step of the task did: the messages it logged and its value
      or the text of the exception it raised. */
  datatype Step<T> = Step(messages: seq<string>, outcome: Result<T, string>)

  /** The outcomes of the three steps a job may run. */
  datatype Outcomes = Outcomes(
    fullSite: Step<FullSiteCloneResult>,
    scrape: Step<Option<ScrapeResult>>,
    clone: Step<LlmCloneResult>)

  const FullSiteStart: string := "\U{1F680} Initializing full site clone..."
  const SinglePageStart: string := "\U{1F680} Initializing single page clone..."
  const Discovering: string := "\U{1F577}\U{FE0F} Discovering all pages and routes..."
  const Scraping: string := "\U{1F4C4} Scraping single page..."
  const Completed: string := "\U{2705} Clone completed!"
  const ScrapeFailed: string := "Failed to scrape website"

  function Generating(model: string): string {
    "\U{1F9E0} Generating clone with " + model + " AI..."
  }

  function FailedProgress(e: string): string {
    "Failed: " + e
  }

  /** `update_status(status, progress)` */
  function SetStatus(j: Job, status: string, progress: string): Job {
    j.(status := status, progress := progress)
  }

  /** The exception text the task ends with, if any. */
  function JobFailure(fullSite: bool, out: Outcomes): Option<string> {
    if fullSite then
      match out.fullSite.outcome
      case Success(_) => None
      case Failure(e) => Some(e)
    else
      match out.scrape.outcome
      case Failure(e) => Some(e)
      case Success(None) => Some(ScrapeFailed)
      case Success(Some(_)) =>
        match out.clone.outcome
        case Success(_) => None
        case Failure(e) => Some(e)
  }

  /** The job record after each update of the full-site branch. */
  function FullSiteSteps(j: Job, out: Outcomes): (trace: seq<Job>)
    ensures trace != []
  {
    var s1 := SetStatus(j, "discovering", Discovering);
    match out.fullSite.outcome
    case Success(fr) => [s1, s1.(fullSiteResult := Some(fr))]
    case Failure(_) => [s1]
  }

  /** The job record after each update of the language-model step. */
  function CloneSteps(j: Job, model: string, out: Outcomes): (trace: seq<Job>)
    ensures trace != []
  {
    var s2 := SetStatus(j, "processing", Generating(model));
    match out.clone.outcome
    case Success(cr) => [s2, s2.(result := Some(cr))]
    case Failure(_) => [s2]
  }

  /** The scrape succeeded with a page. */
  predicate Scraped(out: Outcomes) {
    out.scrape.outcome.Success? && out.scrape.outcome.value.Some?
  }

  /** The job record after each update of the single-page branch. */
  function SinglePageSteps(j: Job, model: string, out: Outcomes): (trace: seq<Job>)
    ensures trace != []
  {
    var s1 := SetStatus(j, "scraping", Scraping);
    if Scraped(out) then [s1] + CloneSteps(s1, model, out) else [s1]
  }

  function Steps(j: Job, request: CloneRequest, out: Outcomes): (trace: seq<Job>)
    ensures trace != []
  {
    if request.fullSite then FullSiteSteps(j, out) else SinglePageSteps(j, request.model, out)
  }

  /** The `except` clause: status and progress first, then the error. */
  function Failed(j: Job, e: string): seq<Job> {
    var f := SetStatus(j, "failed", FailedProgress(e));
    [f, f.(error := Some(e))]
  }

  /** The last update: `completed`, or the `except` clause. */
  function Finish(j: Job, failure: Option<string>): (trace: seq<Job>)
    ensures trace != []
  {
    match failure
    case None => [SetStatus(j, "completed", Completed)]
    case Some(e) => Failed(j, e)
  }

  function Last(trace: seq<Job>): Job
    requires trace != []
  {
    trace[|trace| - 1]
  }

  /** The job record after each update of `process_clone_job`, in order. */
  function Lifecycle(j: Job, request: CloneRequest, out: Outcomes): (trace: seq<Job>)
    ensures trace != []
  {
    var steps := Steps(j, request, out);
    steps + Finish(Last(steps), JobFailure(request.fullSite, out))
  }

  function FullSiteMessages(out: Outcomes): seq<string> {
    [FullSiteStart] + out.fullSite.messages
  }

  /** The language model runs, and logs, only after a successful scrape. */
  function SinglePageMessages(out: Outcomes): seq<string> {
    [SinglePageStart] + out.scrape.messages + (if Scraped(out) then out.clone.messages else [])
  }

  /** The messages the steps of the job's mode log. */
  function StepMessages(request: CloneRequest, out: Outcomes): seq<string> {
    if request.fullSite then FullSiteMessages(out) else SinglePageMessages(out)
  }

  function FailureMessages(failure: Option<string>): seq<string> {
    match failure
    case Some(e) => ["\U{274C} " + FailedProgress(e)]
    case None => []
  }

  /** The messages the task logs, in order. */
  function JobMessages(request: CloneRequest, out: Outcomes): seq<string> {
    StepMessages(request, out) + FailureMessages(JobFailure(request.fullSite, out)) + [End]
  }

  /** A job ends `completed` exactly when no step failed, and `failed`
      with the exception text as its error and `Failed: <text>` as its
      progress otherwise. */
  lemma LifecycleEnds(j: Job, request: CloneRequest, out: Outcomes)
    ensures var last := Last(Lifecycle(j, request, out));
      && (JobFailure(request.fullSite, out).None? <==> last.status == "completed")
      && (JobFailure(request.fullSite, out).None? ==> last.progress == Completed && last.error == j.error)
      && (JobFailure(request.fullSite, out).Some? ==>
            last.status == "failed" && last.error == JobFailure(request.fullSite, out)
            && last.progress == FailedProgress(JobFailure(request.fullSite, out).value))
      && last.jobId == j.jobId && last.url == j.url && last.model == j.model
  {
  }

  /** The statuses a job passes through: `discovering` for a full site,
      `scraping` then `processing` for a single page once the scrape
      has succeeded. */
  lemma LifecycleStatuses(j: Job, request: CloneRequest, out: Outcomes)
    ensures Lifecycle(j, request, out)[0].status == (if request.fullSite then "discovering" else "scraping")
    ensures !request.fullSite && out.scrape.outcome.Success? && out.scrape.outcome.value.Some? ==>
      Lifecycle(j, request, out)[1].status == "processing"
    ensures forall k :: 0 <= k < |Lifecycle(j, request, out)| ==>
      Lifecycle(j, request, out)[k].status in {"discovering", "scraping", "processing", "completed", "failed"}
  {
  }

  /** A job record never claims `completed` without the result of its
      mode: a full-site result for a full-site job, a page result
      otherwise. */
  predicate StoredBeforeCompleted(j: Job, fullSite: bool) {
    j.status == "completed" ==> (if fullSite then j.fullSiteResult.Some? else j.result.Some?)
  }

  lemma {:induction false} LifecycleStoresFirst(j: Job, request: CloneRequest, out: Outcomes)
    ensures forall k :: 0 <= k < |Lifecycle(j, request, out)| ==>
      StoredBeforeCompleted(Lifecycle(j, request, out)[k], request.fullSite)
  {
    var trace := Lifecycle(j, request, out);
    forall k | 0 <= k < |trace| ensures StoredBeforeCompleted(trace[k], request.fullSite) {
      LifecycleStatuses(j, request, out);
    }
  }

  /** A single-page job whose scraper returns nothing fails with
      `Failed to scrape website`. */
  lemma MissingScrapeFails(j: Job, request: CloneRequest, out: Outcomes)
    requires !request.fullSite && out.scrape.outcome == Success(None)
    ensures Last(Lifecycle(j, request, out)).error == Some(ScrapeFailed)
    ensures Last(Lifecycle(j, request, out)).progress == FailedProgress(ScrapeFailed)
  {
  }

  /** `[END]` is logged once, as the last message, whatever the outcome,
      provided the steps themselves never log it. */
  lemma EndLoggedOnce(request: CloneRequest, out: Outcomes)
    requires End !in out.fullSite.messages && End !in out.scrape.messages && End !in out.clone.messages
    ensures var ms := JobMessages(request, out);
      ms != [] && ms[|ms| - 1] == End && End !in ms[..|ms| - 1]
  {
    var ms := JobMessages(request, out);
    var failure := FailureMessages(JobFailure(request.fullSite, out));
    assert End !in failure by {
      if failure != [] {
        assert failure[0][0] != End[0];
      }
    }
    assert FullSiteStart[0] != End[0] && SinglePageStart[0] != End[0];
    assert ms[..|ms| - 1] == StepMessages(request, out) + failure;
  }

  // ---------------------------------------------------------------------
  // Logging a sequence of messages

  /** The live logs after the job logs `ms` in order. */
  function LogEach(h: Hub, job: string, ms: seq<string>): (r: Hub)
    requires job in h.logs
    ensures job in r.logs
    decreases |ms|
  {
    if ms == [] then h else LogEach(LogHub(h, job, ms[0]), job, ms[1..])
  }

  /** The job's history gains exactly the logged messages, in order. */
  lemma {:induction false} LogEachHistory(h: Hub, job: string, ms: seq<string>)
    requires job in h.logs
    ensures History(LogEach(h, job, ms), job) == History(h, job) + ms
    decreases |ms|
  {
    if ms != [] {
      LogEachHistory(LogHub(h, job, ms[0]), job, ms[1..]);
      assert [ms[0]] + ms[1..] == ms;
    }
  }

  lemma {:induction false} LogEachCoherent(h: Hub, job: string, ms: seq<string>)
    requires job in h.logs && Coherent(h)
    ensures Coherent(LogEach(h, job, ms))
    decreases |ms|
  {
    if ms != [] {
      LogCoherent(h, job, ms[0]);
      LogEachCoherent(LogHub(h, job, ms[0]), job, ms[1..]);
    }
  }

  lemma {:induction false} LogEachConcat(h: Hub, job: string, a: seq<string>, b: seq<string>)
    requires job in h.logs
    ensures LogEach(h, job, a + b) == LogEach(LogEach(h, job, a), job, b)
    decreases |a|
  {
    if a == [] {
      assert a + b == b;
    } else {
      assert (a + b)[0] == a[0];
      assert (a + b)[1..] == a[1..] + b;
      LogEachConcat(LogHub(h, job, a[0]), job, a[1..], b);
    }
  }

  /** Logs `ms` in order on a job whose history exists. */
  method Say(logs: LiveLogs, job: string, ms: seq<string>)
    requires logs.Valid() && job in logs.jobLogs
    modifies logs
    ensures logs.Valid() && job in logs.jobLogs
    ensures logs.State() == LogEach(old(logs.State()), job, ms)
  {
    var i := 0;
    while i < |ms|
      invariant 0 <= i <= |ms|
      invariant logs.Valid() && job in logs.jobLogs
      invariant LogEach(logs.State(), job, ms[i..]) == LogEach(old(logs.State()), job, ms)
    {
      assert ms[i..][1..] == ms[i + 1..];
      var _ := logs.Log(job, ms[i]);
      i := i + 1;
    }
  }

  // ---------------------------------------------------------------------
  // The archive

  /** The archive name of a page, as the download handler computes it:
      the root is "index.html", a directory path gets "index.html" inside
      it, a path without an extension gets ".html". */
  function ArchivePath(path: string): string {
    var filePath := StripChar(path, '/');
    if filePath == [] then "index.html"
    else if EndsWith(path, "/") then filePath + "/index.html"
    else if Paths.Extension(filePath) == [] then filePath + ".html"
    else filePath
  }

  /** The archive uses the same file names as the offline link map. */
  lemma ArchivePathIsOutputPath(path: string)
    ensures ArchivePath(path) == Paths.OutputPath(path)
  {
    if path == "/" {
      assert LStripChar(path, '/') == [];
    }
  }

  /** Entries named by `names`, where the first value for a name wins. */
  function FirstEntries(names: seq<string>, values: seq<string>): map<string, string>
    requires |names| == |values|
  {
    if names == [] then map[]
    else
      var a := FirstEntries(names[..|names| - 1], values[..|values| - 1]);
      var name := names[|names| - 1];
      if name in a then a else a[name := values[|values| - 1]]
  }

  /** There is an entry for exactly the names given. */
  lemma {:induction false} FirstEntriesKeys(names: seq<string>, values: seq<string>)
    requires |names| == |values|
    ensures forall name :: name in FirstEntries(names, values) <==> name in names
  {
    if names != [] {
      var init := names[..|names| - 1];
      FirstEntriesKeys(init, values[..|values| - 1]);
      assert names == init + [names[|names| - 1]];
    }
  }

  /** A name's entry holds the value given with its first occurrence. */
  lemma {:induction false} FirstEntriesFirstWins(names: seq<string>, values: seq<string>, k: nat)
    requires |names| == |values| && k < |names|
    requires forall i :: 0 <= i < k ==> names[i] != names[k]
    ensures names[k] in FirstEntries(names, values)
    ensures FirstEntries(names, values)[names[k]] == values[k]
  {
    var init := names[..|names| - 1];
    var initValues := values[..|values| - 1];
    if k < |init| {
      FirstEntriesFirstWins(init, initValues, k);
    } else {
      FirstEntriesKeys(init, initValues);
      assert names[k] !in init by {
        forall m | 0 <= m < |init| ensures init[m] != names[k] {
          assert init[m] == names[m];
        }
      }
    }
  }

  /** One more name: its value is added unless the name already has one. */
  lemma FirstEntriesStep(names: seq<string>, values: seq<string>, i: nat)
    requires |names| == |values| && i < |names|
    ensures var a := FirstEntries(names[..i], values[..i]);
      FirstEntries(names[..i + 1], values[..i + 1]) == if names[i] in a then a else a[names[i] := values[i]]
  {
    assert names[..i + 1][..i] == names[..i] && values[..i + 1][..i] == values[..i];
  }

  /** The archive name of each page. */
  function PageNames(pages: seq<PageCloneResult>): (r: seq<string>)
    ensures |r| == |pages| && forall k :: 0 <= k < |pages| ==> r[k] == ArchivePath(pages[k].path)
  {
    seq(|pages|, k requires 0 <= k < |pages| => ArchivePath(pages[k].path))
  }

  function PageHtmls(pages: seq<PageCloneResult>): (r: seq<string>)
    ensures |r| == |pages| && forall k :: 0 <= k < |pages| ==> r[k] == pages[k].html
  {
    seq(|pages|, k requires 0 <= k < |pages| => pages[k].html)
  }

  /** The page entries of the archive: the first page for a file name wins. */
  function ArchivePages(pages: seq<PageCloneResult>): map<string, string> {
    FirstEntries(PageNames(pages), PageHtmls(pages))
  }

  /** The whole archive: the pages, then `sitemap.txt` when the joined
      sitemap is not empty. */
  function Archive(pages: seq<PageCloneResult>, sitemap: seq<string>): map<string, string> {
    var a := ArchivePages(pages);
    var content := Join(sitemap, "\n");
    if content != [] then a["sitemap.txt" := content] else a
  }

  /** The archive holds one entry per distinct file name. */
  lemma ArchivePagesKeys(pages: seq<PageCloneResult>)
    ensures forall name :: name in ArchivePages(pages) <==>
      exists k :: 0 <= k < |pages| && ArchivePath(pages[k].path) == name
  {
    var names := PageNames(pages);
    FirstEntriesKeys(names, PageHtmls(pages));
    forall name ensures name in names <==> exists k :: 0 <= k < |pages| && ArchivePath(pages[k].path) == name {
      if name in names {
        var k :| 0 <= k < |names| && names[k] == name;
        assert ArchivePath(pages[k].path) == name;
      }
    }
  }

  /** Each entry holds the html of the first page with that name. */
  lemma ArchivePagesFirstWins(pages: seq<PageCloneResult>, k: nat)
    requires k < |pages|
    requires forall i :: 0 <= i < k ==> ArchivePath(pages[i].path) != ArchivePath(pages[k].path)
    ensures ArchivePath(pages[k].path) in ArchivePages(pages)
    ensures ArchivePages(pages)[ArchivePath(pages[k].path)] == pages[k].html
  {
    var names := PageNames(pages);
    assert forall i :: 0 <= i < k ==> names[i] != names[k];
    FirstEntriesFirstWins(names, PageHtmls(pages), k);
  }

  /** `sitemap.txt` is written exactly when the joined sitemap is not empty
      (or a page already took that name); any other name is a page's. */
  lemma ArchiveSitemap(pages: seq<PageCloneResult>, sitemap: seq<string>)
    ensures Join(sitemap, "\n") != [] ==> Archive(pages, sitemap)["sitemap.txt"] == Join(sitemap, "\n")
    ensures Join(sitemap, "\n") == [] ==> Archive(pages, sitemap) == ArchivePages(pages)
    ensures forall name :: name != "sitemap.txt" ==>
      (name in Archive(pages, sitemap) <==> name in ArchivePages(pages))
  {
  }

  /** The download loop over the pages, with its `written_paths` set. */
  method WritePages(pages: seq<PageCloneResult>) returns (entries: map<string, string>)
    ensures entries == ArchivePages(pages)
  {
    var names := PageNames(pages);
    var htmls := PageHtmls(pages);
    entries := map[];
    var written: set<string> := {};
    var i := 0;
    while i < |pages|
      invariant 0 <= i <= |pages|
      invariant entries == FirstEntries(names[..i], htmls[..i])
      invariant forall n :: n in written <==> n in entries
    {
      FirstEntriesStep(names, htmls, i);
      var filePath := names[i];
      if filePath !in written {
        entries := entries[filePath := htmls[i]];
        written := written + {filePath};
      }
      i := i + 1;
    }
    assert names[..|pages|] == names && htmls[..|pages|] == htmls;
  }

  /** A download: an archive of named entries, or one HTML file. */
  datatype Download =
    | ZipFile(entries: map<string, string>, filename: string)
    | HtmlFile(content: string, filename: string)

  /** `download_cloned_site(job_id)` */
  function DownloadOf(jobs: map<string, Job>, jobId: string): Result<Download, HttpError> {
    if jobId !in jobs then Failure(NotFound)
    else
      var j := jobs[jobId];
      if j.status != "completed" then Failure(NotCompleted)
      else match j.fullSiteResult
        case Some(fr) => Success(ZipFile(Archive(fr.pages, fr.sitemap), "cloned_site_" + jobId + ".zip"))
        case None =>
          match j.result
          case Some(r) => Success(HtmlFile(r.html, "clone_" + jobId + ".html"))
          case None => Failure(ServerError)
  }

  /** A registry whose completed jobs carry their results. */
  predicate Registered(jobs: map<string, Job>) {
    forall id :: id in jobs ==>
      (jobs[id].jobId == id && (jobs[id].status == "completed" ==> jobs[id].fullSiteResult.Some? || jobs[id].result.Some?))
  }

  /** An unknown job is 404, an unfinished one 400, and a completed job of
      a registry that keeps its invariant always downloads. */
  lemma DownloadGuards(jobs: map<string, Job>, jobId: string)
    requires Registered(jobs)
    ensures jobId !in jobs ==> DownloadOf(jobs, jobId) == Failure(NotFound)
    ensures jobId in jobs && jobs[jobId].status != "completed" ==> DownloadOf(jobs, jobId) == Failure(NotCompleted)
    ensures jobId in jobs && jobs[jobId].status == "completed" ==> DownloadOf(jobs, jobId).Success?
  {
  }

  /** A completed full-site job downloads as its archive. */
  lemma DownloadFullSite(jobs: map<string, Job>, jobId: string)
    requires jobId in jobs && jobs[jobId].status == "completed" && jobs[jobId].fullSiteResult.Some?
    ensures DownloadOf(jobs, jobId).Success? && DownloadOf(jobs, jobId).value.ZipFile?
    ensures DownloadOf(jobs, jobId).value.entries ==
      Archive(jobs[jobId].fullSiteResult.value.pages, jobs[jobId].fullSiteResult.value.sitemap)
  {
  }

  /** `get_clone_job(job_id)` */
  function StatusOf(jobs: map<string, Job>, jobId: string): (r: Result<Job, HttpError>)
    ensures jobId !in jobs <==> r == Failure(NotFound)
    ensures jobId in jobs ==> r == Success(jobs[jobId])
  {
    if jobId in jobs then Success(jobs[jobId]) else Failure(NotFound)
  }

  // ---------------------------------------------------------------------
  // The registry as an object

  class Registry {
    var jobs: map<string, Job>

    ghost predicate Valid()
      reads this
    {
      Registered(jobs)
    }

    constructor()
      ensures jobs == map[] && Valid()
    {
      jobs := map[];
    }

    /** `create_clone_job`: the id is a fresh `uuid4` supplied by the caller. */
    method CreateCloneJob(jobId: string, request: CloneRequest) returns (response: Job)
      requires Valid()
      modifies this
      ensures Valid()
      ensures response == NewJob(jobId, request)
      ensures jobs == old(jobs)[jobId := response]
    {
      response := Job(jobId, "pending", request.url, request.model, "Initializing...", None, None, None);
      jobs := jobs[jobId := response];
    }

    /** `get_clone_job` */
    method GetCloneJob(jobId: string) returns (r: Result<Job, HttpError>)
      ensures r == StatusOf(jobs, jobId)
    {
      if jobId !in jobs {
        return Failure(NotFound);
      }
      r := Success(jobs[jobId]);
    }

    /** `stream_clone_logs`: a subscription to the job's live log, or 404. */
    method StreamCloneLogs(jobId: string, logs: LiveLogs) returns (r: Result<(QueueId, seq<string>), HttpError>)
      requires logs.Valid()
      modifies logs
      ensures logs.Valid()
      ensures jobId !in jobs ==> r == Failure(NotFound) && logs.State() == old(logs.State())
      ensures jobId in jobs ==>
        (r.Success? && (logs.State(), r.value.0, r.value.1) == SubscribeHub(old(logs.State()), jobId))
    {
      if jobId !in jobs {
        return Failure(NotFound);
      }
      var q, replay := logs.Subscribe(jobId);
      r := Success((q, replay));
    }

    /** `download_cloned_site` */
    method DownloadClonedSite(jobId: string) returns (r: Result<Download, HttpError>)
      ensures r == DownloadOf(jobs, jobId)
    {
      if jobId !in jobs {
        return Failure(NotFound);
      }
      var j := jobs[jobId];
      if j.status != "completed" {
        return Failure(NotCompleted);
      }
      if j.fullSiteResult.Some? {
        var fr := j.fullSiteResult.value;
        var entries := WritePages(fr.pages);
        var content := Join(fr.sitemap, "\n");
        if content != [] {
          entries := entries["sitemap.txt" := content];
        }
        return Success(ZipFile(entries, "cloned_site_" + jobId + ".zip"));
      }
      if j.result.None? {
        return Failure(ServerError);
      }
      r := Success(HtmlFile(j.result.value.html, "clone_" + jobId + ".html"));
    }

    /** `update_status(status, progress)` */
    method UpdateStatus(jobId: string, status: string, progress: string)
      requires jobId in jobs
      modifies this
      ensures jobs == old(jobs)[jobId := SetStatus(old(jobs)[jobId], status, progress)]
    {
      jobs := jobs[jobId := jobs[jobId].(status := status, progress := progress)];
    }

    /** The `except` clause of `process_clone_job`. */
    method Fail(jobId: string, e: string, logs: LiveLogs) returns (ghost trace: seq<Job>)
      requires jobId in jobs && logs.Valid() && jobId in logs.jobLogs
      modifies this, logs
      ensures logs.Valid() && jobId in logs.jobLogs
      ensures logs.State() == LogEach(old(logs.State()), jobId, ["\U{274C} " + FailedProgress(e)])
      ensures trace == Failed(old(jobs)[jobId], e)
      ensures jobs == old(jobs)[jobId := Last(trace)]
    {
      var message := "Failed: " + e;
      Say(logs, jobId, ["\U{274C} " + message]);
      UpdateStatus(jobId, "failed", message);
      trace := [jobs[jobId]];
      jobs := jobs[jobId := jobs[jobId].(error := Some(e))];
      trace := trace + [jobs[jobId]];
    }

    /** The full-site branch of `process_clone_job`, up to `completed`. */
    method RunFullSite(jobId: string, out: Outcomes, logs: LiveLogs) returns (failure: Option<string>, ghost trace: seq<Job>)
      requires jobId in jobs && logs.Valid() && jobId in logs.jobLogs
      modifies this, logs
      ensures logs.Valid() && jobId in logs.jobLogs
      ensures logs.State() == LogEach(old(logs.State()), jobId, FullSiteMessages(out))
      ensures failure == JobFailure(true, out)
      ensures trace == FullSiteSteps(old(jobs)[jobId], out)
      ensures jobs == old(jobs)[jobId := Last(trace)]
    {
      LogEachConcat(logs.State(), jobId, [FullSiteStart], out.fullSite.messages);
      Say(logs, jobId, [FullSiteStart]);
      UpdateStatus(jobId, "discovering", Discovering);
      trace := [jobs[jobId]];
      Say(logs, jobId, out.fullSite.messages);
      match out.fullSite.outcome
      case Success(fr) =>
        jobs := jobs[jobId := jobs[jobId].(fullSiteResult := Some(fr))];
        trace := trace + [jobs[jobId]];
        failure := None;
      case Failure(e) =>
        failure := Some(e);
    }

    /** The language-model step of the single-page branch. */
    method RunClone(jobId: string, model: string, out: Outcomes, logs: LiveLogs)
      returns (failure: Option<string>, ghost trace: seq<Job>)
      requires jobId in jobs && logs.Valid() && jobId in logs.jobLogs
      modifies this, logs
      ensures logs.Valid() && jobId in logs.jobLogs
      ensures logs.State() == LogEach(old(logs.State()), jobId, out.clone.messages)
      ensures failure == (match out.clone.outcome case Success(_) => None case Failure(e) => Some(e))
      ensures trace == CloneSteps(old(jobs)[jobId], model, out)
      ensures jobs == old(jobs)[jobId := Last(trace)]
    {
      UpdateStatus(jobId, "processing", "\U{1F9E0} Generating clone with " + model + " AI...");
      trace := [jobs[jobId]];
      Say(logs, jobId, out.clone.messages);
      match out.clone.outcome
      case Success(cr) =>
        jobs := jobs[jobId := jobs[jobId].(result := Some(cr))];
        trace := trace + [jobs[jobId]];
        failure := None;
      case Failure(e) =>
        failure := Some(e);
    }

    /** The single-page branch of `process_clone_job`, up to `completed`. */
    method RunSinglePage(jobId: string, model: string, out: Outcomes, logs: LiveLogs)
      returns (failure: Option<string>, ghost trace: seq<Job>)
      requires jobId in jobs && logs.Valid() && jobId in logs.jobLogs
      modifies this, logs
      ensures logs.Valid() && jobId in logs.jobLogs
      ensures logs.State() == LogEach(old(logs.State()), jobId, SinglePageMessages(out))
      ensures failure == JobFailure(false, out)
      ensures trace == SinglePageSteps(old(jobs)[jobId], model, out)
      ensures jobs == old(jobs)[jobId := Last(trace)]
    {
      ghost var h := logs.State();
      ghost var first := [SinglePageStart] + out.scrape.messages;
      ghost var later := if Scraped(out) then out.clone.messages else [];
      assert SinglePageMessages(out) == first + later;
      LogEachConcat(h, jobId, [SinglePageStart], out.scrape.messages);
      LogEachConcat(h, jobId, first, later);
      Say(logs, jobId, [SinglePageStart]);
      UpdateStatus(jobId, "scraping", Scraping);
      trace := [jobs[jobId]];
      Say(logs, jobId, out.scrape.messages);
      assert logs.State() == LogEach(h, jobId, first);
      match out.scrape.outcome
      case Failure(e) =>
        failure := Some(e);
      case Success(None) =>
        failure := Some(ScrapeFailed);
      case Success(Some(_)) =>
        ghost var rest;
        ghost var mid := jobs;
        failure, rest := RunClone(jobId, model, out, logs);
        trace := trace + rest;
        assert Last(trace) == Last(rest);
        UpdateTwice(old(jobs), jobId, mid[jobId], Last(rest));
    }

    /** The steps of the job's mode. */
    method RunSteps(jobId: string, request: CloneRequest, out: Outcomes, logs: LiveLogs)
      returns (failure: Option<string>, ghost trace: seq<Job>)
      requires jobId in jobs && logs.Valid() && jobId in logs.jobLogs
      modifies this, logs
      ensures logs.Valid() && jobId in logs.jobLogs
      ensures logs.State() == LogEach(old(logs.State()), jobId, StepMessages(request, out))
      ensures failure == JobFailure(request.fullSite, out)
      ensures trace == Steps(old(jobs)[jobId], request, out)
      ensures jobs == old(jobs)[jobId := Last(trace)]
    {
      if request.fullSite {
        failure, trace := RunFullSite(jobId, out, logs);
      } else {
        failure, trace := RunSinglePage(jobId, request.model, out, logs);
      }
    }

    /** `completed`, or the `except` clause. */
    method RunFinish(jobId: string, failure: Option<string>, logs: LiveLogs) returns (ghost trace: seq<Job>)
      requires jobId in jobs && logs.Valid() && jobId in logs.jobLogs
      modifies this, logs
      ensures logs.Valid() && jobId in logs.jobLogs
      ensures logs.State() == LogEach(old(logs.State()), jobId, FailureMessages(failure))
      ensures trace == Finish(old(jobs)[jobId], failure)
      ensures jobs == old(jobs)[jobId := Last(trace)]
    {
      if failure.None? {
        UpdateStatus(jobId, "completed", Completed);
        trace := [jobs[jobId]];
      } else {
        trace := Fail(jobId, failure.value, logs);
      }
    }

    /** `process_clone_job(job_id, request)`: opens the job's live log,
        runs the job's mode, records `completed` or the failure, and logs
        `[END]` in every case. */
    method ProcessCloneJob(jobId: string, request: CloneRequest, out: Outcomes, logs: LiveLogs)
      returns (ghost trace: seq<Job>)
      requires Valid() && jobId in jobs && logs.Valid()
      modifies this, logs
      ensures Valid() && logs.Valid()
      ensures trace == Lifecycle(old(jobs)[jobId], request, out)
      ensures jobs == old(jobs)[jobId := Last(trace)]
      ensures logs.State() == LogEach(OpenHub(old(logs.State()), jobId), jobId, JobMessages(request, out))
    {
      ghost var j0 := jobs;
      logs.Open(jobId);
      ghost var h := logs.State();
      var failure;
      ghost var steps;
      failure, steps := RunSteps(jobId, request, out, logs);
      ghost var h1 := logs.State();
      assert h1 == LogEach(h, jobId, StepMessages(request, out));
      assert jobs[jobId] == Last(steps);
      ghost var tail := RunFinish(jobId, failure, logs);
      assert tail == Finish(Last(steps), JobFailure(request.fullSite, out));
      ghost var h2 := logs.State();
      assert h2 == LogEach(h1, jobId, FailureMessages(JobFailure(request.fullSite, out)));
      trace := steps + tail;
      assert Last(trace) == Last(tail);
      LifecycleUnfold(j0[jobId], request, out);
      UpdateTwice(j0, jobId, Last(steps), Last(tail));
      Say(logs, jobId, [End]);
      FinishLogged(h, jobId, request, out);
      ProcessKeepsRegistered(j0, jobId, request, out, Last(trace));
    }
  }

  lemma UpdateTwice<K, V>(m: map<K, V>, k: K, a: V, b: V)
    ensures m[k := a][k := b] == m[k := b]
  {
  }

  lemma LifecycleUnfold(j: Job, request: CloneRequest, out: Outcomes)
    ensures Lifecycle(j, request, out) ==
      Steps(j, request, out) + Finish(Last(Steps(j, request, out)), JobFailure(request.fullSite, out))
  {
  }

  /** The three stretches of logging compose into the job's messages. */
  lemma FinishLogged(h: Hub, jobId: string, request: CloneRequest, out: Outcomes)
    requires jobId in h.logs
    ensures var steps := StepMessages(request, out);
      var failure := FailureMessages(JobFailure(request.fullSite, out));
      LogEach(LogEach(LogEach(h, jobId, steps), jobId, failure), jobId, [End])
      == LogEach(h, jobId, JobMessages(request, out))
  {
    var steps := StepMessages(request, out);
    var failure := FailureMessages(JobFailure(request.fullSite, out));
    LogEachConcat(h, jobId, steps, failure);
    LogEachConcat(h, jobId, steps + failure, [End]);
  }

  /** The task keeps the registry invariant: a job never claims
      `completed` without a stored result. */
  lemma ProcessKeepsRegistered(jobs: map<string, Job>, jobId: string, request: CloneRequest, out: Outcomes, final: Job)
    requires Registered(jobs) && jobId in jobs
    requires final == Last(Lifecycle(jobs[jobId], request, out))
    ensures Registered(jobs[jobId := final])
  {
    var trace := Lifecycle(jobs[jobId], request, out);
    LifecycleStoresFirst(jobs[jobId], request, out);
    LifecycleEnds(jobs[jobId], request, out);
    assert StoredBeforeCompleted(trace[|trace| - 1], request.fullSite);
  }
}
