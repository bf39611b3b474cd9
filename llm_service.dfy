/** The cloning service: picks a strategy for a model key, runs the
    screenshot-first cloner, the three-agent chain or a single streamed
    generation, cleans the generated html, and reports the outcome.  The
    language-model endpoints are oracles: `respond` for a complete answer
    and `stream` for the chunks of a streamed one.  Timing is left out. */
module LlmService {
  import opened Wrappers
  import opened Text
  import opened Models
  import opened Config
  import opened LlmClients
  import Vision

  // ---------------------------------------------------------------------
  // Strategy

  /** A screenshot counts when it is present and longer than 100 characters. */
  predicate HasScreenshot(screenshot: Option<string>) {
    screenshot.Some? && screenshot.value != [] && |screenshot.value| > 100
  }

  datatype Strategy = VisionFirst | MultiStep | SingleShot

  /** The dispatch of `clone_website` for a configured model. */
  function ChooseStrategy(screenshot: Option<string>, model: string): Strategy {
    if HasScreenshot(screenshot) && (model == "agentic" || model == "precise") then VisionFirst
    else if model == "agentic" then MultiStep
    else SingleShot
  }

  /** The vision cloner runs exactly for the agentic and precise models
      with a screenshot; the three-agent chain exactly for the agentic
      model without one; anything else is a single generation. */
  lemma StrategyChoice(screenshot: Option<string>, model: string)
    ensures ChooseStrategy(screenshot, model) == VisionFirst <==>
      HasScreenshot(screenshot) && model in {"agentic", "precise"}
    ensures ChooseStrategy(screenshot, model) == MultiStep <==>
      !HasScreenshot(screenshot) && model == "agentic"
    ensures ChooseStrategy(screenshot, model) == SingleShot <==>
      model != "agentic" && (model != "precise" || !HasScreenshot(screenshot))
  {
  }

  /** `<provider>/<model>` */
  function ModelUsed(c: ModelConfig): string {
    c.provider + "/" + c.model
  }

  // ---------------------------------------------------------------------
  // Cleaning the generated html

  const Doctype: string := "<!DOCTYPE html>"

  const WrapperHead: string := Doctype + WrapperRest

  const WrapperRest: string :=
    "\n<html lang=\"en\">\n<head>\n    <meta charset=\"UTF-8\">\n"
    + "    <meta name=\"viewport\" content=\"width=device-width, initial-scale=1.0\">\n"
    + "    <title>AI Generated Clone</title>\n</head>\n<body>\n"

  const WrapperTail: string := "\n</body>\n</html>"

  /** Text that already reads as a complete document. */
  predicate IsDocument(t: string) {
    StartsWith(t, Doctype) || StartsWith(t, "<html")
  }

  /** `_clean_html_output`: fences removed and the text trimmed; a
      fragment is wrapped in a minimal document. */
  function CleanHtmlOutput(s: string): string {
    var t := Trim(Vision.StripFences(s));
    if IsDocument(t) then t else WrapperHead + t + WrapperTail
  }

  /** The cleaned output is always a document; text that already is one
      after fence removal and trimming comes back as it is, anything else
      is kept whole inside the wrapper. */
  lemma CleanHtmlOutcomes(s: string)
    ensures IsDocument(CleanHtmlOutput(s))
    ensures var t := Trim(Vision.StripFences(s));
      (CleanHtmlOutput(s) == t <==> IsDocument(t))
      && OccursAt(CleanHtmlOutput(s), t, if IsDocument(t) then 0 else |WrapperHead|)
  {
    var t := Trim(Vision.StripFences(s));
    var r := CleanHtmlOutput(s);
    if !IsDocument(t) {
      assert StartsWith(WrapperHead, Doctype);
      StartsWithConcat(WrapperHead, t + WrapperTail, Doctype);
      assert r == WrapperHead + (t + WrapperTail);
      ContainsIn(WrapperHead, t, WrapperTail);
    }
  }

  // ---------------------------------------------------------------------
  // Streaming

  /** A streamed answer: the chunks it yielded, and the error it raised
      after them, if any. */
  datatype Stream = Stream(chunks: seq<string>, error: Option<string>)

  /** The concatenation of the chunks. */
  function Flatten(chunks: seq<string>): string {
    if chunks == [] then "" else Flatten(chunks[..|chunks| - 1]) + chunks[|chunks| - 1]
  }

  /** What collecting a stream produces: its whole text, or the error. */
  function Streamed(st: Stream): Result<string, string> {
    if st.error.Some? then Failure(st.error.value) else Success(Flatten(st.chunks))
  }

  lemma {:induction false} FlattenConcat(a: seq<string>, b: seq<string>)
    ensures Flatten(a + b) == Flatten(a) + Flatten(b)
    decreases |b|
  {
    if b == [] {
      assert a + b == a;
    } else {
      var init, last := b[..|b| - 1], b[|b| - 1];
      assert (a + b)[..|a + b| - 1] == a + init;
      assert (a + b)[|a + b| - 1] == last;
      FlattenConcat(a, init);
      assert Flatten(a) + Flatten(init) + last == Flatten(a) + (Flatten(init) + last);
    }
  }

  /** Each chunk sits in the collected text right after the chunks
      before it. */
  lemma FlattenChunk(chunks: seq<string>, i: nat)
    requires i < |chunks|
    ensures OccursAt(Flatten(chunks), chunks[i], |Flatten(chunks[..i])|)
  {
    assert chunks == chunks[..i] + [chunks[i]] + chunks[i + 1..];
    FlattenConcat(chunks[..i] + [chunks[i]], chunks[i + 1..]);
    FlattenConcat(chunks[..i], [chunks[i]]);
    assert [chunks[i]][..0] == [];
  }

  /** `async for chunk in ...: html_result += chunk` */
  method Collect(st: Stream) returns (r: Result<string, string>)
    ensures r == Streamed(st)
  {
    var html := "";
    var i := 0;
    while i < |st.chunks|
      invariant 0 <= i <= |st.chunks|
      invariant html == Flatten(st.chunks[..i])
    {
      assert st.chunks[..i + 1][..i] == st.chunks[..i];
      html := html + st.chunks[i];
      i := i + 1;
    }
    assert st.chunks[..i] == st.chunks;
    if st.error.Some? {
      return Failure(st.error.value);
    }
    r := Success(html);
  }

  // ---------------------------------------------------------------------
  // Oracles

  /** The language-model endpoints (a client, a model name, the messages
      and a token limit) and what the vision cloner's requests return. */
  datatype Oracles = Oracles(
    respond: (Client, string, seq<Message>, int) -> Result<string, string>,
    stream: (Client, string, seq<Message>, int) -> Stream,
    analysisResponse: Result<Vision.ApiResponse, string>,
    decoded: Option<Vision.Picture>,
    generate: Vision.GenerationInput -> Result<Vision.ApiResponse, string>)

  /** The vision cloner reads the OpenAI key from the settings. */
  function VisionOf(s: Settings, o: Oracles): Vision.VisionOracles {
    Vision.VisionOracles(s.openaiKey, o.analysisResponse, o.decoded, o.generate)
  }

  /** The dictionary a cloning strategy returns. */
  datatype Generated = Generated(html: string, css: string, reasoning: string)

  // ---------------------------------------------------------------------
  // The three-agent chain

  const AnalysisTokens: int := 1000

  function ContextMessage(layout: string, style: string): string {
    "\nPrevious Analysis Context:\n\nLayout Analysis:\n" + layout + "\n\nStyle Analysis: \n" + style
    + "\n\nNow create the complete HTML clone incorporating these insights:\n"
  }

  /** The `full` prompt followed by the two analyses as a user message. */
  function EnhancedPrompt(full: seq<Message>, layout: string, style: string): seq<Message> {
    full + [Message("user", Plain(ContextMessage(layout, style)))]
  }

  function LayoutStep(layout: string): string {
    LayoutLabel + layout + "\n"
  }

  const LayoutLabel: string := "\U{1F3D7}\U{FE0F} Layout Analysis:\n"

  function StyleStep(style: string): string {
    StyleLabel + style + "\n"
  }

  const StyleLabel: string := "\U{1F3A8} Style Analysis:\n"

  function GenerationStep(rawLength: nat): string {
    "\U{1F528} HTML Generation:\nGenerated complete HTML with " + NatToString(rawLength) + " characters"
  }

  /** The agentic reasoning before `.strip()`, without its padding. */
  function AgenticSummary(c: ModelConfig, steps: seq<string>, htmlLength: nat): string {
    AgenticHead + Join(steps, "\n") + FinalResult(c, htmlLength)
  }

  const AgenticHead: string := "\U{1F9E0} Agentic Cloning Process (Real AI):\n\n"

  function FinalResult(c: ModelConfig, htmlLength: nat): string {
    ProviderLabel + c.provider + ModelLabel + c.model
    + "\n- Generated " + NatToString(htmlLength) + AgenticClosing
  }

  const ProviderLabel: string := "\n\n\U{2728} Final Result:\n- Provider: "

  const ModelLabel: string := "\n- Model: "

  const AgenticClosing: string :=
    " characters of HTML\n- Incorporated layout and style analysis\n- Used chain-of-thought reasoning"

  /** The stripped f-string of `_agentic_clone`. */
  function AgenticReasoning(c: ModelConfig, steps: seq<string>, htmlLength: nat): string {
    Trim("\n" + AgenticSummary(c, steps, htmlLength) + "\n        ")
  }

  /** `_agentic_clone` once it has a client. */
  function AgenticWith(client: Client, c: ModelConfig, scrape: ScrapeResult, o: Oracles): Result<Generated, string> {
    var layout := o.respond(client, c.model, Prompt(scrape, "layout_analysis"), AnalysisTokens);
    if layout.Failure? then Failure(layout.error)
    else
      var style := o.respond(client, c.model, Prompt(scrape, "style_extraction"), AnalysisTokens);
      if style.Failure? then Failure(style.error)
      else Generation(client, c, Prompt(scrape, "full"), layout.value, style.value, o)
  }

  /** The third agent: the streamed generation with both analyses as context. */
  function Generation(client: Client, c: ModelConfig, full: seq<Message>, layout: string, style: string,
                      o: Oracles): Result<Generated, string>
  {
    var raw := Streamed(o.stream(client, c.model, EnhancedPrompt(full, layout, style), c.maxTokens));
    if raw.Failure? then Failure(raw.error)
    else Success(Finished(c, [LayoutStep(layout), StyleStep(style)], raw.value))
  }

  /** The cleaned html and the reasoning, once the generation is in. */
  function Finished(c: ModelConfig, steps: seq<string>, raw: string): Generated {
    var html := CleanHtmlOutput(raw);
    Generated(html, "", AgenticReasoning(c, steps + [GenerationStep(|raw|)], |html|))
  }

  /** `_agentic_clone`: the factory's new cache and the outcome. */
  function AgenticOutcome(cache: map<string, Client>, s: Settings, c: ModelConfig, scrape: ScrapeResult,
                          o: Oracles): (map<string, Client>, Result<Generated, string>)
  {
    var (cache', client) := GetClientOf(cache, s, c.provider);
    (cache', if client.Failure? then Failure(client.error) else AgenticWith(client.value, c, scrape, o))
  }

  /** The agentic reasoning quotes both analyses and names the provider
      and the model. */
  lemma AgenticReasoningQuotes(c: ModelConfig, layout: string, style: string, rawLength: nat, htmlLength: nat)
    ensures var r := AgenticReasoning(c, [LayoutStep(layout), StyleStep(style), GenerationStep(rawLength)], htmlLength);
      Contains(r, layout) && Contains(r, style) && Contains(r, c.provider) && Contains(r, c.model)
  {
    var steps := [LayoutStep(layout), StyleStep(style), GenerationStep(rawLength)];
    var joined := Join(steps, "\n");
    var tail := FinalResult(c, htmlLength);
    var body := AgenticSummary(c, steps, htmlLength);
    assert steps[1..] == [StyleStep(style), GenerationStep(rawLength)];
    assert steps[1..][1..] == [GenerationStep(rawLength)];
    var rest := StyleStep(style) + "\n" + GenerationStep(rawLength);
    assert Join(steps[1..][1..], "\n") == GenerationStep(rawLength);
    assert Join(steps[1..], "\n") == rest;
    assert joined == LayoutStep(layout) + "\n" + rest;
    assert body[|body| - 1] == 'g' by {
      assert tail[|tail| - 1] == AgenticClosing[|AgenticClosing| - 1];
    }
    TrimPadded("\n", body, "\n        ");
    // the layout analysis, inside the first step
    ContainsSelf(layout);
    ContainsRight(LayoutLabel, layout, layout);
    ContainsLeft(LayoutLabel + layout, "\n", layout);
    ContainsLeft(LayoutStep(layout), "\n", layout);
    ContainsLeft(LayoutStep(layout) + "\n", rest, layout);
    // the style analysis, inside the second step
    ContainsSelf(style);
    ContainsRight(StyleLabel, style, style);
    ContainsLeft(StyleLabel + style, "\n", style);
    ContainsLeft(StyleStep(style), "\n", style);
    ContainsLeft(StyleStep(style) + "\n", GenerationStep(rawLength), style);
    ContainsRight(LayoutStep(layout) + "\n", rest, style);
    ContainsRight(AgenticHead, joined, layout);
    ContainsRight(AgenticHead, joined, style);
    ContainsLeft(AgenticHead + joined, tail, layout);
    ContainsLeft(AgenticHead + joined, tail, style);
    // provider and model, inside the final result
    FinalResultQuotes(c, htmlLength);
    ContainsRight(AgenticHead + joined, tail, c.provider);
    ContainsRight(AgenticHead + joined, tail, c.model);
  }

  lemma FinalResultQuotes(c: ModelConfig, htmlLength: nat)
    ensures Contains(FinalResult(c, htmlLength), c.provider) && Contains(FinalResult(c, htmlLength), c.model)
  {
    var p1 := ProviderLabel + c.provider;
    ContainsSelf(c.provider);
    ContainsRight(ProviderLabel, c.provider, c.provider);
    ModelLineQuotes(p1, c.provider, c.model, NatToString(htmlLength), AgenticClosing);
  }

  /** What the two summaries share: a provider line, then the model and
      the length. */
  lemma ModelLineQuotes(p1: string, provider: string, model: string, n: string, closing: string)
    requires Contains(p1, provider)
    ensures var r := p1 + ModelLabel + model + "\n- Generated " + n + closing;
      Contains(r, provider) && Contains(r, model)
  {
    var p2 := p1 + ModelLabel;
    ContainsLeft(p1, ModelLabel, provider);
    var p3 := p2 + model;
    ContainsLeft(p2, model, provider);
    ContainsSelf(model);
    ContainsRight(p2, model, model);
    var p4 := p3 + "\n- Generated ";
    ContainsLeft(p3, "\n- Generated ", provider);
    ContainsLeft(p3, "\n- Generated ", model);
    var p5 := p4 + n;
    ContainsLeft(p4, n, provider);
    ContainsLeft(p4, n, model);
    ContainsLeft(p5, closing, provider);
    ContainsLeft(p5, closing, model);
  }

  /** `_agentic_clone` on the factory: three requests with one client,
      the reasoning steps appended as they complete. */
  method AgenticClone(factory: ClientFactory, s: Settings, c: ModelConfig, scrape: ScrapeResult, o: Oracles)
    returns (r: Result<Generated, string>)
    requires factory.Valid()
    modifies factory
    ensures factory.Valid()
    ensures (factory.clients, r) == AgenticOutcome(old(factory.clients), s, c, scrape, o)
  {
    var client := factory.GetClient(s, c.provider);
    if client.Failure? {
      return Failure(client.error);
    }
    r := AgenticSteps(client.value, c, scrape, o);
  }

  method AgenticSteps(client: Client, c: ModelConfig, scrape: ScrapeResult, o: Oracles) returns (r: Result<Generated, string>)
    ensures r == AgenticWith(client, c, scrape, o)
  {
    var steps: seq<string> := [];
    var layoutPrompt := ClonePrompt(scrape, "layout_analysis");
    var layout := o.respond(client, c.model, layoutPrompt, AnalysisTokens);
    if layout.Failure? {
      return Failure(layout.error);
    }
    steps := steps + [LayoutStep(layout.value)];
    var stylePrompt := ClonePrompt(scrape, "style_extraction");
    var style := o.respond(client, c.model, stylePrompt, AnalysisTokens);
    if style.Failure? {
      return Failure(style.error);
    }
    steps := steps + [StyleStep(style.value)];
    var full := ClonePrompt(scrape, "full");
    r := Generate(client, c, full, layout.value, style.value, steps, o);
  }

  method Generate(client: Client, c: ModelConfig, full: seq<Message>, layout: string, style: string,
                  steps: seq<string>, o: Oracles) returns (r: Result<Generated, string>)
    requires steps == [LayoutStep(layout), StyleStep(style)]
    ensures r == Generation(client, c, full, layout, style, o)
  {
    var enhanced := full;
    enhanced := enhanced + [Message("user", Plain(ContextMessage(layout, style)))];
    var raw := Collect(o.stream(client, c.model, enhanced, c.maxTokens));
    if raw.Failure? {
      return Failure(raw.error);
    }
    r := Success(Finished(c, steps, raw.value));
  }

  // ---------------------------------------------------------------------
  // A single generation

  function SingleShotSummary(c: ModelConfig, htmlLength: nat): string {
    SingleShotHead + c.provider + ModelLabel + c.model
    + "\n- Generated " + NatToString(htmlLength) + SingleShotClosing
  }

  const SingleShotHead: string := "\U{26A1} Single-Shot Cloning:\n- Provider: "

  const SingleShotClosing: string := " characters of HTML\n- Direct optimization approach"

  /** The stripped f-string of `_single_shot_clone`. */
  function SingleShotReasoning(c: ModelConfig, htmlLength: nat): string {
    Trim("\n" + SingleShotSummary(c, htmlLength) + "\n        ")
  }

  /** The single-shot reasoning is its summary, which names the provider
      and the model. */
  lemma SingleShotReasoningQuotes(c: ModelConfig, htmlLength: nat)
    ensures SingleShotReasoning(c, htmlLength) == SingleShotSummary(c, htmlLength)
    ensures Contains(SingleShotReasoning(c, htmlLength), c.provider)
    ensures Contains(SingleShotReasoning(c, htmlLength), c.model)
  {
    var body := SingleShotSummary(c, htmlLength);
    assert body[|body| - 1] == 'h' by {
      assert body[|body| - 1] == SingleShotClosing[|SingleShotClosing| - 1];
    }
    TrimPadded("\n", body, "\n        ");
    ContainsSelf(c.provider);
    ContainsRight(SingleShotHead, c.provider, c.provider);
    ModelLineQuotes(SingleShotHead + c.provider, c.provider, c.model, NatToString(htmlLength), SingleShotClosing);
  }

  function SingleShotWith(client: Client, c: ModelConfig, scrape: ScrapeResult, o: Oracles): Result<Generated, string> {
    var raw := Streamed(o.stream(client, c.model, Prompt(scrape, "full"), c.maxTokens));
    if raw.Failure? then Failure(raw.error)
    else
      var html := CleanHtmlOutput(raw.value);
      Success(Generated(html, "", SingleShotReasoning(c, |html|)))
  }

  /** `_single_shot_clone`: the factory's new cache and the outcome. */
  function SingleShotOutcome(cache: map<string, Client>, s: Settings, c: ModelConfig, scrape: ScrapeResult,
                             o: Oracles): (map<string, Client>, Result<Generated, string>)
  {
    var (cache', client) := GetClientOf(cache, s, c.provider);
    (cache', if client.Failure? then Failure(client.error) else SingleShotWith(client.value, c, scrape, o))
  }

  method SingleShotClone(factory: ClientFactory, s: Settings, c: ModelConfig, scrape: ScrapeResult, o: Oracles)
    returns (r: Result<Generated, string>)
    requires factory.Valid()
    modifies factory
    ensures factory.Valid()
    ensures (factory.clients, r) == SingleShotOutcome(old(factory.clients), s, c, scrape, o)
  {
    var client := factory.GetClient(s, c.provider);
    if client.Failure? {
      return Failure(client.error);
    }
    var prompt := ClonePrompt(scrape, "full");
    var raw := Collect(o.stream(client.value, c.model, prompt, c.maxTokens));
    if raw.Failure? {
      return Failure(raw.error);
    }
    var html := CleanHtmlOutput(raw.value);
    r := Success(Generated(html, "", SingleShotReasoning(c, |html|)));
  }

  // ---------------------------------------------------------------------
  // Dispatch

  const ProcessingFailed: string := "LLM processing failed: "

  /** A strategy's dictionary as a clone result, reported under the
      configured provider and model. */
  function Report(g: Result<Generated, string>, c: ModelConfig): Result<LlmCloneResult, string> {
    match g
    case Success(v) => Success(LlmCloneResult(v.html, Some(v.css), v.reasoning, ModelUsed(c)))
    case Failure(e) => Failure(e)
  }

  /** The `except` of `clone_website`: every error is re-raised with the prefix. */
  function Wrap(r: Result<LlmCloneResult, string>): Result<LlmCloneResult, string> {
    match r
    case Success(v) => Success(v)
    case Failure(e) => Failure(ProcessingFailed + e)
  }

  /** The dispatch of `clone_website` for a configured model `c`, given
      what the vision cloner, the agentic chain and the single generation
      each return (with the cache after them).  A failed vision clone
      falls back to the agentic chain. */
  function Dispatch(cache: map<string, Client>, screenshot: Option<string>, model: string, c: ModelConfig,
                    vision: Result<LlmCloneResult, string>,
                    agentic: (map<string, Client>, Result<Generated, string>),
                    single: (map<string, Client>, Result<Generated, string>)): (map<string, Client>, Result<LlmCloneResult, string>)
  {
    match ChooseStrategy(screenshot, model)
    case VisionFirst =>
      if vision.Success? then (cache, vision) else (agentic.0, Wrap(Report(agentic.1, c)))
    case MultiStep => (agentic.0, Wrap(Report(agentic.1, c)))
    case SingleShot => (single.0, Wrap(Report(single.1, c)))
  }

  /** `clone_website` for a model key: the factory's new cache and the outcome. */
  function CloneOutcome(cache: map<string, Client>, s: Settings, scrape: ScrapeResult, model: string,
                        o: Oracles): (map<string, Client>, Result<LlmCloneResult, string>)
  {
    if model !in ModelConfigs then (cache, Failure(ProcessingFailed + "Unknown model configuration: " + model))
    else
      var c := ModelConfigs[model];
      Dispatch(cache, scrape.screenshot, model, c,
        Vision.CloneFromScreenshot(scrape, VisionOf(s, o)),
        AgenticOutcome(cache, s, c, scrape, o),
        SingleShotOutcome(cache, s, c, scrape, o))
  }

  /** An unknown model key fails with the wrapped message and creates no client. */
  lemma UnknownModelFails(cache: map<string, Client>, s: Settings, scrape: ScrapeResult, model: string, o: Oracles)
    requires model !in ModelConfigs
    ensures CloneOutcome(cache, s, scrape, model, o) ==
      (cache, Failure(ProcessingFailed + "Unknown model configuration: " + model))
    ensures StartsWith(CloneOutcome(cache, s, scrape, model, o).1.error, ProcessingFailed)
  {
    StartsWithConcat(ProcessingFailed, "Unknown model configuration: ", ProcessingFailed);
    StartsWithConcat(ProcessingFailed + "Unknown model configuration: ", model, ProcessingFailed);
  }

  /** The cache keeps its valid clients, and only gains new ones. */
  predicate Extends(cache: map<string, Client>, cache': map<string, Client>) {
    && CacheValid(cache')
    && cache.Keys <= cache'.Keys
    && (forall p :: p in cache ==> cache'[p] == cache[p])
  }

  lemma GetClientExtends(cache: map<string, Client>, s: Settings, provider: string)
    requires CacheValid(cache)
    ensures Extends(cache, GetClientOf(cache, s, provider).0)
  {
    GetClientKeepsValid(cache, s, provider);
  }

  /** Either strategy leaves the cache as getting its client left it. */
  lemma StrategyCaches(cache: map<string, Client>, s: Settings, c: ModelConfig, scrape: ScrapeResult, o: Oracles)
    requires CacheValid(cache)
    ensures Extends(cache, AgenticOutcome(cache, s, c, scrape, o).0)
    ensures Extends(cache, SingleShotOutcome(cache, s, c, scrape, o).0)
  {
    GetClientExtends(cache, s, c.provider);
  }

  lemma WrapPrefix(r: Result<LlmCloneResult, string>)
    ensures Wrap(r).Failure? ==> StartsWith(Wrap(r).error, ProcessingFailed)
  {
    if r.Failure? {
      StartsWithConcat(ProcessingFailed, r.error, ProcessingFailed);
    }
  }

  /** Whatever the strategies return, the dispatch wraps every failure
      with the `LLM processing failed: ` prefix, keeps a cache the
      strategies extend, and reports a strategy's result under the
      configured provider and model. */
  lemma DispatchOutcomes(cache: map<string, Client>, screenshot: Option<string>, model: string, c: ModelConfig,
                         vision: Result<LlmCloneResult, string>,
                         agentic: (map<string, Client>, Result<Generated, string>),
                         single: (map<string, Client>, Result<Generated, string>))
    ensures var (cache', r) := Dispatch(cache, screenshot, model, c, vision, agentic, single);
      && (r.Failure? ==> StartsWith(r.error, ProcessingFailed))
      && (Extends(cache, agentic.0) && Extends(cache, single.0) && CacheValid(cache) ==> Extends(cache, cache'))
    ensures var (cache', r) := Dispatch(cache, screenshot, model, c, vision, agentic, single);
      var g := if ChooseStrategy(screenshot, model) == SingleShot then single.1 else agentic.1;
      r.Success? && (ChooseStrategy(screenshot, model) != VisionFirst || vision.Failure?) ==>
        && g.Success?
        && r.value == LlmCloneResult(g.value.html, Some(g.value.css), g.value.reasoning, ModelUsed(c))
  {
    WrapPrefix(Report(agentic.1, c));
    WrapPrefix(Report(single.1, c));
  }

  /** Every failure carries the `LLM processing failed: ` prefix, and the
      cache only ever gains clients for supported providers. */
  lemma CloneOutcomeInvariants(cache: map<string, Client>, s: Settings, scrape: ScrapeResult, model: string, o: Oracles)
    requires CacheValid(cache)
    ensures Extends(cache, CloneOutcome(cache, s, scrape, model, o).0)
    ensures CloneOutcome(cache, s, scrape, model, o).1.Failure? ==>
      StartsWith(CloneOutcome(cache, s, scrape, model, o).1.error, ProcessingFailed)
  {
    if model !in ModelConfigs {
      UnknownModelFails(cache, s, scrape, model, o);
    } else {
      var c := ModelConfigs[model];
      StrategyCaches(cache, s, c, scrape, o);
      DispatchOutcomes(cache, scrape.screenshot, model, c, Vision.CloneFromScreenshot(scrape, VisionOf(s, o)),
        AgenticOutcome(cache, s, c, scrape, o), SingleShotOutcome(cache, s, c, scrape, o));
    }
  }

  /** Outside the vision path a result is reported under the configured
      provider and model, with css `""` and a complete document as html. */
  lemma NonVisionReport(cache: map<string, Client>, s: Settings, scrape: ScrapeResult, model: string, o: Oracles)
    requires model in ModelConfigs && ChooseStrategy(scrape.screenshot, model) != VisionFirst
    ensures var r := CloneOutcome(cache, s, scrape, model, o).1;
      r.Success? ==>
        && r.value.modelUsed == ModelUsed(ModelConfigs[model])
        && r.value.css == Some("")
        && IsDocument(r.value.html)
  {
    var c := ModelConfigs[model];
    var agentic := AgenticOutcome(cache, s, c, scrape, o);
    var single := SingleShotOutcome(cache, s, c, scrape, o);
    StrategyDocuments(cache, s, c, scrape, o);
    DispatchOutcomes(cache, scrape.screenshot, model, c, Vision.CloneFromScreenshot(scrape, VisionOf(s, o)),
      agentic, single);
  }

  /** Both strategies return a complete document and css `""`. */
  lemma StrategyDocuments(cache: map<string, Client>, s: Settings, c: ModelConfig, scrape: ScrapeResult, o: Oracles)
    ensures var g := AgenticOutcome(cache, s, c, scrape, o).1;
      g.Success? ==> IsDocument(g.value.html) && g.value.css == ""
    ensures var g := SingleShotOutcome(cache, s, c, scrape, o).1;
      g.Success? ==> IsDocument(g.value.html) && g.value.css == ""
  {
    var client := GetClientOf(cache, s, c.provider).1;
    if client.Success? {
      AgenticDocument(client.value, c, scrape, o);
      SingleShotDocument(client.value, c, scrape, o);
    }
  }

  /** The agentic chain returns a complete document and css `""`. */
  lemma AgenticDocument(client: Client, c: ModelConfig, scrape: ScrapeResult, o: Oracles)
    ensures var g := AgenticWith(client, c, scrape, o);
      g.Success? ==> IsDocument(g.value.html) && g.value.css == ""
  {
    var layout := o.respond(client, c.model, Prompt(scrape, "layout_analysis"), AnalysisTokens);
    var style := o.respond(client, c.model, Prompt(scrape, "style_extraction"), AnalysisTokens);
    match (layout, style)
    case (Success(l), Success(st)) =>
      GenerationDocument(client, c, Prompt(scrape, "full"), l, st, o);
    case _ =>
  }

  lemma GenerationDocument(client: Client, c: ModelConfig, full: seq<Message>, layout: string, style: string, o: Oracles)
    ensures var g := Generation(client, c, full, layout, style, o);
      g.Success? ==> IsDocument(g.value.html) && g.value.css == ""
  {
    match Streamed(o.stream(client, c.model, EnhancedPrompt(full, layout, style), c.maxTokens))
    case Success(raw) =>
      FinishedDocument(c, [LayoutStep(layout), StyleStep(style)], raw);
    case _ =>
  }

  lemma FinishedDocument(c: ModelConfig, steps: seq<string>, raw: string)
    ensures IsDocument(Finished(c, steps, raw).html) && Finished(c, steps, raw).css == ""
  {
    CleanHtmlOutcomes(raw);
  }

  /** A single generation returns a complete document and css `""`. */
  lemma SingleShotDocument(client: Client, c: ModelConfig, scrape: ScrapeResult, o: Oracles)
    ensures var g := SingleShotWith(client, c, scrape, o);
      g.Success? ==> IsDocument(g.value.html) && g.value.css == ""
  {
    match Streamed(o.stream(client, c.model, Prompt(scrape, "full"), c.maxTokens))
    case Success(raw) =>
      CleanHtmlOutcomes(raw);
    case _ =>
  }

  /** On the vision path a successful vision clone is returned as it is
      and touches no client; a failed one, which only a missing OpenAI
      key causes, hands over to the agentic chain, whose result is
      reported under the configured model with its own reasoning. */
  lemma VisionFallback(cache: map<string, Client>, s: Settings, scrape: ScrapeResult, model: string, o: Oracles)
    requires model in ModelConfigs && ChooseStrategy(scrape.screenshot, model) == VisionFirst
    ensures var v := Vision.CloneFromScreenshot(scrape, VisionOf(s, o));
      v.Success? ==> CloneOutcome(cache, s, scrape, model, o) == (cache, v)
    ensures var v := Vision.CloneFromScreenshot(scrape, VisionOf(s, o));
      var (cache', g) := AgenticOutcome(cache, s, ModelConfigs[model], scrape, o);
      v.Failure? ==> CloneOutcome(cache, s, scrape, model, o) == (cache', Wrap(Report(g, ModelConfigs[model])))
    ensures var v := Vision.CloneFromScreenshot(scrape, VisionOf(s, o));
      v.Failure? ==> v.error == Vision.MissingOpenAiKey && !IsSet(s.openaiKey)
  {
    Vision.CloneFromScreenshotOutcomes(scrape, VisionOf(s, o));
  }

  /** `clone_website` on the factory. */
  method CloneWebsite(factory: ClientFactory, s: Settings, scrape: ScrapeResult, model: string, o: Oracles)
    returns (r: Result<LlmCloneResult, string>)
    requires factory.Valid()
    modifies factory
    ensures factory.Valid()
    ensures (factory.clients, r) == CloneOutcome(old(factory.clients), s, scrape, model, o)
  {
    if model !in ModelConfigs {
      return Failure(ProcessingFailed + "Unknown model configuration: " + model);
    }
    var c := ModelConfigs[model];
    var strategy := ChooseStrategy(scrape.screenshot, model);
    var g: Result<Generated, string>;
    if strategy == VisionFirst {
      var v := Vision.CloneFromScreenshot(scrape, VisionOf(s, o));
      if v.Success? {
        return v;
      }
      g := AgenticClone(factory, s, c, scrape, o);
    } else if strategy == MultiStep {
      g := AgenticClone(factory, s, c, scrape, o);
    } else {
      g := SingleShotClone(factory, s, c, scrape, o);
    }
    r := Wrap(Report(g, c));
  }
}
