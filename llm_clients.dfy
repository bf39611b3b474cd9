/** The language-model clients: the conversion of chat messages to the
    Claude format (system messages lifted out) and the Gemini format
    (roles renamed, system messages folded into user turns), the factory
    that caches one client per provider, and the cloning prompt.  The
    provider SDK calls themselves are not part of the model; the fixed
    wording of the prompts is represented by its structure. */
module LlmClients {
  import opened Wrappers
  import opened Text
  import opened Models
  import opened Config

  // ---------------------------------------------------------------------
  // Messages

  /** An entry of a content list: the task text of a prompt step (with the
      page context it embeds) or an image reference. */
  datatype Part =
    | Task(step: string, url: string, html: string, css: string)
    | Image(url: string, detail: string)

  /** Message content: text, the fixed system instructions of the cloning
      prompt, or a list of parts. */
  datatype Content = Plain(text: string) | Instructions | Parts(parts: seq<Part>)

  datatype Message = Message(role: string, content: Content)

  // ---------------------------------------------------------------------
  // Claude format

  /** The messages after dropping system messages, in order. */
  function NonSystem(ms: seq<Message>): (r: seq<Message>)
    ensures |r| <= |ms|
    ensures forall i :: 0 <= i < |r| ==> r[i].role != "system"
  {
    if ms == [] then []
    else
      var m := ms[|ms| - 1];
      NonSystem(ms[..|ms| - 1]) + (if m.role == "system" then [] else [m])
  }

  /** The content of the last system message, if any. */
  function LastSystem(ms: seq<Message>): Option<Content> {
    if ms == [] then None
    else if ms[|ms| - 1].role == "system" then Some(ms[|ms| - 1].content)
    else LastSystem(ms[..|ms| - 1])
  }

  /** The conversion loop of both Claude calls. */
  method ToClaude(ms: seq<Message>) returns (claude: seq<Message>, system: Option<Content>)
    ensures claude == NonSystem(ms) && system == LastSystem(ms)
  {
    claude := [];
    system := None;
    var i := 0;
    while i < |ms|
      invariant 0 <= i <= |ms|
      invariant claude == NonSystem(ms[..i]) && system == LastSystem(ms[..i])
    {
      assert ms[..i + 1][..i] == ms[..i];
      if ms[i].role == "system" {
        system := Some(ms[i].content);
      } else {
        claude := claude + [Message(ms[i].role, ms[i].content)];
      }
      i := i + 1;
    }
    assert ms[..|ms|] == ms;
  }

  /** Dropping system messages distributes over concatenation, so the
      other messages keep their order. */
  lemma {:induction false} NonSystemConcat(a: seq<Message>, b: seq<Message>)
    ensures NonSystem(a + b) == NonSystem(a) + NonSystem(b)
    decreases |b|
  {
    if b == [] {
      assert a + b == a;
    } else {
      var init := b[..|b| - 1];
      assert (a + b)[..|a + b| - 1] == a + init;
      NonSystemConcat(a, init);
    }
  }

  /** Every message that is not a system message is kept. */
  lemma {:induction false} NonSystemKeeps(ms: seq<Message>, i: nat)
    requires i < |ms| && ms[i].role != "system"
    ensures ms[i] in NonSystem(ms)
  {
    var init := ms[..|ms| - 1];
    if i < |init| {
      NonSystemKeeps(init, i);
      assert init[i] == ms[i];
    }
  }

  /** Without system messages the conversion is the identity. */
  lemma {:induction false} NonSystemIdentity(ms: seq<Message>)
    requires forall i :: 0 <= i < |ms| ==> ms[i].role != "system"
    ensures NonSystem(ms) == ms
  {
    if ms != [] {
      NonSystemIdentity(ms[..|ms| - 1]);
    }
  }

  /** The system prompt is absent exactly when there is no system message,
      and otherwise is the content of the last one. */
  lemma {:induction false} LastSystemIsLast(ms: seq<Message>)
    ensures LastSystem(ms).None? <==> forall i :: 0 <= i < |ms| ==> ms[i].role != "system"
    ensures LastSystem(ms).Some? ==>
      exists i :: (0 <= i < |ms| && ms[i].role == "system" && ms[i].content == LastSystem(ms).value
                   && forall j :: i < j < |ms| ==> ms[j].role != "system")
  {
    if ms != [] {
      var init := ms[..|ms| - 1];
      LastSystemIsLast(init);
      if ms[|ms| - 1].role != "system" && LastSystem(init).Some? {
        var i :| 0 <= i < |init| && init[i].role == "system" && init[i].content == LastSystem(init).value
          && forall j :: i < j < |init| ==> init[j].role != "system";
        assert ms[i] == init[i];
        assert forall j :: i < j < |ms| ==> ms[j].role != "system" by {
          forall j | i < j < |ms| ensures ms[j].role != "system" {
            if j < |init| {
              assert ms[j] == init[j];
            }
          }
        }
      }
      if LastSystem(init).None? {
        assert forall i :: 0 <= i < |init| ==> init[i] == ms[i];
      }
    }
  }

  // ---------------------------------------------------------------------
  // Gemini format

  /** A Gemini turn: `user` or `model`, with its parts. */
  datatype Entry = Entry(role: string, parts: seq<Content>)

  /** The text Python's f-string makes of content; `show` stands for
      `str()` of content that is not text. */
  function Render(c: Content, show: Content -> string): string {
    if c.Plain? then c.text else show(c)
  }

  /** Every turn has one part and a role Gemini accepts. */
  predicate WellFormed(es: seq<Entry>) {
    forall i :: 0 <= i < |es| ==> |es[i].parts| == 1 && (es[i].role == "user" || es[i].role == "model")
  }

  /** A system message's text put in front of the previous user turn. */
  function Prefixed(e: Entry, system: Content, show: Content -> string): Entry
    requires |e.parts| == 1
  {
    e.(parts := [Plain(Render(system, show) + "\n\n" + Render(e.parts[0], show))])
  }

  /** The conversion loop of both Gemini calls. */
  function Gemini(ms: seq<Message>, show: Content -> string): (r: seq<Entry>)
    ensures |r| <= |ms| && WellFormed(r)
  {
    if ms == [] then []
    else
      var acc := Gemini(ms[..|ms| - 1], show);
      var m := ms[|ms| - 1];
      if m.role == "system" then
        if acc != [] && acc[|acc| - 1].role == "user" then
          acc[..|acc| - 1] + [Prefixed(acc[|acc| - 1], m.content, show)]
        else acc + [Entry("user", [m.content])]
      else if m.role == "user" then acc + [Entry("user", [m.content])]
      else if m.role == "assistant" then acc + [Entry("model", [m.content])]
      else acc
  }

  /** The conversion loop of the Gemini calls, which rewrites the first
      part of the last turn in place. */
  method ToGemini(ms: seq<Message>, show: Content -> string) returns (entries: seq<Entry>)
    ensures entries == Gemini(ms, show)
  {
    entries := [];
    var i := 0;
    while i < |ms|
      invariant 0 <= i <= |ms|
      invariant entries == Gemini(ms[..i], show)
    {
      assert ms[..i + 1][..i] == ms[..i];
      var m := ms[i];
      if m.role == "system" {
        if entries != [] && entries[|entries| - 1].role == "user" {
          ghost var prev := entries;
          var last := entries[|entries| - 1];
          var merged := Plain(Render(m.content, show) + "\n\n" + Render(last.parts[0], show));
          assert last.parts[0 := merged] == [merged];
          entries := entries[|entries| - 1 := last.(parts := last.parts[0 := merged])];
          assert entries == prev[..|prev| - 1] + [Prefixed(last, m.content, show)];
        } else {
          entries := entries + [Entry("user", [m.content])];
        }
      } else if m.role == "user" {
        entries := entries + [Entry("user", [m.content])];
      } else if m.role == "assistant" {
        entries := entries + [Entry("model", [m.content])];
      }
      i := i + 1;
    }
    assert ms[..|ms|] == ms;
  }

  function CountRole(ms: seq<Message>, role: string): nat {
    if ms == [] then 0
    else CountRole(ms[..|ms| - 1], role) + (if ms[|ms| - 1].role == role then 1 else 0)
  }

  function CountTurns(es: seq<Entry>, role: string): nat {
    if es == [] then 0
    else CountTurns(es[..|es| - 1], role) + (if es[|es| - 1].role == role then 1 else 0)
  }

  lemma CountTurnsSnoc(es: seq<Entry>, e: Entry, role: string)
    ensures CountTurns(es + [e], role) == CountTurns(es, role) + (if e.role == role then 1 else 0)
  {
    assert (es + [e])[..|es|] == es;
  }

  /** Each assistant message becomes exactly one `model` turn: folding a
      system message into a user turn never touches the model turns. */
  lemma {:induction false} GeminiModelTurns(ms: seq<Message>, show: Content -> string)
    ensures CountTurns(Gemini(ms, show), "model") == CountRole(ms, "assistant")
  {
    if ms != [] {
      var init := ms[..|ms| - 1];
      var acc := Gemini(init, show);
      var m := ms[|ms| - 1];
      GeminiModelTurns(init, show);
      if m.role == "system" {
        if acc != [] && acc[|acc| - 1].role == "user" {
          var front := acc[..|acc| - 1];
          assert acc == front + [acc[|acc| - 1]];
          CountTurnsSnoc(front, acc[|acc| - 1], "model");
          CountTurnsSnoc(front, Prefixed(acc[|acc| - 1], m.content, show), "model");
        } else {
          CountTurnsSnoc(acc, Entry("user", [m.content]), "model");
        }
      } else if m.role == "user" {
        CountTurnsSnoc(acc, Entry("user", [m.content]), "model");
      } else if m.role == "assistant" {
        CountTurnsSnoc(acc, Entry("model", [m.content]), "model");
      }
    }
  }

  /** A system message after a user turn is folded into that turn: its
      text goes in front of the turn's text, and every other turn stays. */
  lemma GeminiSystemAfterUser(ms: seq<Message>, m: Message, show: Content -> string)
    requires m.role == "system"
    requires var g := Gemini(ms, show); g != [] && g[|g| - 1].role == "user"
    ensures var g, r := Gemini(ms, show), Gemini(ms + [m], show);
      && |r| == |g| && r[..|g| - 1] == g[..|g| - 1]
      && r[|g| - 1] == Entry("user", [Plain(Render(m.content, show) + "\n\n" + Render(g[|g| - 1].parts[0], show))])
  {
    assert (ms + [m])[..|ms|] == ms;
  }

  /** A system message with no user turn right before it becomes a user
      turn of its own. */
  lemma GeminiSystemFirst(ms: seq<Message>, m: Message, show: Content -> string)
    requires m.role == "system"
    requires var g := Gemini(ms, show); g == [] || g[|g| - 1].role != "user"
    ensures Gemini(ms + [m], show) == Gemini(ms, show) + [Entry("user", [m.content])]
  {
    assert (ms + [m])[..|ms|] == ms;
  }

  /** User and assistant messages become `user` and `model` turns at the end. */
  lemma GeminiAppendsTurn(ms: seq<Message>, m: Message, show: Content -> string)
    requires m.role == "user" || m.role == "assistant"
    ensures Gemini(ms + [m], show) == Gemini(ms, show) + [Entry(if m.role == "user" then "user" else "model", [m.content])]
  {
    assert (ms + [m])[..|ms|] == ms;
  }

  /** Messages of any other role are dropped. */
  lemma GeminiDropsOtherRoles(ms: seq<Message>, m: Message, show: Content -> string)
    requires m.role != "system" && m.role != "user" && m.role != "assistant"
    ensures Gemini(ms + [m], show) == Gemini(ms, show)
  {
    assert (ms + [m])[..|ms|] == ms;
  }

  // ---------------------------------------------------------------------
  // The client factory

  /** A client for one provider, holding the key it was built with. */
  datatype Client = Client(provider: string, apiKey: string)

  predicate Supported(provider: string) {
    provider == "anthropic" || provider == "openai" || provider == "google"
  }

  /** The settings key of a provider's client. */
  function KeyFor(s: Settings, provider: string): Option<string> {
    if provider == "anthropic" then s.anthropicKey
    else if provider == "openai" then s.openaiKey
    else if provider == "google" then s.googleKey
    else None
  }

  function KeyName(provider: string): string {
    if provider == "anthropic" then "ANTHROPIC_API_KEY"
    else if provider == "openai" then "OPENAI_API_KEY"
    else "GOOGLE_AI_API_KEY"
  }

  /** The branch of `get_client` that constructs a client: each
      constructor raises `<KEY> not configured` without its key. */
  function NewClient(s: Settings, provider: string): (r: Result<Client, string>)
    ensures r.Success? ==> r.value.provider == provider && Supported(provider) && IsSet(KeyFor(s, provider))
  {
    if !Supported(provider) then Failure("Unsupported LLM provider: " + provider)
    else if !IsSet(KeyFor(s, provider)) then Failure(KeyName(provider) + " not configured")
    else Success(Client(provider, KeyFor(s, provider).value))
  }

  /** Cached clients are for supported providers, each under its own name. */
  predicate CacheValid(cache: map<string, Client>) {
    forall p :: p in cache ==> Supported(p) && cache[p].provider == p
  }

  /** `get_client(provider)` on the cache: the new cache and the result. */
  function GetClientOf(cache: map<string, Client>, s: Settings, provider: string): (map<string, Client>, Result<Client, string>) {
    if provider in cache then (cache, Success(cache[provider]))
    else
      match NewClient(s, provider)
      case Success(c) => (cache[provider := c], Success(c))
      case Failure(e) => (cache, Failure(e))
  }

  /** Each configured model names a provider the factory accepts. */
  lemma ConfiguredProvidersSupported()
    ensures forall m :: m in ModelConfigs ==> Supported(ModelConfigs[m].provider)
  {
  }

  /** A constructed client is cached: a second call for the provider
      returns the same client and changes nothing, whatever the settings
      are by then. */
  lemma GetClientCached(cache: map<string, Client>, s: Settings, s2: Settings, provider: string)
    requires GetClientOf(cache, s, provider).1.Success?
    ensures var (c1, r1) := GetClientOf(cache, s, provider);
      GetClientOf(c1, s2, provider) == (c1, r1)
  {
  }

  /** An unsupported provider fails and leaves the cache as it was; a
      supported one fails only when its key is missing. */
  lemma GetClientFailures(cache: map<string, Client>, s: Settings, provider: string)
    requires CacheValid(cache)
    ensures !Supported(provider) ==>
      GetClientOf(cache, s, provider) == (cache, Failure("Unsupported LLM provider: " + provider))
    ensures GetClientOf(cache, s, provider).1.Failure? ==>
      GetClientOf(cache, s, provider).0 == cache && provider !in cache
      && (!Supported(provider) || !IsSet(KeyFor(s, provider)))
  {
  }

  lemma GetClientKeepsValid(cache: map<string, Client>, s: Settings, provider: string)
    requires CacheValid(cache)
    ensures CacheValid(GetClientOf(cache, s, provider).0)
    ensures GetClientOf(cache, s, provider).1.Success? ==> GetClientOf(cache, s, provider).1.value.provider == provider
  {
  }

  /** `LLMClientFactory` with its class-level `_clients` cache. */
  class ClientFactory {
    var clients: map<string, Client>

    ghost predicate Valid()
      reads this
    {
      CacheValid(clients)
    }

    constructor()
      ensures clients == map[] && Valid()
    {
      clients := map[];
    }

    method GetClient(s: Settings, provider: string) returns (r: Result<Client, string>)
      requires Valid()
      modifies this
      ensures Valid()
      ensures (clients, r) == GetClientOf(old(clients), s, provider)
    {
      GetClientKeepsValid(clients, s, provider);
      if provider !in clients {
        var made := NewClient(s, provider);
        if made.Failure? {
          return Failure(made.error);
        }
        clients := clients[provider := made.value];
      }
      r := Success(clients[provider]);
    }
  }

  // ---------------------------------------------------------------------
  // The cloning prompt

  const PromptSteps: seq<string> := ["layout_analysis", "style_extraction", "full"]

  const NoCss: string := "No CSS provided."

  /** The css excerpt of the prompt context. */
  function CssExcerpt(css: Option<string>): string {
    if css.Some? && css.value != [] then Take(css.value, 4000) else NoCss
  }

  predicate Truthy(o: Option<string>) {
    o.Some? && o.value != []
  }

  function ScreenshotPart(screenshot: string): Part {
    Image("data:image/png;base64," + screenshot, "high")
  }

  /** The two messages of a prompt step before any image is attached. */
  function BasePrompt(scrape: ScrapeResult, step: string): seq<Message> {
    [Message("system", Instructions),
     Message("user", Parts([Task(step, scrape.url, Take(scrape.html, 8000), CssExcerpt(scrape.css))]))]
  }

  /** The step's prompt with the screenshot appended to its user content. */
  function WithImage(prompt: seq<Message>, screenshot: string): seq<Message>
    requires |prompt| == 2 && prompt[1].content.Parts?
  {
    [prompt[0], prompt[1].(content := Parts(prompt[1].content.parts + [ScreenshotPart(screenshot)]))]
  }

  /** The prompt of a step, `full` for an unknown step, with the
      screenshot attached when there is one. */
  function Prompt(scrape: ScrapeResult, step: string): seq<Message> {
    var key := if step in PromptSteps then step else "full";
    if Truthy(scrape.screenshot) then WithImage(BasePrompt(scrape, key), scrape.screenshot.value)
    else BasePrompt(scrape, key)
  }

  /** `create_website_clone_prompt(scrape_data, step)`: builds the three
      step prompts, appends the screenshot to each user content when
      there is one, and picks the step's prompt, `full` for an unknown
      step. */
  method ClonePrompt(scrape: ScrapeResult, step: string) returns (prompt: seq<Message>)
    ensures prompt == Prompt(scrape, step)
  {
    var prompts: map<string, seq<Message>> := map[
      "layout_analysis" := BasePrompt(scrape, "layout_analysis"),
      "style_extraction" := BasePrompt(scrape, "style_extraction"),
      "full" := BasePrompt(scrape, "full")];
    if scrape.screenshot.Some? && scrape.screenshot.value != [] {
      var i := 0;
      while i < |PromptSteps|
        invariant 0 <= i <= |PromptSteps|
        invariant forall k :: k in prompts <==> k in PromptSteps
        invariant forall j :: 0 <= j < i ==>
          prompts[PromptSteps[j]] == WithImage(BasePrompt(scrape, PromptSteps[j]), scrape.screenshot.value)
        invariant forall j :: i <= j < |PromptSteps| ==> prompts[PromptSteps[j]] == BasePrompt(scrape, PromptSteps[j])
      {
        var key := PromptSteps[i];
        var user := prompts[key][1];
        prompts := prompts[key := [prompts[key][0], user.(content := Parts(user.content.parts + [ScreenshotPart(scrape.screenshot.value)]))]];
        i := i + 1;
      }
    }
    prompt := if step in prompts then prompts[step] else prompts["full"];
  }

  /** Every prompt is two messages, the system instructions then the
      user content, whose first part is the task of the step asked for, or
      of `full` for an unknown step.  The task embeds at most the first
      8000 characters of the html and the first 4000 of the css, or the
      no-css placeholder when the css is missing or empty. */
  lemma PromptShape(scrape: ScrapeResult, step: string)
    ensures var p := Prompt(scrape, step);
      && |p| == 2 && p[0] == Message("system", Instructions)
      && p[1].role == "user" && p[1].content.Parts? && p[1].content.parts != []
      && p[1].content.parts[0].Task?
    ensures var t := Prompt(scrape, step)[1].content.parts[0];
      && t.step == (if step in PromptSteps then step else "full") && t.url == scrape.url
      && |t.html| <= 8000 && StartsWith(scrape.html, t.html)
      && (|scrape.html| <= 8000 ==> t.html == scrape.html)
      && (Truthy(scrape.css) ==> |t.css| <= 4000 && StartsWith(scrape.css.value, t.css))
      && (!Truthy(scrape.css) ==> t.css == NoCss)
  {
  }

  function CountImages(parts: seq<Part>): nat {
    if parts == [] then 0 else (if parts[0].Image? then 1 else 0) + CountImages(parts[1..])
  }

  /** The user content of a prompt holds exactly one image when the scrape
      has a screenshot, and none otherwise; that image is the screenshot's
      data URI. */
  lemma PromptImages(scrape: ScrapeResult, step: string)
    ensures var parts := Prompt(scrape, step)[1].content.parts;
      CountImages(parts) == (if Truthy(scrape.screenshot) then 1 else 0)
    ensures Truthy(scrape.screenshot) ==>
      var parts := Prompt(scrape, step)[1].content.parts;
      parts[|parts| - 1] == Image("data:image/png;base64," + scrape.screenshot.value, "high")
  {
    var key := if step in PromptSteps then step else "full";
    var p := BasePrompt(scrape, key);
    assert p[1].content.parts[1..] == [];
    if Truthy(scrape.screenshot) {
      var parts := WithImage(p, scrape.screenshot.value)[1].content.parts;
      assert parts[1..] == [ScreenshotPart(scrape.screenshot.value)];
      assert parts[1..][1..] == [];
      assert CountImages(parts[1..]) == 1;
    }
  }
}
