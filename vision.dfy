/** The screenshot-first cloner: a vision analysis of the screenshot, a
    colour palette sampled from it, and an HTML generation request built
    from both.  The two HTTP calls to the vision model and the image
    decoder are oracles; the wording of the prompts is not modelled. */
module Vision {
  import opened Wrappers
  import opened Text
  import opened Models

  /** A chat-completions response: its status and the message content,
      absent when the body lacks it (reading it then raises). */
  datatype ApiResponse = ApiResponse(status: int, content: Option<string>)

  const MissingScreenshot: string := "A screenshot is required for vision-based cloning."
  const MissingOpenAiKey: string := "OpenAI API key required for vision analysis"
  const AnalysisFailed: string := "Vision analysis failed"
  const AnalysisError: string := "Vision analysis error"

  // ---------------------------------------------------------------------
  // Markdown fences

  /** Drops a leading "```html", then a leading "```", then one trailing
      "```"; the same steps clean the output of the language-model service. */
  function StripFences(s: string): (r: string)
    ensures |r| <= |s|
  {
    var a := if StartsWith(s, "```html") then s[7..] else s;
    var b := if StartsWith(a, "```") then a[3..] else a;
    if EndsWith(b, "```") then b[..|b| - 3] else b
  }

  /** Text without fences passes through. */
  lemma StripFencesUnfenced(s: string)
    requires !StartsWith(s, "```") && !EndsWith(s, "```")
    ensures StripFences(s) == s
  {
  }

  /** A fenced html block loses exactly its fences, provided its body does
      not itself begin with a backtick. */
  lemma StripFencesFenced(body: string)
    requires body == [] || body[0] != '`'
    ensures StripFences("```html" + body + "```") == body
  {
    var s := "```html" + body + "```";
    assert StartsWith(s, "```html") by {
      assert s[..7] == "```html";
    }
    var a := s[7..];
    assert a == body + "```";
    if body == [] {
      assert StartsWith(a, "```");
      assert a[3..] == [];
    } else {
      assert !StartsWith(a, "```") by {
        assert a[0] == body[0];
      }
      assert EndsWith(a, "```") by {
        assert a[|a| - 3..] == "```";
      }
      assert a[..|a| - 3] == body;
    }
  }

  // ---------------------------------------------------------------------
  // Analysis

  /** `_analyze_screenshot_with_vision`: raises without an OpenAI key;
      otherwise the analysis text, or a fixed note on a non-200 response
      or an exception (`response` failing, or the content missing). */
  function Analysis(openaiKey: Option<string>, response: Result<ApiResponse, string>): (r: Result<string, string>)
  {
    if openaiKey.None? || openaiKey.value == [] then Failure(MissingOpenAiKey)
    else match response
      case Failure(_) => Success(AnalysisError)
      case Success(ApiResponse(status, content)) =>
        if status != 200 then Success(AnalysisFailed)
        else if content.None? then Success(AnalysisError)
        else Success(content.value)
  }

  /** Only a missing key makes the analysis raise.  With a key, a 200
      response with content gives that content, another status gives the
      failure note, and an exception (the request failing or the content
      missing) gives the error note. */
  lemma AnalysisOutcomes(openaiKey: Option<string>, response: Result<ApiResponse, string>)
    ensures Analysis(openaiKey, response).Failure? <==> openaiKey.None? || openaiKey.value == []
    ensures Analysis(openaiKey, response).Failure? ==> Analysis(openaiKey, response).error == MissingOpenAiKey
    ensures openaiKey.Some? && openaiKey.value != [] ==>
      match response
      case Failure(_) => Analysis(openaiKey, response) == Success(AnalysisError)
      case Success(ApiResponse(status, content)) =>
        if status != 200 then Analysis(openaiKey, response) == Success(AnalysisFailed)
        else if content.None? then Analysis(openaiKey, response) == Success(AnalysisError)
        else Analysis(openaiKey, response) == Success(content.value)
  {
  }

  // ---------------------------------------------------------------------
  // Palette

  /** A pixel value of an RGB image. */
  datatype Rgb = Rgb(r: nat, g: nat, b: nat)

  /** A decoded RGB image: its size and its pixels. */
  datatype Picture = Picture(width: nat, height: nat, pixel: (nat, nat) -> Rgb)

  /** The background, header and content sample points. */
  function SamplePoints(width: nat, height: nat): seq<(nat, nat)> {
    [(width / 10, height / 10), (width / 2, height / 20), (width / 2, height / 2)]
  }

  predicate Inside(p: (nat, nat), width: nat, height: nat) {
    p.0 < width && p.1 < height
  }

  /** The sample points lie inside every image of at least one pixel. */
  lemma SamplePointsInside(width: nat, height: nat)
    requires width >= 1 && height >= 1
    ensures forall k :: 0 <= k < 3 ==> Inside(SamplePoints(width, height)[k], width, height)
  {
  }

  function RgbText(c: Rgb): string {
    "rgb(" + NatToString(c.r) + ", " + NatToString(c.g) + ", " + NatToString(c.b) + ")"
  }

  const PaletteNames: seq<string> := ["background", "header", "content"]

  const FallbackPalette: map<string, string> := map[
    "background" := "rgb(255, 255, 255)",
    "header" := "rgb(248, 249, 250)",
    "content" := "rgb(255, 255, 255)"]

  /** `_extract_color_palette`: `decoded` is the decoded screenshot, absent
      when decoding or opening it raises; reading a pixel outside the image
      raises too, and any error gives the fallback palette. */
  function Palette(decoded: Option<Picture>): (colors: map<string, string>)
    ensures colors.Keys == {"background", "header", "content"}
  {
    if decoded.None? then FallbackPalette
    else
      var pic := decoded.value;
      var points := SamplePoints(pic.width, pic.height);
      if !(Inside(points[0], pic.width, pic.height) && Inside(points[1], pic.width, pic.height)
           && Inside(points[2], pic.width, pic.height))
      then FallbackPalette
      else map[
        "background" := RgbText(pic.pixel(points[0].0, points[0].1)),
        "header" := RgbText(pic.pixel(points[1].0, points[1].1)),
        "content" := RgbText(pic.pixel(points[2].0, points[2].1))]
  }

  /** A decoded image of at least one pixel gives the colours at the three
      sample points; a screenshot that does not decode gives the fallback. */
  lemma PaletteSampled(decoded: Option<Picture>)
    ensures decoded.None? ==> Palette(decoded) == FallbackPalette
    ensures decoded.Some? && decoded.value.width >= 1 && decoded.value.height >= 1 ==>
      var pic := decoded.value;
      forall k :: 0 <= k < 3 ==>
        Palette(decoded)[PaletteNames[k]] ==
          RgbText(pic.pixel(SamplePoints(pic.width, pic.height)[k].0, SamplePoints(pic.width, pic.height)[k].1))
  {
    if decoded.Some? && decoded.value.width >= 1 && decoded.value.height >= 1 {
      SamplePointsInside(decoded.value.width, decoded.value.height);
    }
  }

  lemma RgbTextFormat(c: Rgb)
    ensures StartsWith(RgbText(c), "rgb(") && EndsWith(RgbText(c), ")")
  {
    var v := RgbText(c);
    assert v[..4] == "rgb(" && v[|v| - 1..] == ")";
  }

  /** Every palette entry reads `rgb(r, g, b)` with decimal components. */
  lemma PaletteFormat(decoded: Option<Picture>)
    ensures forall name :: name in Palette(decoded) ==>
      StartsWith(Palette(decoded)[name], "rgb(") && EndsWith(Palette(decoded)[name], ")")
  {
    var colors := Palette(decoded);
    if colors == FallbackPalette {
      FallbackFormat();
    } else {
      var pic := decoded.value;
      var points := SamplePoints(pic.width, pic.height);
      SampledFormat(pic.pixel(points[0].0, points[0].1), pic.pixel(points[1].0, points[1].1),
        pic.pixel(points[2].0, points[2].1), colors);
    }
  }

  lemma FallbackFormat()
    ensures forall name :: name in FallbackPalette ==>
      StartsWith(FallbackPalette[name], "rgb(") && EndsWith(FallbackPalette[name], ")")
  {
    forall name | name in FallbackPalette
      ensures StartsWith(FallbackPalette[name], "rgb(") && EndsWith(FallbackPalette[name], ")")
    {
      var v := FallbackPalette[name];
      assert v[..4] == "rgb(" && v[|v| - 1..] == ")";
    }
  }

  lemma SampledFormat(b: Rgb, h: Rgb, c: Rgb, colors: map<string, string>)
    requires colors == map["background" := RgbText(b), "header" := RgbText(h), "content" := RgbText(c)]
    ensures forall name :: name in colors ==> StartsWith(colors[name], "rgb(") && EndsWith(colors[name], ")")
  {
    RgbTextFormat(b);
    RgbTextFormat(h);
    RgbTextFormat(c);
  }

  // ---------------------------------------------------------------------
  // Generation

  /** What the generation request is built from: the analysis, the
      palette, the url and the first 2000 characters of the html. */
  datatype GenerationInput = GenerationInput(analysis: string, palette: map<string, string>, url: string, htmlHead: string)

  const GenerationFailed: string := "<html><body><h1>Vision cloning failed</h1></body></html>"
  const GenerationError: string := "<html><body><h1>HTML generation error</h1></body></html>"

  /** `_generate_html_from_vision` on the response it got. */
  function GeneratedHtml(response: Result<ApiResponse, string>): string {
    match response
    case Failure(_) => GenerationError
    case Success(ApiResponse(status, content)) =>
      if status != 200 then GenerationFailed
      else if content.None? then GenerationError
      else Trim(StripFences(content.value))
  }

  /** The oracles the cloner calls: the OpenAI key, the analysis response,
      the decoded screenshot and the generation endpoint. */
  datatype VisionOracles = VisionOracles(
    openaiKey: Option<string>,
    analysisResponse: Result<ApiResponse, string>,
    decoded: Option<Picture>,
    generate: GenerationInput -> Result<ApiResponse, string>)

  /** `clone_from_screenshot` */
  function CloneFromScreenshot(scrape: ScrapeResult, o: VisionOracles): Result<LlmCloneResult, string> {
    if scrape.screenshot.None? || scrape.screenshot.value == [] then Failure(MissingScreenshot)
    else match Analysis(o.openaiKey, o.analysisResponse)
      case Failure(e) => Failure(e)
      case Success(analysis) =>
        var input := GenerationInput(analysis, Palette(o.decoded), scrape.url, Take(scrape.html, 2000));
        Success(LlmCloneResult(GeneratedHtml(o.generate(input)), Some(""), analysis, "gpt-4o"))
  }

  /** The cloner raises only for a missing screenshot or a missing key;
      a result has css `""`, reports `gpt-4o`, carries the analysis as its
      reasoning, and its html is what the generation request built from
      the analysis, the palette and the first 2000 characters gave. */
  lemma CloneFromScreenshotOutcomes(scrape: ScrapeResult, o: VisionOracles)
    ensures scrape.screenshot.None? || scrape.screenshot.value == [] ==>
      CloneFromScreenshot(scrape, o) == Failure(MissingScreenshot)
    ensures CloneFromScreenshot(scrape, o).Failure? ==>
      CloneFromScreenshot(scrape, o).error in {MissingScreenshot, MissingOpenAiKey}
    ensures CloneFromScreenshot(scrape, o).Success? ==>
      var r := CloneFromScreenshot(scrape, o).value;
      && r.css == Some("") && r.modelUsed == "gpt-4o"
      && Success(r.reasoning) == Analysis(o.openaiKey, o.analysisResponse)
      && r.html == GeneratedHtml(o.generate(GenerationInput(r.reasoning, Palette(o.decoded), scrape.url, Take(scrape.html, 2000))))
  {
  }

  /** The generated html is the cleaned answer of a 200 response with
      content, `Vision cloning failed` for another status, and the error
      document when the request raised or the content is missing. */
  lemma GeneratedHtmlOutcomes(response: Result<ApiResponse, string>)
    ensures response.Failure? ==> GeneratedHtml(response) == GenerationError
    ensures response.Success? && response.value.status != 200 ==> GeneratedHtml(response) == GenerationFailed
    ensures response.Success? && response.value.status == 200 && response.value.content.None? ==>
      GeneratedHtml(response) == GenerationError
    ensures response.Success? && response.value.status == 200 && response.value.content.Some? ==>
      GeneratedHtml(response) == Trim(StripFences(response.value.content.value))
  {
  }
}
