/** The asset embedder as the object it is: three fields that persist
    across the pages of one job, updated by the download passes and read by
    the embedding passes.  Every method is proved against the functions of
    `AssetStore`; the two ghost fields log the fetches the methods make. */
module AssetDownloaders {
  import opened Wrappers
  import opened Text
  import Urls
  import opened Documents
  import opened CssUrls
  import opened DataUris
  import opened AssetStore

  class AssetDownloader {
    /** The fetch and media-type oracles. */
    const net: Network
    var downloadedAssets: map<string, string>
    var assetCache: map<string, Bytes>
    var processedUrls: set<string>
    ghost var textFetches: seq<string>
    ghost var binaryFetches: seq<string>

    ghost function State(): Store
      reads this
    {
      Store(downloadedAssets, assetCache, processedUrls, textFetches, binaryFetches)
    }

    ghost predicate Valid()
      reads this
    {
      Consistent(net, State())
    }

    constructor(net: Network)
      ensures this.net == net
      ensures State() == Store(map[], map[], {}, [], [])
      ensures Valid()
    {
      this.net := net;
      downloadedAssets := map[];
      assetCache := map[];
      processedUrls := {};
      textFetches := [];
      binaryFetches := [];
    }

    /** `_download_and_cache_binary_asset(url)` */
    method DownloadAndCacheBinaryAsset(url: string)
      modifies this
      ensures State() == BinaryStep(net, old(State()), url)
    {
      if url in assetCache {
        return;
      }
      binaryFetches := binaryFetches + [url];
      var response := net.binary(url);
      if response.Some? {
        assetCache := assetCache[url := response.value];
      }
    }

    /** `_download_asset(url, content_type)`: the text of a 200 response. */
    method DownloadAsset(url: string) returns (r: Option<string>)
      modifies this
      ensures r == net.text(url)
      ensures State() == old(State()).(textFetches := old(State()).textFetches + [url])
    {
      textFetches := textFetches + [url];
      r := net.text(url);
    }

    /** `_process_css_assets(css, cssBase)` */
    method ProcessCssAssets(css: string, cssBase: string) returns (content: string)
      modifies this
      ensures CssState(State(), content) == ProcessCss(net, old(State()), css, cssBase)
    {
      var urls := FindUrls(css);
      FindUrlsClean(css);
      ghost var pairs := Resolved(cssBase, urls);
      content := css;
      for i := 0 to |urls|
        invariant CssState(State(), content) == CssFold(net, old(State()), css, pairs[..i])
      {
        assert pairs[..i + 1][..i] == pairs[..i];
        var url := urls[i];
        var fullUrl := Urls.Join(cssBase, url);
        assert pairs[i] == (url, fullUrl);
        DownloadAndCacheBinaryAsset(fullUrl);
        if fullUrl in assetCache {
          var dataUri := DataUri(net.guess, fullUrl, assetCache[fullUrl]);
          content := ReplaceAll(content, url, dataUri);
        }
      }
      assert pairs[..|urls|] == pairs;
    }

    /** The body shared by `_download_stylesheets` and `_download_fonts`
        for one resolved URL. */
    method DownloadStylesheet(cssUrl: string)
      modifies this
      ensures State() == CssStep(net, old(State()), cssUrl)
    {
      if cssUrl !in processedUrls {
        var cssContent := DownloadAsset(cssUrl);
        if cssContent.Some? && cssContent.value != [] {
          var processed := ProcessCssAssets(cssContent.value, cssUrl);
          downloadedAssets := downloadedAssets[cssUrl := processed];
          processedUrls := processedUrls + {cssUrl};
        }
      }
    }

    /** `_download_stylesheets(soup, baseUrl)` */
    method DownloadStylesheets(doc: Document, baseUrl: string)
      modifies this
      ensures State() == CssAll(net, old(State()), ResolveAll(baseUrl, Collect(doc, StylesheetHref)))
    {
      for i := 0 to |doc|
        invariant State() == CssAll(net, old(State()), ResolveAll(baseUrl, Collect(doc[..i], StylesheetHref)))
      {
        CollectNext(doc, StylesheetHref, i);
        ResolveAllConcat(baseUrl, Collect(doc[..i], StylesheetHref), StylesheetHref(doc[i]));
        ghost var before := ResolveAll(baseUrl, Collect(doc[..i], StylesheetHref));
        var link := doc[i];
        if IsStylesheetLink(link) && HasNonEmpty(link, "href") {
          var cssUrl := Urls.Join(baseUrl, link.attrs["href"]);
          assert ResolveAll(baseUrl, StylesheetHref(link)) == [cssUrl];
          DownloadStylesheet(cssUrl);
          CssAllConcat(net, old(State()), before, [cssUrl]);
        } else {
          assert before + ResolveAll(baseUrl, StylesheetHref(link)) == before;
        }
      }
      assert doc[..|doc|] == doc;
    }

    /** The `img` half of `_download_images(soup, baseUrl)`. */
    method DownloadImageSources(doc: Document, baseUrl: string)
      modifies this
      ensures State() == BinaryAll(net, old(State()), ResolveAll(baseUrl, Collect(doc, ImageSrc)))
    {
      for i := 0 to |doc|
        invariant State() == BinaryAll(net, old(State()), ResolveAll(baseUrl, Collect(doc[..i], ImageSrc)))
      {
        CollectNext(doc, ImageSrc, i);
        ResolveAllConcat(baseUrl, Collect(doc[..i], ImageSrc), ImageSrc(doc[i]));
        ghost var before := ResolveAll(baseUrl, Collect(doc[..i], ImageSrc));
        var img := doc[i];
        if img.tag == "img" && HasNonEmpty(img, "src") {
          var imgUrl := Urls.Join(baseUrl, img.attrs["src"]);
          assert ResolveAll(baseUrl, ImageSrc(img)) == [imgUrl];
          DownloadAndCacheBinaryAsset(imgUrl);
          BinaryAllConcat(net, old(State()), before, [imgUrl]);
        } else {
          assert before + ResolveAll(baseUrl, ImageSrc(img)) == before;
        }
      }
      assert doc[..|doc|] == doc;
    }

    /** The background-image references of one `style` attribute. */
    method DownloadBackgrounds(refs: seq<string>, baseUrl: string)
      modifies this
      ensures State() == BinaryAll(net, old(State()), ResolveAll(baseUrl, refs))
    {
      for j := 0 to |refs|
        invariant State() == BinaryAll(net, old(State()), ResolveAll(baseUrl, refs[..j]))
      {
        assert ResolveAll(baseUrl, refs[..j + 1])[..j] == ResolveAll(baseUrl, refs[..j]);
        var fullUrl := Urls.Join(baseUrl, refs[j]);
        DownloadAndCacheBinaryAsset(fullUrl);
      }
      assert refs[..|refs|] == refs;
    }

    /** The `style` half of `_download_images(soup, baseUrl)`. */
    method DownloadStyleImages(doc: Document, baseUrl: string)
      modifies this
      ensures State() == BinaryAll(net, old(State()), ResolveAll(baseUrl, Collect(doc, BackgroundRefs)))
    {
      for i := 0 to |doc|
        invariant State() == BinaryAll(net, old(State()), ResolveAll(baseUrl, Collect(doc[..i], BackgroundRefs)))
      {
        CollectNext(doc, BackgroundRefs, i);
        ResolveAllConcat(baseUrl, Collect(doc[..i], BackgroundRefs), BackgroundRefs(doc[i]));
        BinaryAllConcat(net, old(State()), ResolveAll(baseUrl, Collect(doc[..i], BackgroundRefs)),
          ResolveAll(baseUrl, BackgroundRefs(doc[i])));
        var element := doc[i];
        if "style" in element.attrs {
          var bgUrls := BackgroundUrls(element.attrs["style"]);
          DownloadBackgrounds(bgUrls, baseUrl);
        }
      }
      assert doc[..|doc|] == doc;
    }

    /** The body of `_download_scripts` for one resolved URL. */
    method DownloadScript(scriptUrl: string)
      modifies this
      ensures State() == ScriptStep(net, old(State()), scriptUrl)
    {
      if scriptUrl !in processedUrls {
        var jsContent := DownloadAsset(scriptUrl);
        if jsContent.Some? && jsContent.value != [] {
          downloadedAssets := downloadedAssets[scriptUrl := jsContent.value];
          processedUrls := processedUrls + {scriptUrl};
        }
      }
    }

    /** `_download_scripts(soup, baseUrl)` */
    method DownloadScripts(doc: Document, baseUrl: string)
      modifies this
      ensures State() == ScriptAll(net, old(State()), ResolveAll(baseUrl, Collect(doc, ScriptSrc)))
    {
      for i := 0 to |doc|
        invariant State() == ScriptAll(net, old(State()), ResolveAll(baseUrl, Collect(doc[..i], ScriptSrc)))
      {
        CollectNext(doc, ScriptSrc, i);
        ResolveAllConcat(baseUrl, Collect(doc[..i], ScriptSrc), ScriptSrc(doc[i]));
        ghost var before := ResolveAll(baseUrl, Collect(doc[..i], ScriptSrc));
        var script := doc[i];
        if script.tag == "script" && HasNonEmpty(script, "src") {
          var scriptUrl := Urls.Join(baseUrl, script.attrs["src"]);
          assert ResolveAll(baseUrl, ScriptSrc(script)) == [scriptUrl];
          DownloadScript(scriptUrl);
          ScriptAllConcat(net, old(State()), before, [scriptUrl]);
        } else {
          assert before + ResolveAll(baseUrl, ScriptSrc(script)) == before;
        }
      }
      assert doc[..|doc|] == doc;
    }

    /** `_download_fonts(soup, baseUrl)` */
    method DownloadFonts(doc: Document, baseUrl: string)
      modifies this
      ensures State() == CssAll(net, old(State()), ResolveAll(baseUrl, Collect(doc, FontHref)))
    {
      for i := 0 to |doc|
        invariant State() == CssAll(net, old(State()), ResolveAll(baseUrl, Collect(doc[..i], FontHref)))
      {
        CollectNext(doc, FontHref, i);
        ResolveAllConcat(baseUrl, Collect(doc[..i], FontHref), FontHref(doc[i]));
        ghost var before := ResolveAll(baseUrl, Collect(doc[..i], FontHref));
        var link := doc[i];
        if IsFontLink(link) {
          var fontCssUrl := Urls.Join(baseUrl, link.attrs["href"]);
          assert ResolveAll(baseUrl, FontHref(link)) == [fontCssUrl];
          DownloadStylesheet(fontCssUrl);
          CssAllConcat(net, old(State()), before, [fontCssUrl]);
        } else {
          assert before + ResolveAll(baseUrl, FontHref(link)) == before;
        }
      }
      assert doc[..|doc|] == doc;
    }

    /** The body of `_embed_stylesheets` for the element at `i`, given
        the `<base>` the document has. */
    method EmbedStylesheetAt(doc: array<Element>, i: nat, ghost base: Option<string>)
      requires i < doc.Length && BaseHref(doc[..]) == base
      modifies doc
      ensures doc[..] == old(doc[..])[i := EmbedStylesheet(downloadedAssets, base, old(doc[i]))]
      ensures BaseHref(doc[..]) == base
    {
      var link := doc[i];
      if IsStylesheetLink(link) && HasNonEmpty(link, "href") {
        var baseTag := BaseHref(doc[..]);
        var cssUrl := if baseTag.Some? then Urls.Join(baseTag.value, link.attrs["href"]) else link.attrs["href"];
        if cssUrl in downloadedAssets {
          var styleTag := Element("style", map[], downloadedAssets[cssUrl]);
          BaseHrefUpdate(doc[..], i, styleTag);
          doc[i] := styleTag;
          return;
        }
      }
      assert doc[..] == old(doc[..])[i := link];
    }

    /** `_embed_stylesheets(soup)`: the `<base>` is looked up for every
        link, and stays the same throughout the pass. */
    method EmbedStylesheets(doc: array<Element>)
      modifies doc
      ensures doc[..] == StylesheetPass(downloadedAssets, old(doc[..]))
    {
      ghost var base := BaseHref(doc[..]);
      for i := 0 to doc.Length
        invariant forall j :: 0 <= j < i ==> doc[j] == EmbedStylesheet(downloadedAssets, base, old(doc[j]))
        invariant forall j :: i <= j < doc.Length ==> doc[j] == old(doc[j])
        invariant BaseHref(doc[..]) == base
      {
        EmbedStylesheetAt(doc, i, base);
      }
    }

    /** `_embed_images(soup)` */
    method EmbedImages(doc: array<Element>)
      modifies doc
      ensures doc[..] == ImagePass(assetCache, net.guess, old(doc[..]))
    {
      var cache := assetCache;
      var guess := net.guess;
      MapInPlace(doc, e => EmbedImage(cache, guess, e));
      MapInPlace(doc, e => EmbedStyle(cache, guess, e));
    }

    /** `_embed_scripts(soup)` */
    method EmbedScripts(doc: array<Element>)
      modifies doc
      ensures doc[..] == ScriptPass(downloadedAssets, old(doc[..]))
    {
      var downloaded := downloadedAssets;
      MapInPlace(doc, e => EmbedScript(downloaded, e));
    }

    /** The four download passes, in their order. */
    method DownloadAll(page: Document, baseUrl: string)
      modifies this
      ensures State() == Downloads(net, old(State()), page, baseUrl)
    {
      DownloadStylesheets(page, baseUrl);
      DownloadImageSources(page, baseUrl);
      DownloadStyleImages(page, baseUrl);
      DownloadScripts(page, baseUrl);
      DownloadFonts(page, baseUrl);
    }

    /** The three embedding passes, in their order. */
    method EmbedAll(soup: array<Element>)
      modifies soup
      ensures soup[..] == Embedded(State(), net.guess, old(soup[..]))
    {
      EmbedStylesheets(soup);
      EmbedImages(soup);
      EmbedScripts(soup);
    }

    /** `download_and_embed_assets(html, baseUrl)`; None when the html
        cannot be parsed. */
    method DownloadAndEmbedAssets(codec: HtmlCodec, html: string, baseUrl: string) returns (r: Option<string>)
      requires Valid()
      modifies this
      ensures Valid()
      ensures (State(), r) == EmbedPage(net, old(State()), codec, html, baseUrl)
    {
      EmbedPageConsistent(net, State(), codec, html, baseUrl);
      var parsed := codec.parse(html);
      if parsed.None? {
        return None;
      }
      var page := parsed.value;
      DownloadAll(page, baseUrl);
      var soup := new Element[|page|](j requires 0 <= j < |page| => page[j]);
      assert soup[..] == page;
      EmbedAll(soup);
      r := Some(codec.serialize(soup[..]));
    }
  }

  /** One element-wise pass over the soup. */
  method MapInPlace(doc: array<Element>, f: Element -> Element)
    modifies doc
    ensures doc[..] == MapDoc(old(doc[..]), f)
  {
    for i := 0 to doc.Length
      invariant forall j :: 0 <= j < i ==> doc[j] == f(old(doc[j]))
      invariant forall j :: i <= j < doc.Length ==> doc[j] == old(doc[j])
    {
      doc[i] := f(doc[i]);
    }
  }
}
