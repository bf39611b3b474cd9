/** The parsed page the HTML passes work on, in document order.  Only the
    tag, the attributes and the text of each element matter here; nesting
    is flattened away.  Parsing and serialising are the HTML library's
    business and enter the model as a codec of two functions. */
module Documents {
  import opened Wrappers

  datatype Element = Element(tag: string, attrs: map<string, string>, text: string)

  type Document = seq<Element>

  /** `BeautifulSoup(html)` (None when parsing raises) and `str(soup)`. */
  datatype HtmlCodec = HtmlCodec(parse: string -> Option<Document>, serialize: Document -> string)

  /** `element.get(name)` */
  function Attr(e: Element, name: string): (r: Option<string>)
    ensures r.Some? <==> name in e.attrs
    ensures r.Some? ==> r.value == e.attrs[name]
  {
    if name in e.attrs then Some(e.attrs[name]) else None
  }

  /** `element.get(name)` is a non-empty string. */
  predicate HasNonEmpty(e: Element, name: string) {
    name in e.attrs && e.attrs[name] != ""
  }
}
