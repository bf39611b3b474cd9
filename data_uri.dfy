/** `_create_data_uri`: a `data:` URL (RFC 2397) holding the bytes of an
    asset in base 64 (RFC 4648 section 4), with the media type guessed
    from the asset's URL. */
module DataUris {
  import opened Wrappers
  import opened Text
  import Base64

  /** `mimetypes.guess_type(url)[0]`, None when the guess fails. */
  type MimeGuess = string -> Option<string>

  /** The media type: the guess, or a fallback chosen by the URL's ending. */
  function Mime(guess: MimeGuess, url: string): (r: string)
    ensures guess(url).Some? && guess(url).value != [] ==> r == guess(url).value
    ensures (guess(url).None? || guess(url).value == []) ==>
      r == (if EndsWith(url, ".woff") || EndsWith(url, ".woff2") then "font/woff2"
            else if EndsWith(url, ".ttf") then "font/ttf"
            else if EndsWith(url, ".otf") then "font/otf"
            else "application/octet-stream")
  {
    match guess(url)
    case Some(m) =>
      if m != [] then m else Fallback(url)
    case None => Fallback(url)
  }

  function Fallback(url: string): string {
    if EndsWith(url, ".woff") || EndsWith(url, ".woff2") then "font/woff2"
    else if EndsWith(url, ".ttf") then "font/ttf"
    else if EndsWith(url, ".otf") then "font/otf"
    else "application/octet-stream"
  }

  const Marker: string := ";base64,"

  function DataUri(guess: MimeGuess, url: string, content: seq<Base64.byte>): (r: string)
    ensures StartsWith(r, "data:")
  {
    "data:" + Mime(guess, url) + Marker + Base64.Encode(content)
  }

  /** Reads back a `data:` URL of the form `data:<type>;base64,<data>`,
      the type ending at the first comma. */
  function ParseDataUri(s: string): (r: Option<(string, seq<Base64.byte>)>)
  {
    if !StartsWith(s, "data:") then None
    else
      var comma := IndexOfAnyFrom(s, {','}, 5);
      if comma == |s| || comma < 5 + |Marker| - 1 || s[comma - 7..comma] != ";base64" then None
      else
        match Base64.Decode(s[comma + 1..])
        case Some(bytes) => Some((s[5..comma - 7], bytes))
        case None => None
  }

  /** The data URL gives back its media type and the asset's bytes. */
  lemma ParseDataUriRoundTrip(guess: MimeGuess, url: string, content: seq<Base64.byte>)
    requires ',' !in Mime(guess, url)
    ensures ParseDataUri(DataUri(guess, url, content)) == Some((Mime(guess, url), content))
  {
    ParseOf(Mime(guess, url), content);
  }

  /** A data URL built from a media type without a comma reads back. */
  lemma ParseOf(m: string, content: seq<Base64.byte>)
    requires ',' !in m
    ensures ParseDataUri("data:" + m + Marker + Base64.Encode(content)) == Some((m, content))
  {
    var s := "data:" + m + Marker + Base64.Encode(content);
    var comma := 5 + |m| + 7;
    assert s[comma] == ',';
    assert forall k :: 5 <= k < comma ==> s[k] != ',' by {
      forall k | 5 <= k < comma ensures s[k] != ',' {
        if k < 5 + |m| {
          assert s[k] == m[k - 5];
        }
      }
    }
    IndexOfAnyFromIs(s, {','}, 5, comma);
    assert s[..5] == "data:";
    assert s[comma - 7..comma] == ";base64";
    assert s[comma + 1..] == Base64.Encode(content);
    assert s[5..comma - 7] == m;
    Base64.DecodeEncode(content);
  }

  /** When the guess fails, the data URL reads back as the fallback type
      and the asset's bytes. */
  lemma ParseFallbackDataUri(guess: MimeGuess, url: string, content: seq<Base64.byte>)
    requires guess(url).None?
    ensures ParseDataUri(DataUri(guess, url, content)) == Some((Fallback(url), content))
  {
    ParseDataUriRoundTrip(guess, url, content);
  }
}
