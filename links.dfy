/**
  URL normalisation (cz.zcu.kiv.nlp.utils.Links): a site-relative URL is made
  absolute by prefixing the base address; a URL that already starts with the
  base address is left alone. Java's String.startsWith is the prefix test
  `baseUrl <= url` on sequences of characters.
*/
module Links {

  /** The normalised URL always starts with the base address. */
  function PrependBaseUrlIfNeeded(url: string, baseUrl: string): (r: string)
    ensures baseUrl <= r
  {
    if baseUrl <= url then url else baseUrl + url
  }

  /** The normalised URL ends with the given URL: nothing of it is lost. */
  lemma UrlIsKeptAsSuffix(url: string, baseUrl: string)
    ensures var r := PrependBaseUrlIfNeeded(url, baseUrl);
            |url| <= |r| && r[|r| - |url|..] == url
  {
    var r := PrependBaseUrlIfNeeded(url, baseUrl);
    if !(baseUrl <= url) {
      assert r == baseUrl + url;
      assert r[|baseUrl|..] == url;
    }
  }

  /** A URL that already starts with the base address is returned unchanged, and only such a URL. */
  lemma UnchangedIffAbsolute(url: string, baseUrl: string)
    ensures PrependBaseUrlIfNeeded(url, baseUrl) == url <==> baseUrl <= url
  {
    if !(baseUrl <= url) {
      assert |baseUrl| > 0;
      assert |PrependBaseUrlIfNeeded(url, baseUrl)| > |url|;
    }
  }

  /** Any other URL gets exactly the base address in front of it. */
  lemma RelativeGetsBasePrefixed(url: string, baseUrl: string)
    requires !(baseUrl <= url)
    ensures PrependBaseUrlIfNeeded(url, baseUrl) == baseUrl + url
  {
  }

  /** Normalising an already normalised URL changes nothing. */
  lemma PrependIsIdempotent(url: string, baseUrl: string)
    ensures var r := PrependBaseUrlIfNeeded(url, baseUrl);
            PrependBaseUrlIfNeeded(r, baseUrl) == r
  {
  }
}
