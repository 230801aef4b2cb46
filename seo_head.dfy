/** The page head: the brand suffix on titles and the site origin in front of
    relative URLs, with the defaults a page gets when it passes nothing. */
module SEOHead {
  import opened Wrappers
  import opened Strings

  const Brand := "60sec Ads"
  const SiteUrl := "https://60secads.com"
  const Tagline := " - Turn Scrollers into Buyers in 60 Seconds"
  /** "60sec Ads - Turn Scrollers into Buyers in 60 Seconds". */
  const DefaultTitle := Brand + Tagline
  const DefaultImage := "/og-image.jpg"
  const DefaultUrl := SiteUrl

  /** `fullTitle`: a title naming the brand is kept, any other gets the brand
      appended. */
  function FullTitle(title: string): (r: string)
    ensures Contains(r, Brand)
    ensures Contains(title, Brand) ==> r == title
    ensures !Contains(title, Brand) ==> r == title + " - " + Brand
  {
    if Contains(title, Brand) then title
    else
      ContainsSuffix(title + " - ", Brand);
      title + " - " + Brand
  }

  /** The title rule applied twice is the rule applied once. */
  lemma FullTitleIdempotent(title: string)
    ensures FullTitle(FullTitle(title)) == FullTitle(title)
  {
  }

  /** A string keeps its prefix when more is appended. */
  lemma StartsWithExtend(s: string, t: string, prefix: string)
    requires StartsWith(s, prefix)
    ensures StartsWith(s + t, prefix)
  {
    assert (s + t)[..|prefix|] == s[..|prefix|];
  }

  /** `fullUrl` and `fullImage`: a value starting with `http` is kept, any other
      gets the site origin in front. */
  function Absolute(path: string): (r: string)
    ensures StartsWith(r, "http")
    ensures StartsWith(path, "http") ==> r == path
    ensures !StartsWith(path, "http") ==> r == SiteUrl + path
  {
    if StartsWith(path, "http") then path
    else
      assert StartsWith(SiteUrl, "http");
      StartsWithExtend(SiteUrl, path, "http");
      SiteUrl + path
  }

  /** The URL rule applied twice is the rule applied once. */
  lemma AbsoluteIdempotent(path: string)
    ensures Absolute(Absolute(path)) == Absolute(path)
  {
  }

  /** What the head ends up with. */
  datatype Meta = Meta(fullTitle: string, fullUrl: string, fullImage: string)

  /** The component's props as given; a missing one takes its default. An empty
      string is a given value and is not replaced. */
  function Resolve(title: Option<string>, url: Option<string>, image: Option<string>): (m: Meta)
    ensures Contains(m.fullTitle, Brand)
    ensures StartsWith(m.fullUrl, "http") && StartsWith(m.fullImage, "http")
    ensures title.None? ==> m.fullTitle == DefaultTitle
    ensures title.Some? && Contains(title.value, Brand) ==> m.fullTitle == title.value
    ensures title.Some? && !Contains(title.value, Brand) ==> m.fullTitle == title.value + " - " + Brand
    ensures url.None? ==> m.fullUrl == DefaultUrl
    ensures url.Some? && StartsWith(url.value, "http") ==> m.fullUrl == url.value
    ensures url.Some? && !StartsWith(url.value, "http") ==> m.fullUrl == SiteUrl + url.value
    ensures image.None? ==> m.fullImage == SiteUrl + DefaultImage
    ensures image.Some? && StartsWith(image.value, "http") ==> m.fullImage == image.value
    ensures image.Some? && !StartsWith(image.value, "http") ==> m.fullImage == SiteUrl + image.value
  {
    DefaultsPassThrough();
    Meta(FullTitle(title.GetOr(DefaultTitle)), Absolute(url.GetOr(DefaultUrl)), Absolute(image.GetOr(DefaultImage)))
  }

  /** The default title names the brand, the default URL is absolute and the
      default image is not. */
  lemma DefaultsPassThrough()
    ensures Contains(DefaultTitle, Brand)
    ensures StartsWith(DefaultUrl, "http")
    ensures !StartsWith(DefaultImage, "http")
  {
    assert StartsWith(Brand, Brand);
    StartsWithExtend(Brand, Tagline, Brand);
    assert DefaultImage[..4][0] == '/';
  }

  /** Feeding the resolved values back in as props changes nothing: a page
      that passes an already branded title and absolute URLs gets them as they
      are. */
  lemma ResolveIdempotent(title: Option<string>, url: Option<string>, image: Option<string>)
    ensures var m := Resolve(title, url, image);
            Resolve(Some(m.fullTitle), Some(m.fullUrl), Some(m.fullImage)) == m
  {
  }

  /** With no props, the default title and URL pass through unchanged and the
      default image is put under the site origin. */
  lemma Defaults()
    ensures Resolve(None, None, None) == Meta(DefaultTitle, DefaultUrl, SiteUrl + DefaultImage)
  {
  }
}
