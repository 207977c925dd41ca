/**
 * Page metadata of lib/seo.ts: the branded title, the canonical and Open
 * Graph URL, absolute image URLs, the Twitter card choice, the robots
 * switch, and description truncation. `NEXT_PUBLIC_APP_URL` is a parameter.
 */
module Seo {
  import opened Outcomes
  import opened Text

  const SiteName: string := "PantyHub"

  const DefaultSiteUrl: string := "http://localhost:3000"

  /** `process.env.NEXT_PUBLIC_APP_URL ?? "http://localhost:3000"`: only an unset variable falls back. */
  function SiteUrl(appUrl: Option<string>): (u: string)
    ensures appUrl.Some? ==> u == appUrl.value
    ensures appUrl.None? ==> u == DefaultSiteUrl
  {
    appUrl.GetOr(DefaultSiteUrl)
  }

  /** `pageTitle(title)`: the title, then " | PantyHub". */
  function PageTitle(title: string): (r: string)
    ensures |r| == |title| + 11
    ensures r[..|title|] == title && r[|title|..] == " | " + SiteName
  {
    title + " | " + SiteName
  }

  /** Different page titles give different full titles. */
  lemma PageTitleInjective(a: string, b: string)
    requires PageTitle(a) == PageTitle(b)
    ensures a == b
  {
    assert |a| == |b|;
    assert a == PageTitle(a)[..|a|];
  }

  /**
   * Where `slice(0, end)` stops on a string of length `len`: a negative end
   * counts from the back (and stops at the front), an end past the length
   * stops at the length.
   */
  function SliceEnd(len: nat, end: int): (e: nat)
    ensures e <= len
    ensures 0 <= end <= len ==> e == end
    ensures end > len ==> e == len
    ensures end < 0 && len + end >= 0 ==> e == len + end
    ensures len + end < 0 ==> e == 0
  {
    if end < 0 then (if len + end < 0 then 0 else len + end)
    else if end > len then len else end
  }

  /**
   * `truncateDescription(text, maxLength = 160)`, with `length` and `slice`
   * counted in UTF-16 code units: a text within the limit is returned as is;
   * a longer one is cut to `maxLength - 3` units, trimmed, and followed by
   * "...".
   */
  function TruncateDescription(text: string, maxLength: Option<int>): (r: string)
    ensures Utf16Length(text) <= maxLength.GetOr(160) ==> r == text
    ensures Utf16Length(text) > maxLength.GetOr(160) ==>
              |r| >= 3 && r[|r| - 3..] == "..."
              && r[..|r| - 3] == Trim(Utf16Prefix(text, SliceEnd(Utf16Length(text), maxLength.GetOr(160) - 3)))
    ensures Utf16Length(text) > maxLength.GetOr(160) >= 3 ==> Utf16Length(r) <= maxLength.GetOr(160)
  {
    var limit := maxLength.GetOr(160);
    if Utf16Length(text) <= limit then text
    else
      var kept := Utf16Prefix(text, SliceEnd(Utf16Length(text), limit - 3));
      var cut := Trim(kept);
      assert (cut + "...")[..|cut|] == cut;
      Utf16LengthOfTrim(kept);
      Utf16LengthConcat(cut, "...");
      assert Utf16Length("...") == 3;
      cut + "..."
  }

  /** For a limit of at least 3 the result always fits, so truncating again changes nothing. */
  lemma TruncateIsFixpoint(text: string, maxLength: int)
    requires maxLength >= 3
    ensures Utf16Length(TruncateDescription(text, Some(maxLength))) <= maxLength
    ensures TruncateDescription(TruncateDescription(text, Some(maxLength)), Some(maxLength))
            == TruncateDescription(text, Some(maxLength))
  {
  }

  /** Over the limit, the result is the trimmed cut followed by the ellipsis. */
  lemma TruncatedShape(text: string, maxLength: int)
    requires Utf16Length(text) > maxLength
    ensures TruncateDescription(text, Some(maxLength))
            == Trim(Utf16Prefix(text, SliceEnd(Utf16Length(text), maxLength - 3))) + "..."
  {
    var r := TruncateDescription(text, Some(maxLength));
    assert Some(maxLength).GetOr(160) == maxLength;
    EllipsisSplit(r, Trim(Utf16Prefix(text, SliceEnd(Utf16Length(text), maxLength - 3))));
  }

  /** A string ending in "..." is what comes before the ellipsis followed by it. */
  lemma EllipsisSplit(r: string, cut: string)
    requires |r| >= 3 && r[|r| - 3..] == "..." && r[..|r| - 3] == cut
    ensures r == cut + "..."
  {
    assert r == r[..|r| - 3] + r[|r| - 3..];
  }

  /**
   * The cut text keeps its words: with no white space at either end of the
   * first `maxLength - 3` units, they survive whole.
   */
  lemma TruncateKeepsPrefix(text: string, maxLength: int)
    requires 3 < maxLength < Utf16Length(text)
    requires var p := Utf16Prefix(text, maxLength - 3); |p| > 0 && !IsSpace(p[0]) && !IsSpace(p[|p| - 1])
    ensures TruncateDescription(text, Some(maxLength)) == Utf16Prefix(text, maxLength - 3) + "..."
  {
    var p := Utf16Prefix(text, maxLength - 3);
    TruncatedShape(text, maxLength);
    assert SliceEnd(Utf16Length(text), maxLength - 3) == maxLength - 3;
    TrimOfTrimmed(p);
  }

  /** On text without surrogate pairs, units are characters: the first `maxLength - 3` characters survive. */
  lemma TruncateKeepsBmpPrefix(text: string, maxLength: int)
    requires IsBmp(text) && 3 < maxLength < |text|
    requires !IsSpace(text[0]) && !IsSpace(text[maxLength - 4])
    ensures TruncateDescription(text, Some(maxLength)) == text[..maxLength - 3] + "..."
  {
    Utf16PrefixOfBmp(text, maxLength - 3);
    var cut := text[..maxLength - 3];
    assert cut[0] == text[0] && cut[|cut| - 1] == text[maxLength - 4];
    TrimOfTrimmed(cut);
  }

  /**
   * Three emoji are six code units: a limit of 5 truncates them (counting
   * characters, they would fit), and the cut at unit 2 keeps the first one.
   */
  lemma ThreeEmojiAreTruncated()
    ensures TruncateDescription("\U{1F600}\U{1F600}\U{1F600}", Some(5)) == "\U{1F600}..."
  {
    var e := '\U{1F600}';
    assert Units(e) == 2 && !IsSpace(e);
    var t := [e, e, e];
    assert t == "\U{1F600}\U{1F600}\U{1F600}";
    assert t[1..] == [e, e] && t[1..][1..] == [e] && t[1..][1..][1..] == [];
    assert Utf16Length([e]) == 2;
    assert Utf16Length([e, e]) == 4;
    assert Utf16Length(t) == 6;
    assert SliceEnd(6, 2) == 2;
    Utf16PrefixCons(e, [e, e], 2);
    Utf16PrefixStops(e, [e], 0);
    assert Utf16Prefix(t, 2) == [e];
    TrimOfTrimmed([e]);
  }

  datatype PageType = Website | Article | Profile

  datatype ArticleInfo = ArticleInfo(
    publishedTime: Option<string>, modifiedTime: Option<string>, author: Option<string>, tags: Option<seq<string>>)

  datatype SeoOptions = SeoOptions(
    title: string,
    description: string,
    path: Option<string>,
    image: Option<string>,
    pageType: Option<PageType>,
    article: Option<ArticleInfo>,
    noIndex: Option<bool>)

  datatype OgImage = OgImage(url: string, width: nat, height: nat, alt: string)

  datatype ArticleFields = ArticleFields(
    publishedTime: Option<string>, modifiedTime: Option<string>, authors: Option<seq<string>>, tags: Option<seq<string>>)

  datatype OpenGraph = OpenGraph(
    title: string, description: string, url: string, siteName: string, pageType: PageType, locale: string,
    images: Option<seq<OgImage>>, article: Option<ArticleFields>)

  datatype TwitterCard = Summary | SummaryLargeImage

  datatype Twitter = Twitter(card: TwitterCard, title: string, description: string, images: Option<seq<string>>)

  datatype Robots = Robots(index: bool, follow: bool)

  datatype Metadata = Metadata(
    title: string,
    description: string,
    metadataBase: string,
    canonical: string,
    openGraph: OpenGraph,
    twitter: Twitter,
    robots: Option<Robots>)

  /** An image given as a site path is made absolute; one starting with "http" is kept. */
  function AbsoluteImage(siteUrl: string, image: string): (u: string)
    ensures StartsWith(image, "http") ==> u == image
    ensures !StartsWith(image, "http") ==> u == siteUrl + image
  {
    if StartsWith(image, "http") then image else siteUrl + image
  }

  /** The `article && {...}` part of the Open Graph block. */
  function ArticleBlock(article: Option<ArticleInfo>): (r: Option<ArticleFields>)
    ensures r.Some? <==> article.Some?
    ensures r.Some? ==> r.value.authors == (if Present(article.value.author) then Some([article.value.author.value]) else None)
  {
    match article
    case None => None
    case Some(a) => Some(ArticleFields(a.publishedTime, a.modifiedTime,
                                       if Present(a.author) then Some([a.author.value]) else None, a.tags))
  }

  /**
   * `generateSeoMetadata`: one branded title everywhere, one URL (site URL
   * plus path, path defaulting to "") as canonical and Open Graph URL, image
   * blocks and the large Twitter card only for a non-empty image, and the
   * no-index robots block only when asked for.
   */
  function GenerateSeoMetadata(appUrl: Option<string>, o: SeoOptions): (m: Metadata)
    ensures m.title == PageTitle(o.title) && m.openGraph.title == m.title && m.twitter.title == m.title
    ensures m.description == o.description && m.openGraph.description == o.description
            && m.twitter.description == o.description
    ensures m.metadataBase == SiteUrl(appUrl)
    ensures m.canonical == SiteUrl(appUrl) + o.path.GetOr("") && m.openGraph.url == m.canonical
    ensures m.openGraph.pageType == o.pageType.GetOr(Website) && m.openGraph.siteName == SiteName
    ensures m.openGraph.images.Some? <==> Present(o.image)
    ensures m.twitter.images.Some? <==> Present(o.image)
    ensures Present(o.image) ==>
              m.openGraph.images.value == [OgImage(AbsoluteImage(SiteUrl(appUrl), o.image.value), 1200, 630, o.title)]
              && m.twitter.images.value == [AbsoluteImage(SiteUrl(appUrl), o.image.value)]
    ensures m.twitter.card == SummaryLargeImage <==> Present(o.image)
    ensures m.openGraph.article == ArticleBlock(o.article)
    ensures m.robots.Some? <==> o.noIndex.GetOr(false)
    ensures m.robots.Some? ==> m.robots.value == Robots(false, false)
  {
    var siteUrl := SiteUrl(appUrl);
    var url := siteUrl + o.path.GetOr("");
    var fullTitle := PageTitle(o.title);
    var image := if Present(o.image) then Some(AbsoluteImage(siteUrl, o.image.value)) else None;
    Metadata(
      fullTitle,
      o.description,
      siteUrl,
      url,
      OpenGraph(fullTitle, o.description, url, SiteName, o.pageType.GetOr(Website), "en_US",
                if image.Some? then Some([OgImage(image.value, 1200, 630, o.title)]) else None,
                ArticleBlock(o.article)),
      Twitter(if image.Some? then SummaryLargeImage else Summary, fullTitle, o.description,
              if image.Some? then Some([image.value]) else None),
      if o.noIndex.GetOr(false) then Some(Robots(false, false)) else None)
  }

  /**
   * With an absolute site URL every URL the metadata carries is absolute:
   * the metadata base, the canonical and Open Graph URLs (both under the
   * site), and every Open Graph and Twitter image.
   */
  lemma MetadataUrlsAreAbsolute(appUrl: Option<string>, o: SeoOptions)
    requires StartsWith(SiteUrl(appUrl), "http")
    ensures var m := GenerateSeoMetadata(appUrl, o);
            StartsWith(m.metadataBase, "http")
            && StartsWith(m.canonical, SiteUrl(appUrl))
            && StartsWith(m.openGraph.url, SiteUrl(appUrl))
            && (m.openGraph.images.Some? ==> forall k :: 0 <= k < |m.openGraph.images.value| ==>
                  StartsWith(m.openGraph.images.value[k].url, "http"))
            && (m.twitter.images.Some? ==> forall k :: 0 <= k < |m.twitter.images.value| ==>
                  StartsWith(m.twitter.images.value[k], "http"))
  {
    var m := GenerateSeoMetadata(appUrl, o);
    var siteUrl := SiteUrl(appUrl);
    assert (siteUrl + o.path.GetOr(""))[..|siteUrl|] == siteUrl;
    if Present(o.image) {
      AbsoluteImageIsAbsolute(siteUrl, o.image.value);
    }
  }

  /** Under an absolute site URL an image URL is absolute. */
  lemma AbsoluteImageIsAbsolute(siteUrl: string, image: string)
    requires StartsWith(siteUrl, "http")
    ensures StartsWith(AbsoluteImage(siteUrl, image), "http")
  {
    if !StartsWith(image, "http") {
      assert (siteUrl + image)[..4] == siteUrl[..4];
    }
  }
}
