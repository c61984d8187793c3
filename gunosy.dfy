/**
  The Gunosy (NewsPass) RSS2 extension (Gunosy.php): namespace declarations,
  extra channel elements after the standard RSS2 head, and extra elements in
  every item. Channel and item lines are specified as fragment lists (Head,
  Item); the methods build the same lines as strings and print them with
  `line`.
 */
module Gunosy {
  import opened Php
  import opened WordPress
  import opened Markup
  import FP = FeedPattern

  const Namespace := "xmlns:gnf=\"http://assets.gunosy.com/media/gnf\""

  /** The `rss2_ns` callback. */
  method AddNamespace(out: Response)
    modifies out
    ensures out.chunks == old(out.chunks)
                          + FP.LineOutput(FP.Many([Namespace, FP.MediaNamespace]), 1, "", "\n")
  {
    FP.Line(out, FP.Many([Namespace, FP.MediaNamespace]), 1, "", "\n");
  }

  // --------------------------------------------------------------- channel

  function ImageBlock(host: Host, site: FP.Site): seq<Fragment> {
    [Open("image"),
     Indented(Element("title", site.rssTitle)),
     Indented(Element("url", site.blogUrl)),
     Indented(Element("link", host.escUrl(site.info.siteIcon))),
     Close("image")]
  }

  function CopyrightPart(host: Host, site: FP.Site): seq<Fragment> {
    if Truthy(site.info.copyright) then [Element("copyright", host.escXml(site.info.copyright))] else []
  }

  function ImagePart(host: Host, site: FP.Site): seq<Fragment> {
    if Truthy(site.info.siteIcon) then ImageBlock(host, site) else []
  }

  function WideImagePart(host: Host, site: FP.Site): seq<Fragment> {
    if Truthy(site.wideImage) then [Element("gnf:wide_image_link", host.escUrl(site.wideImage))] else []
  }

  /** The lines add_rss_head prints; `latest` is the feed's latest GMT post date. */
  function Head(host: Host, site: FP.Site, latest: string): seq<Fragment> {
    [Element("lastBuildDate", host.atomDate(latest))]
    + CopyrightPart(host, site)
    + [Element("ttl", IntToString(site.ttl))]
    + ImagePart(host, site)
    + WideImagePart(host, site)
    + [Element("language", FP.LangCode(site.locale))]
  }

  /** lastBuildDate comes first and language last, and the image block,
      when present, is five consecutive lines after copyright and ttl. */
  lemma HeadLayout(host: Host, site: FP.Site, latest: string)
    ensures var fs := Head(host, site, latest);
      && |fs| == 3 + |CopyrightPart(host, site)| + |ImagePart(host, site)| + |WideImagePart(host, site)|
      && fs[0] == Element("lastBuildDate", host.atomDate(latest))
      && fs[|fs| - 1] == Element("language", FP.LangCode(site.locale))
      && (Truthy(site.info.siteIcon) ==>
            var k := 2 + |CopyrightPart(host, site)|;
            fs[k..k + 5] == ImageBlock(host, site))
  {
    var copy := CopyrightPart(host, site);
    var fs := Head(host, site, latest);
    if Truthy(site.info.siteIcon) {
      var k := 2 + |copy|;
      assert fs[k..k + 5] == ImagePart(host, site);
    }
  }

  /** Named distributes over the six parts of the channel head. */
  lemma NamedHead(host: Host, site: FP.Site, latest: string, name: string)
    ensures Named(Head(host, site, latest), name)
         == Named([Element("lastBuildDate", host.atomDate(latest))], name)
            + Named(CopyrightPart(host, site), name)
            + Named([Element("ttl", IntToString(site.ttl))], name)
            + Named(ImagePart(host, site), name)
            + Named(WideImagePart(host, site), name)
            + Named([Element("language", FP.LangCode(site.locale))], name)
  {
    var first := [Element("lastBuildDate", host.atomDate(latest))];
    var copy := CopyrightPart(host, site);
    var ttl := [Element("ttl", IntToString(site.ttl))];
    var image := ImagePart(host, site);
    var wide := WideImagePart(host, site);
    var last := [Element("language", FP.LangCode(site.locale))];
    NamedAppend(first + copy + ttl + image + wide, last, name);
    NamedAppend(first + copy + ttl + image, wide, name);
    NamedAppend(first + copy + ttl, image, name);
    NamedAppend(first + copy, ttl, name);
    NamedAppend(first, copy, name);
  }

  lemma CopyrightLacks(host: Host, site: FP.Site, name: string)
    requires name != "copyright"
    ensures Named(CopyrightPart(host, site), name) == []
  {
    NamedNone(CopyrightPart(host, site), name);
  }

  lemma ImageLacks(host: Host, site: FP.Site, name: string)
    requires name != "image" && name != "title" && name != "url" && name != "link" && name != "/image"
    ensures Named(ImagePart(host, site), name) == []
  {
    var image := ImagePart(host, site);
    assert forall i :: 0 <= i < |image| ==> Name(image[i]) in {"image", "title", "url", "link", "/" + "image"};
    NamedNone(image, name);
  }

  lemma WideImageLacks(host: Host, site: FP.Site, name: string)
    requires name != "gnf:wide_image_link"
    ensures Named(WideImagePart(host, site), name) == []
  {
    NamedNone(WideImagePart(host, site), name);
  }

  /** The lines every channel head has, as far as a name other than theirs is concerned. */
  lemma FixedHeadLacks(host: Host, site: FP.Site, latest: string, name: string)
    requires name != "lastBuildDate" && name != "ttl" && name != "language"
    ensures Named([Element("lastBuildDate", host.atomDate(latest))], name) == []
    ensures Named([Element("ttl", IntToString(site.ttl))], name) == []
    ensures Named([Element("language", FP.LangCode(site.locale))], name) == []
  {
    NamedSingleton(Element("lastBuildDate", host.atomDate(latest)), name);
    NamedSingleton(Element("ttl", IntToString(site.ttl)), name);
    NamedSingleton(Element("language", FP.LangCode(site.locale)), name);
  }

  /** ttl is always printed, exactly once. */
  lemma HeadTtl(host: Host, site: FP.Site, latest: string)
    ensures Named(Head(host, site, latest), "ttl") == [Element("ttl", IntToString(site.ttl))]
  {
    var name := "ttl";
    NamedHead(host, site, latest, name);
    NamedSingleton(Element("lastBuildDate", host.atomDate(latest)), name);
    CopyrightLacks(host, site, name);
    NamedSingleton(Element("ttl", IntToString(site.ttl)), name);
    ImageLacks(host, site, name);
    WideImageLacks(host, site, name);
    NamedSingleton(Element("language", FP.LangCode(site.locale)), name);
  }

  /** copyright is printed exactly when the copyright text is truthy. */
  lemma HeadCopyright(host: Host, site: FP.Site, latest: string)
    ensures Named(Head(host, site, latest), "copyright")
         == (if Truthy(site.info.copyright) then [Element("copyright", host.escXml(site.info.copyright))] else [])
  {
    var name := "copyright";
    NamedHead(host, site, latest, name);
    FixedHeadLacks(host, site, latest, name);
    NamedAll(CopyrightPart(host, site), name);
    ImageLacks(host, site, name);
    WideImageLacks(host, site, name);
  }

  /** The image block is opened exactly when the site icon is truthy. */
  lemma HeadImage(host: Host, site: FP.Site, latest: string)
    ensures Named(Head(host, site, latest), "image") == (if Truthy(site.info.siteIcon) then [Open("image")] else [])
  {
    var name := "image";
    NamedHead(host, site, latest, name);
    FixedHeadLacks(host, site, latest, name);
    CopyrightLacks(host, site, name);
    WideImageLacks(host, site, name);
    if Truthy(site.info.siteIcon) {
      ImageBlockOpensOnce(host, site);
    }
  }

  lemma ImageBlockOpensOnce(host: Host, site: FP.Site)
    ensures Named(ImageBlock(host, site), "image") == [Open("image")]
  {
    var block := ImageBlock(host, site);
    var rest := block[1..];
    assert block == [Open("image")] + rest;
    assert Name(rest[0]) == "title" && Name(rest[1]) == "url" && Name(rest[2]) == "link";
    assert |Name(rest[3])| == 6;
    NamedNone(rest, "image");
    NamedSingleton(Open("image"), "image");
    NamedAppend([Open("image")], rest, "image");
  }

  /** gnf:wide_image_link is printed exactly when the wide image URL is truthy. */
  lemma HeadWideImage(host: Host, site: FP.Site, latest: string)
    ensures Named(Head(host, site, latest), "gnf:wide_image_link")
         == (if Truthy(site.wideImage) then [Element("gnf:wide_image_link", host.escUrl(site.wideImage))] else [])
  {
    var name := "gnf:wide_image_link";
    NamedHead(host, site, latest, name);
    FixedHeadLacks(host, site, latest, name);
    CopyrightLacks(host, site, name);
    ImageLacks(host, site, name);
    NamedAll(WideImagePart(host, site), name);
  }

  /** With the hard-wired site information, copyright and the image block are always printed. */
  lemma DefaultHeadHasCopyrightAndImage(host: Host, site: FP.Site, latest: string)
    requires site.info == FP.DefaultSiteInformation
    ensures |Named(Head(host, site, latest), "copyright")| == 1
    ensures |Named(Head(host, site, latest), "image")| == 1
  {
    HeadCopyright(host, site, latest);
    HeadImage(host, site, latest);
  }

  /** The `rss2_head` callback. */
  method AddRssHead(out: Response, host: Host, site: FP.Site)
    modifies out
    ensures out.chunks == old(out.chunks)
      + FP.LineOutput(FP.Many(RenderAll(Head(host, site, FP.LatestGmtDate(site.postDates, site.now)))), 1, "\t", "\n")
  {
    var latest := FP.GetLatestGmtDateInFeed(site.postDates, site.now);
    var lines := HeadLines(host, site, latest);
    FP.Line(out, FP.Many(lines), 1, "\t", "\n");
  }

  /** The channel lines add_rss_head collects before printing them. */
  method HeadLines(host: Host, site: FP.Site, latest: string) returns (lines: seq<string>)
    ensures lines == RenderAll(Head(host, site, latest))
  {
    var date := host.atomDate(latest);
    lines := [Render(Element("lastBuildDate", date))];
    RenderAllSingle(Element("lastBuildDate", date));
    ghost var fs := [Element("lastBuildDate", date)];
    var copy := site.info.copyright;
    if Truthy(copy) {
      var copyright := Element("copyright", host.escXml(copy));
      lines := lines + [Render(copyright)];
      RenderAllSnoc(fs, copyright);
    } else {
      assert fs + CopyrightPart(host, site) == fs;
    }
    fs := fs + CopyrightPart(host, site);
    var ttl := Element("ttl", IntToString(site.ttl));
    lines := lines + [Render(ttl)];
    RenderAllSnoc(fs, ttl);
    fs := fs + [ttl];
    var image := ImageLines(host, site);
    lines := lines + image;
    RenderAllAppend(fs, ImagePart(host, site));
    fs := fs + ImagePart(host, site);
    var wideImage := site.wideImage;
    if Truthy(wideImage) {
      var wide := Element("gnf:wide_image_link", host.escUrl(wideImage));
      lines := lines + [Render(wide)];
      RenderAllSnoc(fs, wide);
    } else {
      assert fs + WideImagePart(host, site) == fs;
    }
    fs := fs + WideImagePart(host, site);
    var language := Element("language", FP.LangCode(site.locale));
    lines := lines + [Render(language)];
    RenderAllSnoc(fs, language);
  }

  /** The five-line image block of add_rss_head, for a truthy site icon. */
  method ImageLines(host: Host, site: FP.Site) returns (lines: seq<string>)
    ensures lines == RenderAll(ImagePart(host, site))
  {
    lines := [];
    var media := site.info.siteIcon;
    if Truthy(media) {
      var title := Indented(Element("title", site.rssTitle));
      var url := Indented(Element("url", site.blogUrl));
      var link := Indented(Element("link", host.escUrl(media)));
      lines := lines + [Render(Open("image"))];
      lines := lines + [Render(title)];
      lines := lines + [Render(url)];
      lines := lines + [Render(link)];
      lines := lines + [Render(Close("image"))];
      RenderAllFive(Open("image"), title, url, link, Close("image"));
    }
  }

  // ------------------------------------------------------------------ item

  /** get_keywords with its filter left at its default: the tag names. */
  function Keywords(tags: FP.Tags): seq<string> {
    if tags.TagNames? then tags.names else []
  }

  /** The enclosure line: present exactly for a truthy attachment URL; the
      post's thumbnail supplies type and caption, the default thumbnail gets
      a type guessed from its extension and an empty caption. */
  function EnclosurePart(host: Host, site: FP.Site, post: FP.Post): (fs: seq<Fragment>)
    ensures |fs| == (if Truthy(FP.Attachment(site, post)) then 1 else 0)
    ensures |fs| == 1 && post.thumbnail.Some? ==>
              fs[0] == Enclosure(host, post.thumbnail.value.url, post.thumbnail.value.mime, post.thumbnail.value.caption)
    ensures |fs| == 1 && post.thumbnail.None? ==>
              fs[0] == Enclosure(host, site.defaultThumbnail, FP.MimeFromExtension(site.defaultThumbnail), "")
  {
    match post.thumbnail
    case Some(t) =>
      if Truthy(t.url) then [Enclosure(host, t.url, t.mime, t.caption)] else []
    case None =>
      var url := site.defaultThumbnail;
      if Truthy(url) then [Enclosure(host, url, FP.MimeFromExtension(url), "")] else []
  }

  /** `<enclosure url="…" type="…" caption="…" />`, every value escaped. */
  function Enclosure(host: Host, url: string, mime: string, caption: string): (f: Fragment)
    ensures f.EmptyElement? && Name(f) == "enclosure" && |f.attrs| == 3
    ensures f.attrs[0] == Attribute("url", host.escUrl(url))
    ensures f.attrs[1] == Attribute("type", host.escAttr(mime))
    ensures f.attrs[2] == Attribute("caption", host.escAttr(caption))
  {
    EmptyElement("enclosure", [Attribute("url", host.escUrl(url)),
                               Attribute("type", host.escAttr(mime)),
                               Attribute("caption", host.escAttr(caption))])
  }

  function KeywordPart(host: Host, post: FP.Post): (fs: seq<Fragment>)
    ensures forall i :: 0 <= i < |fs| ==> Name(fs[i]) == "gnf:keyword"
  {
    var keywords := Keywords(post.tags);
    if |keywords| > 0 then [Element("gnf:keyword", host.escXml(Implode(keywords, ",")))] else []
  }

  function StatusLine(host: Host, post: FP.Post): Fragment {
    EmptyElement("media:status", [Attribute("state", host.escAttr(post.mediaStatus))])
  }

  /** One gnf:relatedLink; the thumbnail attribute only for a truthy media URL. */
  function RelatedLine(host: Host, link: FP.RelatedLink): (f: Fragment)
    ensures f.EmptyElement? && Name(f) == "gnf:relatedLink"
    ensures AttributeNames(f.attrs) == ["title", "link"] + (if Truthy(link.media) then ["thumbnail"] else [])
    ensures f.attrs[0].value == host.escAttr(link.title) && f.attrs[1].value == host.escUrl(link.url)
    ensures Truthy(link.media) ==> f.attrs[2].value == host.escUrl(link.media)
  {
    var attrs := [Attribute("title", host.escAttr(link.title)), Attribute("link", host.escUrl(link.url))];
    if Truthy(link.media) then
      EmptyElement("gnf:relatedLink", attrs + [Attribute("thumbnail", host.escUrl(link.media))])
    else
      EmptyElement("gnf:relatedLink", attrs)
  }

  const MaxRelatedLinks := 3

  function RelatedPart(host: Host, links: seq<FP.RelatedLink>): (fs: seq<Fragment>)
    ensures |fs| == |links|
  {
    seq(|links|, i requires 0 <= i < |links| => RelatedLine(host, links[i]))
  }

  /** The related links the loop gets to before `2 < $count` stops it. */
  function Shown(links: seq<FP.RelatedLink>): seq<FP.RelatedLink> {
    if |links| <= MaxRelatedLinks then links else links[..MaxRelatedLinks]
  }

  /** The analytics contexts, in the order they are tried. */
  const AnalyticsSuffixes: seq<string> := ["", "_gn", "_lc", "_st"]

  function AnalyticsLine(tag: string, script: string): Fragment {
    Element(tag, "<![CDATA[\n\t\t\t" + script + "\n\t\t]]>")
  }

  /** The line one analytics context contributes: none when the script is empty. */
  function AnalyticsFor(analytics: string -> string, suffix: string): (fs: seq<Fragment>)
    ensures |fs| == (if Truthy(analytics("gnf:analytics" + suffix)) then 1 else 0)
    ensures forall i :: 0 <= i < |fs| ==> Name(fs[i]) == "gnf:analytics" + suffix
  {
    var tag := "gnf:analytics" + suffix;
    if Truthy(analytics(tag)) then [AnalyticsLine(tag, analytics(tag))] else []
  }

  function AnalyticsPart(analytics: string -> string, suffixes: seq<string>): seq<Fragment> {
    if |suffixes| == 0 then []
    else AnalyticsPart(analytics, suffixes[..|suffixes| - 1]) + AnalyticsFor(analytics, suffixes[|suffixes| - 1])
  }

  function ModifiedLine(post: FP.Post): Fragment {
    Element("gnf:modified", post.modified)
  }

  function CategoryLine(host: Host, post: FP.Post): Fragment {
    Element("gnf:category", host.escXml(post.category))
  }

  /** The lines add_rss_items prints before the related links. */
  function ItemHead(host: Host, site: FP.Site, post: FP.Post): seq<Fragment> {
    EnclosurePart(host, site, post)
    + [ModifiedLine(post)]
    + [CategoryLine(host, post)]
    + KeywordPart(host, post)
    + [StatusLine(host, post)]
  }

  /** The lines add_rss_items prints for the current post. */
  function Item(host: Host, site: FP.Site, post: FP.Post): seq<Fragment> {
    ItemHead(host, site, post)
    + RelatedPart(host, Shown(post.related))
    + AnalyticsPart(post.analytics, AnalyticsSuffixes)
  }

  /** The four analytics tags are tried in a fixed order and only non-empty
      scripts produce a line. */
  lemma AnalyticsInFixedOrder(analytics: string -> string)
    ensures AnalyticsPart(analytics, AnalyticsSuffixes)
         == AnalyticsFor(analytics, "") + AnalyticsFor(analytics, "_gn")
            + AnalyticsFor(analytics, "_lc") + AnalyticsFor(analytics, "_st")
  {
    var s := AnalyticsSuffixes;
    var s3, s2, s1 := s[..3], s[..2], s[..1];
    assert s3[..2] == s2 && s2[..1] == s1 && s1[..0] == [];
    assert s[3] == "_st" && s3[2] == "_lc" && s2[1] == "_gn" && s1[0] == "";
    assert AnalyticsPart(analytics, s1) == AnalyticsFor(analytics, "");
    assert AnalyticsPart(analytics, s2) == AnalyticsPart(analytics, s1) + AnalyticsFor(analytics, "_gn");
    assert AnalyticsPart(analytics, s3) == AnalyticsPart(analytics, s2) + AnalyticsFor(analytics, "_lc");
  }

  /** Every analytics tag is 13 or 16 characters long, which tells it apart
      from every other name an item contains. */
  lemma AnalyticsNames(analytics: string -> string)
    ensures forall i :: 0 <= i < |AnalyticsPart(analytics, AnalyticsSuffixes)| ==>
      |Name(AnalyticsPart(analytics, AnalyticsSuffixes)[i])| in {13, 16}
  {
    AnalyticsInFixedOrder(analytics);
    var a, b, c, d := AnalyticsFor(analytics, ""), AnalyticsFor(analytics, "_gn"),
                      AnalyticsFor(analytics, "_lc"), AnalyticsFor(analytics, "_st");
    assert forall i :: 0 <= i < |a + b + c + d| ==>
      (a + b + c + d)[i] in a || (a + b + c + d)[i] in b || (a + b + c + d)[i] in c || (a + b + c + d)[i] in d;
  }

  /** Named distributes over the three parts of an item. */
  lemma NamedItem(host: Host, site: FP.Site, post: FP.Post, name: string)
    ensures Named(Item(host, site, post), name)
         == Named(ItemHead(host, site, post), name)
            + Named(RelatedPart(host, Shown(post.related)), name)
            + Named(AnalyticsPart(post.analytics, AnalyticsSuffixes), name)
  {
    var head := ItemHead(host, site, post);
    var related := RelatedPart(host, Shown(post.related));
    NamedAppend(head + related, AnalyticsPart(post.analytics, AnalyticsSuffixes), name);
    NamedAppend(head, related, name);
  }

  /** Named distributes over the five parts of an item's head. */
  lemma NamedItemHead(host: Host, site: FP.Site, post: FP.Post, name: string)
    ensures Named(ItemHead(host, site, post), name)
         == Named(EnclosurePart(host, site, post), name)
            + Named([ModifiedLine(post)], name)
            + Named([CategoryLine(host, post)], name)
            + Named(KeywordPart(host, post), name)
            + Named([StatusLine(host, post)], name)
  {
    var a := EnclosurePart(host, site, post);
    var b := [ModifiedLine(post)];
    var c := [CategoryLine(host, post)];
    var d := KeywordPart(host, post);
    NamedAppend(a + b + c + d, [StatusLine(host, post)], name);
    NamedAppend(a + b + c, d, name);
    NamedAppend(a + b, c, name);
    NamedAppend(a, b, name);
  }

  lemma EnclosureLacks(host: Host, site: FP.Site, post: FP.Post, name: string)
    requires name != "enclosure"
    ensures Named(EnclosurePart(host, site, post), name) == []
  {
    var encl := EnclosurePart(host, site, post);
    assert forall i :: 0 <= i < |encl| ==> Name(encl[i]) == "enclosure";
    NamedNone(encl, name);
  }

  lemma KeywordLacks(host: Host, post: FP.Post, name: string)
    requires name != "gnf:keyword"
    ensures Named(KeywordPart(host, post), name) == []
  {
    NamedNone(KeywordPart(host, post), name);
  }

  lemma FixedLacks(host: Host, post: FP.Post, name: string)
    requires name != "gnf:modified" && name != "gnf:category" && name != "media:status"
    ensures Named([ModifiedLine(post)], name) == []
    ensures Named([CategoryLine(host, post)], name) == []
    ensures Named([StatusLine(host, post)], name) == []
  {
    NamedSingleton(ModifiedLine(post), name);
    NamedSingleton(CategoryLine(host, post), name);
    NamedSingleton(StatusLine(host, post), name);
  }

  /** Names in an item's head are 9, 11 or 12 characters long. */
  lemma ItemHeadLacks(host: Host, site: FP.Site, post: FP.Post, name: string)
    requires |name| != 9 && |name| != 11 && |name| != 12
    ensures Named(ItemHead(host, site, post), name) == []
  {
    NamedItemHead(host, site, post, name);
    EnclosureLacks(host, site, post, name);
    KeywordLacks(host, post, name);
    FixedLacks(host, post, name);
  }

  lemma RelatedKept(host: Host, links: seq<FP.RelatedLink>)
    ensures Named(RelatedPart(host, links), "gnf:relatedLink") == RelatedPart(host, links)
  {
    NamedAll(RelatedPart(host, links), "gnf:relatedLink");
  }

  lemma RelatedLacks(host: Host, links: seq<FP.RelatedLink>, name: string)
    requires name != "gnf:relatedLink"
    ensures Named(RelatedPart(host, links), name) == []
  {
    NamedNone(RelatedPart(host, links), name);
  }

  lemma AnalyticsLacks(analytics: string -> string, name: string)
    requires |name| != 13 && |name| != 16
    ensures Named(AnalyticsPart(analytics, AnalyticsSuffixes), name) == []
  {
    AnalyticsNames(analytics);
    NamedNone(AnalyticsPart(analytics, AnalyticsSuffixes), name);
  }

  /** Only the item's head carries names of 9, 11 or 12 characters. */
  lemma NamedItemInHead(host: Host, site: FP.Site, post: FP.Post, name: string)
    requires |name| == 9 || |name| == 11 || |name| == 12
    ensures Named(Item(host, site, post), name) == Named(ItemHead(host, site, post), name)
  {
    NamedItem(host, site, post, name);
    RelatedLacks(host, Shown(post.related), name);
    AnalyticsLacks(post.analytics, name);
    OnlyOne(Named(ItemHead(host, site, post), name), Named(RelatedPart(host, Shown(post.related)), name),
            Named(AnalyticsPart(post.analytics, AnalyticsSuffixes), name));
  }

  /** Only the related-links part contributes gnf:relatedLink lines. */
  lemma RelatedNamed(host: Host, site: FP.Site, post: FP.Post)
    ensures Named(Item(host, site, post), "gnf:relatedLink") == RelatedPart(host, Shown(post.related))
  {
    var name := "gnf:relatedLink";
    var related := RelatedPart(host, Shown(post.related));
    ItemHeadLacks(host, site, post, name);
    RelatedKept(host, Shown(post.related));
    AnalyticsLacks(post.analytics, name);
    NamedItem(host, site, post, name);
    OnlyOne(Named(ItemHead(host, site, post), name), related,
            Named(AnalyticsPart(post.analytics, AnalyticsSuffixes), name));
  }

  /** At most three gnf:relatedLink lines are printed: the first three related
      links, in input order. */
  lemma RelatedLinksCapped(host: Host, site: FP.Site, post: FP.Post)
    ensures var shown := Named(Item(host, site, post), "gnf:relatedLink");
      && |shown| == (if |post.related| < MaxRelatedLinks then |post.related| else MaxRelatedLinks)
      && forall k :: 0 <= k < |shown| ==> shown[k] == RelatedLine(host, post.related[k])
  {
    RelatedNamed(host, site, post);
  }

  /** Only the enclosure part contributes enclosure lines. */
  lemma EnclosureRule(host: Host, site: FP.Site, post: FP.Post)
    ensures Named(Item(host, site, post), "enclosure") == EnclosurePart(host, site, post)
  {
    var name := "enclosure";
    var encl := EnclosurePart(host, site, post);
    assert forall i :: 0 <= i < |encl| ==> Name(encl[i]) == "enclosure";
    NamedAll(encl, name);
    KeywordLacks(host, post, name);
    FixedLacks(host, post, name);
    var m, c, k, st := Named([ModifiedLine(post)], name), Named([CategoryLine(host, post)], name),
                       Named(KeywordPart(host, post), name), Named([StatusLine(host, post)], name);
    assert encl + m + c + k + st == encl;
    NamedItemHead(host, site, post, name);
    NamedItemInHead(host, site, post, name);
  }

  /** The keyword line appears exactly when there are keywords, joined by commas. */
  lemma KeywordRule(host: Host, site: FP.Site, post: FP.Post)
    ensures Named(Item(host, site, post), "gnf:keyword")
         == (if |Keywords(post.tags)| > 0
             then [Element("gnf:keyword", host.escXml(Implode(Keywords(post.tags), ",")))]
             else [])
  {
    var name := "gnf:keyword";
    NamedItemInHead(host, site, post, name);
    NamedItemHead(host, site, post, name);
    EnclosureLacks(host, site, post, name);
    var keywords := KeywordPart(host, post);
    NamedAll(keywords, name);
    FixedLacks(host, post, name);
    var e, m, c := Named(EnclosurePart(host, site, post), name), Named([ModifiedLine(post)], name),
                   Named([CategoryLine(host, post)], name);
    assert e + m + c == [];
    assert [] + keywords == keywords;
    assert keywords + Named([StatusLine(host, post)], name) == keywords;
  }

  /** A twelve-character name can only come from the fixed lines of an item. */
  lemma NamedItemFixed(host: Host, site: FP.Site, post: FP.Post, name: string)
    requires |name| == 12
    ensures Named(Item(host, site, post), name)
         == Named([ModifiedLine(post)], name) + Named([CategoryLine(host, post)], name)
            + Named([StatusLine(host, post)], name)
  {
    var m := Named([ModifiedLine(post)], name);
    var c := Named([CategoryLine(host, post)], name);
    var st := Named([StatusLine(host, post)], name);
    NamedItemInHead(host, site, post, name);
    NamedItemHead(host, site, post, name);
    EnclosureLacks(host, site, post, name);
    KeywordLacks(host, post, name);
    assert [] + m == m;
    assert m + c + [] == m + c;
  }

  /** Each of the three fixed lines is kept by its own name only. */
  lemma FixedNamed(host: Host, post: FP.Post, name: string)
    ensures Named([ModifiedLine(post)], name) == if name == "gnf:modified" then [ModifiedLine(post)] else []
    ensures Named([CategoryLine(host, post)], name) == if name == "gnf:category" then [CategoryLine(host, post)] else []
    ensures Named([StatusLine(host, post)], name) == if name == "media:status" then [StatusLine(host, post)] else []
  {
    NamedSingleton(ModifiedLine(post), name);
    NamedSingleton(CategoryLine(host, post), name);
    NamedSingleton(StatusLine(host, post), name);
  }

  /** Of three parts, one is the whole when the other two are empty. */
  lemma OnlyOne(a: seq<Fragment>, b: seq<Fragment>, c: seq<Fragment>)
    ensures a == [] && c == [] ==> a + b + c == b
    ensures b == [] && c == [] ==> a + b + c == a
    ensures a == [] && b == [] ==> a + b + c == c
  {
  }

  /** Every item carries exactly one gnf:modified line. */
  lemma ModifiedOnce(host: Host, site: FP.Site, post: FP.Post)
    ensures Named(Item(host, site, post), "gnf:modified") == [ModifiedLine(post)]
  {
    FixedNamed(host, post, "gnf:modified");
    NamedItemFixed(host, site, post, "gnf:modified");
    OnlyOne(Named([ModifiedLine(post)], "gnf:modified"), Named([CategoryLine(host, post)], "gnf:modified"),
            Named([StatusLine(host, post)], "gnf:modified"));
  }

  /** Every item carries exactly one gnf:category line. */
  lemma CategoryOnce(host: Host, site: FP.Site, post: FP.Post)
    ensures Named(Item(host, site, post), "gnf:category") == [CategoryLine(host, post)]
  {
    FixedNamed(host, post, "gnf:category");
    NamedItemFixed(host, site, post, "gnf:category");
    OnlyOne(Named([ModifiedLine(post)], "gnf:category"), Named([CategoryLine(host, post)], "gnf:category"),
            Named([StatusLine(host, post)], "gnf:category"));
  }

  /** Every item carries exactly one media:status line. */
  lemma StatusOnce(host: Host, site: FP.Site, post: FP.Post)
    ensures Named(Item(host, site, post), "media:status") == [StatusLine(host, post)]
  {
    FixedNamed(host, post, "media:status");
    NamedItemFixed(host, site, post, "media:status");
    OnlyOne(Named([ModifiedLine(post)], "media:status"), Named([CategoryLine(host, post)], "media:status"),
            Named([StatusLine(host, post)], "media:status"));
  }

  /** Builds add_rss_items' lines step by step, as the source does. */
  method ItemLines(host: Host, site: FP.Site, post: FP.Post) returns (lines: seq<string>)
    ensures lines == RenderAll(Item(host, site, post))
  {
    var head := ItemHeadLines(host, site, post);
    var related := RelatedLines(host, post.related);
    var analytics := AnalyticsLines(post.analytics);
    RenderAllAppend(ItemHead(host, site, post), RelatedPart(host, Shown(post.related)));
    RenderAllAppend(ItemHead(host, site, post) + RelatedPart(host, Shown(post.related)),
                    AnalyticsPart(post.analytics, AnalyticsSuffixes));
    lines := head + related + analytics;
  }

  /** The enclosure, modified, category, keyword and status lines of add_rss_items. */
  method ItemHeadLines(host: Host, site: FP.Site, post: FP.Post) returns (lines: seq<string>)
    ensures lines == RenderAll(ItemHead(host, site, post))
  {
    lines := EnclosureLines(host, site, post);
    ghost var fs := EnclosurePart(host, site, post);
    lines := lines + [Render(ModifiedLine(post))];
    RenderAllSnoc(fs, ModifiedLine(post));
    fs := fs + [ModifiedLine(post)];
    lines := lines + [Render(CategoryLine(host, post))];
    RenderAllSnoc(fs, CategoryLine(host, post));
    fs := fs + [CategoryLine(host, post)];
    var keywords := Keywords(post.tags);
    if |keywords| > 0 {
      lines := lines + [Render(Element("gnf:keyword", host.escXml(Implode(keywords, ","))))];
    }
    RenderAllAppend(fs, KeywordPart(host, post));
    fs := fs + KeywordPart(host, post);
    lines := lines + [Render(StatusLine(host, post))];
    RenderAllSnoc(fs, StatusLine(host, post));
  }

  /** The attachment of add_rss_items: the post thumbnail, or else the default
      thumbnail with an empty caption and a type guessed from its extension. */
  method EnclosureLines(host: Host, site: FP.Site, post: FP.Post) returns (lines: seq<string>)
    ensures lines == RenderAll(EnclosurePart(host, site, post))
  {
    lines := [];
    var attachment: string;
    var mime := "";
    var caption := "";
    if post.thumbnail.Some? {
      attachment := post.thumbnail.value.url;
      mime := post.thumbnail.value.mime;
      caption := post.thumbnail.value.caption;
    } else {
      attachment := site.defaultThumbnail;
      if Truthy(attachment) {
        caption := "";
        mime := FP.MimeFromExtension(attachment);
      }
    }
    if Truthy(attachment) {
      var enclosure := Enclosure(host, attachment, mime, caption);
      lines := lines + [Render(enclosure)];
      RenderAllSingle(enclosure);
    }
  }

  /** The related-links loop of add_rss_items: it stops once `2 < $count`. */
  method RelatedLines(host: Host, related: seq<FP.RelatedLink>) returns (lines: seq<string>)
    ensures lines == RenderAll(RelatedPart(host, Shown(related)))
  {
    lines := [];
    if |related| > 0 {
      var count := 0;
      var i := 0;
      while i < |related|
        invariant 0 <= i <= |related| && count == i <= MaxRelatedLinks
        invariant lines == RenderAll(RelatedPart(host, related[..i]))
      {
        if 2 < count {
          break;
        }
        assert RelatedPart(host, related[..i + 1]) == RelatedPart(host, related[..i]) + [RelatedLine(host, related[i])];
        RenderAllAppend(RelatedPart(host, related[..i]), [RelatedLine(host, related[i])]);
        lines := lines + [Render(RelatedLine(host, related[i]))];
        count := count + 1;
        i := i + 1;
      }
      assert related[..i] == Shown(related);
    }
  }

  /** The analytics loop of add_rss_items, over the four contexts in order. */
  method AnalyticsLines(analytics: string -> string) returns (lines: seq<string>)
    ensures lines == RenderAll(AnalyticsPart(analytics, AnalyticsSuffixes))
  {
    lines := [];
    for k := 0 to |AnalyticsSuffixes|
      invariant lines == RenderAll(AnalyticsPart(analytics, AnalyticsSuffixes[..k]))
    {
      assert AnalyticsSuffixes[..k + 1][..k] == AnalyticsSuffixes[..k];
      var tag := "gnf:analytics" + AnalyticsSuffixes[k];
      var script := analytics(tag);
      RenderAllAppend(AnalyticsPart(analytics, AnalyticsSuffixes[..k]), AnalyticsFor(analytics, AnalyticsSuffixes[k]));
      if Truthy(script) {
        lines := lines + [Render(AnalyticsLine(tag, script))];
      }
    }
    assert AnalyticsSuffixes[..|AnalyticsSuffixes|] == AnalyticsSuffixes;
  }

  /** The `rss2_item` callback. */
  method AddRssItems(out: Response, host: Host, site: FP.Site, post: FP.Post)
    modifies out
    ensures out.chunks == old(out.chunks)
                          + FP.LineOutput(FP.Many(RenderAll(Item(host, site, post))), 2, "", "\n")
  {
    var lines := ItemLines(host, site, post);
    FP.Line(out, FP.Many(lines), 2, "", "\n");
  }
}
