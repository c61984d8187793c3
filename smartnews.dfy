/**
  The SmartNews RSS2 extension (SmartNews.php): the snf namespace, the extra
  channel elements after the standard RSS2 head, the extra elements in every
  item, and the two public helpers that build sponsored-link and ad-content
  markup for the advertisement filter. Channel and item lines are specified
  as fragment lists (Head, Item); the methods build the same lines as strings
  and print them with `line`.
 */
module SmartNews {
  import opened Php
  import opened WordPress
  import opened Markup
  import FP = FeedPattern

  const Namespace := "xmlns:snf=\"http://www.smartnews.be/snf\""

  /** The `rss2_ns` callback: the media namespace first, then snf. */
  method AddNamespace(out: Response)
    modifies out
    ensures out.chunks == old(out.chunks)
                          + FP.LineOutput(FP.Many([FP.MediaNamespace, Namespace]), 1, "", "\n")
  {
    FP.Line(out, FP.Many([FP.MediaNamespace, Namespace]), 1, "", "\n");
  }

  // --------------------------------------------------------------- channel

  function CopyrightPart(host: Host, site: FP.Site): seq<Fragment> {
    if Truthy(site.info.copyright) then [Element("copyright", host.escXml(site.info.copyright))] else []
  }

  /** `<snf:logo><url>…</url></snf:logo>`: the url element nested in the logo element. */
  function Logo(host: Host, icon: string): Fragment {
    Element("snf:logo", Render(Element("url", host.escXml(icon))))
  }

  function LogoPart(host: Host, site: FP.Site): seq<Fragment> {
    if Truthy(site.info.siteIcon) then [Logo(host, site.info.siteIcon)] else []
  }

  /** The lines add_rss_head prints; `latest` is the feed's latest GMT post date. */
  function Head(host: Host, site: FP.Site, latest: string): seq<Fragment> {
    [Element("pubDate", host.atomDate(latest))]
    + CopyrightPart(host, site)
    + [Element("ttl", IntToString(site.ttl))]
    + LogoPart(host, site)
  }

  /** pubDate comes first; copyright follows only for a truthy copyright text;
      ttl is always there; the logo closes the list exactly when the site icon
      is truthy, otherwise ttl is last. */
  lemma HeadLayout(host: Host, site: FP.Site, latest: string)
    ensures var fs := Head(host, site, latest);
      var copy := if Truthy(site.info.copyright) then 1 else 0;
      && |fs| == 2 + copy + (if Truthy(site.info.siteIcon) then 1 else 0)
      && fs[0] == Element("pubDate", host.atomDate(latest))
      && (Truthy(site.info.copyright) ==> fs[1] == Element("copyright", host.escXml(site.info.copyright)))
      && fs[1 + copy] == Element("ttl", IntToString(site.ttl))
      && (Truthy(site.info.siteIcon) ==> fs[|fs| - 1] == Logo(host, site.info.siteIcon))
  {
  }

  /** The `rss2_head` callback. */
  method AddRssHead(out: Response, host: Host, site: FP.Site)
    modifies out
    ensures out.chunks == old(out.chunks)
      + FP.LineOutput(FP.Many(RenderAll(Head(host, site, FP.LatestGmtDate(site.postDates, site.now)))), 1, "\t", "\n")
  {
    var latest := FP.GetLatestGmtDateInFeed(site.postDates, site.now);
    var lines := HeadLines(host, site, latest);
    FP.Line(out, FP.Many(lines), 1, "\t", "\n");
  }

  /** The channel lines add_rss_head collects before printing them. */
  method HeadLines(host: Host, site: FP.Site, latest: string) returns (lines: seq<string>)
    ensures lines == RenderAll(Head(host, site, latest))
  {
    var date := host.atomDate(latest);
    lines := [Render(Element("pubDate", date))];
    RenderAllSingle(Element("pubDate", date));
    ghost var fs := [Element("pubDate", date)];
    var copy := site.info.copyright;
    if Truthy(copy) {
      var copyright := Element("copyright", host.escXml(copy));
      lines := lines + [Render(copyright)];
      RenderAllSnoc(fs, copyright);
    } else {
      assert fs + CopyrightPart(host, site) == fs;
    }
    fs := fs + CopyrightPart(host, site);
    var ttl := Element("ttl", IntToString(site.ttl));
    lines := lines + [Render(ttl)];
    RenderAllSnoc(fs, ttl);
    fs := fs + [ttl];
    var media := site.info.siteIcon;
    if Truthy(media) {
      lines := lines + [Render(Logo(host, media))];
      RenderAllSnoc(fs, Logo(host, media));
    } else {
      assert fs + LogoPart(host, site) == fs;
    }
  }

  // ------------------------------------------------------------------ item

  /** `<media:thumbnail url="…" />`. */
  function ThumbnailLine(host: Host, url: string): Fragment {
    EmptyElement("media:thumbnail", [Attribute("url", host.escUrl(url))])
  }

  /** The thumbnail line: present exactly for a truthy attachment URL. */
  function ThumbnailPart(host: Host, site: FP.Site, post: FP.Post): (fs: seq<Fragment>)
    ensures |fs| == (if Truthy(FP.Attachment(site, post)) then 1 else 0)
    ensures |fs| == 1 ==> fs[0] == ThumbnailLine(host, FP.Attachment(site, post))
  {
    var url := FP.Attachment(site, post);
    if Truthy(url) then [ThumbnailLine(host, url)] else []
  }

  /** One snf:relatedLink; the thumbnail attribute only for a truthy media URL. */
  function RelatedLine(host: Host, link: FP.RelatedLink): (f: Fragment)
    ensures f.EmptyElement? && Name(f) == "snf:relatedLink"
    ensures AttributeNames(f.attrs) == ["title", "link"] + (if Truthy(link.media) then ["thumbnail"] else [])
    ensures f.attrs[0].value == host.escAttr(link.title) && f.attrs[1].value == host.escUrl(link.url)
    ensures Truthy(link.media) ==> f.attrs[2].value == host.escUrl(link.media)
  {
    var attrs := [Attribute("title", host.escAttr(link.title)), Attribute("link", host.escUrl(link.url))];
    if Truthy(link.media) then
      EmptyElement("snf:relatedLink", attrs + [Attribute("thumbnail", host.escUrl(link.media))])
    else
      EmptyElement("snf:relatedLink", attrs)
  }

  /** Every related link, in input order: SmartNews has no cap. */
  function RelatedPart(host: Host, links: seq<FP.RelatedLink>): (fs: seq<Fragment>)
    ensures |fs| == |links|
  {
    seq(|links|, i requires 0 <= i < |links| => RelatedLine(host, links[i]))
  }

  /** The advertisement wraps the raw ad markup, indented for the item. */
  function AdLine(ad: string): Fragment {
    Element("snf:advertisement", "\n\t\t\t" + ad + "\n\t\t")
  }

  function AdPart(post: FP.Post): seq<Fragment> {
    if Truthy(post.ads("")) then [AdLine(post.ads(""))] else []
  }

  /** The analytics script inside a CDATA section, as analytics_script prints it. */
  function AnalyticsLine(script: string): Fragment {
    Element("snf:analytics", "<![CDATA[\n\t\t\t" + script + "\n\t\t]]>")
  }

  function AnalyticsPart(post: FP.Post): seq<Fragment> {
    if Truthy(post.analytics("")) then [AnalyticsLine(post.analytics(""))] else []
  }

  const StatusLine := Element("media:status", "active")

  /** The lines add_rss_items prints for the current post. */
  function Item(host: Host, site: FP.Site, post: FP.Post): seq<Fragment> {
    ThumbnailPart(host, site, post)
    + RelatedPart(host, post.related)
    + AdPart(post)
    + AnalyticsPart(post)
    + [StatusLine]
  }

  /** The thumbnail (if any) opens the item, every related link follows in
      input order, and the active status always closes it. */
  lemma ItemLayout(host: Host, site: FP.Site, post: FP.Post)
    ensures var fs := Item(host, site, post);
      var t := |ThumbnailPart(host, site, post)|;
      && |fs| == t + |post.related| + |AdPart(post)| + |AnalyticsPart(post)| + 1
      && (Truthy(FP.Attachment(site, post)) ==> fs[0] == ThumbnailLine(host, FP.Attachment(site, post)))
      && (forall k :: 0 <= k < |post.related| ==> fs[t + k] == RelatedLine(host, post.related[k]))
      && fs[|fs| - 1] == StatusLine
  {
    var thumb := ThumbnailPart(host, site, post);
    var front := thumb + RelatedPart(host, post.related);
    var fs := Item(host, site, post);
    assert fs[..|front|] == front;
    forall k | 0 <= k < |post.related|
      ensures fs[|thumb| + k] == RelatedLine(host, post.related[k])
    {
      assert fs[|thumb| + k] == front[|thumb| + k];
    }
  }

  /** When both are present, the advertisement comes right before the analytics line. */
  lemma AdBeforeAnalytics(host: Host, site: FP.Site, post: FP.Post)
    requires Truthy(post.ads("")) && Truthy(post.analytics(""))
    ensures var fs := Item(host, site, post);
      var at := |ThumbnailPart(host, site, post)| + |post.related|;
      && at + 1 < |fs|
      && fs[at] == AdLine(post.ads(""))
      && fs[at + 1] == AnalyticsLine(post.analytics(""))
  {
    var front := ThumbnailPart(host, site, post) + RelatedPart(host, post.related);
    var fs := Item(host, site, post);
    assert fs == front + [AdLine(post.ads(""))] + [AnalyticsLine(post.analytics(""))] + [StatusLine];
  }

  /** Named distributes over the five parts of an item. */
  lemma NamedItem(host: Host, site: FP.Site, post: FP.Post, name: string)
    ensures Named(Item(host, site, post), name)
         == Named(ThumbnailPart(host, site, post), name)
            + Named(RelatedPart(host, post.related), name)
            + Named(AdPart(post), name)
            + Named(AnalyticsPart(post), name)
            + Named([StatusLine], name)
  {
    var a := ThumbnailPart(host, site, post);
    var b := RelatedPart(host, post.related);
    var c := AdPart(post);
    var d := AnalyticsPart(post);
    NamedAppend(a + b + c + d, [StatusLine], name);
    NamedAppend(a + b + c, d, name);
    NamedAppend(a + b, c, name);
    NamedAppend(a, b, name);
  }

  lemma ThumbnailLacks(host: Host, site: FP.Site, post: FP.Post, name: string)
    requires name != "media:thumbnail"
    ensures Named(ThumbnailPart(host, site, post), name) == []
  {
    var thumb := ThumbnailPart(host, site, post);
    assert forall i :: 0 <= i < |thumb| ==> Name(thumb[i]) == "media:thumbnail";
    NamedNone(thumb, name);
  }

  lemma RelatedLacks(host: Host, links: seq<FP.RelatedLink>, name: string)
    requires name != "snf:relatedLink"
    ensures Named(RelatedPart(host, links), name) == []
  {
    NamedNone(RelatedPart(host, links), name);
  }

  lemma AdLacks(post: FP.Post, name: string)
    requires name != "snf:advertisement"
    ensures Named(AdPart(post), name) == []
  {
    NamedNone(AdPart(post), name);
  }

  lemma AnalyticsLacks(post: FP.Post, name: string)
    requires name != "snf:analytics"
    ensures Named(AnalyticsPart(post), name) == []
  {
    NamedNone(AnalyticsPart(post), name);
  }

  lemma StatusLacks(name: string)
    requires name != "media:status"
    ensures Named([StatusLine], name) == []
  {
    NamedSingleton(StatusLine, name);
  }

  /** Only the thumbnail part contributes media:thumbnail lines. */
  lemma ThumbnailRule(host: Host, site: FP.Site, post: FP.Post)
    ensures Named(Item(host, site, post), "media:thumbnail")
         == (if Truthy(FP.Attachment(site, post)) then [ThumbnailLine(host, FP.Attachment(site, post))] else [])
  {
    var name := "media:thumbnail";
    var thumb := ThumbnailPart(host, site, post);
    assert forall i :: 0 <= i < |thumb| ==> Name(thumb[i]) == name;
    NamedAll(thumb, name);
    RelatedLacks(host, post.related, name);
    AdLacks(post, name);
    AnalyticsLacks(post, name);
    StatusLacks(name);
    var r, ad, an, st := Named(RelatedPart(host, post.related), name), Named(AdPart(post), name),
                         Named(AnalyticsPart(post), name), Named([StatusLine], name);
    assert thumb + r == thumb;
    assert thumb + ad == thumb;
    assert thumb + an == thumb;
    assert thumb + st == thumb;
    NamedItem(host, site, post, name);
  }

  /** Every related link is printed, in input order, however many there are. */
  lemma RelatedRule(host: Host, site: FP.Site, post: FP.Post)
    ensures var shown := Named(Item(host, site, post), "snf:relatedLink");
      && |shown| == |post.related|
      && forall k :: 0 <= k < |shown| ==> shown[k] == RelatedLine(host, post.related[k])
  {
    var name := "snf:relatedLink";
    var related := RelatedPart(host, post.related);
    ThumbnailLacks(host, site, post, name);
    NamedAll(related, name);
    AdLacks(post, name);
    AnalyticsLacks(post, name);
    StatusLacks(name);
    NamedItem(host, site, post, name);
    OnlyPart(Named(ThumbnailPart(host, site, post), name), related, Named(AdPart(post), name),
             Named(AnalyticsPart(post), name), Named([StatusLine], name));
  }

  /** The advertisement is printed exactly when the ad markup is non-empty. */
  lemma AdRule(host: Host, site: FP.Site, post: FP.Post)
    ensures Named(Item(host, site, post), "snf:advertisement")
         == (if Truthy(post.ads("")) then [AdLine(post.ads(""))] else [])
  {
    var name := "snf:advertisement";
    var ad := AdPart(post);
    ThumbnailLacks(host, site, post, name);
    RelatedLacks(host, post.related, name);
    NamedAll(ad, name);
    AnalyticsLacks(post, name);
    StatusLacks(name);
    NamedItem(host, site, post, name);
    OnlyPart(Named(ThumbnailPart(host, site, post), name), Named(RelatedPart(host, post.related), name), ad,
             Named(AnalyticsPart(post), name), Named([StatusLine], name));
  }

  /** The analytics line is printed exactly when the analytics script is non-empty. */
  lemma AnalyticsRule(host: Host, site: FP.Site, post: FP.Post)
    ensures Named(Item(host, site, post), "snf:analytics")
         == (if Truthy(post.analytics("")) then [AnalyticsLine(post.analytics(""))] else [])
  {
    var name := "snf:analytics";
    var an := AnalyticsPart(post);
    ThumbnailLacks(host, site, post, name);
    RelatedLacks(host, post.related, name);
    AdLacks(post, name);
    NamedAll(an, name);
    StatusLacks(name);
    NamedItem(host, site, post, name);
    OnlyPart(Named(ThumbnailPart(host, site, post), name), Named(RelatedPart(host, post.related), name),
             Named(AdPart(post), name), an, Named([StatusLine], name));
  }

  /** Of five parts, one is the whole when the other four are empty. */
  lemma OnlyPart(a: seq<Fragment>, b: seq<Fragment>, c: seq<Fragment>, d: seq<Fragment>, e: seq<Fragment>)
    ensures a == [] && c == [] && d == [] && e == [] ==> a + b + c + d + e == b
    ensures a == [] && b == [] && d == [] && e == [] ==> a + b + c + d + e == c
    ensures a == [] && b == [] && c == [] && e == [] ==> a + b + c + d + e == d
  {
  }

  /** Every item carries exactly one media:status line, and it is active. */
  lemma StatusOnce(host: Host, site: FP.Site, post: FP.Post)
    ensures Named(Item(host, site, post), "media:status") == [Element("media:status", "active")]
  {
    var name := "media:status";
    ThumbnailLacks(host, site, post, name);
    RelatedLacks(host, post.related, name);
    AdLacks(post, name);
    AnalyticsLacks(post, name);
    NamedSingleton(StatusLine, name);
    var th, r, ad, an := Named(ThumbnailPart(host, site, post), name), Named(RelatedPart(host, post.related), name),
                         Named(AdPart(post), name), Named(AnalyticsPart(post), name);
    assert th + r + ad + an == [];
    assert [] + [StatusLine] == [StatusLine];
    NamedItem(host, site, post, name);
  }

  /** The `rss2_item` callback. */
  method AddRssItems(out: Response, host: Host, site: FP.Site, post: FP.Post)
    modifies out
    ensures out.chunks == old(out.chunks)
                          + FP.LineOutput(FP.Many(RenderAll(Item(host, site, post))), 2, "", "\n")
  {
    var lines := ItemLines(host, site, post);
    FP.Line(out, FP.Many(lines), 2, "", "\n");
  }

  /** Builds add_rss_items' lines step by step, as the source does. */
  method ItemLines(host: Host, site: FP.Site, post: FP.Post) returns (lines: seq<string>)
    ensures lines == RenderAll(Item(host, site, post))
  {
    lines := ThumbnailLines(host, site, post);
    ghost var fs := ThumbnailPart(host, site, post);
    var related := RelatedLines(host, post.related);
    lines := lines + related;
    RenderAllAppend(fs, RelatedPart(host, post.related));
    fs := fs + RelatedPart(host, post.related);
    var ad := post.ads("");
    if Truthy(ad) {
      lines := lines + [Render(AdLine(ad))];
      RenderAllSnoc(fs, AdLine(ad));
    } else {
      assert fs + AdPart(post) == fs;
    }
    fs := fs + AdPart(post);
    var analytics := post.analytics("");
    if Truthy(analytics) {
      lines := lines + [AnalyticsScript(analytics)];
      RenderAllSnoc(fs, AnalyticsLine(analytics));
    } else {
      assert fs + AnalyticsPart(post) == fs;
    }
    fs := fs + AnalyticsPart(post);
    lines := lines + [Render(StatusLine)];
    RenderAllSnoc(fs, StatusLine);
  }

  /** The attachment of add_rss_items: the post thumbnail, else the default thumbnail. */
  method ThumbnailLines(host: Host, site: FP.Site, post: FP.Post) returns (lines: seq<string>)
    ensures lines == RenderAll(ThumbnailPart(host, site, post))
  {
    lines := [];
    var attachment: string;
    if post.thumbnail.Some? {
      attachment := post.thumbnail.value.url;
    } else {
      attachment := site.defaultThumbnail;
    }
    if Truthy(attachment) {
      lines := lines + [Render(ThumbnailLine(host, attachment))];
      RenderAllSingle(ThumbnailLine(host, attachment));
    }
  }

  /** The related-links loop of add_rss_items, over every link. */
  method RelatedLines(host: Host, related: seq<FP.RelatedLink>) returns (lines: seq<string>)
    ensures lines == RenderAll(RelatedPart(host, related))
  {
    lines := [];
    if |related| > 0 {
      for i := 0 to |related|
        invariant lines == RenderAll(RelatedPart(host, related[..i]))
      {
        assert RelatedPart(host, related[..i + 1]) == RelatedPart(host, related[..i]) + [RelatedLine(host, related[i])];
        RenderAllSnoc(RelatedPart(host, related[..i]), RelatedLine(host, related[i]));
        lines := lines + [Render(RelatedLine(host, related[i]))];
      }
      assert related[..|related|] == related;
    }
  }

  // --------------------------------------------------------- public helpers

  /** ad_link: an snf:sponsoredLink; the thumbnail attribute only for a truthy media URL. */
  function AdLink(host: Host, title: string, url: string, advertiser: string, media: string): (f: Fragment)
    ensures f.EmptyElement? && Name(f) == "snf:sponsoredLink"
    ensures AttributeNames(f.attrs) == ["title", "link", "advertiser"] + (if Truthy(media) then ["thumbnail"] else [])
    ensures f.attrs[0].value == host.escAttr(title) && f.attrs[1].value == host.escUrl(url)
    ensures f.attrs[2].value == host.escAttr(advertiser)
    ensures Truthy(media) ==> f.attrs[3].value == host.escUrl(media)
  {
    var attrs := [Attribute("title", host.escAttr(title)), Attribute("link", host.escUrl(url)),
                  Attribute("advertiser", host.escAttr(advertiser))];
    if Truthy(media) then
      EmptyElement("snf:sponsoredLink", attrs + [Attribute("thumbnail", host.escUrl(media))])
    else
      EmptyElement("snf:sponsoredLink", attrs)
  }

  const AdScriptOpen := "\t\t\t<snf:adcontent><![CDATA[\n\t\t\t\t"
  const AdScriptClose := "\n\t\t\t]]></snf:adcontent>"

  /** ad_script: the script wrapped in an indented snf:adcontent CDATA section. */
  function AdScript(script: string): string {
    AdScriptOpen + script + AdScriptClose
  }

  /** analytics_script: the script in a CDATA section inside snf:analytics, which
      is exactly the item's analytics line. */
  function AnalyticsScript(script: string): string {
    Render(AnalyticsLine(script))
  }

  /** ad_script loses nothing: the script is recoverable from its markup. */
  lemma AdScriptInjective(a: string, b: string)
    ensures AdScript(a) == AdScript(b) ==> a == b
  {
    Unwrap(AdScriptOpen, a, AdScriptClose);
    Unwrap(AdScriptOpen, b, AdScriptClose);
  }

  /** analytics_script loses nothing: the script is recoverable from its markup. */
  lemma AnalyticsScriptInjective(a: string, b: string)
    ensures AnalyticsScript(a) == AnalyticsScript(b) ==> a == b
  {
    if AnalyticsScript(a) == AnalyticsScript(b) {
      var cdataOpen, cdataClose := "<![CDATA[\n\t\t\t", "\n\t\t]]>";
      ElementTextInjective("snf:analytics", cdataOpen + a + cdataClose, cdataOpen + b + cdataClose);
      Unwrap(cdataOpen, a, cdataClose);
      Unwrap(cdataOpen, b, cdataClose);
    }
  }
}
