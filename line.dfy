/**
  The LINE News feed (Line.php), a private feed that prints its whole
  document: the rss and channel elements with the channel description, one
  item per post from an inline PHP template, and the closing tags. Item
  output is specified chunk by chunk: every literal run of the template and
  every `echo` or template tag is one chunk.
 */
module LineNews {
  import opened Php
  import opened WordPress
  import opened Markup
  import FP = FeedPattern
  import PFP = PrivateFeedPattern

  // ------------------------------------------------------ head and footer

  /** An opening tag with attributes. */
  datatype Tag = Tag(name: string, attrs: seq<Attribute>)

  function OpenTag(t: Tag): string {
    "<" + t.name + AttributeText(t.attrs) + ">"
  }

  const Rss := Tag("rss", [Attribute("version", "2.0"), Attribute("xmlns:oa", "http://news.line.me/rss/1.0/oa")])
  const Channel := Tag("channel", [])

  /** title, link, description and language of the channel, in that order. */
  function ChannelInfo(host: Host, site: FP.Site): seq<Fragment> {
    [Element("title", "<![CDATA[ " + site.rssTitle + " ]]>"),
     Element("link", host.escUrl(site.rssBlogUrl)),
     Element("description", "<![CDATA[ " + site.rssDescription + " ]]>"),
     Element("language", FP.LangCode(site.locale))]
  }

  /** What render_head prints. */
  function HeadChunks(host: Host, site: FP.Site): seq<string> {
    FP.LineOutput(FP.One(OpenTag(Rss)), 0, "", "\n")
    + FP.LineOutput(FP.One(OpenTag(Channel)), 1, "", "\n")
    + FP.LineOutput(FP.Many(RenderAll(ChannelInfo(host, site))), 2, "", "\n")
  }

  /** What render_footer prints. */
  function FooterChunks(): seq<string> {
    FP.LineOutput(FP.One(Render(Close(Channel.name))), 1, "", "\n")
    + FP.LineOutput(FP.One(Render(Close(Rss.name))), 0, "", "\n")
  }

  /** The head opens rss and then channel, followed by the four channel lines
      joined at two tabs. */
  lemma HeadOpens(host: Host, site: FP.Site)
    ensures HeadChunks(host, site)
         == ["", OpenTag(Rss), "\n", "", OpenTag(Channel), "\n",
             "", Implode(RenderAll(ChannelInfo(host, site)), "\n\t\t"), "\n"]
  {
    assert FP.Glue(2) == "\n\t\t";
  }

  /** The footer closes channel and then rss, the reverse of the order the head opened them. */
  lemma FooterCloses()
    ensures FooterChunks() == ["", Render(Close(Channel.name)), "\n", "", Render(Close(Rss.name)), "\n"]
    ensures OpenTag(Channel) == "<channel>" && Render(Close(Channel.name)) == "</channel>"
    ensures Rss.name == "rss" && Render(Close(Rss.name)) == "</rss>"
  {
  }

  /** The channel description keeps its order: title, link, description, language. */
  lemma ChannelInfoOrder(host: Host, site: FP.Site)
    ensures var info := ChannelInfo(host, site);
      |info| == 4 && Name(info[0]) == "title" && Name(info[1]) == "link"
      && Name(info[2]) == "description" && Name(info[3]) == "language"
      && info[1].text == host.escUrl(site.rssBlogUrl) && info[3].text == FP.LangCode(site.locale)
  {
  }

  method RenderHead(out: Response, host: Host, site: FP.Site)
    modifies out
    ensures out.chunks == old(out.chunks) + HeadChunks(host, site)
  {
    FP.Line(out, FP.One(OpenTag(Rss)), 0, "", "\n");
    FP.Line(out, FP.One(OpenTag(Channel)), 1, "", "\n");
    var info := [Render(Element("title", "<![CDATA[ " + site.rssTitle + " ]]>")),
                 Render(Element("link", host.escUrl(site.rssBlogUrl))),
                 Render(Element("description", "<![CDATA[ " + site.rssDescription + " ]]>")),
                 Render(Element("language", FP.LangCode(site.locale)))];
    assert info == RenderAll(ChannelInfo(host, site));
    FP.Line(out, FP.Many(info), 2, "", "\n");
  }

  method RenderFooter(out: Response)
    modifies out
    ensures out.chunks == old(out.chunks) + FooterChunks()
  {
    FP.Line(out, FP.One(Render(Close(Channel.name))), 1, "", "\n");
    FP.Line(out, FP.One(Render(Close(Rss.name))), 0, "", "\n");
  }

  // ---------------------------------------------------------------- status

  /** get_news_status with its filter left at its default. */
  function NewsStatus(postStatus: string): (status: int)
    ensures status == 2 || status == 0
    ensures status == 2 <==> postStatus == "publish"
  {
    if "publish" != postStatus then 0 else 2
  }

  /** get_news_category with its filter left at its default. */
  const NewsCategory := 3

  // ------------------------------------------------------------------ MIME

  /** The subtype render_item derives from an extension: only jpg is renamed. */
  function Subtype(ext: string): (sub: string)
    ensures ext == "jpg" ==> sub == "jpeg"
    ensures ext != "jpg" ==> sub == ext
  {
    if ext == "jpg" then "jpeg" else ext
  }

  /** The MIME type render_item guesses for the default thumbnail. */
  function DefaultThumbnailMime(url: string): (mime: string)
    ensures |mime| >= 6 && mime[..6] == "image/"
    ensures mime[6..] == Subtype(FP.Extension(url))
  {
    "image/" + Subtype(FP.Extension(url))
  }

  /** The MIME type render_item uses: the thumbnail's own, else a guess from the
      default thumbnail's extension, else empty when there is no default. */
  function ImageMime(site: FP.Site, post: FP.Post): (mime: string)
    ensures post.thumbnail.Some? ==> mime == post.thumbnail.value.mime
    ensures post.thumbnail.None? && Truthy(site.defaultThumbnail) ==> mime == DefaultThumbnailMime(site.defaultThumbnail)
    ensures post.thumbnail.None? && !Truthy(site.defaultThumbnail) ==> mime == ""
  {
    match post.thumbnail
    case Some(t) => t.mime
    case None => if Truthy(site.defaultThumbnail) then DefaultThumbnailMime(site.defaultThumbnail) else ""
  }

  /** The guess from the default thumbnail is never falsy, so for posts without
      a thumbnail the enclosure depends on the default thumbnail URL alone. */
  lemma DefaultMimeTruthy(url: string)
    ensures Truthy(DefaultThumbnailMime(url))
  {
    var mime := DefaultThumbnailMime(url);
    assert mime[0] == 'i';
  }

  /** The two MIME guesses of the plugin agree only on "jpg" and on an empty
      extension: get_mime_from_extension maps video extensions to an empty
      video subtype and drops every other subtype, render_item keeps them. */
  lemma MimeVariantsDisagree(ext: string)
    ensures FP.MimeOfExtension(ext) == "image/" + Subtype(ext) <==> ext == "jpg" || ext == ""
  {
    var line := "image/" + Subtype(ext);
    if FP.IsVideoExtension(ext) {
      assert FP.MimeOfExtension(ext)[0] != line[0];
    } else if ext != "jpg" && ext != "" {
      assert |FP.MimeOfExtension(ext)| != |line|;
    }
  }

  // ------------------------------------------------------------------ item

  /** From `<item>` to the start of the line after the description. */
  function OpeningChunks(post: FP.Post): seq<string> {
    ["\t\t<item>\n\t\t\t<guid>", post.permalink,
     "</guid>\n\t\t\t<title><![CDATA[ ", post.title,
     " ]]></title>\n\t\t\t<link>", post.permalink,
     "</link>\n\t\t\t<description><![CDATA[\n\t\t\t\t", post.content,
     "\t\t\t]]></description>\n\t\t\t"]
  }

  /** The enclosure, only when attachment and MIME are both truthy. The type
      attribute's value is computed but never echoed. */
  function EnclosureChunks(host: Host, attachment: string, mime: string): seq<string> {
    if Truthy(attachment) && Truthy(mime) then
      ["\t\t\t\t<enclosure url=\"", host.escUrl(attachment), "\" type=\"", "\" />\n\t\t\t"]
    else []
  }

  /** When the enclosure is printed, it carries the escaped URL, and nothing is
      printed between the quotes of its type attribute. */
  lemma EnclosureTypeEmpty(host: Host, attachment: string, mime: string)
    ensures var c := EnclosureChunks(host, attachment, mime);
      && |c| == (if Truthy(attachment) && Truthy(mime) then 4 else 0)
      && (|c| == 4 ==> c[1] == host.escUrl(attachment) && c[2] + c[3] == "\" type=\"\" />\n\t\t\t")
  {
  }

  /** The printed enclosure does not depend on the MIME type beyond its truthiness. */
  lemma EnclosureIgnoresMime(host: Host, attachment: string, mime1: string, mime2: string)
    requires Truthy(mime1) == Truthy(mime2)
    ensures EnclosureChunks(host, attachment, mime1) == EnclosureChunks(host, attachment, mime2)
  {
  }

  /** Dates, status and category. */
  function MetaChunks(host: Host, post: FP.Post): seq<string> {
    ["\t\t\t<pubDate>", post.pubDate,
     "</pubDate>\n\t\t\t<oa:lastPubDate>", post.modified,
     "</oa:lastPubDate>\n\t\t\t<oa:pubStatus>", host.escHtml(IntToString(NewsStatus(post.status))),
     "</oa:pubStatus>\n\t\t\t<oa:category>", host.escHtml(IntToString(NewsCategory)),
     "</oa:category>\n\t\t\t"]
  }

  /** One oa:reflink block. */
  function ReflinkChunks(host: Host, link: FP.RelatedLink): (chunks: seq<string>)
    ensures |chunks| == 5
    ensures chunks[1] == host.escXml(link.title) && chunks[3] == host.escUrl(link.url)
  {
    ["\t\t\t\t\t<oa:reflink>\n\t\t\t\t\t\t<oa:refTitle><![CDATA[ ", host.escXml(link.title),
     " ]]> </oa:refTitle>\n\t\t\t\t\t\t<oa:refUrl>", host.escUrl(link.url),
     "</oa:refUrl>\n\t\t\t\t\t</oa:reflink>\n\t\t\t\t\t"]
  }

  /** The reflink blocks of every related link, in order. */
  function ReflinksChunks(host: Host, links: seq<FP.RelatedLink>): seq<string> {
    if |links| == 0 then []
    else ReflinksChunks(host, links[..|links| - 1]) + ReflinkChunks(host, links[|links| - 1])
  }

  /** Every related link yields one reflink block, in input order, with no cap. */
  lemma {:induction false} ReflinksEach(host: Host, links: seq<FP.RelatedLink>)
    ensures |ReflinksChunks(host, links)| == 5 * |links|
    ensures forall k :: 0 <= k < |links| ==>
      ReflinksChunks(host, links)[5 * k..5 * k + 5] == ReflinkChunks(host, links[k])
  {
    if |links| > 0 {
      var n := |links| - 1;
      var init := links[..n];
      ReflinksEach(host, init);
      var prefix := ReflinksChunks(host, init);
      var all := ReflinksChunks(host, links);
      assert all == prefix + ReflinkChunks(host, links[n]);
      forall k | 0 <= k < |links|
        ensures all[5 * k..5 * k + 5] == ReflinkChunks(host, links[k])
      {
        if k < n {
          SliceOfFront(prefix, ReflinkChunks(host, links[n]), 5 * k, 5 * k + 5);
          assert init[k] == links[k];
        } else {
          SliceOfBack(prefix, ReflinkChunks(host, links[n]));
        }
      }
    }
  }

  lemma SliceOfFront(a: seq<string>, b: seq<string>, i: int, j: int)
    requires 0 <= i <= j <= |a|
    ensures (a + b)[i..j] == a[i..j]
  {
  }

  lemma SliceOfBack(a: seq<string>, b: seq<string>)
    ensures (a + b)[|a|..|a| + |b|] == b
  {
  }

  function ClosingChunks(post: FP.Post): seq<string> {
    ["\t\t\t", post.afterItem, "\t\t</item>\n\t\t"]
  }

  /** What render_item prints for the current post. */
  function ItemChunks(host: Host, site: FP.Site, post: FP.Post): seq<string> {
    OpeningChunks(post)
    + EnclosureChunks(host, FP.Attachment(site, post), ImageMime(site, post))
    + MetaChunks(host, post)
    + ReflinksChunks(host, post.related)
    + ClosingChunks(post)
  }

  /** An item opens with `<item>`, closes with `</item>`, and has an enclosure
      exactly when the attachment and its MIME type are truthy. */
  lemma ItemShape(host: Host, site: FP.Site, post: FP.Post)
    ensures var c := ItemChunks(host, site, post);
      && |c| == 9 + (if Truthy(FP.Attachment(site, post)) && Truthy(ImageMime(site, post)) then 4 else 0)
                  + 9 + 5 * |post.related| + 3
      && c[0] == "\t\t<item>\n\t\t\t<guid>"
      && c[|c| - 1] == "\t\t</item>\n\t\t"
  {
    ReflinksEach(host, post.related);
  }

  /** Without a featured image the enclosure appears exactly when the default thumbnail is truthy. */
  lemma DefaultEnclosure(host: Host, site: FP.Site, post: FP.Post)
    requires post.thumbnail.None?
    ensures |EnclosureChunks(host, FP.Attachment(site, post), ImageMime(site, post))|
         == (if Truthy(site.defaultThumbnail) then 4 else 0)
  {
    if Truthy(site.defaultThumbnail) {
      DefaultMimeTruthy(site.defaultThumbnail);
    }
  }

  /** render_item: works out attachment and MIME type, then prints the template. */
  method RenderItem(out: Response, host: Host, site: FP.Site, post: FP.Post)
    modifies out
    ensures out.chunks == old(out.chunks) + ItemChunks(host, site, post)
  {
    var attachment, imgMime := ImageOf(site, post);
    ghost var o := out.chunks;
    ghost var opening, encl, meta := OpeningChunks(post), EnclosureChunks(host, attachment, imgMime), MetaChunks(host, post);
    ghost var refs, closing := ReflinksChunks(host, post.related), ClosingChunks(post);
    Emit(out, OpeningChunks(post));
    EmitEnclosure(out, host, attachment, imgMime);
    AppendAssoc(o, opening, encl);
    Emit(out, MetaChunks(host, post));
    AppendAssoc(o, opening + encl, meta);
    RenderReflinks(out, host, post.related);
    AppendAssoc(o, opening + encl + meta, refs);
    Emit(out, ClosingChunks(post));
    AppendAssoc(o, opening + encl + meta + refs, closing);
  }

  lemma AppendAssoc(a: seq<string>, b: seq<string>, c: seq<string>)
    ensures a + b + c == a + (b + c)
  {
  }

  /** The attachment and MIME type render_item works out, step by step. */
  method ImageOf(site: FP.Site, post: FP.Post) returns (attachment: string, imgMime: string)
    ensures attachment == FP.Attachment(site, post) && imgMime == ImageMime(site, post)
  {
    if post.thumbnail.Some? {
      attachment := post.thumbnail.value.url;
      imgMime := post.thumbnail.value.mime;
    } else {
      attachment := site.defaultThumbnail;
      imgMime := "";
      if Truthy(attachment) {
        var file := Basename(attachment);
        var ext := ToLower(AfterLast(file, '.'));
        assert ext == FP.Extension(attachment);
        if "jpg" == ext {
          ext := "jpeg";
        }
        imgMime := "image/" + ext;
      }
    }
  }

  /** The conditional enclosure of render_item. */
  method EmitEnclosure(out: Response, host: Host, attachment: string, imgMime: string)
    modifies out
    ensures out.chunks == old(out.chunks) + EnclosureChunks(host, attachment, imgMime)
  {
    if Truthy(attachment) && Truthy(imgMime) {
      Emit(out, ["\t\t\t\t<enclosure url=\"", host.escUrl(attachment), "\" type=\"", "\" />\n\t\t\t"]);
    } else {
      assert old(out.chunks) + [] == old(out.chunks);
    }
  }

  /** Prints a run of template text and echoed values, in order. */
  method Emit(out: Response, chunks: seq<string>)
    modifies out
    ensures out.chunks == old(out.chunks) + chunks
  {
    for i := 0 to |chunks|
      invariant out.chunks == old(out.chunks) + chunks[..i]
    {
      assert chunks[..i + 1] == chunks[..i] + [chunks[i]];
      out.Echo(chunks[i]);
    }
    assert chunks[..|chunks|] == chunks;
  }

  /** The related-links loop of render_item. */
  method RenderReflinks(out: Response, host: Host, related: seq<FP.RelatedLink>)
    modifies out
    ensures out.chunks == old(out.chunks) + ReflinksChunks(host, related)
  {
    if |related| > 0 {
      for i := 0 to |related|
        invariant out.chunks == old(out.chunks) + ReflinksChunks(host, related[..i])
      {
        assert related[..i + 1][..i] == related[..i];
        Emit(out, ReflinkChunks(host, related[i]));
      }
      assert related[..|related|] == related;
    }
  }

  // ----------------------------------------------------------- whole feed

  function ItemsChunks(host: Host, site: FP.Site, posts: seq<FP.Post>): (items: seq<seq<string>>)
    ensures |items| == |posts|
  {
    seq(|posts|, i requires 0 <= i < |posts| => ItemChunks(host, site, posts[i]))
  }

  /** render_whole_feed for this feed: `posts` are the posts the loop visits. */
  method RenderWholeFeed(out: Response, host: Host, site: FP.Site, posts: seq<FP.Post>)
    modifies out
    ensures out.chunks == old(out.chunks)
      + PFP.WholeFeed(HeadChunks(host, site), ItemsChunks(host, site, posts), FooterChunks())
  {
    ghost var o := out.chunks;
    ghost var items := ItemsChunks(host, site, posts);
    PFP.XmlHeader(out);
    RenderHead(out, host, site);
    ghost var start := out.chunks;
    RenderItems(out, host, site, posts);
    RenderFooter(out);
    ghost var head := HeadChunks(host, site);
    AppendAssoc(o, [PFP.XmlDeclaration], head);
    AppendAssoc(o, [PFP.XmlDeclaration] + head, PFP.Flatten(items));
    AppendAssoc(o, [PFP.XmlDeclaration] + head + PFP.Flatten(items), FooterChunks());
  }

  /** The `while ( have_posts() )` loop: render_item once per post, in order. */
  method RenderItems(out: Response, host: Host, site: FP.Site, posts: seq<FP.Post>)
    modifies out
    ensures out.chunks == old(out.chunks) + PFP.Flatten(ItemsChunks(host, site, posts))
  {
    ghost var o := out.chunks;
    ghost var items := ItemsChunks(host, site, posts);
    var i := 0;
    while i < |posts|
      invariant 0 <= i <= |posts|
      invariant out.chunks == o + PFP.Flatten(items[..i])
    {
      RenderItem(out, host, site, posts[i]);
      FlattenStep(o, items, i);
      i := i + 1;
    }
    assert items[..i] == items;
  }

  lemma FlattenStep(o: seq<string>, items: seq<seq<string>>, i: int)
    requires 0 <= i < |items|
    ensures o + PFP.Flatten(items[..i]) + items[i] == o + PFP.Flatten(items[..i + 1])
  {
    assert items[..i + 1] == items[..i] + [items[i]];
    PFP.FlattenSnoc(items[..i], items[i]);
    AppendAssoc(o, PFP.Flatten(items[..i]), items[i]);
  }
}
