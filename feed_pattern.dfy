/**
  The base class every feed derives from (FeedPattern.php): hijacking the
  main query when `deliver_to` names this feed, the `line` printer, the
  latest post date, generator suppression, the language code and the MIME
  type guessed from a file extension. The concrete feeds are an enumeration,
  and the methods PHP dispatches on `$this` are functions of it.
 */
module FeedPattern {
  import Php
  import opened WordPress

  /** The concrete FeedPattern subclasses. */
  datatype Feed = Gunosy | SmartNews | LineNews

  /** slug: the `deliver_to` value that selects the feed; never falsy. */
  function Slug(f: Feed): (slug: string)
    ensures Php.Truthy(slug)
  {
    match f
    case Gunosy => "gunosy"
    case SmartNews => "smartnews"
    case LineNews => "line"
  }

  /** Distinct feeds have distinct slugs, so a `deliver_to` value selects at
      most one of them. */
  lemma SlugInjective(f: Feed, g: Feed)
    requires Slug(f) == Slug(g)
    ensures f == g
  {
  }

  /** Subclasses of PrivateFeedPattern, which render the whole document themselves. */
  predicate IsPrivate(f: Feed) {
    f.LineNews?
  }

  function FeedPatternName(f: Feed): string
    requires IsPrivate(f)
  {
    "line"
  }

  /** The `feed` query variable: 'rss2', or the pattern name for a private feed. */
  function FeedType(f: Feed): (t: string)
    ensures IsPrivate(f) ==> t == FeedPatternName(f)
    ensures !IsPrivate(f) ==> t == "rss2"
  {
    if IsPrivate(f) then FeedPatternName(f) else "rss2"
  }

  /** The hooks `register_hooks` adds once the feed is selected. */
  function RegisterHooks(f: Feed): (hooks: seq<Hook>)
    ensures |hooks| == (if IsPrivate(f) then 0 else 3)
    ensures forall h :: h in hooks ==> h.kind == Action && h.priority == 10 && h.acceptedArgs == 1
    ensures forall h :: h in hooks ==>
              (h.tag, h.callback) in {("rss2_ns", "add_namespace"), ("rss2_head", "add_rss_head"),
                                      ("rss2_item", "add_rss_items")}
    ensures !IsPrivate(f) ==> {hooks[0].tag, hooks[1].tag, hooks[2].tag} == {"rss2_ns", "rss2_head", "rss2_item"}
  {
    match f
    case Gunosy =>
      [ActionHook("rss2_ns", "add_namespace"), ActionHook("rss2_head", "add_rss_head"),
       ActionHook("rss2_item", "add_rss_items")]
    case SmartNews =>
      [ActionHook("rss2_ns", "add_namespace"), ActionHook("rss2_item", "add_rss_items"),
       ActionHook("rss2_head", "add_rss_head")]
    case LineNews => []
  }

  /** What FeedPattern::init registers. */
  function InitHooks(f: Feed): seq<Hook> {
    [ActionHook("pre_get_posts", "prepare_query")]
  }

  /** Copyright and site icon, hard-wired by SiteInformationHelper. */
  datatype SiteInformation = SiteInformation(copyright: string, siteIcon: string)

  const DefaultSiteInformation := SiteInformation("&copy; 2021 WordPress", "https://example.com")

  /** YahooMediaHelper's namespace declaration. */
  const MediaNamespace := "xmlns:media=\"http://search.yahoo.com/mrss/\""

  /** Per-feed values the host supplies, each already passed through its filter. */
  datatype Site = Site(
    locale: string,           // get_locale()
    rssTitle: string,         // rss_title()
    blogUrl: string,          // get_bloginfo_rss( 'url' )
    rssBlogUrl: string,       // rss_bloginfo( 'url' )
    rssDescription: string,   // rss_bloginfo( 'description' )
    ttl: int,                 // default_ttl()
    defaultThumbnail: string, // get_default_thumbnail()
    wideImage: string,        // Gunosy::get_wide_image()
    info: SiteInformation,
    postDates: seq<string>,   // post_date_gmt of every post in $wp_query->posts
    now: string               // current_time( 'mysql', true )
  )

  /** A post's featured image: attachment URL, its MIME type and its caption. */
  datatype Thumbnail = Thumbnail(url: string, mime: string, caption: string)

  /** One entry of the `paperboy_related_articles` filter. */
  datatype RelatedLink = RelatedLink(title: string, url: string, media: string)

  /** What get_the_tags() returns: false, a WP_Error, or the tags (by name). */
  datatype Tags = NoTags | TagError | TagNames(names: seq<string>)

  /** The current post as the host and the plugin's filters present it. */
  datatype Post = Post(
    thumbnail: Option<Thumbnail>, // None when has_post_thumbnail() is false
    permalink: string,            // the_permalink_rss()
    title: string,                // the_title_rss()
    content: string,              // the_content_feed()
    pubDate: string,              // the_time( RFC822 )
    modified: string,             // the modified date, RFC822
    status: string,               // get_post_status()
    tags: Tags,
    related: seq<RelatedLink>,    // get_related_links()
    mediaStatus: string,          // get_status()
    category: string,             // Gunosy::get_category()
    analytics: string -> string,  // get_analytics( $context )
    ads: string -> string,        // get_ads( $context )
    afterItem: string             // what the paperboy_after_item actions print
  )

  /** The image URL an item uses: the featured image's, else the default thumbnail. */
  function Attachment(site: Site, post: Post): (url: string)
    ensures post.thumbnail.Some? ==> url == post.thumbnail.value.url
    ensures post.thumbnail.None? ==> url == site.defaultThumbnail
  {
    if post.thumbnail.Some? then post.thumbnail.value.url else site.defaultThumbnail
  }

  // ---------------------------------------------------------------- line()

  /** `line` accepts one string or a list: `(array) $lines`. */
  datatype Lines = One(line: string) | Many(lines: seq<string>)

  function AsArray(l: Lines): seq<string> {
    match l
    case One(s) => [s]
    case Many(ss) => ss
  }

  function Tabs(n: int): (r: string)
    ensures |r| == if n <= 0 then 0 else n
    ensures forall i :: 0 <= i < |r| ==> r[i] == '\t'
  {
    if n <= 0 then "" else Tabs(n - 1) + "\t"
  }

  /** The separator between lines: a newline and `tabStop` tabs. */
  function Glue(tabStop: int): string {
    "\n" + Tabs(tabStop)
  }

  /** What `line( $lines, $tab_stop, $before, $after )` echoes, one chunk per echo. */
  function LineOutput(lines: Lines, tabStop: int, before: string, after: string): (chunks: seq<string>)
    ensures AsArray(lines) == [] <==> chunks == []
    ensures AsArray(lines) != [] ==>
      chunks == [before, Php.Implode(AsArray(lines), Glue(tabStop)), after]
    ensures lines.One? ==> chunks == [before, lines.line, after]
  {
    var ls := AsArray(lines);
    if |ls| == 0 then [] else [before, Php.Implode(ls, Glue(tabStop)), after]
  }

  /** Adding a line to a list extends the printed text by the glue and that line. */
  lemma LineOutputSnoc(ls: seq<string>, x: string, tabStop: int, before: string, after: string)
    requires ls != []
    ensures LineOutput(Many(ls + [x]), tabStop, before, after)[1]
         == LineOutput(Many(ls), tabStop, before, after)[1] + "\n" + Tabs(tabStop) + x
  {
    Php.ImplodeSnoc(ls, x, Glue(tabStop));
  }

  method Line(out: Response, lines: Lines, tabStop: int, before: string, after: string)
    modifies out
    ensures out.chunks == old(out.chunks) + LineOutput(lines, tabStop, before, after)
  {
    var ls := AsArray(lines);
    if |ls| == 0 {
      return;
    }
    out.Echo(before);
    var glue := "\n";
    var i := 0;
    while i < tabStop
      invariant (i == 0 && tabStop <= 0) || 0 <= i <= tabStop
      invariant glue == "\n" + Tabs(i)
      decreases tabStop - i
    {
      glue := glue + "\t";
      i := i + 1;
    }
    assert glue == Glue(tabStop);
    out.Echo(Php.Implode(ls, glue));
    out.Echo(after);
  }

  // ------------------------------------------------------- query hijacking

  /** The guard of prepare_query, as written: main query, not admin, and a
      truthy `deliver_to` identical to this feed's slug. */
  predicate Hijacks(isMainQuery: bool, isAdmin: bool, deliverTo: QueryValue, f: Feed) {
    !(!isMainQuery || isAdmin) && !(!QueryTruthy(deliverTo) || Str(Slug(f)) != deliverTo)
  }

  /** Every slug is truthy, so the truthiness test in the guard is subsumed. */
  lemma HijacksIff(isMainQuery: bool, isAdmin: bool, deliverTo: QueryValue, f: Feed)
    ensures Hijacks(isMainQuery, isAdmin, deliverTo, f)
        <==> isMainQuery && !isAdmin && deliverTo == Str(Slug(f))
  {
    assert Php.Truthy(Slug(f)) by {
      assert Slug(f)[0] != '0';
    }
  }

  /** The hooks prepare_query adds for its own feed. */
  function FeedHooks(f: Feed): seq<Hook> {
    RegisterHooks(f)
    + [FilterHook("get_the_generator_" + FeedType(f), "remove_generator"),
       Hook(Filter, "the_content_feed", "convert_feed_content", 10, 2)]
  }

  /** The query variables after modify_query_vars. */
  function ModifiedVars(vars: map<string, QueryValue>, feedType: string, perPage: int)
    : (r: map<string, QueryValue>)
    ensures r.Keys == vars.Keys + {"feed", "posts_per_rss", "posts_per_page"}
    ensures r["feed"] == Str(feedType)
    ensures r["posts_per_rss"] == Int(perPage) && r["posts_per_page"] == Int(perPage)
    ensures forall k :: k in vars && k != "feed" && k != "posts_per_rss" && k != "posts_per_page"
                        ==> r[k] == vars[k]
  {
    vars["feed" := Str(feedType)]["posts_per_rss" := Int(perPage)]["posts_per_page" := Int(perPage)]
  }

  /** `perPage` is what per_page() returns. */
  method ModifyQueryVars(f: Feed, query: WpQuery, perPage: int)
    modifies query
    ensures query.queryVars == ModifiedVars(old(query.queryVars), FeedType(f), perPage)
    ensures query.isMainQuery == old(query.isMainQuery)
  {
    query.Set("feed", Str(FeedType(f)));
    query.Set("posts_per_rss", Int(perPage));
    query.Set("posts_per_page", Int(perPage));
  }

  /** The `pre_get_posts` callback. `isAdmin` is is_admin(); `perPage` is per_page(). */
  method PrepareQuery(f: Feed, query: WpQuery, isAdmin: bool, perPage: int, table: HookTable)
    modifies query, table
    ensures query.isMainQuery == old(query.isMainQuery)
    ensures Hijacks(old(query.isMainQuery), isAdmin, old(query.Get("deliver_to")), f) ==>
              && query.queryVars == ModifiedVars(old(query.queryVars), FeedType(f), perPage)
              && table.hooks == old(table.hooks) + FeedHooks(f)
    ensures !Hijacks(old(query.isMainQuery), isAdmin, old(query.Get("deliver_to")), f) ==>
              && query.queryVars == old(query.queryVars)
              && table.hooks == old(table.hooks)
  {
    if !query.isMainQuery || isAdmin {
      return;
    }
    var deliverTo := query.Get("deliver_to");
    if !QueryTruthy(deliverTo) || Str(Slug(f)) != deliverTo {
      return;
    }
    var registered := RegisterHooks(f);
    var i := 0;
    while i < |registered|
      invariant 0 <= i <= |registered|
      invariant table.hooks == old(table.hooks) + registered[..i]
      invariant query.queryVars == old(query.queryVars) && query.isMainQuery == old(query.isMainQuery)
    {
      table.Add(registered[i]);
      i := i + 1;
    }
    table.Add(FilterHook("get_the_generator_" + FeedType(f), "remove_generator"));
    table.Add(Hook(Filter, "the_content_feed", "convert_feed_content", 10, 2));
    ModifyQueryVars(f, query, perPage);
  }

  // ------------------------------------------------------------ generator

  /** The `get_the_generator_{type}` filter: blank when generation is disallowed. */
  function RemoveGenerator(generator: string, disallowGenerator: bool): (r: string)
    ensures disallowGenerator ==> r == ""
    ensures !disallowGenerator ==> r == generator
  {
    if disallowGenerator then "" else generator
  }

  /** Blanking is idempotent: a generator passed through the filter twice is
      what one pass leaves. */
  lemma RemoveGeneratorIdempotent(generator: string, disallowGenerator: bool)
    ensures RemoveGenerator(RemoveGenerator(generator, disallowGenerator), disallowGenerator)
         == RemoveGenerator(generator, disallowGenerator)
  {
  }

  // ---------------------------------------------------------- latest date

  /** One iteration of the loop in get_latest_gmt_date_in_feed. */
  function LatestStep(latest: string, date: string): string {
    if !Php.Truthy(latest) || Php.StrLess(latest, date) then date else latest
  }

  /** The loop's result after visiting `dates`, starting from ''. */
  function FoldLatest(dates: seq<string>): string {
    if |dates| == 0 then "" else LatestStep(FoldLatest(dates[..|dates| - 1]), dates[|dates| - 1])
  }

  /** get_latest_gmt_date_in_feed with its filter left at its default. */
  function LatestGmtDate(dates: seq<string>, now: string): string {
    if |dates| == 0 then now else FoldLatest(dates)
  }

  lemma {:induction false} FoldLatestIsPosted(dates: seq<string>)
    requires |dates| > 0
    ensures FoldLatest(dates) in dates
  {
    var n := |dates|;
    if n > 1 {
      FoldLatestIsPosted(dates[..n - 1]);
    }
  }

  lemma {:induction false} FoldLatestIsMaximal(dates: seq<string>)
    requires forall i :: 0 <= i < |dates| ==> dates[i] != "0"
    ensures forall i :: 0 <= i < |dates| ==> !Php.StrLess(FoldLatest(dates), dates[i])
  {
    var n := |dates|;
    if n > 0 {
      var prefix := dates[..n - 1];
      var acc := FoldLatest(prefix);
      var d := dates[n - 1];
      FoldLatestIsMaximal(prefix);
      Php.StrLessIrreflexive(d);
      forall i | 0 <= i < n
        ensures !Php.StrLess(FoldLatest(dates), dates[i])
      {
        if i < n - 1 {
          assert dates[i] == prefix[i];
          if FoldLatest(dates) != acc {
            // the loop replaced acc by d, and only because acc < d
            if |prefix| > 0 {
              FoldLatestIsPosted(prefix);
            }
            assert Php.StrLess(acc, d);
            Php.StrLessTotal(acc, dates[i]);
            if Php.StrLess(dates[i], acc) {
              Php.StrLessTransitive(dates[i], acc, d);
            }
            Php.StrLessAsymmetric(dates[i], d);
          }
        }
      }
    }
  }

  /** With posts, the result is one of their dates and (for dates that are
      not the falsy '0') none is later; without posts it is the current time. */
  lemma LatestGmtDateSpec(dates: seq<string>, now: string)
    ensures |dates| == 0 ==> LatestGmtDate(dates, now) == now
    ensures |dates| > 0 ==> LatestGmtDate(dates, now) in dates
    ensures (forall i :: 0 <= i < |dates| ==> dates[i] != "0") ==>
              forall i :: 0 <= i < |dates| ==> !Php.StrLess(LatestGmtDate(dates, now), dates[i])
  {
    if |dates| > 0 {
      FoldLatestIsPosted(dates);
      if forall i :: 0 <= i < |dates| ==> dates[i] != "0" {
        FoldLatestIsMaximal(dates);
      }
    }
  }

  method GetLatestGmtDateInFeed(dates: seq<string>, now: string) returns (latest: string)
    ensures latest == LatestGmtDate(dates, now)
  {
    if |dates| == 0 {
      latest := now;
    } else {
      latest := "";
      for i := 0 to |dates|
        invariant latest == FoldLatest(dates[..i])
      {
        assert dates[..i + 1][..i] == dates[..i];
        if !Php.Truthy(latest) || Php.StrLess(latest, dates[i]) {
          latest := dates[i];
        }
      }
      assert dates[..|dates|] == dates;
    }
  }

  // ---------------------------------------------------- language and MIME

  /** lang_code: the locale up to its first underscore. */
  function LangCode(locale: string): (lang: string)
    ensures '_' !in lang
    ensures |lang| <= |locale| && lang == locale[..|lang|]
    ensures |lang| == |locale| || locale[|lang|] == '_'
  {
    if |locale| == 0 then ""
    else if locale[0] == '_' then ""
    else [locale[0]] + LangCode(locale[1..])
  }

  /** The lower-cased text after the last dot of the URL's basename. */
  function Extension(url: string): (ext: string)
    ensures '.' !in ext && '/' !in ext
  {
    var last := Php.AfterLast(Php.Basename(url), '.');
    LowerNoDotSlash(last);
    Php.ToLower(last)
  }

  /** The extension is the lower-cased text after the last dot of the basename. */
  lemma ExtensionIsLastSuffix(url: string)
    ensures Php.IsLoweredLastPiece(Php.Basename(url), '.', Extension(url))
  {
    Php.LastPieceLowered(Php.Basename(url), '.');
  }

  /** Lower-casing never introduces a dot or a slash. */
  lemma LowerNoDotSlash(s: string)
    requires '.' !in s && '/' !in s
    ensures '.' !in Php.ToLower(s) && '/' !in Php.ToLower(s)
  {
    var r := Php.ToLower(s);
    forall i | 0 <= i < |r|
      ensures r[i] != '.' && r[i] != '/'
    {
      assert r[i] == Php.LowerChar(s[i]);
    }
  }

  predicate IsVideoExtension(ext: string) {
    ext == "mp4" || ext == "mov" || ext == "wav"
  }

  /** get_mime_from_extension as written: `$ext` is assigned only for 'jpg',
      so every other extension prints an empty subtype. */
  function MimeFromExtension(url: string): (mime: string)
    ensures mime == "video/" || mime == "image/" || mime == "image/jpeg"
    ensures mime == "video/" <==> IsVideoExtension(Extension(url))
    ensures mime == "image/jpeg" <==> Extension(url) == "jpg"
  {
    MimeOfExtension(Extension(url))
  }

  function MimeOfExtension(ext: string): (mime: string)
    ensures mime == "video/" || mime == "image/" || mime == "image/jpeg"
    ensures mime == "video/" <==> IsVideoExtension(ext)
    ensures mime == "image/jpeg" <==> ext == "jpg"
  {
    // sprintf( '%s/%s', $type, $ext ) where $ext is unset unless the extension is 'jpg'
    if IsVideoExtension(ext) then "video/"
    else if ext == "jpg" then "image/jpeg"
    else "image/"
  }
}
