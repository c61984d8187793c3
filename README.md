# paperboy, modelled in Dafny

paperboy is a WordPress plugin that serves the site's posts as feeds for
three news aggregators:

- **Gunosy** (NewsPass): the RSS2 template, extended with the `gnf` namespace.
- **SmartNews**: the RSS2 template, extended with the `snf` namespace.
- **LINE News**: a private feed that prints the whole document itself.

A feed is chosen by the `deliver_to` query variable. The model covers the following:

- The base class FeedPattern:
  - the query hijack in `pre_get_posts`;
  - the `line` printer;
  - the latest-post-date fold;
  - generator suppression;
  - the language code;
  - the MIME guess.
- The head and item builders of the three feeds.
- PrivateFeedPattern's whole-document order.
- The Singleton instance registry.
- The RewriteController's query variable.

## How it is modelled

- Everything the plugin calls in WordPress is a parameter:
  - Escaping and date formatting are opaque functions in `WordPress.Host`.
  - Filters are left at their defaults, or their result is a field of `FeedPattern.Site` or `FeedPattern.Post`.
  - `add_action`/`add_filter` append to `WordPress.HookTable`.
  - The query object is the class `WordPress.WpQuery`.
- The response body is `WordPress.Response`. It holds one chunk per `echo` and per literal run of a PHP template.
- PHP's string truthiness is modelled exactly: `""` and `"0"` are false. `Php.Truthy` is this rule.
- Gunosy and SmartNews lines are lists of `Markup.Fragment`:
  - Each fragment renders to exactly the `sprintf` result.
  - Properties are stated per element name with `Markup.Named`.
  - The methods build the strings step by step and are proved equal to the rendered lists.
- The LINE item is a list of chunks, as the template prints them.
- Two places where the code does something other than what its shape suggests are modelled as written:
  - `get_mime_from_extension` assigns `$ext` only for `jpg`, so every other subtype is empty (`FeedPattern.MimeOfExtension`).
  - LINE's enclosure never echoes its `type` value (`LineNews.EnclosureTypeEmpty`).

## Model

| member | source | states |
|---|---|---|
| Php.Implode | src/Tarosky/PaperBoy/Pattern/FeedPattern.php:194 | implode gives "" for no pieces, the piece itself for one, and otherwise every piece plus one glue between neighbours (length) |
| Php.ImplodeSnoc | src/Tarosky/PaperBoy/Pattern/FeedPattern.php:194 | imploding one more piece adds exactly one glue and that piece at the end |
| Php.AfterLast | src/Tarosky/PaperBoy/Pattern/FeedPattern.php:263-264 | the last piece of explode is the longest suffix without the separator, preceded by the separator or starting the string |
| Php.StripTrailingSlashes | src/Tarosky/PaperBoy/Pattern/FeedPattern.php:263 | the path with its trailing slashes dropped is a prefix of it that does not end in a slash |
| Php.StripTrailingSlashesDropsSlashes | src/Tarosky/PaperBoy/Pattern/FeedPattern.php:263 | every character dropped is a slash, so the kept prefix is the longest one not ending in a slash |
| Php.Basename | src/Tarosky/PaperBoy/Pattern/FeedPattern.php:263 | basename's result contains no slash |
| Php.BasenameIsLastComponent | src/Tarosky/PaperBoy/Pattern/FeedPattern.php:263 | basename is the path's last component: it ends where the trailing slashes begin, has no slash, and starts the path or follows a slash |
| Php.ToLower | src/Tarosky/PaperBoy/Pattern/FeedPattern.php:264 | strtolower keeps the length and maps each character on its own: an ASCII capital to its small letter, anything else to itself |
| Php.LastPieceLowered | src/Tarosky/PaperBoy/Pattern/FeedPattern.php:262-264 | the lowered last piece after a separator is the lowered suffix of the same length, which is the whole string or follows the separator |
| Php.StrLessIrreflexive | src/Tarosky/PaperBoy/Pattern/FeedPattern.php:159 | no date string is before itself |
| Php.StrLessTransitive | src/Tarosky/PaperBoy/Pattern/FeedPattern.php:159 | the string order used to compare dates is transitive |
| Php.StrLessTotal | src/Tarosky/PaperBoy/Pattern/FeedPattern.php:159 | any two distinct date strings are ordered one way or the other |
| Php.StrLessAsymmetric | src/Tarosky/PaperBoy/Pattern/FeedPattern.php:159 | two date strings are never each before the other |
| Php.NatToString | src/Tarosky/PaperBoy/Delivery/Gunosy.php:59 | `%d` of a natural number is a non-empty run of decimal digits |
| Php.NatToStringDecodes | src/Tarosky/PaperBoy/Delivery/Gunosy.php:59 | the digits `%d` prints for a natural number read back as that number, and there is no leading zero |
| Php.IntToString | src/Tarosky/PaperBoy/Delivery/Gunosy.php:59 | `%d` of an integer is never empty |
| Php.IntToStringDecodes | src/Tarosky/PaperBoy/Delivery/Gunosy.php:59 | `%d` of an integer starts with a minus sign exactly when it is negative, and the digits read back as its magnitude |
| Php.IntToStringInjective | src/Tarosky/PaperBoy/Delivery/Gunosy.php:59 | different integers print differently |
| WordPress.HookTable.Add | src/Tarosky/PaperBoy/Pattern/FeedPattern.php:17 | add_action/add_filter append exactly one registration |
| WordPress.Response.Echo | src/Tarosky/PaperBoy/Pattern/FeedPattern.php:189 | echo appends exactly one chunk to the body |
| WordPress.WpQuery.Get | src/Tarosky/PaperBoy/Pattern/FeedPattern.php:30 | a query variable's value, or '' when it is unset |
| WordPress.WpQuery.Set | src/Tarosky/PaperBoy/Pattern/FeedPattern.php:58-60 | set changes that one variable and nothing else |
| FeedPattern.Slug | src/Tarosky/PaperBoy/Delivery/Gunosy.php:24-26 | the slug that selects a feed ('gunosy', 'smartnews', 'line') is never falsy |
| FeedPattern.SlugInjective | src/Tarosky/PaperBoy/Pattern/FeedPattern.php:31 | different feeds have different slugs, so one `deliver_to` value selects at most one feed |
| FeedPattern.InitHooks | src/Tarosky/PaperBoy/Pattern/FeedPattern.php:16-18 | init registers the single pre_get_posts action calling prepare_query |
| FeedPattern.RegisterHooks | src/Tarosky/PaperBoy/Delivery/Gunosy.php:31-35 | three actions for an RSS2 feed, one each on rss2_ns, rss2_head and rss2_item with its own callback, at the default priority; none for the private LINE feed |
| FeedPattern.FeedType | src/Tarosky/PaperBoy/Pattern/FeedPattern.php:111-113 | the `feed` query value is 'rss2' for the RSS2 feeds and the pattern name for a private feed |
| FeedPattern.Attachment | src/Tarosky/PaperBoy/Delivery/Gunosy.php:84-94 | the item image is the featured image's URL, else the default thumbnail |
| FeedPattern.Tabs | src/Tarosky/PaperBoy/Pattern/FeedPattern.php:191-192 | the tab run has exactly tab_stop tabs (none for a non-positive stop) |
| FeedPattern.LineOutput | src/Tarosky/PaperBoy/Pattern/FeedPattern.php:184-196 | line prints nothing at all for an empty list, not even before or after; otherwise before, the lines joined by a newline and tab_stop tabs, then after; a single string acts as a one-line list |
| FeedPattern.LineOutputSnoc | src/Tarosky/PaperBoy/Pattern/FeedPattern.php:190-193 | one more line adds a newline, the tabs and that line to the printed text |
| FeedPattern.Line | src/Tarosky/PaperBoy/Pattern/FeedPattern.php:184-196 | the loop that builds the glue and the three echoes append exactly LineOutput to the body |
| FeedPattern.Hijacks | src/Tarosky/PaperBoy/Pattern/FeedPattern.php:26-34 | the two guards of prepare_query, written as the code negates them |
| FeedPattern.FeedHooks | src/Tarosky/PaperBoy/Pattern/FeedPattern.php:36-40 | the feed's own hooks, then the generator filter on get_the_generator_ plus the feed type, then the content filter with priority 10 and two arguments |
| FeedPattern.HijacksIff | src/Tarosky/PaperBoy/Pattern/FeedPattern.php:26-34 | prepare_query acts if and only if the query is main, not admin, and `deliver_to` equals the feed's slug (every slug is truthy) |
| FeedPattern.ModifiedVars | src/Tarosky/PaperBoy/Pattern/FeedPattern.php:57-61 | feed becomes the feed type, posts_per_rss and posts_per_page the same per-page value; every other variable is untouched |
| FeedPattern.ModifyQueryVars | src/Tarosky/PaperBoy/Pattern/FeedPattern.php:57-61 | the three set calls leave exactly ModifiedVars |
| FeedPattern.PrepareQuery | src/Tarosky/PaperBoy/Pattern/FeedPattern.php:25-43 | when it hijacks: the feed's hooks, the generator filter and the content filter are added and the vars modified; otherwise neither query nor hook table changes |
| FeedPattern.RemoveGenerator | src/Tarosky/PaperBoy/Pattern/FeedPattern.php:140-145 | the generator is blanked when disallowed and returned unchanged otherwise |
| FeedPattern.RemoveGeneratorIdempotent | src/Tarosky/PaperBoy/Pattern/FeedPattern.php:140-145 | filtering twice gives what filtering once gives |
| FeedPattern.LatestStep | src/Tarosky/PaperBoy/Pattern/FeedPattern.php:159-161 | one pass of the foreach: take the post's date when the latest so far is falsy or earlier |
| FeedPattern.FoldLatest | src/Tarosky/PaperBoy/Pattern/FeedPattern.php:157-162 | the foreach from '' over the post dates in order |
| FeedPattern.LatestGmtDate | src/Tarosky/PaperBoy/Pattern/FeedPattern.php:152-165 | the current time with no posts, else the foreach's result; the filter stays at its default |
| FeedPattern.FoldLatestIsPosted | src/Tarosky/PaperBoy/Pattern/FeedPattern.php:156-162 | the fold over posts ends on one of the posts' dates |
| FeedPattern.FoldLatestIsMaximal | src/Tarosky/PaperBoy/Pattern/FeedPattern.php:156-162 | for a list in which no date is "0", no date is later than the fold's result |
| FeedPattern.LatestGmtDateSpec | src/Tarosky/PaperBoy/Pattern/FeedPattern.php:152-165 | with no posts the current time; with posts one of their dates, and none later |
| FeedPattern.GetLatestGmtDateInFeed | src/Tarosky/PaperBoy/Pattern/FeedPattern.php:152-165 | the loop computes exactly LatestGmtDate |
| FeedPattern.LangCode | src/Tarosky/PaperBoy/Pattern/FeedPattern.php:242-245 | the locale up to its first underscore, or the whole locale when it has none |
| FeedPattern.Extension | src/Tarosky/PaperBoy/Pattern/FeedPattern.php:263-264 | the extension contains no dot and no slash |
| FeedPattern.ExtensionIsLastSuffix | src/Tarosky/PaperBoy/Pattern/FeedPattern.php:262-264 | the extension is the lower-cased text after the last dot of the URL's basename, or the whole basename when it has no dot |
| FeedPattern.MimeFromExtension | src/Tarosky/PaperBoy/Pattern/FeedPattern.php:262-277 | 'video/' exactly for mp4/mov/wav, 'image/jpeg' exactly for jpg, 'image/' for everything else |
| FeedPattern.MimeOfExtension | src/Tarosky/PaperBoy/Pattern/FeedPattern.php:265-276 | the switch on the lowered extension, with its unset subtype outside jpg |
| Gunosy.AddNamespace | src/Tarosky/PaperBoy/Delivery/Gunosy.php:40-45 | prints the gnf namespace, then the media namespace, at one tab stop |
| Gunosy.Head | src/Tarosky/PaperBoy/Delivery/Gunosy.php:50-76 | the head lines in source order: lastBuildDate, copyright, ttl, image block, wide image, language |
| Gunosy.HeadLayout | src/Tarosky/PaperBoy/Delivery/Gunosy.php:50-76 | lastBuildDate first, language last, and the five-line image block right after copyright and ttl |
| Gunosy.NamedHead | src/Tarosky/PaperBoy/Delivery/Gunosy.php:52-75 | the lines of any one name come from the six head parts in order |
| Gunosy.CopyrightLacks | src/Tarosky/PaperBoy/Delivery/Gunosy.php:55-57 | the copyright part has only copyright lines |
| Gunosy.ImageLacks | src/Tarosky/PaperBoy/Delivery/Gunosy.php:62-68 | the image part has only image, title, url, link and closing image lines |
| Gunosy.WideImageLacks | src/Tarosky/PaperBoy/Delivery/Gunosy.php:71-73 | the wide-image part has only gnf:wide_image_link lines |
| Gunosy.FixedHeadLacks | src/Tarosky/PaperBoy/Delivery/Gunosy.php:52-75 | lastBuildDate, ttl and language contribute nothing to other names |
| Gunosy.HeadTtl | src/Tarosky/PaperBoy/Delivery/Gunosy.php:59 | ttl is printed exactly once, with the TTL |
| Gunosy.HeadCopyright | src/Tarosky/PaperBoy/Delivery/Gunosy.php:54-57 | copyright is printed exactly when the copyright is truthy, escaped |
| Gunosy.HeadImage | src/Tarosky/PaperBoy/Delivery/Gunosy.php:61-68 | the image block is opened exactly when the site icon is truthy, and only once |
| Gunosy.ImageBlockOpensOnce | src/Tarosky/PaperBoy/Delivery/Gunosy.php:63-67 | the image block opens image once |
| Gunosy.HeadWideImage | src/Tarosky/PaperBoy/Delivery/Gunosy.php:70-73 | gnf:wide_image_link is printed exactly when the wide image is truthy |
| Gunosy.DefaultHeadHasCopyrightAndImage | src/Tarosky/PaperBoy/Delivery/Gunosy.php:54-68 | with the hard-wired site information, copyright and image are always printed |
| Gunosy.AddRssHead | src/Tarosky/PaperBoy/Delivery/Gunosy.php:50-77 | prints exactly the rendered Head for the feed's latest date, at one tab stop after a tab |
| Gunosy.HeadLines | src/Tarosky/PaperBoy/Delivery/Gunosy.php:51-75 | the step-by-step line list equals the rendered Head |
| Gunosy.ImageLines | src/Tarosky/PaperBoy/Delivery/Gunosy.php:61-68 | the five image lines, or none |
| Gunosy.EnclosurePart | src/Tarosky/PaperBoy/Delivery/Gunosy.php:84-98 | one enclosure exactly for a truthy attachment; the thumbnail's type and caption, or for the default thumbnail a type from get_mime_from_extension and an empty caption |
| Gunosy.Enclosure | src/Tarosky/PaperBoy/Delivery/Gunosy.php:97 | url, type and caption attributes, in that order, escaped |
| Gunosy.Keywords | src/Tarosky/PaperBoy/Delivery/Gunosy.php:186-195 | the names of the post's tags, none when it has no tags or the lookup failed; the filter stays at its default |
| Gunosy.KeywordPart | src/Tarosky/PaperBoy/Delivery/Gunosy.php:104-107 | only gnf:keyword lines |
| Gunosy.RelatedLine | src/Tarosky/PaperBoy/Delivery/Gunosy.php:118-131 | title and link attributes, and a thumbnail attribute if and only if the media URL is truthy |
| Gunosy.RelatedPart | src/Tarosky/PaperBoy/Delivery/Gunosy.php:114-133 | one line per link |
| Gunosy.AnalyticsFor | src/Tarosky/PaperBoy/Delivery/Gunosy.php:142-146 | one line, named gnf:analytics plus the suffix, exactly when the script is non-empty |
| Gunosy.AnalyticsInFixedOrder | src/Tarosky/PaperBoy/Delivery/Gunosy.php:136-147 | the suffixes '', _gn, _lc and _st are tried in that order |
| Gunosy.AnalyticsNames | src/Tarosky/PaperBoy/Delivery/Gunosy.php:142 | every analytics tag name has 13 or 16 characters |
| Gunosy.ItemHead | src/Tarosky/PaperBoy/Delivery/Gunosy.php:84-109 | enclosure, modified, category, keywords and status, in source order |
| Gunosy.Item | src/Tarosky/PaperBoy/Delivery/Gunosy.php:82-148 | the item head, then the related links shown, then the analytics lines |
| Gunosy.NamedItem | src/Tarosky/PaperBoy/Delivery/Gunosy.php:83-147 | the lines of a name come from head, related links and analytics in order |
| Gunosy.NamedItemHead | src/Tarosky/PaperBoy/Delivery/Gunosy.php:96-109 | the lines of a name come from the five head parts in order |
| Gunosy.EnclosureLacks | src/Tarosky/PaperBoy/Delivery/Gunosy.php:96-98 | the enclosure part has only enclosure lines |
| Gunosy.KeywordLacks | src/Tarosky/PaperBoy/Delivery/Gunosy.php:105-107 | the keyword part has only gnf:keyword lines |
| Gunosy.FixedLacks | src/Tarosky/PaperBoy/Delivery/Gunosy.php:100-109 | modified, category and status lines contribute nothing to other names |
| Gunosy.ItemHeadLacks | src/Tarosky/PaperBoy/Delivery/Gunosy.php:96-109 | head names have 9, 11 or 12 characters |
| Gunosy.RelatedKept | src/Tarosky/PaperBoy/Delivery/Gunosy.php:118-131 | every related line is a gnf:relatedLink |
| Gunosy.RelatedLacks | src/Tarosky/PaperBoy/Delivery/Gunosy.php:118-131 | the related part has only gnf:relatedLink lines |
| Gunosy.AnalyticsLacks | src/Tarosky/PaperBoy/Delivery/Gunosy.php:136-147 | the analytics part has names of 13 or 16 characters only |
| Gunosy.NamedItemInHead | src/Tarosky/PaperBoy/Delivery/Gunosy.php:96-109 | names of 9, 11 or 12 characters come only from the item head |
| Gunosy.RelatedNamed | src/Tarosky/PaperBoy/Delivery/Gunosy.php:111-134 | an item's gnf:relatedLink lines are exactly those of the links shown |
| Gunosy.RelatedLinksCapped | src/Tarosky/PaperBoy/Delivery/Gunosy.php:111-134 | at most three related links are printed: the first three, in input order |
| Gunosy.EnclosureRule | src/Tarosky/PaperBoy/Delivery/Gunosy.php:84-98 | an item's enclosure lines are exactly the enclosure part |
| Gunosy.KeywordRule | src/Tarosky/PaperBoy/Delivery/Gunosy.php:104-107 | the keyword line appears exactly when there are keywords, joined by commas |
| Gunosy.NamedItemFixed | src/Tarosky/PaperBoy/Delivery/Gunosy.php:100-109 | a 12-character name comes only from modified, category and status |
| Gunosy.ModifiedOnce | src/Tarosky/PaperBoy/Delivery/Gunosy.php:100 | every item has exactly one gnf:modified line |
| Gunosy.CategoryOnce | src/Tarosky/PaperBoy/Delivery/Gunosy.php:102 | every item has exactly one gnf:category line |
| Gunosy.StatusOnce | src/Tarosky/PaperBoy/Delivery/Gunosy.php:109 | every item has exactly one media:status line |
| Gunosy.ItemLines | src/Tarosky/PaperBoy/Delivery/Gunosy.php:83-147 | the step-by-step line list equals the rendered Item |
| Gunosy.ItemHeadLines | src/Tarosky/PaperBoy/Delivery/Gunosy.php:96-109 | head lines equal the rendered item head |
| Gunosy.EnclosureLines | src/Tarosky/PaperBoy/Delivery/Gunosy.php:84-98 | the attachment branches yield the rendered enclosure part |
| Gunosy.RelatedLines | src/Tarosky/PaperBoy/Delivery/Gunosy.php:111-134 | the loop with its `2 < $count` break renders exactly the first three links |
| Gunosy.AnalyticsLines | src/Tarosky/PaperBoy/Delivery/Gunosy.php:136-147 | the suffix loop renders exactly the analytics part |
| Gunosy.AddRssItems | src/Tarosky/PaperBoy/Delivery/Gunosy.php:82-150 | prints exactly the rendered Item at two tab stops |
| SmartNews.AddNamespace | src/Tarosky/PaperBoy/Delivery/SmartNews.php:40-45 | prints the media namespace, then the snf namespace, at one tab stop |
| SmartNews.Head | src/Tarosky/PaperBoy/Delivery/SmartNews.php:50-65 | pubDate, copyright, ttl and logo, in source order |
| SmartNews.HeadLayout | src/Tarosky/PaperBoy/Delivery/SmartNews.php:50-65 | pubDate first; copyright only when truthy; ttl always; snf:logo last exactly when the site icon is truthy |
| SmartNews.AddRssHead | src/Tarosky/PaperBoy/Delivery/SmartNews.php:50-66 | prints exactly the rendered Head at one tab stop after a tab |
| SmartNews.HeadLines | src/Tarosky/PaperBoy/Delivery/SmartNews.php:51-64 | the step-by-step line list equals the rendered Head |
| SmartNews.ThumbnailPart | src/Tarosky/PaperBoy/Delivery/SmartNews.php:73-81 | one media:thumbnail line exactly for a truthy attachment |
| SmartNews.RelatedLine | src/Tarosky/PaperBoy/Delivery/SmartNews.php:85-98 | title and link attributes, and a thumbnail attribute if and only if the media URL is truthy |
| SmartNews.RelatedPart | src/Tarosky/PaperBoy/Delivery/SmartNews.php:82-100 | one line per link |
| SmartNews.AdPart | src/Tarosky/PaperBoy/Delivery/SmartNews.php:101-104 | one advertisement line for a truthy ad, else none |
| SmartNews.Item | src/Tarosky/PaperBoy/Delivery/SmartNews.php:71-111 | thumbnail, related links, advertisement, analytics and status, in source order |
| SmartNews.ItemLayout | src/Tarosky/PaperBoy/Delivery/SmartNews.php:71-112 | the thumbnail opens the item when present; every related link follows in input order; media:status active is always last |
| SmartNews.AdBeforeAnalytics | src/Tarosky/PaperBoy/Delivery/SmartNews.php:101-109 | the advertisement comes right before the analytics line |
| SmartNews.NamedItem | src/Tarosky/PaperBoy/Delivery/SmartNews.php:72-111 | the lines of a name come from the five item parts in order |
| SmartNews.ThumbnailLacks | src/Tarosky/PaperBoy/Delivery/SmartNews.php:79-81 | the thumbnail part has only media:thumbnail lines |
| SmartNews.RelatedLacks | src/Tarosky/PaperBoy/Delivery/SmartNews.php:84-99 | the related part has only snf:relatedLink lines |
| SmartNews.AdLacks | src/Tarosky/PaperBoy/Delivery/SmartNews.php:102-104 | the advertisement part has only snf:advertisement lines |
| SmartNews.AnalyticsLacks | src/Tarosky/PaperBoy/Delivery/SmartNews.php:107-109 | the analytics part has only snf:analytics lines |
| SmartNews.StatusLacks | src/Tarosky/PaperBoy/Delivery/SmartNews.php:111 | the status line contributes nothing to other names |
| SmartNews.ThumbnailRule | src/Tarosky/PaperBoy/Delivery/SmartNews.php:73-81 | media:thumbnail appears exactly for a truthy attachment, with its escaped URL |
| SmartNews.RelatedRule | src/Tarosky/PaperBoy/Delivery/SmartNews.php:82-100 | every related link is printed, in order, with no cap |
| SmartNews.AdRule | src/Tarosky/PaperBoy/Delivery/SmartNews.php:101-104 | the advertisement appears exactly when the ad is non-empty |
| SmartNews.AnalyticsRule | src/Tarosky/PaperBoy/Delivery/SmartNews.php:105-109 | the analytics line appears exactly when the script is non-empty |
| SmartNews.StatusOnce | src/Tarosky/PaperBoy/Delivery/SmartNews.php:111 | every item has exactly one media:status line, and it is active |
| SmartNews.AddRssItems | src/Tarosky/PaperBoy/Delivery/SmartNews.php:71-113 | prints exactly the rendered Item at two tab stops |
| SmartNews.ItemLines | src/Tarosky/PaperBoy/Delivery/SmartNews.php:72-111 | the step-by-step line list equals the rendered Item |
| SmartNews.ThumbnailLines | src/Tarosky/PaperBoy/Delivery/SmartNews.php:73-81 | the attachment branches yield the rendered thumbnail part |
| SmartNews.RelatedLines | src/Tarosky/PaperBoy/Delivery/SmartNews.php:82-100 | the loop renders every related link |
| SmartNews.AdLink | src/Tarosky/PaperBoy/Delivery/SmartNews.php:125-142 | title, link and advertiser attributes, and a thumbnail attribute if and only if the media URL is truthy |
| SmartNews.AdScript | src/Tarosky/PaperBoy/Delivery/SmartNews.php:150-157 | the ad script wrapped in its fixed opening and closing markup |
| SmartNews.AnalyticsScript | src/Tarosky/PaperBoy/Delivery/SmartNews.php:165-172 | the script inside a CDATA section in snf:analytics, the same markup as the item's analytics line |
| SmartNews.AdScriptInjective | src/Tarosky/PaperBoy/Delivery/SmartNews.php:150-157 | ad_script keeps the script recoverable: different scripts give different markup |
| SmartNews.AnalyticsScriptInjective | src/Tarosky/PaperBoy/Delivery/SmartNews.php:165-172 | analytics_script keeps the script recoverable |
| PrivateFeedPattern.InitHooks | src/Tarosky/PaperBoy/Pattern/PrivateFeedPattern.php:24-27 | the parent's pre_get_posts hook first, then do_feed_ plus the feed type, calling render_whole_feed |
| PrivateFeedPattern.XmlHeader | src/Tarosky/PaperBoy/Pattern/PrivateFeedPattern.php:83-86 | the body gets exactly the XML declaration and a newline |
| PrivateFeedPattern.Flatten | src/Tarosky/PaperBoy/Pattern/PrivateFeedPattern.php:73-76 | the chunks of each post's rendering, one post after the other |
| PrivateFeedPattern.WholeFeed | src/Tarosky/PaperBoy/Pattern/PrivateFeedPattern.php:70-78 | the declaration, the head, every item, then the footer |
| PrivateFeedPattern.FlattenSnoc | src/Tarosky/PaperBoy/Pattern/PrivateFeedPattern.php:73-76 | one more rendered item adds exactly its chunks at the end |
| PrivateFeedPattern.FlattenAppend | src/Tarosky/PaperBoy/Pattern/PrivateFeedPattern.php:73-76 | rendering two runs of posts is rendering one after the other |
| PrivateFeedPattern.FlattenSplit | src/Tarosky/PaperBoy/Pattern/PrivateFeedPattern.php:73-76 | each item's chunks appear once, whole, between the items before and after it |
| PrivateFeedPattern.WholeFeedOrder | src/Tarosky/PaperBoy/Pattern/PrivateFeedPattern.php:70-78 | declaration, head, then each item exactly once in loop order, then footer |
| LineNews.HeadChunks | src/Tarosky/PaperBoy/Delivery/Line.php:32-41 | the opening rss and channel tags at tab stops 0 and 1, then the channel lines at 2, each through line |
| LineNews.FooterChunks | src/Tarosky/PaperBoy/Delivery/Line.php:46-49 | the closing channel and rss tags at tab stops 1 and 0 |
| LineNews.HeadOpens | src/Tarosky/PaperBoy/Delivery/Line.php:32-41 | render_head opens rss, then channel, then prints the channel lines joined at two tabs |
| LineNews.FooterCloses | src/Tarosky/PaperBoy/Delivery/Line.php:46-49 | render_footer closes channel, then rss, the reverse of the head |
| LineNews.ChannelInfoOrder | src/Tarosky/PaperBoy/Delivery/Line.php:35-40 | title, link, description and language, in that order, with the escaped URL and the language code |
| LineNews.RenderHead | src/Tarosky/PaperBoy/Delivery/Line.php:32-41 | prints exactly HeadChunks |
| LineNews.RenderFooter | src/Tarosky/PaperBoy/Delivery/Line.php:46-49 | prints exactly FooterChunks |
| LineNews.NewsStatus | src/Tarosky/PaperBoy/Delivery/Line.php:117-119 | the default status is 2 if and only if the post is published, otherwise 0 |
| LineNews.Subtype | src/Tarosky/PaperBoy/Delivery/Line.php:64-66 | jpg becomes jpeg; every other extension is kept |
| LineNews.DefaultThumbnailMime | src/Tarosky/PaperBoy/Delivery/Line.php:61-68 | 'image/' followed by the lowered extension's subtype |
| LineNews.ImageMime | src/Tarosky/PaperBoy/Delivery/Line.php:55-69 | the thumbnail's MIME type, else the guess from the default thumbnail, else empty |
| LineNews.DefaultMimeTruthy | src/Tarosky/PaperBoy/Delivery/Line.php:67 | the default-thumbnail guess is never falsy |
| LineNews.MimeVariantsDisagree | src/Tarosky/PaperBoy/Delivery/Line.php:62-67 | get_mime_from_extension and render_item's guess agree if and only if the extension is jpg or empty |
| LineNews.EnclosureTypeEmpty | src/Tarosky/PaperBoy/Delivery/Line.php:78-80 | the enclosure is printed only when attachment and MIME are truthy, with the escaped URL and an empty type value |
| LineNews.EnclosureIgnoresMime | src/Tarosky/PaperBoy/Delivery/Line.php:79 | the printed enclosure depends on the MIME only through its truthiness |
| LineNews.MetaChunks | src/Tarosky/PaperBoy/Delivery/Line.php:81-84 | pubDate, lastPubDate, the escaped status, and the escaped category, which is 3 while its filter stays at its default |
| LineNews.ReflinkChunks | src/Tarosky/PaperBoy/Delivery/Line.php:90-93 | one reflink: the escaped title and the escaped URL |
| LineNews.ReflinksEach | src/Tarosky/PaperBoy/Delivery/Line.php:86-96 | each related link yields one reflink block, in input order, with no cap |
| LineNews.ItemShape | src/Tarosky/PaperBoy/Delivery/Line.php:70-100 | an item opens with item and closes with /item; an enclosure only for truthy attachment and MIME; five chunks per related link |
| LineNews.DefaultEnclosure | src/Tarosky/PaperBoy/Delivery/Line.php:58-80 | without a featured image, the enclosure appears exactly when the default thumbnail is truthy |
| LineNews.ItemChunks | src/Tarosky/PaperBoy/Delivery/Line.php:70-100 | the opening block, the enclosure, the meta lines, every reflink and the closing block, in template order |
| LineNews.RenderItem | src/Tarosky/PaperBoy/Delivery/Line.php:54-101 | prints exactly ItemChunks |
| LineNews.ImageOf | src/Tarosky/PaperBoy/Delivery/Line.php:55-69 | the reassignments yield the attachment and ImageMime |
| LineNews.EmitEnclosure | src/Tarosky/PaperBoy/Delivery/Line.php:78-80 | prints exactly the enclosure chunks |
| LineNews.RenderReflinks | src/Tarosky/PaperBoy/Delivery/Line.php:86-96 | the loop prints every related link's reflink |
| LineNews.ItemsChunks | src/Tarosky/PaperBoy/Pattern/PrivateFeedPattern.php:73-76 | one rendering per post |
| LineNews.RenderWholeFeed | src/Tarosky/PaperBoy/Pattern/PrivateFeedPattern.php:70-78 | prints exactly WholeFeed of LINE's head, one item per post, and footer |
| LineNews.RenderItems | src/Tarosky/PaperBoy/Pattern/PrivateFeedPattern.php:73-76 | the post loop prints each post's item, in order |
| RewriteController.InitHooks | src/Tarosky/PaperBoy/Controller/RewriteController.php:17-19 | one query_vars filter calling add_query_vars |
| RewriteController.AddQueryVars | src/Tarosky/PaperBoy/Controller/RewriteController.php:26-29 | deliver_to appended: one longer, earlier entries kept in order, one more deliver_to even if present, other counts unchanged |
| Singleton.QualifiedNameInjective | src/Tarosky/PaperBoy/Pattern/Singleton.php:35 | different classes have different names |
| Singleton.InitHooks | src/Tarosky/PaperBoy/Pattern/Singleton.php:18-20 | a feed's init starts with FeedPattern's hook and a private feed adds one |
| Singleton.Instance.constructor | src/Tarosky/PaperBoy/Pattern/Singleton.php:18-20 | constructing runs init: the class's hooks are appended |
| Singleton.Registry.constructor | src/Tarosky/PaperBoy/Pattern/Singleton.php:13 | the registry starts empty |
| Singleton.Registry.GetInstance | src/Tarosky/PaperBoy/Pattern/Singleton.php:34-40 | the stored instance when present, with nothing changed; otherwise a fresh one that ran init, stored under the class name, other entries unchanged |
| Singleton.GetInstanceTwice | src/Tarosky/PaperBoy/Pattern/Singleton.php:34-40 | two calls return the same instance, add at most one entry, and only a first call registers hooks |

## Left out

- WordPress itself is not modelled. This covers:
  - filters, which stay at their defaults or are supplied values;
  - the escaping functions and date formatting, which are opaque;
  - post lookup and `the_post`/`have_posts`, whose posts are a parameter;
  - the `header()` call in xml_header, and `feed_content_type`.
- paperboy.php and Bootstrap.php are not part of this model. They are host wiring, so no registry of deliveries is modelled.
- The helpers are not part of this model; their constants are inlined:
  - SiteInformationHelper: copyright and site icon, `FeedPattern.DefaultSiteInformation`;
  - YahooMediaHelper: the media namespace.
- ShortcodeHelper.php is not part of this model. So the `convert_feed_content` filter body is out as well; only its registration is modelled.
- Several values are taken as already computed:
  - `per_page`, `thumbnail_size`, `pagination` and `disallow_generator`;
  - `strip_tags` of the Gunosy thumbnail caption: the caption is taken as already stripped.
- get_mime_from_extension: PHP 8 also raises an "Undefined variable $ext" warning outside jpg before printing the empty subtype. The model keeps the printed value and drops the warning.
- PrivateFeedPattern.RssType is only ever passed to feed_content_type for the Content-Type header, which is not modelled.
- FeedPattern.FoldLatestIsMaximal: compares dates by byte-wise string order. PHP's loose `<` would compare two numeric strings as numbers, which GMT date strings never are.
- Php.Basename: the POSIX behaviour only; locale-dependent multibyte handling is out.
- Php.ToLower: folds ASCII letters only, as `strtolower` does since PHP 8.2.
- Gunosy's `get_keywords` tag lookup keeps only the tag names; the filter on them stays at its default.
