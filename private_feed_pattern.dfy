/**
  The base class of feeds that print the whole document themselves instead of
  extending WordPress's RSS2 template (PrivateFeedPattern.php): the feed
  type, the `do_feed_<name>` hook, the XML declaration, and the order in
  which render_whole_feed prints declaration, head, items and footer.
 */
module PrivateFeedPattern {
  import opened WordPress
  import FP = FeedPattern

  /** rss_type: what feed_content_type is asked for in the Content-Type header. */
  const RssType := "rss-http"

  const XmlDeclaration := "<?xml version=\"1.0\" encoding=\"UTF-8\"?>\n"

  /** init: the parent's hooks first, then the action that renders this feed. */
  function InitHooks(f: FP.Feed): (hooks: seq<Hook>)
    requires FP.IsPrivate(f)
    ensures |hooks| == |FP.InitHooks(f)| + 1
    ensures hooks[..|FP.InitHooks(f)|] == FP.InitHooks(f)
    ensures hooks[|hooks| - 1].kind == Action
    ensures hooks[|hooks| - 1].tag == "do_feed_" + FP.FeedType(f)
    ensures hooks[|hooks| - 1].callback == "render_whole_feed"
  {
    FP.InitHooks(f) + [ActionHook("do_feed_" + FP.FeedPatternName(f), "render_whole_feed")]
  }

  /** xml_header; the Content-Type header it also sends is not part of the body. */
  method XmlHeader(out: Response)
    modifies out
    ensures out.chunks == old(out.chunks) + [XmlDeclaration]
  {
    out.Echo(XmlDeclaration);
  }

  /** The chunks of several renderings, one after the other. */
  function Flatten(parts: seq<seq<string>>): seq<string> {
    if |parts| == 0 then [] else Flatten(parts[..|parts| - 1]) + parts[|parts| - 1]
  }

  lemma FlattenSnoc(parts: seq<seq<string>>, x: seq<string>)
    ensures Flatten(parts + [x]) == Flatten(parts) + x
  {
    assert (parts + [x])[..|parts|] == parts;
  }

  lemma {:induction false} FlattenAppend(a: seq<seq<string>>, b: seq<seq<string>>)
    ensures Flatten(a + b) == Flatten(a) + Flatten(b)
    decreases |b|
  {
    if |b| == 0 {
      assert a + b == a;
    } else {
      var init := b[..|b| - 1];
      assert a + b == (a + init) + [b[|b| - 1]];
      FlattenSnoc(a + init, b[|b| - 1]);
      FlattenAppend(a, init);
      FlattenSnoc(init, b[|b| - 1]);
      assert init + [b[|b| - 1]] == b;
    }
  }

  /** Each part appears once, whole, between the parts before and after it. */
  lemma FlattenSplit(parts: seq<seq<string>>, k: int)
    requires 0 <= k < |parts|
    ensures Flatten(parts) == Flatten(parts[..k]) + parts[k] + Flatten(parts[k + 1..])
  {
    SplitAt(parts, k);
    FlattenAppend(parts[..k + 1], parts[k + 1..]);
    FlattenSnoc(parts[..k], parts[k]);
  }

  lemma SplitAt(parts: seq<seq<string>>, k: int)
    requires 0 <= k < |parts|
    ensures parts[..k + 1] == parts[..k] + [parts[k]]
    ensures parts == parts[..k + 1] + parts[k + 1..]
  {
  }

  /** What render_whole_feed prints, given what render_head, render_item (once
      per post) and render_footer print. */
  function WholeFeed(head: seq<string>, items: seq<seq<string>>, footer: seq<string>): seq<string> {
    [XmlDeclaration] + head + Flatten(items) + footer
  }

  /** The declaration comes first, then the head, then every item in loop
      order (each exactly once, whole, after the items before it), and the
      footer last. */
  lemma WholeFeedOrder(head: seq<string>, items: seq<seq<string>>, footer: seq<string>, k: int)
    requires 0 <= k < |items|
    ensures WholeFeed(head, items, footer)
         == [XmlDeclaration] + head + Flatten(items[..k]) + items[k] + Flatten(items[k + 1..]) + footer
  {
    FlattenSplit(items, k);
  }
}
