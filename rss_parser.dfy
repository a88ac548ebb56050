/** `parseRssContent`: from the text of an RSS document to a feed title, a
    description and one post per `item`. The XML parser itself is the
    parameter `parse`; `clock(i)` is the value `Date.now()` returns while the
    `i`-th item is mapped. */
module RssParser {
  import opened Common
  import opened Xml

  const RssErrorMessage: string := "rssError"

  datatype ParsedFeed = ParsedFeed(title: string, description: string, posts: seq<Post>)

  /** The id `${now}-${index}` of the post built for item `index`: the digits
      of the timestamp, one dash, the digits of the index, and no other dash. */
  function PostId(now: nat, index: nat): (id: string)
    ensures var t := NatToString(now);
      && |t| < |id| && id[..|t|] == t && id[|t|] == '-' && id[|t| + 1..] == NatToString(index)
      && (forall i :: 0 <= i < |id| && id[i] == '-' ==> i == |t|)
  {
    NatToString(now) + "-" + NatToString(index)
  }

  /** An id determines both the timestamp and the index it was built from. */
  lemma PostIdInjective(now1: nat, index1: nat, now2: nat, index2: nat)
    requires PostId(now1, index1) == PostId(now2, index2)
    ensures now1 == now2 && index1 == index2
  {
    NatToStringNoDash(now1);
    NatToStringNoDash(now2);
    SplitAtDash(NatToString(now1), NatToString(index1), NatToString(now2), NatToString(index2));
    NatToStringInjective(now1, now2);
    NatToStringInjective(index1, index2);
  }

  /** `Array.from(items).map((item, index) => ...)`: one post per item, in order. */
  function PostsOf(items: seq<XmlItem>, clock: nat -> nat): (posts: seq<Post>)
    ensures |posts| == |items|
    ensures forall i :: 0 <= i < |items| ==> posts[i] == ItemToPost(items[i], PostId(clock(i), i))
  {
    seq(|items|, i requires 0 <= i < |items| => ItemToPost(items[i], PostId(clock(i), i)))
  }

  /** Within one call the post ids are pairwise distinct, whatever the clock reads. */
  lemma PostIdsDistinct(items: seq<XmlItem>, clock: nat -> nat)
    ensures DistinctIds(PostsOf(items, clock))
  {
    var posts := PostsOf(items, clock);
    forall i, j | 0 <= i < j < |posts| ensures posts[i].id != posts[j].id {
      if posts[i].id == posts[j].id {
        PostIdInjective(clock(i), i, clock(j), j);
      }
    }
  }

  /** A document with a `parsererror` is rejected with `'rssError'`; any other
      yields the fallback title and description and one post per item. */
  function ParseRssContent(xmlContent: string, parse: string -> XmlDoc, clock: nat -> nat): (r: Result<ParsedFeed, string>)
    ensures r.Err? <==> parse(xmlContent).parseError
    ensures r.Err? ==> r.error == RssErrorMessage
    ensures r.Ok? ==>
      && r.value.title == FeedTitle(parse(xmlContent))
      && r.value.description == FeedDescription(parse(xmlContent))
      && r.value.posts == PostsOf(parse(xmlContent).items, clock)
      && DistinctIds(r.value.posts)
  {
    var doc := parse(xmlContent);
    if doc.parseError then
      Err(RssErrorMessage)
    else
      PostIdsDistinct(doc.items, clock);
      Ok(ParsedFeed(FeedTitle(doc), FeedDescription(doc), PostsOf(doc.items, clock)))
  }
}
