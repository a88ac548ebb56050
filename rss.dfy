/** `loadRssFeed`: fetch a feed through the proxy, check the response, parse
    it and build the feed with url-prefixed post ids. The network is the
    parameter `fetch` (it resolves to a response or rejects with a message),
    `encodeURIComponent` is `encode`, the XML parser is `parse`, and
    `clock(i)` is the value `Date.now()` returns while item `i` is mapped. */
module Rss {
  import opened Common
  import opened Xml
  import RssParser

  const ProxyPrefix: string := "https://allorigins.hexlet.app/get?disableCache=true&url="
  const NoContentMessage: string := "No content received from RSS feed"

  /** The JSON body of the proxy's answer; only `contents` is read. */
  datatype JsonBody = JsonBody(contents: Option<string>)

  /** A resolved `fetch`: `ok`, `status`, and what `response.json()` settles to. */
  datatype FetchResponse = FetchResponse(ok: bool, status: nat, json: Result<JsonBody, string>)

  datatype LoadedFeed = LoadedFeed(url: string, title: string, description: string, posts: seq<Post>)

  function ProxiedUrl(url: string, encode: string -> string): (full: string)
    ensures |full| >= |ProxyPrefix| && full[..|ProxyPrefix|] == ProxyPrefix && full[|ProxyPrefix|..] == encode(url)
  {
    ProxyPrefix + encode(url)
  }

  const HttpErrorPrefix: string := "HTTP error! status: "

  /** The message `HTTP error! status: ${status}`: the fixed text, then the
      status in decimal, so different statuses give different messages. */
  function HttpErrorMessage(status: nat): (m: string)
    ensures |m| > |HttpErrorPrefix| && m[..|HttpErrorPrefix|] == HttpErrorPrefix
    ensures m[|HttpErrorPrefix|..] == NatToString(status)
    ensures forall i :: |HttpErrorPrefix| <= i < |m| ==> IsDigit(m[i])
  {
    HttpErrorPrefix + NatToString(status)
  }

  /** The id `${url}-${index}-${now}` of the post built for item `index`: the
      url, a dash, the digits of the index, a dash, the digits of the
      timestamp; after the url no dash but those two. */
  function PostId(url: string, index: nat, now: nat): (id: string)
    ensures var k := |url| + 1 + |NatToString(index)|;
      && k < |id| && id[..|url|] == url && id[|url|] == '-'
      && id[|url| + 1..k] == NatToString(index) && id[k] == '-' && id[k + 1..] == NatToString(now)
      && (forall i :: |url| <= i < |id| && id[i] == '-' ==> i == |url| || i == k)
  {
    url + "-" + NatToString(index) + "-" + NatToString(now)
  }

  /** For one feed url, an id determines the index and the timestamp it was
      built from, even when the url itself contains dashes. */
  lemma PostIdInjective(url: string, index1: nat, now1: nat, index2: nat, now2: nat)
    requires PostId(url, index1, now1) == PostId(url, index2, now2)
    ensures index1 == index2 && now1 == now2
  {
    var id := PostId(url, index1, now1);
    var k1 := |url| + 1 + |NatToString(index1)|;
    var k2 := |url| + 1 + |NatToString(index2)|;
    assert id[k1] == '-';
    assert k1 == k2;
    NatToStringInjective(index1, index2);
    NatToStringInjective(now1, now2);
  }

  /** One post per item, in document order, with the same defaults as `parseRssContent`. */
  function PostsOf(url: string, items: seq<XmlItem>, clock: nat -> nat): (posts: seq<Post>)
    ensures |posts| == |items|
    ensures forall i :: 0 <= i < |items| ==> posts[i] == ItemToPost(items[i], PostId(url, i, clock(i)))
  {
    seq(|items|, i requires 0 <= i < |items| => ItemToPost(items[i], PostId(url, i, clock(i))))
  }

  /** Within one call the post ids are pairwise distinct. */
  lemma PostIdsDistinct(url: string, items: seq<XmlItem>, clock: nat -> nat)
    ensures DistinctIds(PostsOf(url, items, clock))
  {
    var posts := PostsOf(url, items, clock);
    forall i, j | 0 <= i < j < |posts| ensures posts[i].id != posts[j].id {
      if posts[i].id == posts[j].id {
        PostIdInjective(url, i, clock(i), j, clock(j));
      }
    }
  }

  /** The guards, in order: a rejected fetch, a non-ok status, a rejected
      `json()`, missing or empty `contents`, a `parsererror`. Each error is
      passed on unchanged by the final `catch`. */
  function LoadRssFeed(url: string, fetch: string -> Result<FetchResponse, string>, encode: string -> string,
                       parse: string -> XmlDoc, clock: nat -> nat): (r: Result<LoadedFeed, string>)
    ensures var resp := fetch(ProxiedUrl(url, encode));
      resp.Err? ==> r == Err(resp.error)
    ensures var resp := fetch(ProxiedUrl(url, encode));
      resp.Ok? && !resp.value.ok ==> r == Err(HttpErrorMessage(resp.value.status))
    ensures var resp := fetch(ProxiedUrl(url, encode));
      resp.Ok? && resp.value.ok && resp.value.json.Err? ==> r == Err(resp.value.json.error)
    ensures var resp := fetch(ProxiedUrl(url, encode));
      resp.Ok? && resp.value.ok && resp.value.json.Ok? && !Truthy(resp.value.json.value.contents) ==>
        r == Err(NoContentMessage)
    ensures var resp := fetch(ProxiedUrl(url, encode));
      resp.Ok? && resp.value.ok && resp.value.json.Ok? && Truthy(resp.value.json.value.contents) ==>
        var doc := parse(resp.value.json.value.contents.value);
        && (doc.parseError <==> r.Err?)
        && (doc.parseError ==> r.error == RssParser.RssErrorMessage)
        && (!doc.parseError ==> r == Ok(LoadedFeed(url, FeedTitle(doc), FeedDescription(doc), PostsOf(url, doc.items, clock))))
    ensures r.Ok? ==> r.value.url == url && DistinctIds(r.value.posts)
  {
    match fetch(ProxiedUrl(url, encode))
    case Err(reason) => Err(reason)
    case Ok(response) =>
      if !response.ok then
        Err(HttpErrorMessage(response.status))
      else
        match response.json
        case Err(reason) => Err(reason)
        case Ok(data) =>
          if !Truthy(data.contents) then
            Err(NoContentMessage)
          else
            var doc := parse(data.contents.value);
            if doc.parseError then
              Err(RssParser.RssErrorMessage)
            else
              PostIdsDistinct(url, doc.items, clock);
              Ok(LoadedFeed(url, FeedTitle(doc), FeedDescription(doc), PostsOf(url, doc.items, clock)))
  }

  /** On a document that arrived, `loadRssFeed` and `parseRssContent` agree:
      both reject it for a `parsererror`, or both give the same title, the
      same description and the same posts but for their ids. */
  lemma LoadAgreesWithParseRssContent(url: string, fetch: string -> Result<FetchResponse, string>, encode: string -> string,
                                      parse: string -> XmlDoc, clock: nat -> nat, status: nat, contents: string,
                                      parserClock: nat -> nat)
    requires fetch(ProxiedUrl(url, encode)) == Ok(FetchResponse(true, status, Ok(JsonBody(Some(contents)))))
    requires contents != ""
    ensures var loaded := LoadRssFeed(url, fetch, encode, parse, clock);
      var parsed := RssParser.ParseRssContent(contents, parse, parserClock);
      && (loaded.Err? <==> parsed.Err?)
      && (loaded.Err? ==> loaded.error == parsed.error)
      && (loaded.Ok? ==>
            && loaded.value.title == parsed.value.title
            && loaded.value.description == parsed.value.description
            && SameButIds(loaded.value.posts, parsed.value.posts))
  {
  }
}
