/** The parsed RSS document, seen through the handful of `querySelector`
    lookups the two feed parsers make, and the rules both parsers share for
    turning that document into a feed title, a description and posts.
    An absent field stands for a lookup that found no element; a present one
    holds that element's `textContent`, which may be empty. */
module Xml {
  import opened Common

  const UntitledTitle: string := "Без названия"
  const NoDescription: string := "Без описания"
  const NoLink: string := "#"

  /** One `item` element: its `title`, `link` and `description` children. */
  datatype XmlItem = XmlItem(title: Option<string>, link: Option<string>, description: Option<string>)

  /** What `DOMParser` produced: whether a `parsererror` element is present,
      the `channel > title` and first `title` texts, the `channel > description`
      and first `description` texts, and every `item` in document order. */
  datatype XmlDoc = XmlDoc(
    parseError: bool,
    channelTitle: Option<string>,
    firstTitle: Option<string>,
    channelDescription: Option<string>,
    firstDescription: Option<string>,
    items: seq<XmlItem>)

  datatype Post = Post(id: string, title: string, link: string, description: string)

  /** The feed title: `channel > title`, else the first `title`, else a placeholder. */
  function FeedTitle(doc: XmlDoc): (title: string)
    ensures Truthy(doc.channelTitle) ==> title == doc.channelTitle.value
    ensures !Truthy(doc.channelTitle) && Truthy(doc.firstTitle) ==> title == doc.firstTitle.value
    ensures !Truthy(doc.channelTitle) && !Truthy(doc.firstTitle) ==> title == UntitledTitle
    ensures title != ""
  {
    OrElse(doc.channelTitle, OrElse(doc.firstTitle, UntitledTitle))
  }

  /** The feed description: `channel > description`, else the first `description`, else a placeholder. */
  function FeedDescription(doc: XmlDoc): (description: string)
    ensures Truthy(doc.channelDescription) ==> description == doc.channelDescription.value
    ensures !Truthy(doc.channelDescription) && Truthy(doc.firstDescription) ==> description == doc.firstDescription.value
    ensures !Truthy(doc.channelDescription) && !Truthy(doc.firstDescription) ==> description == NoDescription
    ensures description != ""
  {
    OrElse(doc.channelDescription, OrElse(doc.firstDescription, NoDescription))
  }

  /** The post built for one item, under the given id. A missing or empty
      title, link or description is replaced by its default. */
  function ItemToPost(item: XmlItem, id: string): (post: Post)
    ensures post.id == id
    ensures post.title == (if Truthy(item.title) then item.title.value else UntitledTitle)
    ensures post.link == (if Truthy(item.link) then item.link.value else NoLink)
    ensures post.description == (if Truthy(item.description) then item.description.value else "")
    ensures post.title != "" && post.link != ""
  {
    Post(id, OrElse(item.title, UntitledTitle), OrElse(item.link, NoLink), OrElse(item.description, ""))
  }

  /** Posts whose ids are pairwise distinct. */
  predicate DistinctIds(posts: seq<Post>) {
    forall i, j :: 0 <= i < j < |posts| ==> posts[i].id != posts[j].id
  }

  /** Two post lists that agree item by item on everything but the ids. */
  predicate SameButIds(a: seq<Post>, b: seq<Post>) {
    && |a| == |b|
    && forall i :: 0 <= i < |a| ==> a[i].title == b[i].title && a[i].link == b[i].link && a[i].description == b[i].description
  }
}
